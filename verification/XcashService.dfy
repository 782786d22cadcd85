/** The settlement of a confirmed notice as the service runs it: statement by statement in one transaction, and the
    second transaction that quarantines what cannot be fulfilled. */
module XcashService {
  import opened Results
  import opened Ledger
  import opened Orders
  import opened Xcash
  import M = Mall

  class Service {
    var mall: M.State
    var intents: seq<Intent>
    var receipts: set<(nat, string)>
    var anomalies: seq<AnomalyRow>
    var doomed: set<Notice>
    const policy: Policy

    ghost function State(): Xcash.State
      reads this
    {
      Xcash.State(mall, intents, receipts, anomalies, doomed)
    }

    constructor (s: Xcash.State, policy: Policy)
      ensures State() == s && this.policy == policy
    {
      mall, intents, receipts, anomalies, doomed, this.policy :=
        s.mall, s.intents, s.receipts, s.anomalies, s.doomed, policy;
    }

    /** INSERT ... ON CONFLICT (channel, provider_ref) DO NOTHING. */
    method RecordAnomaly(order: nat, ref: string, reason: Reason)
      modifies this`anomalies
      ensures anomalies == Record(old(anomalies), order, ref, reason)
    {
      if !HasAnomaly(anomalies, ref) {
        anomalies := anomalies + [AnomalyRow(order, Channel.Xcash, ref, reason)];
      }
    }

    method QuarantinePayment(at: nat, n: Notice, reason: Reason)
      requires at < |intents|
      modifies this`anomalies, this`intents
      ensures State() == Quarantine(old(State()), at, n, reason)
    {
      RecordAnomaly(intents[at].order, Ref(n), reason);
      intents := intents[at := intents[at].(status := Anomaly, hash := n.hash, risk := n.risk)];
    }

    /** The last branches of the transaction: a second payment of an order that moved on, or clearing and fulfilment. */
    method SettleOpen(at: nat, n: Notice) returns (failure: Option<Failure>)
      requires at < |intents| && intents[at].order < |mall.deals|
      modifies this`mall, this`intents, this`anomalies
      ensures failure.None? <==> Settle(old(State()), at, n).Success?
      ensures State() == if failure.None? then Settle(old(State()), at, n).value else old(State())
      ensures failure.Some? ==> Settle(old(State()), at, n) == Result.Failure(failure.value)
    {
      var order := intents[at].order;
      failure := None;
      if mall.deals[order].order.typ != WaitPay {
        var matched := Matched(mall.deals[order], Ref(n));
        if !matched {
          RecordAnomaly(order, Ref(n), DuplicatePayment);
        }
        intents := intents[at := intents[at].(status := if matched then IntentCompleted else Anomaly)];
        return;
      }
      var cleared := M.Act(mall, order, PayExternal(Channel.Xcash, Ref(n)));
      if cleared.None? {
        return Some(SettleFailure(mall, order, Ref(n)));
      }
      mall := cleared.value;
      intents := intents[at := intents[at].(status := IntentCompleted, hash := n.hash, risk := n.risk)];
    }

    method ProcessConfirmedEvent(n: Notice, receipt: Option<(nat, string)>) returns (failure: Option<Failure>)
      modifies this
      ensures match Process(old(State()), policy, n, receipt)
              case Success(t) => failure == None && State() == t
              case Failure(f) => failure == Some(f) && State() == old(State())
    {
      var receipts0 := receipts;
      if receipt.Some? {
        if receipt.value in receipts {
          return None;
        }
        receipts := receipts + {receipt.value};
      }
      var at := FindIntent(intents, n.sysNo);
      if at < 0 || intents[at].order >= |mall.deals| {
        receipts := receipts0;
        return Some(Unfulfillable);
      }
      if intents[at].status.Anomaly? {
        return None;
      }
      failure := None;
      var objection := Objection(policy, intents[at], n);
      if intents[at].status.IntentCompleted? {
        var order := intents[at].order;
        if objection.Some? {
          RecordAnomaly(order, Ref(n), objection.value);
          intents := intents[at := intents[at].(status := Anomaly)];
        } else if !Matched(mall.deals[order], Ref(n)) {
          RecordAnomaly(order, Ref(n), DuplicatePayment);
        }
      } else if objection.Some? {
        QuarantinePayment(at, n, objection.value);
      } else if policy.requireAml && !RiskReady(n.risk) {
        intents := intents[at := intents[at].(status := RiskPending, hash := n.hash, risk := n.risk)];
      } else {
        failure := SettleOpen(at, n);
        if failure.Some? {
          receipts := receipts0;
        }
      }
    }

    /** The second transaction, which reads the intent again: another delivery may have finished it meanwhile. */
    method QuarantineUnfulfillable(n: Notice)
      modifies this
      ensures State() == ProcessDoomed(old(State()), n)
    {
      var at := FindIntent(intents, n.sysNo);
      if at < 0 || intents[at].status.Anomaly? || intents[at].status.IntentCompleted? {
        return;
      }
      QuarantinePayment(at, n, FulfillmentFailed);
    }
  }
}

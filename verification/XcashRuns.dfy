/** The main results about Xcash intents, for every sequence of webhook, reconciliation, quarantine and checkout
    steps and every other transaction of the mall in between. */
module XcashRuns {
  import opened Results
  import opened Ledger
  import opened Orders
  import opened Xcash
  import M = Mall

  // ---- What other transactions do to clearing rows ----

  /** A clearing row keeps its channel and reference, and new ones are not Xcash rows. */
  ghost predicate ClearingsKept(from: seq<Deal>, to: seq<Deal>) {
    && |from| <= |to|
    && (forall id :: 0 <= id < |from| ==> KeptClearing(from[id], to[id]))
    && forall id :: |from| <= id < |to| ==> to[id].clearing.None?
  }

  predicate KeptClearing(d: Deal, e: Deal) {
    if d.clearing.Some? then e.clearing.Some? && e.clearing.value.channel == d.clearing.value.channel
      && e.clearing.value.ref == d.clearing.value.ref
    else e.clearing.Some? ==> e.clearing.value.channel != Channel.Xcash
  }

  predicate NotXcash(e: Event) {
    !(e.PayExternal? && e.channel == Channel.Xcash)
  }

  lemma TransactKeepsClearing(d: Deal, e: Event, env: Env)
    requires NotXcash(e) && Transact(d, e, env).Success?
    ensures KeptClearing(d, Transact(d, e, env).value.deal)
  {
  }

  lemma ActKeepsClearings(s: M.State, id: nat, e: Event)
    requires NotXcash(e) && M.Act(s, id, e).Some?
    ensures ClearingsKept(s.deals, M.Act(s, id, e).value.deals) && |M.Act(s, id, e).value.deals| == |s.deals|
  {
    TransactKeepsClearing(s.deals[id], e, M.EnvOf(s, id));
  }

  lemma {:induction false} LoopKeepsClearings(s: M.State, members: seq<M.Member>, e: Event)
    requires NotXcash(e) && M.ActAll(s, members, e).Some?
    ensures ClearingsKept(s.deals, M.ActAll(s, members, e).value.deals)
    ensures |M.ActAll(s, members, e).value.deals| == |s.deals|
  {
    if members != [] {
      var n := |members| - 1;
      LoopKeepsClearings(s, members[..n], e);
      ActKeepsClearings(M.ActAll(s, members[..n], e).value, members[n].order, e);
    }
  }

  lemma MallKeepsClearings(s: M.State, step: M.Step)
    requires step.OnOrder? ==> NotXcash(step.e)
    ensures ClearingsKept(s.deals, M.Apply(s, step).deals)
  {
    match step
    case OnOrder(id, e) =>
      if M.Act(s, id, e).Some? {
        ActKeepsClearings(s, id, e);
      }
    case SucceedGroup(gid) =>
      if M.MarkSuccess(s, gid).Some? {
        LoopKeepsClearings(s, s.groups[gid].members, GroupSell);
      }
    case DissolveGroup(gid, _) =>
      if gid < |s.groups| && M.ActAll(s, s.groups[gid].members, GroupClose).Some? {
        LoopKeepsClearings(s, s.groups[gid].members, GroupClose);
      }
    case ReplayExpired(gid) =>
      if gid < |s.groups| && M.ActAll(s, s.groups[gid].members, GroupRepay).Some? {
        LoopKeepsClearings(s, s.groups[gid].members, GroupRepay);
      }
    case _ =>
  }

  // ---- The invariant ----

  predicate Done(status: IntentStatus) {
    status.IntentCompleted? || status.Anomaly?
  }

  predicate Ids(s: State) {
    && (forall i :: 0 <= i < |s.intents| ==> s.intents[i].order < |s.mall.deals|)
    && forall i, j :: 0 <= i < j < |s.intents| ==>
         s.intents[i].sysNo != s.intents[j].sysNo
         && (s.intents[i].order == s.intents[j].order ==> Apart(s.intents[i].sysNo, s.intents[j].sysNo))
  }

  ghost predicate CarriesClearing(d: Deal, sysNo: string) {
    d.clearing.Some? && d.clearing.value.channel == Channel.Xcash && CarriedBy(d.clearing.value.ref, sysNo)
  }

  /** A completed intent's order is cleared under that intent's invoice. */
  ghost predicate CompletedAreCleared(s: State)
    requires Ids(s)
  {
    forall i :: 0 <= i < |s.intents| && s.intents[i].status.IntentCompleted? ==>
      CarriesClearing(s.mall.deals[s.intents[i].order], s.intents[i].sysNo)
  }

  ghost predicate ClearedBy(s: State, id: nat, i: nat)
    requires id < |s.mall.deals|
  {
    i < |s.intents| && s.intents[i].order == id && Done(s.intents[i].status)
      && CarriesClearing(s.mall.deals[id], s.intents[i].sysNo)
  }

  predicate XcashCleared(d: Deal) {
    d.clearing.Some? && d.clearing.value.channel == Channel.Xcash
  }

  /** An Xcash clearing row belongs to an intent of its order that was completed. */
  ghost predicate ClearedHaveIntents(s: State) {
    forall id :: 0 <= id < |s.mall.deals| && XcashCleared(s.mall.deals[id]) ==> exists i: nat :: ClearedBy(s, id, i)
  }

  ghost predicate Reported(rows: seq<AnomalyRow>, sysNo: string) {
    exists i :: 0 <= i < |rows| && rows[i].channel == Channel.Xcash && CarriedBy(rows[i].ref, sysNo)
  }

  /** A quarantined intent has an anomaly row for the operators. */
  ghost predicate AnomaliesReported(s: State) {
    forall i :: 0 <= i < |s.intents| && s.intents[i].status.Anomaly? ==> Reported(s.anomalies, s.intents[i].sysNo)
  }

  ghost predicate XcashInv(s: State) {
    Ids(s) && CompletedAreCleared(s) && ClearedHaveIntents(s) && AnomaliesReported(s)
  }

  // ---- Restatus and record ----

  lemma RecordReports(rows: seq<AnomalyRow>, order: nat, n: Notice, reason: Reason)
    ensures Reported(Record(rows, order, Ref(n), reason), n.sysNo)
    ensures HasAnomaly(Record(rows, order, Ref(n), reason), Ref(n))
    ensures forall x :: Reported(rows, x) ==> Reported(Record(rows, order, Ref(n), reason), x)
  {
    var later := Record(rows, order, Ref(n), reason);
    RefCarriesItsInvoice(n);
    if !HasAnomaly(rows, Ref(n)) {
      assert later[|rows|].ref == Ref(n);
    }
    var i :| 0 <= i < |later| && later[i].channel == Channel.Xcash && later[i].ref == Ref(n);
    assert CarriedBy(later[i].ref, n.sysNo);
    forall x | Reported(rows, x) ensures Reported(later, x) {
      var k :| 0 <= k < |rows| && rows[k].channel == Channel.Xcash && CarriedBy(rows[k].ref, x);
      assert later[k] == rows[k];
    }
  }

  /** Giving one intent a new status, with the anomaly rows growing as needed. */
  lemma IntentChangeKeepsInv(s: State, t: State, at: nat)
    requires XcashInv(s) && at < |s.intents| && |t.intents| == |s.intents| && t.mall == s.mall
    requires forall k :: 0 <= k < |s.intents| && k != at ==> t.intents[k] == s.intents[k]
    requires t.intents[at].order == s.intents[at].order && t.intents[at].sysNo == s.intents[at].sysNo
    requires Done(s.intents[at].status) ==> Done(t.intents[at].status)
    requires t.intents[at].status.IntentCompleted? ==>
      CarriesClearing(s.mall.deals[s.intents[at].order], s.intents[at].sysNo)
    requires t.intents[at].status.Anomaly? ==> Reported(t.anomalies, s.intents[at].sysNo)
    requires forall x :: Reported(s.anomalies, x) ==> Reported(t.anomalies, x)
    ensures XcashInv(t)
  {
    forall id | 0 <= id < |t.mall.deals| && XcashCleared(t.mall.deals[id])
      ensures exists i: nat :: ClearedBy(t, id, i) {
      var i: nat :| ClearedBy(s, id, i);
      assert ClearedBy(t, id, i);
    }
  }

  /** In a reachable state a notice for an open intent never matches its order's clearing row: the arm that would
      complete the intent without clearing anything is dead. */
  lemma OpenIntentNeverMatches(s: State, n: Notice, at: nat)
    requires XcashInv(s) && at < |s.intents| && s.intents[at].sysNo == n.sysNo && !Done(s.intents[at].status)
    ensures !Matched(s.mall.deals[s.intents[at].order], Ref(n))
  {
    var id := s.intents[at].order;
    if Matched(s.mall.deals[id], Ref(n)) {
      assert XcashCleared(s.mall.deals[id]);
      var i: nat :| ClearedBy(s, id, i);
      RefCarriesItsInvoice(n);
      OneInvoicePerRef(Ref(n), n.sysNo, s.intents[i].sysNo);
    }
  }

  // ---- Settlement ----

  lemma PaymentClears(s: M.State, id: nat, ref: string)
    requires id < |s.deals| && M.Act(s, id, PayExternal(Channel.Xcash, ref)).Some?
    ensures var t := M.Act(s, id, PayExternal(Channel.Xcash, ref)).value;
      && |t.deals| == |s.deals| && t.deals == s.deals[id := t.deals[id]]
      && s.deals[id].clearing.None? && t.deals[id].clearing.Some?
      && t.deals[id].clearing.value.channel == Channel.Xcash && t.deals[id].clearing.value.ref == ref
  {
  }

  lemma ClearingKeepsInv(s: State, at: nat, n: Notice)
    requires XcashInv(s) && at < |s.intents| && s.intents[at].sysNo == n.sysNo && !Done(s.intents[at].status)
    requires M.Act(s.mall, s.intents[at].order, PayExternal(Channel.Xcash, Ref(n))).Some?
    ensures XcashInv(Observe(s, at, IntentCompleted, n).(mall :=
      M.Act(s.mall, s.intents[at].order, PayExternal(Channel.Xcash, Ref(n))).value))
  {
    var id := s.intents[at].order;
    PaymentClears(s.mall, id, Ref(n));
    RefCarriesItsInvoice(n);
    var t := Observe(s, at, IntentCompleted, n).(mall := M.Act(s.mall, id, PayExternal(Channel.Xcash, Ref(n))).value);
    assert ClearedBy(t, id, at);
    forall i | 0 <= i < |t.intents| && t.intents[i].status.IntentCompleted?
      ensures CarriesClearing(t.mall.deals[t.intents[i].order], t.intents[i].sysNo)
    {
      if i != at {
        assert s.intents[i].status.IntentCompleted?;
      }
    }
    forall x | 0 <= x < |t.mall.deals| && XcashCleared(t.mall.deals[x]) ensures exists i: nat :: ClearedBy(t, x, i) {
      if x != id {
        assert XcashCleared(s.mall.deals[x]);
        var i: nat :| ClearedBy(s, x, i);
        assert ClearedBy(t, x, i);
      }
    }
  }

  lemma SettleKeepsInv(s: State, at: nat, n: Notice)
    requires XcashInv(s) && at < |s.intents| && s.intents[at].sysNo == n.sysNo && !Done(s.intents[at].status)
    requires Settle(s, at, n).Success?
    ensures XcashInv(Settle(s, at, n).value)
  {
    var id := s.intents[at].order;
    if s.mall.deals[id].order.typ != WaitPay {
      OpenIntentNeverMatches(s, n, at);
      RecordReports(s.anomalies, id, n, DuplicatePayment);
      IntentChangeKeepsInv(s, Settle(s, at, n).value, at);
    } else {
      ClearingKeepsInv(s, at, n);
    }
  }

  lemma QuarantineKeepsInv(s: State, at: nat, n: Notice, reason: Reason)
    requires XcashInv(s) && at < |s.intents| && s.intents[at].sysNo == n.sysNo
    ensures XcashInv(Quarantine(s, at, n, reason))
  {
    RecordReports(s.anomalies, s.intents[at].order, n, reason);
    IntentChangeKeepsInv(s, Quarantine(s, at, n, reason), at);
  }

  lemma CompletedKeepsInv(s: State, at: nat, n: Notice, objection: Option<Reason>)
    requires XcashInv(s) && at < |s.intents| && s.intents[at].sysNo == n.sysNo && s.intents[at].status.IntentCompleted?
    ensures XcashInv(ProcessCompleted(s, at, n, objection))
  {
    var t := ProcessCompleted(s, at, n, objection);
    RecordReports(s.anomalies, s.intents[at].order, n, if objection.Some? then objection.value else DuplicatePayment);
    IntentChangeKeepsInv(s, t, at);
  }

  lemma ReceiptKeepsInv(s: State, receipts: set<(nat, string)>, doomed: set<Notice>)
    requires XcashInv(s)
    ensures XcashInv(s.(receipts := receipts)) && XcashInv(s.(doomed := doomed))
  {
    forall id | 0 <= id < |s.mall.deals| && XcashCleared(s.mall.deals[id])
      ensures exists i: nat :: ClearedBy(s.(receipts := receipts), id, i)
      ensures exists i: nat :: ClearedBy(s.(doomed := doomed), id, i)
    {
      var i: nat :| ClearedBy(s, id, i);
      assert ClearedBy(s.(receipts := receipts), id, i) && ClearedBy(s.(doomed := doomed), id, i);
    }
  }

  lemma ProcessKeepsInv(s: State, p: Policy, n: Notice, receipt: Option<(nat, string)>)
    requires XcashInv(s) && Process(s, p, n, receipt).Success?
    ensures XcashInv(Process(s, p, n, receipt).value)
  {
    if !(receipt.Some? && receipt.value in s.receipts) {
      var r := if receipt.Some? then s.(receipts := s.receipts + {receipt.value}) else s;
      ReceiptKeepsInv(s, r.receipts, s.doomed);
      AdvanceKeepsInv(r, p, n, FindIntent(r.intents, n.sysNo));
    }
  }

  lemma AdvanceKeepsInv(s: State, p: Policy, n: Notice, at: nat)
    requires XcashInv(s) && at < |s.intents| && s.intents[at].sysNo == n.sysNo
    ensures s.intents[at].status.IntentCompleted? ==>
      XcashInv(ProcessCompleted(s, at, n, Objection(p, s.intents[at], n)))
    ensures !Done(s.intents[at].status) && Objection(p, s.intents[at], n).Some? ==>
      XcashInv(Quarantine(s, at, n, Objection(p, s.intents[at], n).value))
    ensures !Done(s.intents[at].status) ==> XcashInv(Observe(s, at, RiskPending, n))
    ensures !Done(s.intents[at].status) && Settle(s, at, n).Success? ==> XcashInv(Settle(s, at, n).value)
  {
    if s.intents[at].status.IntentCompleted? {
      CompletedKeepsInv(s, at, n, Objection(p, s.intents[at], n));
    } else if !Done(s.intents[at].status) {
      if Objection(p, s.intents[at], n).Some? {
        QuarantineKeepsInv(s, at, n, Objection(p, s.intents[at], n).value);
      }
      IntentChangeKeepsInv(s, Observe(s, at, RiskPending, n), at);
      if Settle(s, at, n).Success? {
        SettleKeepsInv(s, at, n);
      }
    }
  }

  // ---- Every step ----

  lemma MallStepKeepsInv(s: State, m: M.Step)
    requires XcashInv(s) && (m.OnOrder? ==> NotXcash(m.e))
    ensures XcashInv(s.(mall := M.Apply(s.mall, m)))
  {
    MallKeepsClearings(s.mall, m);
    var t := s.(mall := M.Apply(s.mall, m));
    forall i | 0 <= i < |t.intents| && t.intents[i].status.IntentCompleted?
      ensures CarriesClearing(t.mall.deals[t.intents[i].order], t.intents[i].sysNo)
    {
      assert CarriesClearing(s.mall.deals[s.intents[i].order], s.intents[i].sysNo);
      assert KeptClearing(s.mall.deals[s.intents[i].order], t.mall.deals[s.intents[i].order]);
    }
    forall id | 0 <= id < |t.mall.deals| && XcashCleared(t.mall.deals[id])
      ensures exists i: nat :: ClearedBy(t, id, i) {
      assert KeptClearing(s.mall.deals[id], t.mall.deals[id]);
      var i: nat :| ClearedBy(s, id, i);
      assert ClearedBy(t, id, i);
    }
  }

  lemma CheckoutKeepsInv(s: State, i: Intent)
    requires XcashInv(s) && !Done(i.status) && i.order < |s.mall.deals| && ApartIntents(s.intents + [i])
    requires forall k :: 0 <= k < |s.intents| ==> s.intents[k].sysNo != i.sysNo
    ensures XcashInv(s.(intents := s.intents + [i]))
  {
    var t := s.(intents := s.intents + [i]);
    forall k, l | 0 <= k < l < |t.intents| && t.intents[k].order == t.intents[l].order
      ensures Apart(t.intents[k].sysNo, t.intents[l].sysNo)
    {
    }
    forall id | 0 <= id < |t.mall.deals| && XcashCleared(t.mall.deals[id])
      ensures exists k: nat :: ClearedBy(t, id, k) {
      var k: nat :| ClearedBy(s, id, k);
      assert ClearedBy(t, id, k);
    }
  }

  lemma GiveUpKeepsInv(s: State, n: Notice)
    requires XcashInv(s)
    ensures XcashInv(ProcessDoomed(s, n))
  {
    var at := FindIntent(s.intents, n.sysNo);
    if at >= 0 && !Done(s.intents[at].status) {
      QuarantineKeepsInv(s, at, n, FulfillmentFailed);
    }
  }

  /** Intents stay, with their order and number. */
  predicate NumbersKept(from: seq<Intent>, to: seq<Intent>) {
    && |from| <= |to|
    && forall i :: 0 <= i < |from| ==> to[i].order == from[i].order && to[i].sysNo == from[i].sysNo
  }

  lemma SettleKeepsNumbers(s: State, at: nat, n: Notice)
    requires at < |s.intents| && s.intents[at].order < |s.mall.deals| && Settle(s, at, n).Success?
    ensures NumbersKept(s.intents, Settle(s, at, n).value.intents)
  {
  }

  lemma ProcessKeepsNumbers(s: State, p: Policy, n: Notice, receipt: Option<(nat, string)>)
    requires Process(s, p, n, receipt).Success?
    ensures NumbersKept(s.intents, Process(s, p, n, receipt).value.intents)
  {
    if !(receipt.Some? && receipt.value in s.receipts) {
      var r := if receipt.Some? then s.(receipts := s.receipts + {receipt.value}) else s;
      var at := FindIntent(r.intents, n.sysNo);
      if !Done(r.intents[at].status) && Settle(r, at, n).Success? {
        SettleKeepsNumbers(r, at, n);
      }
    }
  }

  lemma StepKeepsNumbers(s: State, p: Policy, step: Step)
    ensures NumbersKept(s.intents, Apply(s, p, step).intents)
  {
    match step
    case Confirmed(n, receipt) =>
      if Process(s, p, n, receipt).Success? {
        ProcessKeepsNumbers(s, p, n, receipt);
      }
    case _ =>
  }

  lemma FewerAreApart(from: seq<Intent>, to: seq<Intent>)
    requires NumbersKept(from, to) && ApartIntents(to)
    ensures ApartIntents(from)
  {
    forall i, j | 0 <= i < j < |from| && from[i].order == from[j].order ensures Apart(from[i].sysNo, from[j].sysNo) {
      assert Apart(to[i].sysNo, to[j].sysNo);
    }
  }

  lemma StepKeepsInv(s: State, p: Policy, step: Step)
    requires XcashInv(s) && ApartIntents(Apply(s, p, step).intents)
    ensures XcashInv(Apply(s, p, step))
  {
    if Enabled(s, step) {
      match step
      case Confirmed(n, receipt) =>
        if Process(s, p, n, receipt).Success? {
          ProcessKeepsInv(s, p, n, receipt);
        } else {
          ReceiptKeepsInv(s, s.receipts, s.doomed + {n});
        }
      case GiveUp(n) =>
        GiveUpKeepsInv(s, n);
        ReceiptKeepsInv(ProcessDoomed(s, n), s.receipts, s.doomed - {n});
      case SyncOpen(at, expired) =>
        if !Done(s.intents[at].status) && !s.intents[at].status.RiskPending? {
          IntentChangeKeepsInv(s, Apply(s, p, step), at);
        }
      case Checkout(order, attempt, outNo, sysNo, amount, currency, expired) =>
        CheckoutKeepsInv(s, Intent(order, attempt, outNo, sysNo, amount, currency,
                                   if expired then IntentExpired else Waiting, "", ""));
      case InMall(m) => MallStepKeepsInv(s, m);
    }
  }

  predicate Start(s: State) {
    s.intents == [] && s.anomalies == [] && s.doomed == {} && s.mall.deals == []
  }

  /** The invariant of every run in which the provider's numbers for invoices of one order are apart. */
  lemma {:induction false} RunKeepsInv(start: State, p: Policy, steps: seq<Step>)
    requires Start(start) && ApartIntents(After(start, p, steps).intents)
    ensures XcashInv(After(start, p, steps))
  {
    if steps != [] {
      var before, step := After(start, p, steps[..|steps| - 1]), steps[|steps| - 1];
      StepKeepsNumbers(before, p, step);
      FewerAreApart(before.intents, Apply(before, p, step).intents);
      RunKeepsInv(start, p, steps[..|steps| - 1]);
      StepKeepsInv(before, p, step);
    }
  }

  // ---- Main results ----

  /** The states of all runs, whatever the policy. */
  ghost predicate Reachable(s: State) {
    exists start, p, steps :: Start(start) && After(start, p, steps) == s
  }

  lemma ReachedIsSound(s: State)
    requires Reachable(s) && ApartIntents(s.intents)
    ensures XcashInv(s)
  {
    var start, p, steps :| Start(start) && After(start, p, steps) == s;
    RunKeepsInv(start, p, steps);
  }

  /** An order has at most one completed intent. */
  lemma AtMostOneCompleted(s: State, i: nat, j: nat)
    requires Reachable(s) && ApartIntents(s.intents) && i < |s.intents| && j < |s.intents|
    requires s.intents[i].order == s.intents[j].order
    requires s.intents[i].status.IntentCompleted? && s.intents[j].status.IntentCompleted?
    ensures i == j
  {
    ReachedIsSound(s);
    var d := s.mall.deals[s.intents[i].order];
    assert CarriesClearing(d, s.intents[i].sysNo) && CarriesClearing(d, s.intents[j].sysNo);
    OneInvoicePerRef(d.clearing.value.ref, s.intents[i].sysNo, s.intents[j].sysNo);
  }

  /** An open intent of an order that waits for payment, an acceptable notice of it, and a payment that goes through. */
  ghost predicate Clears(s: State, p: Policy, n: Notice, i: nat) {
    && i < |s.intents| && s.intents[i].order < |s.mall.deals| && FindIntent(s.intents, n.sysNo) == i
    && !Done(s.intents[i].status) && Acceptable(p, s.intents[i], n)
    && s.mall.deals[s.intents[i].order].order.typ == WaitPay
    && M.Act(s.mall, s.intents[i].order, PayExternal(Channel.Xcash, Ref(n))).Some?
  }

  lemma ClearingCompletes(s: State, p: Policy, n: Notice, i: nat)
    requires Clears(s, p, n, i)
    ensures var m := M.Act(s.mall, s.intents[i].order, PayExternal(Channel.Xcash, Ref(n))).value;
      && Process(s, p, n, None) == Success(Observe(s, i, IntentCompleted, n).(mall := m))
      && s.intents[i].order < |m.deals| && Matched(m.deals[s.intents[i].order], Ref(n))
      && m.deals[s.intents[i].order].order.typ != WaitPay
  {
    PaymentClears(s.mall, s.intents[i].order, Ref(n));
    PaidIsShipped(s.mall, s.intents[i].order, Ref(n));
  }

  lemma MatchingCompletes(s: State, p: Policy, m: Notice, j: nat)
    requires j < |s.intents| && s.intents[j].order < |s.mall.deals| && FindIntent(s.intents, m.sysNo) == j
    requires !Done(s.intents[j].status) && Acceptable(p, s.intents[j], m)
    requires s.mall.deals[s.intents[j].order].order.typ != WaitPay && Matched(s.mall.deals[s.intents[j].order], Ref(m))
    ensures Process(s, p, m, None) == Success(Restatus(s, j, IntentCompleted))
  {
  }

  /** Why they must be apart: two open intents of one order, payments of which can be given one reference. The first
      clears the order; the second is taken for a match and completes its intent too, although the order was cleared
      once. */
  lemma CollidingInvoicesCompleteTwice(s: State, p: Policy, n: Notice, m: Notice, i: nat, j: nat)
    requires Clears(s, p, n, i) && Clears(s, p, m, j) && i != j && s.intents[i].order == s.intents[j].order
    requires Ref(n) == Ref(m)
    ensures Process(s, p, n, None).Success?
    ensures var once := Process(s, p, n, None).value;
      && Process(once, p, m, None) == Success(Restatus(once, j, IntentCompleted))
      && once.intents[i].status.IntentCompleted? && once.intents[j].status == s.intents[j].status
  {
    ClearingCompletes(s, p, n, i);
    var once := Process(s, p, n, None).value;
    SameNumbers(s.intents, once.intents, m.sysNo);
    MatchingCompletes(once, p, m, j);
  }

  lemma PaidIsShipped(s: M.State, id: nat, ref: string)
    requires id < |s.deals| && M.Act(s, id, PayExternal(Channel.Xcash, ref)).Some?
    ensures M.Act(s, id, PayExternal(Channel.Xcash, ref)).value.deals[id].order.typ == WaitShip
  {
  }

  lemma {:induction false} SameNumbers(from: seq<Intent>, to: seq<Intent>, sysNo: string)
    requires |from| == |to| && NumbersKept(from, to)
    ensures FindIntent(to, sysNo) == FindIntent(from, sysNo)
  {
    if from != [] {
      SameNumbers(from[..|from| - 1], to[..|to| - 1], sysNo);
    }
  }

  /** waiting and expired alternate; from there and from risk_pending only onwards; completed only to anomaly; anomaly
      never left. */
  predicate Onward(from: IntentStatus, to: IntentStatus) {
    match from
    case Waiting => true
    case IntentExpired => true
    case RiskPending => to.RiskPending? || Done(to)
    case IntentCompleted => Done(to)
    case Anomaly => to.Anomaly?
  }

  lemma ProcessMovesOnward(s: State, p: Policy, n: Notice, receipt: Option<(nat, string)>, i: nat)
    requires i < |s.intents| && Process(s, p, n, receipt).Success?
    ensures var t := Process(s, p, n, receipt).value;
      |t.intents| == |s.intents| && Onward(s.intents[i].status, t.intents[i].status)
  {
    if !(receipt.Some? && receipt.value in s.receipts) {
      var r := if receipt.Some? then s.(receipts := s.receipts + {receipt.value}) else s;
      var at := FindIntent(r.intents, n.sysNo);
      if !Done(r.intents[at].status) && Settle(r, at, n).Success? {
        SettleMovesOnward(r, n, at, i);
      }
    }
  }

  lemma SettleMovesOnward(s: State, n: Notice, at: nat, i: nat)
    requires at < |s.intents| && i < |s.intents| && s.intents[at].order < |s.mall.deals|
    requires !Done(s.intents[at].status) && Settle(s, at, n).Success?
    ensures |Settle(s, at, n).value.intents| == |s.intents|
    ensures Onward(s.intents[i].status, Settle(s, at, n).value.intents[i].status)
  {
  }

  lemma StepMovesOnward(s: State, p: Policy, step: Step, i: nat)
    requires i < |s.intents|
    ensures i < |Apply(s, p, step).intents|
    ensures Onward(s.intents[i].status, Apply(s, p, step).intents[i].status)
  {
    if step.Confirmed? && Process(s, p, step.n, step.receipt).Success? {
      ProcessMovesOnward(s, p, step.n, step.receipt, i);
    }
  }

  predicate SameMoney(i: Intent, n: Notice) {
    n.amount == i.amount && n.currency == i.currency
  }

  predicate MethodListed(p: Policy, n: Notice) {
    p.methods == map[] || (n.crypto in p.methods && n.chain in p.methods[n.crypto])
  }

  predicate TooRisky(n: Notice) {
    n.risk == "high" || n.risk == "severe"
  }

  predicate NothingFails(p: Policy, i: Intent, n: Notice) {
    n.outNo == i.outNo && n.forced.None? && SameMoney(i, n) && MethodListed(p, n) && !TooRisky(n)
  }

  /** What a notice must show before it may clear an order. */
  predicate Acceptable(p: Policy, i: Intent, n: Notice) {
    NothingFails(p, i, n) && (p.requireAml ==> n.risk == "low" || n.risk == "moderate")
  }

  /** A notice clears its order exactly if its intent is still open, the payment is acceptable, the order waits for
      payment and its transaction goes through; nothing else touches the mall. */
  lemma ClearsIff(s: State, p: Policy, n: Notice)
    ensures var at := FindIntent(s.intents, n.sysNo); var r := Process(s, p, n, None);
      (r.Success? && r.value.mall != s.mall) <==>
        (at >= 0 && !Done(s.intents[at].status) && Acceptable(p, s.intents[at], n)
         && s.intents[at].order < |s.mall.deals| && s.mall.deals[s.intents[at].order].order.typ == WaitPay
         && M.Act(s.mall, s.intents[at].order, PayExternal(Channel.Xcash, Ref(n))).Some?)
  {
  }

  /** A confirmed payment is never lost: once its notice is processed the order is cleared under its reference, or an
      anomaly row carries it, or its intent waits for the risk result, or was quarantined before. */
  lemma PaymentIsAccountedFor(s: State, p: Policy, n: Notice)
    requires Reachable(s) && ApartIntents(s.intents) && Process(s, p, n, None).Success?
    ensures var t := Process(s, p, n, None).value; var at := FindIntent(s.intents, n.sysNo);
      && at >= 0
      && (Matched(t.mall.deals[t.intents[at].order], Ref(n)) || HasAnomaly(t.anomalies, Ref(n))
          || t.intents[at].status.RiskPending? || s.intents[at].status.Anomaly?)
  {
    ReachedIsSound(s);
    var at := FindIntent(s.intents, n.sysNo);
    var id := s.intents[at].order;
    if !Done(s.intents[at].status) && M.Act(s.mall, id, PayExternal(Channel.Xcash, Ref(n))).Some? {
      PaymentClears(s.mall, id, Ref(n));
    }
    AnyReasonReports(s, id, n);
  }

  lemma AnyReasonReports(s: State, id: nat, n: Notice)
    ensures forall reason :: HasAnomaly(Record(s.anomalies, id, Ref(n), reason), Ref(n))
  {
    forall reason ensures HasAnomaly(Record(s.anomalies, id, Ref(n), reason), Ref(n)) {
      RecordReports(s.anomalies, id, n, reason);
    }
  }
}

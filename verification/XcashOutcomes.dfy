/** What becomes of every confirmed Xcash notice, decided by the fields of the notice, its intent and its order. */
module XcashOutcomes {
  import opened Results
  import opened Ledger
  import opened Orders
  import opened Xcash
  import opened XcashRuns
  import M = Mall
  import T = MallTheorems

  // ---- The checks, field by field ----

  /** The first check that fails, in their order: the merchant's number, what the provider's data already showed, the
      money, the method, the risk. */
  predicate FailsFirst(p: Policy, i: Intent, n: Notice, reason: Reason) {
    if n.outNo != i.outNo then reason == DetailsMismatch
    else if n.forced.Some? then reason == n.forced.value
    else if !SameMoney(i, n) then reason == AmountMismatch
    else if !MethodListed(p, n) then reason == DetailsMismatch
    else TooRisky(n) && reason == HighRisk
  }

  /** The anomaly row of the payment: a new one, unless its reference has one already. */
  ghost predicate RowAdded(rows: seq<AnomalyRow>, later: seq<AnomalyRow>, order: nat, n: Notice, reason: Reason) {
    later == if (exists k :: 0 <= k < |rows| && rows[k].channel == Channel.Xcash && rows[k].ref == Ref(n)) then rows
             else rows + [AnomalyRow(order, Channel.Xcash, Ref(n), reason)]
  }

  /** Only this intent changes, and anomaly rows. */
  ghost predicate IntentBecomes(s: State, t: State, at: nat, i: Intent)
    requires at < |s.intents|
  {
    t == s.(intents := s.intents[at := i], anomalies := t.anomalies)
  }

  ghost predicate Known(s: State, n: Notice, at: nat) {
    && at < |s.intents| && s.intents[at].sysNo == n.sysNo && s.intents[at].order < |s.mall.deals|
    && forall k :: 0 <= k < |s.intents| && s.intents[k].sysNo == n.sysNo ==> k == at
  }

  lemma KnownIsFound(s: State, n: Notice, at: nat)
    requires Known(s, n, at)
    ensures FindIntent(s.intents, n.sysNo) == at
  {
  }

  // ---- Open intents ----

  /** A payment that fails a check quarantines its open intent, with a row for the operators under its reference whose
      reason is the first check that failed; nothing is cleared. */
  lemma FailedCheckQuarantines(s: State, p: Policy, n: Notice, at: nat, reason: Reason)
    requires Known(s, n, at) && !Done(s.intents[at].status) && FailsFirst(p, s.intents[at], n, reason)
    ensures var r := Process(s, p, n, None);
      && r.Success?
      && IntentBecomes(s, r.value, at, s.intents[at].(status := Anomaly, hash := n.hash, risk := n.risk))
      && RowAdded(s.anomalies, r.value.anomalies, s.intents[at].order, n, reason)
  {
    KnownIsFound(s, n, at);
  }

  lemma SomeCheckFails(p: Policy, i: Intent, n: Notice)
    ensures NothingFails(p, i, n) <==> forall reason :: !FailsFirst(p, i, n, reason)
  {
    if !NothingFails(p, i, n) {
      var reason := if n.outNo != i.outNo then DetailsMismatch else if n.forced.Some? then n.forced.value
                    else if !SameMoney(i, n) then AmountMismatch else if !MethodListed(p, n) then DetailsMismatch
                    else HighRisk;
      assert FailsFirst(p, i, n, reason);
    }
  }

  /** An open intent waits for the risk result exactly if nothing fails, the policy asks for a level, and the level is
      neither low nor moderate; nothing else changes then. */
  lemma RiskPendingIff(s: State, p: Policy, n: Notice, at: nat)
    requires Known(s, n, at) && !Done(s.intents[at].status)
    ensures var r := Process(s, p, n, None); var i := s.intents[at];
      && (r.Success? && at < |r.value.intents| && r.value.intents[at].status.RiskPending? <==>
            NothingFails(p, i, n) && p.requireAml && n.risk != "low" && n.risk != "moderate")
      && (NothingFails(p, i, n) && p.requireAml && n.risk != "low" && n.risk != "moderate" ==>
            && r.value.anomalies == s.anomalies
            && IntentBecomes(s, r.value, at, i.(status := RiskPending, hash := n.hash, risk := n.risk)))
  {
    KnownIsFound(s, n, at);
  }

  ghost predicate MayClear(s: State, p: Policy, n: Notice, at: nat) {
    Known(s, n, at) && !Done(s.intents[at].status) && Acceptable(p, s.intents[at], n)
  }

  /** An acceptable payment of an order that waits for one clears it and completes the intent, or the transaction fails
      and changes nothing; of an order that moved on it is a second payment, and the intent is quarantined. */
  lemma AcceptablePaymentDecides(s: State, p: Policy, n: Notice, at: nat)
    requires MayClear(s, p, n, at) && Reachable(s) && ApartIntents(s.intents)
    ensures var r := Process(s, p, n, None); var i := s.intents[at];
      var paid := M.Act(s.mall, i.order, PayExternal(Channel.Xcash, Ref(n)));
      && (s.mall.deals[i.order].order.typ == WaitPay && paid.Some? ==>
            r == Success(s.(mall := paid.value, intents := s.intents[at :=
              i.(status := IntentCompleted, hash := n.hash, risk := n.risk)])))
      && (s.mall.deals[i.order].order.typ == WaitPay && paid.None? ==> r.Failure?)
      && (s.mall.deals[i.order].order.typ != WaitPay ==>
            && r.Success? && IntentBecomes(s, r.value, at, i.(status := Anomaly))
            && RowAdded(s.anomalies, r.value.anomalies, i.order, n, DuplicatePayment))
  {
    KnownIsFound(s, n, at);
    ReachedIsSound(s);
    OpenIntentNeverMatches(s, n, at);
  }

  // ---- Failures ----

  /** The clearing row and its two ledger rows can be written for the order. */
  ghost predicate Clearable(m: M.State, order: nat, price: int)
    requires order < |m.deals|
  {
    var o := m.deals[order].order;
    && o.buyer != 0 && o.seller != 0 && o.num > 0 && price >= 0 && m.deals[order].clearing.None?
    && forall dir :: !HasRow(m.books.rows, order, dir, OrderClear)
  }

  /** A payment whose transaction fails is given up, and quarantined, exactly if its clearing could be written, so that
      the failure is in stock, state or buyer and will not go away; otherwise it is tried again. */
  lemma FailureIsFinalIff(s: State, p: Policy, n: Notice, at: nat, price: int)
    requires MayClear(s, p, n, at) && T.CostsExactly(s.mall.deals[s.intents[at].order].order, price)
    requires Process(s, p, n, None).Failure?
    ensures Process(s, p, n, None).error.Unfulfillable? <==> Clearable(s.mall, s.intents[at].order, price)
  {
    KnownIsFound(s, n, at);
    var order := s.intents[at].order;
    if price >= 0 {
      MoveGoesThroughIff(s.mall.books, ExternalClearing, Debit, MerchantEscrow, price, order, OrderClear);
    }
  }

  /** The second transaction quarantines the intent as unfulfillable, unless it was finished meanwhile. */
  lemma GivingUpQuarantines(s: State, n: Notice, at: nat)
    requires Known(s, n, at)
    ensures Done(s.intents[at].status) ==> ProcessDoomed(s, n) == s
    ensures !Done(s.intents[at].status) ==>
      && IntentBecomes(s, ProcessDoomed(s, n), at, s.intents[at].(status := Anomaly, hash := n.hash, risk := n.risk))
      && RowAdded(s.anomalies, ProcessDoomed(s, n).anomalies, s.intents[at].order, n, FulfillmentFailed)
  {
    KnownIsFound(s, n, at);
  }

  // ---- Finished intents, unknown invoices, replays ----

  /** A quarantined intent stays as it is. A completed one becomes an anomaly on a failed check; otherwise the notice is
      a replay of the payment that cleared the order, or a second payment, which gets a row. */
  lemma FinishedIntentDecides(s: State, p: Policy, n: Notice, at: nat, reason: Reason)
    requires Known(s, n, at) && Done(s.intents[at].status)
    ensures var r := Process(s, p, n, None); var i := s.intents[at]; var c := s.mall.deals[i.order].clearing;
      && r.Success?
      && (i.status.Anomaly? ==> r.value == s)
      && (i.status.IntentCompleted? && FailsFirst(p, i, n, reason) ==>
            && IntentBecomes(s, r.value, at, i.(status := Anomaly))
            && RowAdded(s.anomalies, r.value.anomalies, i.order, n, reason))
      && (i.status.IntentCompleted? && NothingFails(p, i, n) ==>
            && IntentBecomes(s, r.value, at, i)
            && if c.Some? && c.value.channel == Channel.Xcash && c.value.ref == Ref(n)
               then r.value.anomalies == s.anomalies
               else RowAdded(s.anomalies, r.value.anomalies, i.order, n, DuplicatePayment))
  {
    KnownIsFound(s, n, at);
    assert s.intents[at := s.intents[at]] == s.intents;
  }

  /** A webhook whose receipt is there changes nothing; a new one is processed like any notice, its receipt kept exactly
      if the transaction commits. An unknown invoice fails for good. */
  lemma ReceiptDecides(s: State, p: Policy, n: Notice, receipt: (nat, string))
    ensures receipt in s.receipts ==> Process(s, p, n, Some(receipt)) == Success(s)
    ensures receipt !in s.receipts ==>
      match Process(s, p, n, None)
      case Success(t) => Process(s, p, n, Some(receipt)) == Success(t.(receipts := s.receipts + {receipt}))
      case Failure(f) => Process(s, p, n, Some(receipt)) == Result.Failure(f)
    ensures (forall k :: 0 <= k < |s.intents| ==> s.intents[k].sysNo != n.sysNo) ==>
      Process(s, p, n, None) == Result.Failure(Unfulfillable)
  {
    var s1 := s.(receipts := s.receipts + {receipt});
    assert s1.intents == s.intents && s1.mall == s.mall && s1.anomalies == s.anomalies;
  }

  /** A confirmed payment is never lost and never parked without cause: once its notice is processed the order is
      cleared under its reference, or an anomaly row carries it, or its intent was quarantined before, or nothing
      failed and the level the policy asks for is still to come. */
  lemma PaymentIsSettledOrReported(s: State, p: Policy, n: Notice)
    requires Reachable(s) && ApartIntents(s.intents) && Process(s, p, n, None).Success?
    ensures var t := Process(s, p, n, None).value; var at := FindIntent(s.intents, n.sysNo);
      && at >= 0
      && (Matched(t.mall.deals[t.intents[at].order], Ref(n)) || HasAnomaly(t.anomalies, Ref(n))
          || s.intents[at].status.Anomaly?
          || (t.intents[at].status.RiskPending? && NothingFails(p, s.intents[at], n) && p.requireAml
              && n.risk != "low" && n.risk != "moderate"))
  {
    PaymentIsAccountedFor(s, p, n);
  }

  // ---- Checkout and polling ----

  /** An intent is opened exactly for an existing order and a positive amount, if no intent has its order and attempt,
      its merchant number or its invoice number. */
  lemma CheckoutOpensIff(s: State, p: Policy, order: nat, attempt: nat, outNo: string, sysNo: string, amount: int,
                         currency: string, expired: bool)
    ensures var t := Apply(s, p, Checkout(order, attempt, outNo, sysNo, amount, currency, expired));
      if order < |s.mall.deals| && amount > 0
         && forall i :: 0 <= i < |s.intents| ==>
              && (s.intents[i].order != order || s.intents[i].attempt != attempt)
              && s.intents[i].outNo != outNo && s.intents[i].sysNo != sysNo
      then t == s.(intents := s.intents + [Intent(order, attempt, outNo, sysNo, amount, currency,
                                                  if expired then IntentExpired else Waiting, "", "")])
      else t == s
  {
  }

  /** Polling only turns an intent between waiting and expired. */
  lemma PollingDecides(s: State, p: Policy, at: nat, expired: bool)
    requires at < |s.intents|
    ensures var i := s.intents[at]; var t := Apply(s, p, SyncOpen(at, expired));
      && t == s.(intents := t.intents)
      && t.intents == if i.status.Waiting? || i.status.IntentExpired?
                      then s.intents[at := i.(status := if expired then IntentExpired else Waiting)] else s.intents
  {
  }
}

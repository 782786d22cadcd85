/** Xcash payments: intents, confirmed notices from the webhook and from reconciliation, quarantine, and the orders they
    clear, over the mall's own order transactions. */
module Xcash {
  import opened Results
  import opened Ledger
  import opened Orders
  import M = Mall

  datatype IntentStatus = Waiting | IntentExpired | RiskPending | IntentCompleted | Anomaly

  datatype Intent = Intent(order: nat, attempt: nat, outNo: string, sysNo: string, amount: int, currency: string,
                           status: IntentStatus, hash: string, risk: string)

  datatype Reason = DuplicatePayment | AmountMismatch | DetailsMismatch | HighRisk | FulfillmentFailed

  /** An anomaly row; the index on (channel, ref) is unique and a second insert is ignored. */
  datatype AnomalyRow = AnomalyRow(order: nat, channel: Channel, ref: string, reason: Reason)

  /** A confirmed payment, after the webhook's fields were merged with the queried invoice. */
  datatype Notice = Notice(sysNo: string, outNo: string, chain: string, crypto: string, hash: string, amount: int,
                           currency: string, risk: string, forced: Option<Reason>)

  datatype Policy = Policy(methods: map<string, set<string>>, requireAml: bool)

  /** `doomed`: notices whose settlement was rolled back as unfulfillable and whose quarantine is still to come. */
  datatype State = State(mall: M.State, intents: seq<Intent>, receipts: set<(nat, string)>, anomalies: seq<AnomalyRow>,
                         doomed: set<Notice>)

  // ---- Risk ----

  /** Levels are lower-cased and trimmed before they are ranked. */
  function RiskRank(level: string): nat {
    if level == "severe" then 5
    else if level == "high" then 4
    else if level == "moderate" then 2
    else if level == "low" then 1
    else if level == "" then 0
    else 3
  }

  predicate IsHighRisk(level: string) {
    level == "high" || level == "severe"
  }

  predicate RiskReady(level: string) {
    level == "low" || level == "moderate"
  }

  /** Level and score of the stricter of the signed and the queried snapshot. */
  function Stricter(level: string, score: string, queried: string, queriedScore: string): (string, string) {
    if level == "" then (queried, queriedScore)
    else if queried == "" then (level, score)
    else if RiskRank(queried) > RiskRank(level) then (queried, queriedScore)
    else if RiskRank(queried) == RiskRank(level) && queried == level && score == "" then (queried, queriedScore)
    else (level, score)
  }

  /** Merging never lowers the rank: it is the maximum of both sources, so one high source blocks settlement and
      both must be ready or silent for the merged level to be ready. */
  lemma StricterIsTheMaximum(level: string, score: string, queried: string, queriedScore: string)
    ensures var (l, sc) := Stricter(level, score, queried, queriedScore);
      && RiskRank(l) == (if RiskRank(level) >= RiskRank(queried) then RiskRank(level) else RiskRank(queried))
      && ((l, sc) == (level, score) || (l, sc) == (queried, queriedScore))
      && (IsHighRisk(l) <==> IsHighRisk(level) || IsHighRisk(queried))
      && (RiskReady(l) ==> (RiskReady(level) || level == "") && (RiskReady(queried) || queried == ""))
      && (RiskRank(level) > RiskRank(queried) ==> (l, sc) == (level, score))
      && (RiskRank(queried) > RiskRank(level) ==> (l, sc) == (queried, queriedScore))
      && (level == queried ==> sc == if score == "" || level == "" then queriedScore else score)
  {
  }

  // ---- References ----

  function Ref(n: Notice): string {
    n.sysNo + ":" + n.chain + ":" + n.hash
  }

  ghost predicate CarriedBy(ref: string, sysNo: string) {
    exists rest: string :: ref == sysNo + ":" + rest
  }

  lemma RefCarriesItsInvoice(n: Notice)
    ensures CarriedBy(Ref(n), n.sysNo)
  {
    assert Ref(n) == n.sysNo + ":" + (n.chain + ":" + n.hash);
  }

  /** Neither invoice number is the other, nor begins with the other and a colon. */
  predicate Apart(x: string, y: string) {
    x != y && !(x + ":" <= y) && !(y + ":" <= x)
  }

  lemma CarriedPrefix(ref: string, x: string, y: string)
    requires CarriedBy(ref, x) && CarriedBy(ref, y) && |x| < |y|
    ensures x + ":" <= y
  {
    var rest: string :| ref == x + ":" + rest;
    var other: string :| ref == y + ":" + other;
    assert (x + ":")[..] == ref[..|x| + 1] && y == ref[..|y|];
  }

  /** A reference belongs to one invoice among numbers that are apart. */
  lemma OneInvoicePerRef(ref: string, x: string, y: string)
    requires CarriedBy(ref, x) && CarriedBy(ref, y) && (x == y || Apart(x, y))
    ensures x == y
  {
    if |x| < |y| {
      CarriedPrefix(ref, x, y);
    } else if |y| < |x| {
      CarriedPrefix(ref, y, x);
    } else {
      var rest: string :| ref == x + ":" + rest;
      var other: string :| ref == y + ":" + other;
      assert x == ref[..|x|] && y == ref[..|y|];
    }
  }

  predicate Collide(n: Notice, m: Notice) {
    Ref(n) == Ref(m)
  }

  /** Payments of two invoices can be given one and the same reference exactly if their numbers are not apart. */
  lemma RefsCollideIff(x: string, y: string)
    ensures (exists n: Notice, m: Notice :: n.sysNo == x && m.sysNo == y && Collide(n, m)) <==> !Apart(x, y)
  {
    if n: Notice, m: Notice :| n.sysNo == x && m.sysNo == y && Collide(n, m) {
      RefCarriesItsInvoice(n);
      RefCarriesItsInvoice(m);
      if Apart(x, y) {
        OneInvoicePerRef(Ref(n), x, y);
      }
    }
    if x == y {
      assert Collide(Payment(x, "", ""), Payment(y, "", ""));
    } else if x + ":" <= y {
      PrefixCollides(x, y);
    } else if y + ":" <= x {
      PrefixCollides(y, x);
      var n: Notice, m: Notice :| n.sysNo == y && m.sysNo == x && Collide(n, m);
      assert Collide(m, n);
    }
  }

  function Payment(sysNo: string, chain: string, hash: string): Notice {
    Notice(sysNo, "", chain, "", hash, 0, "", "", None)
  }

  lemma PrefixCollides(x: string, y: string)
    requires x + ":" <= y
    ensures exists n: Notice, m: Notice :: n.sysNo == x && m.sysNo == y && Collide(n, m)
  {
    var rest := y[|x| + 1..];
    assert y == x + ":" + rest;
    var n, m := Payment(x, rest, "c:h"), Payment(y, "c", "h");
    assert Ref(n) == x + ":" + rest + ":" + "c:h";
    assert Ref(m) == y + ":" + "c" + ":" + "h";
    assert ":" + "c:h" == ":" + "c" + ":" + "h";
    assert Collide(n, m);
  }

  // ---- Rows ----

  function FindIntent(intents: seq<Intent>, sysNo: string): (i: int)
    ensures -1 <= i < |intents|
    ensures i >= 0 ==> intents[i].sysNo == sysNo
    ensures i < 0 ==> forall k :: 0 <= k < |intents| ==> intents[k].sysNo != sysNo
  {
    if intents == [] then -1
    else if intents[|intents| - 1].sysNo == sysNo then |intents| - 1
    else FindIntent(intents[..|intents| - 1], sysNo)
  }

  predicate HasAnomaly(rows: seq<AnomalyRow>, ref: string) {
    exists i :: 0 <= i < |rows| && rows[i].channel == Xcash && rows[i].ref == ref
  }

  function Record(rows: seq<AnomalyRow>, order: nat, ref: string, reason: Reason): seq<AnomalyRow> {
    if HasAnomaly(rows, ref) then rows else rows + [AnomalyRow(order, Xcash, ref, reason)]
  }

  predicate Matched(d: Deal, ref: string) {
    d.clearing.Some? && d.clearing.value.channel == Xcash && d.clearing.value.ref == ref
  }

  // ---- Processing a confirmed notice ----

  predicate MethodAllowed(methods: map<string, set<string>>, crypto: string, chain: string) {
    methods == map[] || (crypto in methods && chain in methods[crypto])
  }

  /** The first reason that keeps the payment out of normal clearing. */
  function Objection(p: Policy, i: Intent, n: Notice): Option<Reason> {
    if i.outNo != n.outNo then Some(DetailsMismatch)
    else if n.forced.Some? then n.forced
    else if n.amount != i.amount || n.currency != i.currency then Some(AmountMismatch)
    else if !MethodAllowed(p.methods, n.crypto, n.chain) then Some(DetailsMismatch)
    else if IsHighRisk(n.risk) then Some(HighRisk)
    else None
  }

  datatype Failure = Unfulfillable | Retry

  function Restatus(s: State, at: nat, status: IntentStatus): State
    requires at < |s.intents|
  {
    s.(intents := s.intents[at := s.intents[at].(status := status)])
  }

  function Observe(s: State, at: nat, status: IntentStatus, n: Notice): State
    requires at < |s.intents|
  {
    s.(intents := s.intents[at := s.intents[at].(status := status, hash := n.hash, risk := n.risk)])
  }

  function Quarantine(s: State, at: nat, n: Notice, reason: Reason): State
    requires at < |s.intents|
  {
    Observe(s, at, Anomaly, n).(anomalies := Record(s.anomalies, s.intents[at].order, Ref(n), reason))
  }

  /** A notice for an intent that is already completed: upgraded to an anomaly on an objection, otherwise a replay or a
      second payment. */
  function ProcessCompleted(s: State, at: nat, n: Notice, objection: Option<Reason>): State
    requires at < |s.intents| && s.intents[at].order < |s.mall.deals|
  {
    var order := s.intents[at].order;
    if objection.Some? then
      Restatus(s, at, Anomaly).(anomalies := Record(s.anomalies, order, Ref(n), objection.value))
    else if Matched(s.mall.deals[order], Ref(n)) then s
    else s.(anomalies := Record(s.anomalies, order, Ref(n), DuplicatePayment))
  }

  /** Clearing and its rows fail for reasons a redelivery may cure; what fails after them (stock, order state,
      buyer) cannot. */
  function SettleFailure(m: M.State, order: nat, ref: string): Failure
    requires order < |m.deals|
  {
    var c := Clear(m.deals[order], ExternalClearing, Channel.Xcash, ref, OrderClear);
    if c.Success? && M.PostMoney(m.books, Some(c.value.1), order).Success? then Unfulfillable else Retry
  }

  function Settle(s: State, at: nat, n: Notice): Result<State, Failure>
    requires at < |s.intents| && s.intents[at].order < |s.mall.deals|
  {
    var order := s.intents[at].order;
    if s.mall.deals[order].order.typ != WaitPay then
      if Matched(s.mall.deals[order], Ref(n)) then Success(Restatus(s, at, IntentCompleted))
      else Success(Restatus(s, at, Anomaly).(anomalies := Record(s.anomalies, order, Ref(n), DuplicatePayment)))
    else
      match M.Act(s.mall, order, PayExternal(Channel.Xcash, Ref(n)))
      case Some(m) => Success(Observe(s, at, IntentCompleted, n).(mall := m))
      case None => Result.Failure(SettleFailure(s.mall, order, Ref(n)))
  }

  /** The transaction of processConfirmedEvent; `receipt` is the webhook's application and nonce. */
  function Process(s0: State, p: Policy, n: Notice, receipt: Option<(nat, string)>): Result<State, Failure> {
    if receipt.Some? && receipt.value in s0.receipts then Success(s0)
    else
      var s := if receipt.Some? then s0.(receipts := s0.receipts + {receipt.value}) else s0;
      var at := FindIntent(s.intents, n.sysNo);
      if at < 0 || s.intents[at].order >= |s.mall.deals| then Result.Failure(Unfulfillable)
      else
        var objection := Objection(p, s.intents[at], n);
        match s.intents[at].status
        case Anomaly => Success(s)
        case IntentCompleted => Success(ProcessCompleted(s, at, n, objection))
        case _ =>
          if objection.Some? then Success(Quarantine(s, at, n, objection.value))
          else if p.requireAml && !RiskReady(n.risk) then Success(Observe(s, at, RiskPending, n))
          else Settle(s, at, n)
  }

  /** The second transaction, after the first was rolled back as unfulfillable. */
  function ProcessDoomed(s: State, n: Notice): State {
    var at := FindIntent(s.intents, n.sysNo);
    if at < 0 || s.intents[at].status.Anomaly? || s.intents[at].status.IntentCompleted? then s
    else Quarantine(s, at, n, FulfillmentFailed)
  }

  // ---- Runs ----

  datatype Step =
    | Confirmed(n: Notice, receipt: Option<(nat, string)>)
    | GiveUp(n: Notice)
    | SyncOpen(at: nat, expired: bool)
    | Checkout(order: nat, attempt: nat, outNo: string, sysNo: string, amount: int, currency: string, expired: bool)
    | InMall(step: M.Step)

  /** The insert of CreateCheckout is ignored on any of the unique indexes. */
  predicate NewIntent(intents: seq<Intent>, order: nat, attempt: nat, outNo: string, sysNo: string) {
    forall i :: 0 <= i < |intents| ==>
      && !(intents[i].order == order && intents[i].attempt == attempt)
      && intents[i].outNo != outNo && intents[i].sysNo != sysNo
  }

  /** The provider's numbers for invoices of one order are apart. */
  predicate ApartIntents(intents: seq<Intent>) {
    forall i, j :: 0 <= i < j < |intents| && intents[i].order == intents[j].order ==>
      Apart(intents[i].sysNo, intents[j].sysNo)
  }

  /** Xcash clears orders through its own notices only; every other transaction of the mall may come in between. */
  predicate Enabled(s: State, step: Step) {
    match step
    case GiveUp(n) => n in s.doomed
    case SyncOpen(at, _) => at < |s.intents|
    case Checkout(order, attempt, outNo, sysNo, amount, _, _) =>
      order < |s.mall.deals| && amount > 0 && NewIntent(s.intents, order, attempt, outNo, sysNo)
    case InMall(m) => !(m.OnOrder? && m.e.PayExternal? && m.e.channel == Channel.Xcash)
    case Confirmed(_, _) => true
  }

  function Apply(s: State, p: Policy, step: Step): State {
    if !Enabled(s, step) then s else
    match step
    case Confirmed(n, receipt) =>
      (match Process(s, p, n, receipt)
       case Success(t) => t
       case Failure(f) => if f.Unfulfillable? then s.(doomed := s.doomed + {n}) else s)
    case GiveUp(n) => ProcessDoomed(s, n).(doomed := s.doomed - {n})
    case SyncOpen(at, expired) =>
      if s.intents[at].status.Waiting? || s.intents[at].status.IntentExpired?
      then Restatus(s, at, if expired then IntentExpired else Waiting) else s
    case Checkout(order, attempt, outNo, sysNo, amount, currency, expired) =>
      s.(intents := s.intents + [Intent(order, attempt, outNo, sysNo, amount, currency,
                                        if expired then IntentExpired else Waiting, "", "")])
    case InMall(m) => s.(mall := M.Apply(s.mall, m))
  }

  function After(s: State, p: Policy, steps: seq<Step>): State {
    if steps == [] then s else Apply(After(s, p, steps[..|steps| - 1]), p, steps[|steps| - 1])
  }
}

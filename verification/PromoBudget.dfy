/** The daily budget of one promotion rule: charged inside the order transaction with a lazy reset per day, given
    back once per order and only into the day it was taken from. */
module PromoBudget {
  import opened Results

  /** The budget columns of the rule. `daily` 0 is unlimited; `date` is the day `consumed` belongs to, days being
      numbered. */
  datatype Rule = Rule(active: bool, daily: nat, consumed: int, date: int)

  /** An order that took the rule: its discount, the day it was created, the day the budget was charged, and whether its
      release is recorded and gave the budget back. */
  datatype Taken = Taken(amount: nat, created: int, charged: int, released: bool, restored: bool)

  datatype State = State(rule: Rule, orders: seq<Taken>, today: int)

  function UsedOn(r: Rule, day: int): int {
    if r.date == day then r.consumed else 0
  }

  /** The trial before ordering, on the rule as it was read. */
  predicate BudgetAllows(r: Rule, discount: nat, today: int) {
    r.daily == 0 || UsedOn(r, today) + discount <= r.daily
  }

  /** AtomicConsumeBudget: one conditional update; None when no row matches. */
  function Consume(r: Rule, amount: nat, today: int): Option<Rule> {
    if amount == 0 then Some(r)
    else if !r.active || !(r.daily == 0 || UsedOn(r, today) + amount <= r.daily) then None
    else Some(r.(consumed := if r.date == today then r.consumed + amount else amount, date := today))
  }

  /** RestoreBudget: only into the day the order was created on, and never below zero. */
  function Restore(r: Rule, amount: nat, day: int): (Rule, bool) {
    if amount == 0 || r.consumed < amount || r.date != day then (r, false)
    else (r.(consumed := r.consumed - amount), true)
  }

  datatype Step =
    | NextDay(day: int)
    | Charge(amount: nat, created: int, day: int)
    | ReleaseOrder(i: nat)
    | Stop

  /** Charge: the day is taken before the row is locked, so that it may be over when the update runs. ReleaseOrder: the
      release row is inserted once per order; only its first insert touches the budget. */
  function Apply(s: State, step: Step): State {
    match step
    case NextDay(day) => if day < s.today then s else s.(today := day)
    case Charge(amount, created, day) =>
      if amount == 0 || !(created <= day <= s.today) then s
      else
        (match Consume(s.rule, amount, day)
         case None => s
         case Some(r) => s.(rule := r, orders := s.orders + [Taken(amount, created, day, false, false)]))
    case ReleaseOrder(i) =>
      if i >= |s.orders| || s.orders[i].released then s
      else
        var (r, restored) := Restore(s.rule, s.orders[i].amount, s.orders[i].created);
        s.(rule := r, orders := s.orders[i := s.orders[i].(released := true, restored := restored)])
    case Stop => s.(rule := s.rule.(active := false))
  }

  function After(s: State, steps: seq<Step>): State {
    if steps == [] then s else Apply(After(s, steps[..|steps| - 1]), steps[|steps| - 1])
  }

  // ---- The books of the rule ----

  /** What orders charged on a day still hold of its budget. */
  function HeldOn(orders: seq<Taken>, day: int): nat {
    if orders == [] then 0
    else
      var o := orders[|orders| - 1];
      HeldOn(orders[..|orders| - 1], day) + if o.charged == day && !o.restored then o.amount else 0
  }

  lemma HeldAppend(orders: seq<Taken>, o: Taken, day: int)
    ensures HeldOn(orders + [o], day) == HeldOn(orders, day) + if o.charged == day && !o.restored then o.amount else 0
  {
    assert (orders + [o])[..|orders|] == orders;
  }

  lemma {:induction false} HeldUpdate(orders: seq<Taken>, i: nat, o: Taken, day: int)
    requires i < |orders| && o.charged == orders[i].charged && o.amount == orders[i].amount
    ensures HeldOn(orders[i := o], day) == HeldOn(orders, day)
      - (if o.charged == day && !orders[i].restored then o.amount else 0)
      + (if o.charged == day && !o.restored then o.amount else 0)
  {
    var n := |orders| - 1;
    if i == n {
      assert orders[i := o][..n] == orders[..n];
    } else {
      assert orders[i := o][..n] == orders[..n][i := o];
      HeldUpdate(orders[..n], i, o, day);
    }
  }

  lemma {:induction false} HeldHasEach(orders: seq<Taken>, i: nat)
    requires i < |orders| && !orders[i].restored
    ensures HeldOn(orders, orders[i].charged) >= orders[i].amount
  {
    if i < |orders| - 1 {
      HeldHasEach(orders[..|orders| - 1], i);
    }
  }

  lemma {:induction false} NothingHeldLater(orders: seq<Taken>, day: int)
    requires forall i :: 0 <= i < |orders| ==> orders[i].charged < day
    ensures HeldOn(orders, day) == 0
  {
    if orders != [] {
      NothingHeldLater(orders[..|orders| - 1], day);
    }
  }

  ghost predicate OrdersOk(s: State) {
    forall i :: 0 <= i < |s.orders| ==>
      && s.orders[i].created <= s.orders[i].charged <= s.rule.date <= s.today
      && s.orders[i].amount > 0
          && (s.orders[i].restored ==> s.orders[i].released && s.orders[i].created == s.orders[i].charged)
  }

  /** The counter is exactly what the orders of its day still hold, and never over a limited budget. */
  ghost predicate Inv(s: State) {
    && OrdersOk(s) && s.rule.date <= s.today
    && s.rule.consumed == HeldOn(s.orders, s.rule.date)
    && (s.rule.daily > 0 ==> s.rule.consumed <= s.rule.daily)
  }

  /** A charge whose day is over for the rule: a later one has been charged before it. */
  predicate Late(s: State, step: Step) {
    step.Charge? && step.day < s.rule.date
  }

  lemma ChargeKeepsInv(s: State, amount: nat, created: int, day: int)
    requires Inv(s) && day >= s.rule.date
    ensures Inv(Apply(s, Charge(amount, created, day)))
  {
    if amount > 0 && created <= day <= s.today && Consume(s.rule, amount, day).Some? {
      HeldAppend(s.orders, Taken(amount, created, day, false, false), day);
      if s.rule.date < day {
        NothingHeldLater(s.orders, day);
      }
    }
  }

  lemma ReleaseKeepsInv(s: State, i: nat)
    requires Inv(s)
    ensures Inv(Apply(s, ReleaseOrder(i)))
  {
    if i < |s.orders| && !s.orders[i].released {
      var t := Apply(s, ReleaseOrder(i));
      HeldUpdate(s.orders, i, t.orders[i], s.rule.date);
    }
  }

  lemma StepKeepsInv(s: State, step: Step)
    requires Inv(s) && !Late(s, step)
    ensures Inv(Apply(s, step))
  {
    match step
    case Charge(amount, created, day) => ChargeKeepsInv(s, amount, created, day);
    case ReleaseOrder(i) => ReleaseKeepsInv(s, i);
    case _ =>
  }

  /** A new rule: nothing charged. */
  ghost predicate Opening(s: State) {
    s.orders == [] && s.rule.consumed == 0 && s.rule.date <= s.today
  }

  /** No charge of the run is late. */
  ghost predicate InDayOrder(start: State, steps: seq<Step>) {
    forall k :: 0 <= k < |steps| ==> !Late(After(start, steps[..k]), steps[k])
  }

  lemma InDayOrderPrefix(start: State, steps: seq<Step>)
    requires steps != [] && InDayOrder(start, steps)
    ensures InDayOrder(start, steps[..|steps| - 1]) && !Late(After(start, steps[..|steps| - 1]), steps[|steps| - 1])
  {
    var n := |steps| - 1;
    forall k | 0 <= k < n ensures !Late(After(start, steps[..n][..k]), steps[..n][k]) {
      assert steps[..n][..k] == steps[..k];
    }
  }

  lemma {:induction false} RunKeepsInv(s: State, steps: seq<Step>)
    requires Inv(s) && InDayOrder(s, steps)
    ensures Inv(After(s, steps)) && After(s, steps).rule.daily == s.rule.daily
  {
    if steps != [] {
      InDayOrderPrefix(s, steps);
      RunKeepsInv(s, steps[..|steps| - 1]);
      StepKeepsInv(After(s, steps[..|steps| - 1]), steps[|steps| - 1]);
    }
  }

  /** Over every run whose charges come in the order of their days: the counter is what the orders of its day hold,
      within the budget. */
  lemma RunKeepsBudget(start: State, steps: seq<Step>)
    requires Opening(start) && InDayOrder(start, steps)
    ensures Inv(After(start, steps))
    ensures After(start, steps).rule.daily == start.rule.daily
  {
    RunKeepsInv(start, steps);
  }

  // ---- Charges out of the order of their days ----

  /** The counter is what the orders of its day still hold. */
  ghost predicate Right(s: State) {
    s.rule.consumed == HeldOn(s.orders, s.rule.date)
  }

  predicate Positive(s: State) {
    forall i :: 0 <= i < |s.orders| ==> s.orders[i].amount > 0 && (s.orders[i].restored ==> s.orders[i].released)
  }

  /** The step turns the rule to a day of which orders already hold budget, or gives back to its day what an order
      took from another. */
  ghost predicate Misleads(s: State, step: Step) {
    match step
    case Charge(amount, created, day) =>
      && amount > 0 && created <= day <= s.today && Consume(s.rule, amount, day).Some?
      && day != s.rule.date && HeldOn(s.orders, day) > 0
    case ReleaseOrder(i) =>
      && i < |s.orders| && !s.orders[i].released && s.orders[i].charged != s.rule.date
      && Restore(s.rule, s.orders[i].amount, s.orders[i].created).1
    case _ => false
  }

  lemma StepStaysPositive(s: State, step: Step)
    requires Positive(s)
    ensures Positive(Apply(s, step))
  {
  }

  lemma ChargeStaysRightIff(s: State, amount: nat, created: int, day: int)
    requires Right(s)
    ensures Right(Apply(s, Charge(amount, created, day))) <==> !Misleads(s, Charge(amount, created, day))
  {
    if amount > 0 && created <= day <= s.today && Consume(s.rule, amount, day).Some? {
      HeldAppend(s.orders, Taken(amount, created, day, false, false), day);
    }
  }

  lemma ReleaseStaysRightIff(s: State, i: nat)
    requires Positive(s) && Right(s)
    ensures Right(Apply(s, ReleaseOrder(i))) <==> !Misleads(s, ReleaseOrder(i))
  {
    if i < |s.orders| && !s.orders[i].released {
      HeldUpdate(s.orders, i, Apply(s, ReleaseOrder(i)).orders[i], s.rule.date);
    }
  }

  /** A step keeps the counter right if and only if it does not mislead it, in whatever order days are charged. */
  lemma StaysRightIff(s: State, step: Step)
    requires Positive(s) && Right(s)
    ensures Right(Apply(s, step)) <==> !Misleads(s, step)
  {
    match step
    case Charge(amount, created, day) => ChargeStaysRightIff(s, amount, created, day);
    case ReleaseOrder(i) => ReleaseStaysRightIff(s, i);
    case _ =>
  }

  ghost predicate RightAt(start: State, steps: seq<Step>, k: nat)
    requires k <= |steps|
  {
    Right(After(start, steps[..k]))
  }

  ghost predicate MisledAt(start: State, steps: seq<Step>, k: nat)
    requires k < |steps|
  {
    Misleads(After(start, steps[..k]), steps[k])
  }

  ghost predicate AlwaysRight(start: State, steps: seq<Step>) {
    forall k :: 0 <= k <= |steps| ==> RightAt(start, steps, k)
  }

  ghost predicate NeverMisled(start: State, steps: seq<Step>) {
    forall k :: 0 <= k < |steps| ==> !MisledAt(start, steps, k)
  }

  lemma {:induction false} RunStaysPositive(start: State, steps: seq<Step>)
    requires Positive(start)
    ensures Positive(After(start, steps))
  {
    if steps != [] {
      RunStaysPositive(start, steps[..|steps| - 1]);
      StepStaysPositive(After(start, steps[..|steps| - 1]), steps[|steps| - 1]);
    }
  }

  lemma NextIsRightIff(start: State, steps: seq<Step>, k: nat)
    requires Positive(start) && k < |steps| && RightAt(start, steps, k)
    ensures RightAt(start, steps, k + 1) <==> !MisledAt(start, steps, k)
  {
    assert steps[..k + 1][..k] == steps[..k];
    RunStaysPositive(start, steps[..k]);
    StaysRightIff(After(start, steps[..k]), steps[k]);
  }

  lemma {:induction false} RightUpTo(start: State, steps: seq<Step>, n: nat)
    requires Opening(start) && n <= |steps| && forall k :: 0 <= k < n ==> !MisledAt(start, steps, k)
    ensures RightAt(start, steps, n)
  {
    if n == 0 {
      assert steps[..0] == [];
    } else {
      RightUpTo(start, steps, n - 1);
      NextIsRightIff(start, steps, n - 1);
    }
  }

  /** The counter is right in every state of a run if and only if no step of it misleads it. */
  lemma AlwaysRightIff(start: State, steps: seq<Step>)
    requires Opening(start)
    ensures AlwaysRight(start, steps) <==> NeverMisled(start, steps)
  {
    if NeverMisled(start, steps) {
      forall n | 0 <= n <= |steps| ensures RightAt(start, steps, n) {
        RightUpTo(start, steps, n);
      }
    }
    if AlwaysRight(start, steps) {
      forall k | 0 <= k < |steps| ensures !MisledAt(start, steps, k) {
        assert RightAt(start, steps, k) && RightAt(start, steps, k + 1);
        NextIsRightIff(start, steps, k);
      }
    }
  }

  lemma HeldTwice(x: Taken, y: Taken)
    requires !x.restored && y.charged != x.charged
    ensures HeldOn([x] + [y] + [x], x.charged) == x.amount + x.amount
  {
    HeldAppend([], x, x.charged);
    assert [] + [x] == [x];
    HeldAppend([x], y, x.charged);
    HeldAppend([x] + [y], x, x.charged);
  }

  /** A late charge: yesterday's order waits for the row until today's budget is used up, sets the rule back to
      yesterday, and the whole of today's budget is handed out once more. */
  lemma LateChargeForgets(start: State, late: nat)
    requires Opening(start) && start.rule.active && 0 < late <= start.rule.daily && start.rule.date <= start.today
    ensures var day, all := start.today, start.rule.daily;
      var spent := Apply(Apply(start, NextDay(day + 1)), Charge(all, day + 1, day + 1));
      var back := Apply(spent, Charge(late, day, day)); var t := Apply(back, Charge(all, day + 1, day + 1));
      && Late(spent, Charge(late, day, day)) && back.rule.date == day && !Right(t)
      && HeldOn(t.orders, day + 1) == 2 * all > t.rule.daily
  {
    var day, all := start.today, start.rule.daily;
    var x, y := Taken(all, day + 1, day + 1, false, false), Taken(late, day, day, false, false);
    var full := Rule(true, all, all, day + 1);
    var next := Apply(start, NextDay(day + 1));
    assert next == State(start.rule, [], day + 1);
    var spent := Apply(next, Charge(all, day + 1, day + 1));
    assert spent == State(full, [x], day + 1);
    var back := Apply(spent, Charge(late, day, day));
    assert back == State(Rule(true, all, late, day), [x] + [y], day + 1);
    assert Apply(back, Charge(all, day + 1, day + 1)) == State(full, [x] + [y] + [x], day + 1);
    HeldTwice(x, y);
  }

  ghost predicate Reachable(s: State) {
    exists start, steps :: Opening(start) && InDayOrder(start, steps) && After(start, steps) == s
  }

  lemma ReachedIsSound(s: State)
    requires Reachable(s)
    ensures Inv(s)
  {
    var start, steps :| Opening(start) && InDayOrder(start, steps) && After(start, steps) == s;
    RunKeepsBudget(start, steps);
  }

  /** A first release gives the budget back exactly if the order was created on the rule's current budget day, which
      is then the day it was charged; the guard against a negative counter never decides. Every later release
      changes nothing. */
  lemma ReleaseRestoresIff(s: State, i: nat)
    requires Reachable(s) && i < |s.orders|
    ensures var o := s.orders[i]; var t := Apply(s, ReleaseOrder(i));
      && t.orders[i].released
      && (o.released ==> t == s)
      && (!o.released ==>
            && (t.orders[i].restored <==> o.created == s.rule.date)
            && (t.orders[i].restored ==> o.charged == o.created && t.rule.consumed == s.rule.consumed - o.amount)
            && (!t.orders[i].restored ==> t.rule == s.rule))
      && (s.rule.date > o.created ==> t.rule == s.rule)
  {
    ReachedIsSound(s);
    if !s.orders[i].released {
      HeldHasEach(s.orders, i);
    }
  }

  /** An order charged after midnight of the day it was created keeps its share of that day's budget for good. */
  lemma {:induction false} ChargedPastMidnightIsNeverRestored(s: State, i: nat, steps: seq<Step>)
    requires Inv(s) && i < |s.orders| && s.orders[i].created < s.orders[i].charged && InDayOrder(s, steps)
    ensures var t := After(s, steps);
      i < |t.orders| && t.orders[i].charged == s.orders[i].charged && t.orders[i].created == s.orders[i].created
        && !t.orders[i].restored
  {
    if steps != [] {
      InDayOrderPrefix(s, steps);
      ChargedPastMidnightIsNeverRestored(s, i, steps[..|steps| - 1]);
      RunKeepsInv(s, steps[..|steps| - 1]);
      StepKeepsInv(After(s, steps[..|steps| - 1]), steps[|steps| - 1]);
      OrdersStay(After(s, steps[..|steps| - 1]), steps[|steps| - 1], i);
    }
  }

  lemma OrdersStay(s: State, step: Step, i: nat)
    requires i < |s.orders|
    ensures i < |Apply(s, step).orders|
    ensures Apply(s, step).orders[i].charged == s.orders[i].charged
    ensures Apply(s, step).orders[i].created == s.orders[i].created
  {
  }

  lemma ReachStep(s: State, step: Step)
    requires Reachable(s) && !Late(s, step)
    ensures Reachable(Apply(s, step))
  {
    var start, steps :| Opening(start) && InDayOrder(start, steps) && After(start, steps) == s;
    assert (steps + [step])[..|steps|] == steps;
    forall k | 0 <= k < |steps + [step]| ensures !Late(After(start, (steps + [step])[..k]), (steps + [step])[k]) {
      assert k < |steps| ==> (steps + [step])[..k] == steps[..k];
    }
    assert After(start, steps + [step]) == Apply(s, step);
  }

  /** From any reachable state with an active rule: an order is created, the day changes, its discount is charged,
      and its release leaves the budget of the new day charged. */
  lemma ReleaseAfterMidnightKeepsCharge(s: State, amount: nat)
    requires Reachable(s) && s.rule.active && 0 < amount && (s.rule.daily == 0 || amount <= s.rule.daily)
    ensures var charged := Apply(Apply(s, NextDay(s.today + 1)), Charge(amount, s.today, s.today + 1));
      var i := |s.orders|; var t := Apply(charged, ReleaseOrder(i));
      && Reachable(t) && i < |charged.orders| && charged.orders[i].created < charged.orders[i].charged
      && t.orders[i].released && !t.orders[i].restored
      && t.rule == charged.rule && t.rule.date == s.today + 1 && t.rule.consumed == amount
  {
    ReachedIsSound(s);
    var next := Apply(s, NextDay(s.today + 1));
    var charged := Apply(next, Charge(amount, s.today, s.today + 1));
    ReachStep(s, NextDay(s.today + 1));
    ReachStep(next, Charge(amount, s.today, s.today + 1));
    ReachStep(charged, ReleaseOrder(|s.orders|));
    assert Consume(next.rule, amount, next.today) == Some(next.rule.(consumed := amount, date := next.today));
  }

  /** The trial agrees with the charge: what it allows on the current row is charged while the rule is active. */
  lemma TrialPredictsCharge(r: Rule, amount: nat, today: int)
    requires r.active && amount > 0
    ensures BudgetAllows(r, amount, today) <==> Consume(r, amount, today).Some?
  {
  }

  // ---- The updates as they run ----

  class RuleRow {
    var active: bool
    var daily: nat
    var consumed: int
    var date: int
    var releases: set<nat>

    ghost function State(): Rule
      reads this
    {
      Rule(active, daily, consumed, date)
    }

    /** What is used up of a day's budget. */
    function Used(day: int): int
      reads this
    {
      if date == day then consumed else 0
    }

    constructor (r: Rule)
      ensures State() == r && releases == {}
    {
      active, daily, consumed, date, releases := r.active, r.daily, r.consumed, r.date, {};
    }

    /** The counter is set before the date, as the columns of the UPDATE are. */
    method AtomicConsumeBudget(amount: nat, today: int) returns (ok: bool)
      modifies this`consumed, this`date
      ensures ok <==> Consume(old(State()), amount, today).Some?
      ensures State() == if ok then Consume(old(State()), amount, today).value else old(State())
      ensures ok <==> amount == 0 || (active && (daily == 0 || old(Used(today)) + amount <= daily))
      ensures !ok || amount == 0 ==> consumed == old(consumed) && date == old(date)
      ensures ok && amount > 0 ==> date == today && consumed == old(Used(today)) + amount
    {
      if amount == 0 {
        return true;
      }
      var used := if date == today then consumed else 0;
      if !active || !(daily == 0 || used + amount <= daily) {
        return false;
      }
      consumed := if date == today then consumed + amount else amount;
      date := today;
      ok := true;
    }

    method RestoreBudget(amount: nat, day: int) returns (restored: bool)
      modifies this`consumed
      ensures (State(), restored) == Restore(old(State()), amount, day)
      ensures restored <==> amount > 0 && old(consumed) >= amount && date == day
      ensures consumed == old(consumed) - if restored then amount else 0
    {
      restored := amount > 0 && consumed >= amount && date == day;
      if restored {
        consumed := consumed - amount;
      }
    }

    /** The release row first; a second delivery of the same order finds it and stops. */
    method ReleaseDiscount(order: nat, amount: nat, day: int) returns (restored: bool)
      modifies this`consumed, this`releases
      ensures releases == if amount > 0 then old(releases) + {order} else old(releases)
      ensures (State(), restored) ==
        if order in old(releases) then (old(State()), false) else Restore(old(State()), amount, day)
    {
      if amount == 0 || order in releases {
        assert amount > 0 ==> releases == releases + {order};
        return false;
      }
      releases := releases + {order};
      restored := RestoreBudget(amount, day);
    }
  }
}

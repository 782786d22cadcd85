/** The stock of one product in two Redis buckets against the database, and the drift correction that knows the paid but
    uncommitted items only as an interval. */
module Inventory {
  import opened Results

  /** stock:available and stock:reserved; None when the key does not exist. */
  datatype Buckets = Buckets(available: Option<int>, reserved: Option<int>)

  function Reserved(b: Buckets): int {
    if b.reserved.Some? then b.reserved.value else 0
  }

  // ---- Scripts ----

  function Reserve(b: Buckets, n: int): (Buckets, int) {
    if b.available.None? then (b, -2)
    else if b.available.value < n then (b, -1)
    else (Buckets(Some(b.available.value - n), Some(Reserved(b) + n)), 1)
  }

  function Commit(b: Buckets, n: int): (Buckets, int) {
    if b.reserved.None? || b.reserved.value < n then (b, -1) else (b.(reserved := Some(b.reserved.value - n)), 1)
  }

  /** INCRBY creates a missing available key. */
  function Release(b: Buckets, n: int): (Buckets, int) {
    if b.reserved.None? || b.reserved.value < n then (b, -1)
    else (Buckets(Some((if b.available.Some? then b.available.value else 0) + n), Some(b.reserved.value - n)), 1)
  }

  function InitIfAbsent(b: Buckets, num: int): Buckets {
    if b.available.Some? then b else b.(available := Some(num - Reserved(b)))
  }

  function Restock(b: Buckets, n: int): Buckets {
    if b.available.None? then b else b.(available := Some(b.available.value + n))
  }

  // ---- Paid orders whose reservation is to be committed ----

  /** `owing`: the reservation is still in the reserved bucket. `flagged`: the StockCommitPending column. `recent`: in
      WaitShip for less than the grace time. */
  datatype Hold = Hold(num: int, owing: bool, flagged: bool, recent: bool)

  function Sum(holds: seq<Hold>, counts: Hold -> bool): int {
    if holds == [] then 0
    else Sum(holds[..|holds| - 1], counts) + if counts(holds[|holds| - 1]) then holds[|holds| - 1].num else 0
  }

  const OWING := (h: Hold) => h.owing
  const FLAGGED := (h: Hold) => h.flagged
  const UNCERTAIN := (h: Hold) => h.flagged || h.recent

  lemma SumAppend(holds: seq<Hold>, h: Hold, counts: Hold -> bool)
    ensures Sum(holds + [h], counts) == Sum(holds, counts) + if counts(h) then h.num else 0
  {
    assert (holds + [h])[..|holds|] == holds;
  }

  lemma {:induction false} SumUpdate(holds: seq<Hold>, i: nat, h: Hold, counts: Hold -> bool)
    requires i < |holds|
    ensures Sum(holds[i := h], counts) == Sum(holds, counts)
      - (if counts(holds[i]) then holds[i].num else 0) + (if counts(h) then h.num else 0)
  {
    var n := |holds| - 1;
    if i == n {
      assert holds[i := h][..n] == holds[..n];
    } else {
      assert holds[i := h][..n] == holds[..n][i := h];
      SumUpdate(holds[..n], i, h, counts);
    }
  }

  // ---- State and drift ----

  /** `transit`: changes of the database stock whose adjustment of the available bucket is still to come. */
  datatype Stock = Stock(b: Buckets, num: int, holds: seq<Hold>, transit: int)

  function Pending(s: Stock): int {
    Sum(s.holds, OWING)
  }

  /** What available lacks: num + pending - reserved - available. */
  function Drift(s: Stock): int
    requires s.b.available.Some?
  {
    s.num + Pending(s) - Reserved(s.b) - s.b.available.value
  }

  /** The drift that will be left once the adjustments under way have arrived. */
  function Balance(s: Stock): int
    requires s.b.available.Some?
  {
    Drift(s) - s.transit
  }

  datatype Step =
    | ReserveItems(n: int)
    | ReleaseItems(n: int)
    | PayItems(n: int)
    | CommitItems(i: nat)
    | RepeatCommit(i: nat)
    | Flag(i: nat, on: bool)
    | Age(i: nat)
    | EditDb(n: int)
    | EditRedis(n: int)
    | LoseEdit(n: int)
    | Correct(num: int, lo: int, hi: int)

  /** PayItems: the payment transaction deducts the database stock. CommitItems: the commit script after it, whose
      failure drops the reservation. RepeatCommit: the script run again for a reservation that is gone already.
      Correct: the write under WATCH with the buckets as they are, and product row and sums as they were read
      before. */
  function Apply(s: Stock, step: Step): Stock {
    match step
    case ReserveItems(n) => s.(b := Reserve(s.b, n).0)
    case ReleaseItems(n) => s.(b := Release(s.b, n).0)
    case PayItems(n) =>
      if n <= 0 || s.num < n then s else s.(num := s.num - n, holds := s.holds + [Hold(n, true, false, true)])
    case CommitItems(i) =>
      if i >= |s.holds| || !s.holds[i].owing then s
      else s.(b := Commit(s.b, s.holds[i].num).0, holds := s.holds[i := s.holds[i].(owing := false)])
    case RepeatCommit(i) => if i >= |s.holds| || s.holds[i].owing then s else s.(b := Commit(s.b, s.holds[i].num).0)
    case Flag(i, on) => if i >= |s.holds| then s else s.(holds := s.holds[i := s.holds[i].(flagged := on)])
    case Age(i) => if i >= |s.holds| then s else s.(holds := s.holds[i := s.holds[i].(recent := false)])
    case EditDb(n) => s.(num := s.num + n, transit := s.transit + n)
    case EditRedis(n) => s.(b := Restock(s.b, n), transit := s.transit - n)
    case LoseEdit(n) => s.(transit := s.transit - n)
    case Correct(num, lo, hi) => if s.b.available.None? then s else s.(b := Restock(s.b, Sampled(s.b, num, lo, hi)))
  }

  /** How far a step moves the balance: only a commit that comes too late or twice, a lost adjustment, and a
      correction do. */
  function Moves(s: Stock, step: Step): int
    requires s.b.available.Some?
  {
    match step
    case CommitItems(i) =>
      if i < |s.holds| && s.holds[i].owing && Commit(s.b, s.holds[i].num).1 == -1 then 0 - s.holds[i].num else 0
    case RepeatCommit(i) =>
      if i < |s.holds| && !s.holds[i].owing && Commit(s.b, s.holds[i].num).1 == 1 then s.holds[i].num else 0
    case LoseEdit(n) => n
    case Correct(num, lo, hi) => 0 - Sampled(s.b, num, lo, hi)
    case _ => 0
  }

  lemma StepMovesBalance(s: Stock, step: Step)
    requires s.b.available.Some?
    ensures Apply(s, step).b.available.Some?
    ensures Balance(Apply(s, step)) == Balance(s) + Moves(s, step)
  {
    match step
    case PayItems(n) => SumAppend(s.holds, Hold(n, true, false, true), OWING);
    case CommitItems(i) =>
      if i < |s.holds| {
        SumUpdate(s.holds, i, s.holds[i].(owing := false), OWING);
      }
    case Flag(i, on) =>
      if i < |s.holds| {
        SumUpdate(s.holds, i, s.holds[i].(flagged := on), OWING);
      }
    case Age(i) =>
      if i < |s.holds| {
        SumUpdate(s.holds, i, s.holds[i].(recent := false), OWING);
      }
    case _ =>
  }

  function After(s: Stock, steps: seq<Step>): Stock {
    if steps == [] then s else Apply(After(s, steps[..|steps| - 1]), steps[|steps| - 1])
  }

  ghost function MovedBy(s: Stock, steps: seq<Step>): int
    requires s.b.available.Some?
  {
    if steps == [] then 0
    else
      var t := After(s, steps[..|steps| - 1]);
      MovedBy(s, steps[..|steps| - 1]) + if t.b.available.Some? then Moves(t, steps[|steps| - 1]) else 0
  }

  /** Over any run with the bucket in place, reservations, cancellations, leak reclaims, payments, commits and stock
      edits leave the balance where it was: it moves by exactly the late or repeated commits, lost adjustments and
      corrections. */
  lemma {:induction false} RunMovesBalance(s: Stock, steps: seq<Step>)
    requires s.b.available.Some?
    ensures After(s, steps).b.available.Some?
    ensures Balance(After(s, steps)) == Balance(s) + MovedBy(s, steps)
  {
    if steps != [] {
      RunMovesBalance(s, steps[..|steps| - 1]);
      StepMovesBalance(After(s, steps[..|steps| - 1]), steps[|steps| - 1]);
    }
  }

  // ---- Never below zero ----

  /** Reservations of positive numbers, what gives them back, payments, commits and their flags; not edits of the stock
      or corrections. */
  predicate Ordinary(step: Step) {
    match step
    case ReserveItems(n) => n > 0
    case ReleaseItems(n) => n > 0
    case PayItems(_) => true
    case CommitItems(_) => true
    case RepeatCommit(_) => true
    case Flag(_, _) => true
    case Age(_) => true
    case _ => false
  }

  ghost predicate InRange(s: Stock) {
    && s.num >= 0 && Reserved(s.b) >= 0 && (s.b.available.Some? ==> s.b.available.value >= 0)
    && forall i :: 0 <= i < |s.holds| ==> s.holds[i].num > 0
  }

  /** No reservation is made that the bucket does not cover, whatever comes in between: neither bucket goes below zero,
      nor does the product row, and what is reserved was on offer before. */
  lemma OrdinaryStepKeepsRange(s: Stock, step: Step)
    requires InRange(s) && Ordinary(step)
    ensures InRange(Apply(s, step))
    ensures s.b.available.Some? ==>
      && Apply(s, step).b.available.Some?
      && (step.ReserveItems? ==>
            && Reserved(Apply(s, step).b) - Reserved(s.b) == s.b.available.value - Apply(s, step).b.available.value
            && Reserved(Apply(s, step).b) - Reserved(s.b) == if step.n <= s.b.available.value then step.n else 0)
  {
  }

  lemma {:induction false} RunNeverOversells(s: Stock, steps: seq<Step>)
    requires InRange(s) && forall i :: 0 <= i < |steps| ==> Ordinary(steps[i])
    ensures InRange(After(s, steps))
  {
    if steps != [] {
      RunNeverOversells(s, steps[..|steps| - 1]);
      OrdinaryStepKeepsRange(After(s, steps[..|steps| - 1]), steps[|steps| - 1]);
    }
  }

  /** A payment goes through exactly if the product row covers it, and leaves a paid hold that still owes its items. */
  lemma PaymentTakesItems(s: Stock, n: int)
    ensures var t := Apply(s, PayItems(n));
      if n > 0 && s.num >= n
      then t == s.(num := s.num - n, holds := s.holds + [Hold(n, true, false, true)]) && Pending(t) == Pending(s) + n
      else t == s
  {
    SumAppend(s.holds, Hold(n, true, false, true), OWING);
  }

  /** A stock edit moves the product row at once and the bucket when it arrives, by the same number, so it leaves no
      drift behind; until then the bucket is short by it. */
  lemma EditArrives(s: Stock, n: int)
    requires s.b.available.Some?
    ensures var edited := Apply(s, EditDb(n)); var arrived := Apply(edited, EditRedis(n));
      && edited.num == s.num + n && edited.b == s.b && edited.holds == s.holds && Drift(edited) == Drift(s) + n
      && arrived.num == s.num + n && arrived.holds == s.holds && arrived.transit == s.transit
      && arrived.b == Buckets(Some(s.b.available.value + n), s.b.reserved) && Drift(arrived) == Drift(s)
  {
  }

  // ---- The correction ----

  function PickDrift(base: int, lo: int, hi: int): int {
    if base + lo > 0 then base + lo else if base + hi < 0 then base + hi else 0
  }

  /** The drift computed from the buckets, the product row and the two sums. */
  function Sampled(b: Buckets, num: int, lo: int, hi: int): int
    requires b.available.Some?
  {
    PickDrift(num - Reserved(b) - b.available.value, lo, hi)
  }

  predicate Between(x: int, y: int) {
    0 <= x <= y || y <= x <= 0
  }

  /** With the true pending inside the interval the correction has the sign of the true drift and does not
      overshoot; it is zero exactly when the interval does not tell the sign, and the whole drift when the interval
      is a point. */
  lemma CorrectionIsSafe(s: Stock, lo: int, hi: int)
    requires s.b.available.Some? && lo <= Pending(s) <= hi
    ensures var c := Sampled(s.b, s.num, lo, hi); var t := Apply(s, Correct(s.num, lo, hi));
      && Between(c, Drift(s)) && Drift(t) == Drift(s) - c && Between(Drift(t), Drift(s))
      && (c == 0 <==> Drift(s) + (lo - Pending(s)) <= 0 <= Drift(s) + (hi - Pending(s)))
      && (lo == hi ==> Drift(t) == 0)
  {
  }

  function Clamp(x: int, low: int, high: int): int {
    if x > high then high else if x < low then low else x
  }

  /** Clamping into the range never makes a drift worse. */
  ghost predicate Harmless(low: int, high: int) {
    forall x :: Between(Clamp(x, low, high), x)
  }

  /** Whatever was read, the correction clamps the drift. With `num` the product row as read, it is harmless at
      every drift if and only if row and pending together, as they are at the write, lie within what row and sums
      said when they were read. */
  lemma CorrectionClamps(s: Stock, num: int, lo: int, hi: int)
    requires s.b.available.Some? && lo <= hi
    ensures var moved := s.num + Pending(s) - num;
      && Drift(Apply(s, Correct(num, lo, hi))) == Clamp(Drift(s), moved - hi, moved - lo)
      && (Harmless(moved - hi, moved - lo) <==> num + lo <= s.num + Pending(s) <= num + hi)
  {
    var moved := s.num + Pending(s) - num;
    if Harmless(moved - hi, moved - lo) {
      assert Between(Clamp(0, moved - hi, moved - lo), 0);
    }
  }

  // ---- Two samples ----

  /** Payments between the reads and the write leave row and pending together where they were; a commit takes its
      items out. */
  lemma ReadsStayTrue(s: Stock, step: Step)
    ensures step.PayItems? || step.ReserveItems? || step.ReleaseItems? || step.Flag? || step.Age? ==>
      Apply(s, step).num + Pending(Apply(s, step)) == s.num + Pending(s)
    ensures step.CommitItems? && step.i < |s.holds| && s.holds[step.i].owing ==>
      Apply(s, step).num + Pending(Apply(s, step)) == s.num + Pending(s) - s.holds[step.i].num
  {
    match step
    case PayItems(n) => SumAppend(s.holds, Hold(n, true, false, true), OWING);
    case CommitItems(i) =>
      if i < |s.holds| {
        SumUpdate(s.holds, i, s.holds[i].(owing := false), OWING);
      }
    case Flag(i, on) =>
      if i < |s.holds| {
        SumUpdate(s.holds, i, s.holds[i].(flagged := on), OWING);
      }
    case Age(i) =>
      if i < |s.holds| {
        SumUpdate(s.holds, i, s.holds[i].(recent := false), OWING);
      }
    case _ =>
  }

  /** What two equal samples exclude: if the first was right, that is, its row and sums enclosed the truth at the
      moment its buckets were read, and the drift of that moment is still there, the correction is safe, however
      torn the second was. (If the second was right it is safe in any case.) */
  lemma OneRightSampleSuffices(s: Stock, t: Stock, num: int, lo: int, hi: int, num2: int, lo2: int, hi2: int)
    requires s.b.available.Some? && t.b.available.Some? && Drift(t) == Drift(s)
    requires num + lo <= s.num + Pending(s) <= num + hi
    requires Sampled(s.b, num, lo, hi) == Sampled(t.b, num2, lo2, hi2)
    ensures Between(Sampled(t.b, num2, lo2, hi2), Drift(t))
    ensures Between(Drift(Apply(t, Correct(num2, lo2, hi2))), Drift(t))
  {
  }

  function Repaired(s: Stock, i: nat): Stock {
    Apply(Apply(s, Flag(i, false)), CommitItems(i))
  }

  /** What they do not: two orders of the same size are committed by the repair of pending commits, one between the
      sums and the buckets of each sample. The drift is right, both samples agree, and the correction takes the
      items away from it. */
  lemma TwoTornSamplesAgree(s: Stock, n: int)
    requires n > 0 && s.holds == [Hold(n, true, true, false), Hold(n, true, true, false)]
    requires s.b.available.Some? && Reserved(s.b) >= 2 * n && Drift(s) == 0
    ensures var t := Repaired(s, 0); var u := Repaired(t, 1);
      && t.b.available.Some? && u.b.available.Some? && Drift(t) == Drift(u) == 0
      && Sampled(t.b, s.num, Sum(s.holds, FLAGGED), Sum(s.holds, UNCERTAIN)) == n
      && Sampled(u.b, t.num, Sum(t.holds, FLAGGED), Sum(t.holds, UNCERTAIN)) == n
      && Drift(Apply(u, Correct(t.num, Sum(t.holds, FLAGGED), Sum(t.holds, UNCERTAIN)))) == -n
  {
    var h, gone := Hold(n, true, true, false), Hold(n, false, false, false);
    TwoHolds(h, h);
    TwoHolds(gone, h);
    TwoHolds(gone, gone);
    assert Repaired(s, 0).holds == [gone, h];
    assert Repaired(Repaired(s, 0), 1).holds == [gone, gone];
  }

  lemma TwoHolds(x: Hold, y: Hold)
    ensures Sum([x, y], OWING) == (if x.owing then x.num else 0) + if y.owing then y.num else 0
    ensures Sum([x, y], FLAGGED) == (if x.flagged then x.num else 0) + if y.flagged then y.num else 0
    ensures Sum([x, y], UNCERTAIN) == (if UNCERTAIN(x) then x.num else 0) + if UNCERTAIN(y) then y.num else 0
  {
    assert [] + [x] == [x] && [x] + [y] == [x, y];
    SumAppend([], x, OWING);
    SumAppend([], x, FLAGGED);
    SumAppend([], x, UNCERTAIN);
    SumAppend([x], y, OWING);
    SumAppend([x], y, FLAGGED);
    SumAppend([x], y, UNCERTAIN);
  }

  /** Flags mean an owed reservation, and an owed one is flagged or recent: what the two database sums rely on. */
  ghost predicate Marked(holds: seq<Hold>) {
    forall i :: 0 <= i < |holds| ==>
      holds[i].num >= 0 && (holds[i].flagged ==> holds[i].owing) && (holds[i].owing ==> UNCERTAIN(holds[i]))
  }

  lemma {:induction false} SumsBoundPending(holds: seq<Hold>)
    requires Marked(holds)
    ensures Sum(holds, FLAGGED) <= Sum(holds, OWING) <= Sum(holds, UNCERTAIN)
  {
    if holds != [] {
      assert Marked(holds[..|holds| - 1]);
      SumsBoundPending(holds[..|holds| - 1]);
    }
  }

  /** So the correction with the two database sums never makes the drift worse while the flags are true, and with no
      recent payment it removes it. */
  lemma ReconcileIsSafe(s: Stock)
    requires s.b.available.Some? && Marked(s.holds)
    ensures var lo, hi := Sum(s.holds, FLAGGED), Sum(s.holds, UNCERTAIN);
      Between(Drift(Apply(s, Correct(s.num, lo, hi))), Drift(s))
        && (lo == hi ==> Drift(Apply(s, Correct(s.num, lo, hi))) == 0)
  {
    SumsBoundPending(s.holds);
    CorrectionIsSafe(s, Sum(s.holds, FLAGGED), Sum(s.holds, UNCERTAIN));
  }

  /** A bucket built from the database starts out short by exactly the paid items whose reservation it still counts. */
  lemma InitStartsShortByPending(s: Stock)
    requires s.b.available.None?
    ensures Drift(s.(b := InitIfAbsent(s.b, s.num))) == Pending(s)
  {
  }
}

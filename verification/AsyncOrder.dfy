/** One queued order task: enqueueing with undo, and any number of deliveries of its message one after the other, each
    possibly cut short by a crash. */
module AsyncOrder {
  import opened Results

  datatype Status = Unwritten | Pending | Ok | Failed

  /** The seckill quota of a ticket: in the in-flight set, moved over to its order, or given back to stock and user. */
  datatype Quota = NoQuota | InFlight | Settled | GivenBack

  /** What a ticket has caused so far. `orders`: order rows with this ticket. `reserves`, `releases`: how often its
      items went into and came back out of the reserved bucket. */
  datatype Ticket = Ticket(seckill: bool, orders: nat, reserves: nat, releases: nat, marked: bool, quota: Quota,
                           status: Status, queued: bool)

  /** Missed: a call whose failure is only logged. */
  datatype Effect = Persist | Schedule | Unmark | SettleQuota | PutOk | ReleaseStock | AbortQuota | PutFailed | Missed

  function Apply(t: Ticket, e: Effect): Ticket {
    match e
    case Persist => t.(orders := t.orders + 1)
    case Schedule => t
    case Unmark => t.(marked := false)
    case SettleQuota => if t.quota.InFlight? then t.(quota := Settled) else t
    case PutOk => t.(status := Ok)
    case ReleaseStock => t.(releases := t.releases + 1)
    case AbortQuota => if t.quota.InFlight? then t.(quota := GivenBack) else t
    case PutFailed => t.(status := Failed)
    case Missed => t
  }

  function ApplyAll(t: Ticket, effects: seq<Effect>): Ticket {
    if effects == [] then t else Apply(ApplyAll(t, effects[..|effects| - 1]), effects[|effects| - 1])
  }

  // ---- One delivery ----

  /** How the order transaction ends for the handler: committed, rolled back, or committed with an error reply. */
  datatype Tx = Committed | RolledBack | CommitLost

  /** What the handler finds along the way. `itemsBack`, `quotaBack`: the calls of an abort that release the items
      and the quota take effect. */
  datatype World = World(lookup: bool, stale: bool, settled: bool, tx: Tx, recheck: bool, itemsBack: bool,
    quotaBack: bool)

  function Finish(t: Ticket): seq<Effect> {
    [Unmark] + (if t.seckill then [SettleQuota] else []) + [PutOk]
  }

  function ItemsCall(w: World): Effect {
    if w.itemsBack then ReleaseStock else Missed
  }

  function QuotaCall(w: World): Effect {
    if w.quotaBack then AbortQuota else Missed
  }

  function Abort(t: Ticket, w: World): seq<Effect> {
    if t.seckill then [ItemsCall(w), Unmark, QuotaCall(w), PutFailed] else [ItemsCall(w), Unmark, PutFailed]
  }

  /** The effects of HandleAsyncOrderTask in their order; the unique ticket index makes the transaction of an existing
      order impossible, but the handler does not get there. */
  function Plan(t: Ticket, w: World): seq<Effect> {
    if !w.lookup then []
    else if t.orders > 0 then Finish(t)
    else if w.stale || !w.settled then Abort(t, w)
    else
      match w.tx
      case Committed => [Persist, Schedule] + Finish(t)
      case CommitLost => [Persist] + if w.recheck then Finish(t) else []
      case RolledBack => if w.recheck then Abort(t, w) else []
  }

  /** A delivery that crashes after `steps` effects, or runs to its end. */
  datatype Delivery = Delivery(w: World, steps: nat)

  function Run(t: Ticket, d: Delivery): seq<Effect> {
    var plan := Plan(t, d.w);
    if d.steps < |plan| then plan[..d.steps] else plan
  }

  function Deliver(t: Ticket, d: Delivery): Ticket {
    if t.queued then ApplyAll(t, Run(t, d)) else t
  }

  function DeliverAll(t: Ticket, ds: seq<Delivery>): Ticket {
    if ds == [] then t else Deliver(DeliverAll(t, ds[..|ds| - 1]), ds[|ds| - 1])
  }

  // ---- Enqueueing ----

  datatype Publish = Sent | NotSent | SentLost

  /** Reserve, mark, write the ticket, publish; a failure releases the items, removes the mark, and makes the caller
      give the seckill quota back. */
  function Enqueue(seckill: bool, written: bool, publish: Publish, itemsBack: bool, quotaBack: bool): Ticket {
    var t := Ticket(seckill, 0, 1, 0, true, if seckill then InFlight else NoQuota, Unwritten, false);
    var undone := t.(releases := if itemsBack then 1 else 0, marked := false,
                     quota := if seckill && quotaBack then GivenBack else t.quota);
    if !written then undone
    else
      match publish
      case Sent => t.(status := Pending, queued := true)
      case NotSent => undone.(status := Failed)
      case SentLost => undone.(status := Failed, queued := true)
  }

  // ---- Effects ----

  function Count(effects: seq<Effect>, e: Effect): nat {
    if effects == [] then 0 else Count(effects[..|effects| - 1], e) + if effects[|effects| - 1] == e then 1 else 0
  }

  lemma {:induction false} ApplyAllCounts(t: Ticket, effects: seq<Effect>)
    ensures var r := ApplyAll(t, effects);
      && r.orders == t.orders + Count(effects, Persist)
      && r.releases == t.releases + Count(effects, ReleaseStock)
      && r.reserves == t.reserves && r.seckill == t.seckill && r.queued == t.queued
  {
    if effects != [] {
      ApplyAllCounts(t, effects[..|effects| - 1]);
    }
  }

  lemma {:induction false} CountPrefix(effects: seq<Effect>, n: nat, e: Effect)
    requires n <= |effects|
    ensures Count(effects[..n], e) <= Count(effects, e)
    ensures e !in effects ==> Count(effects, e) == 0
    ensures n == |effects| ==> Count(effects[..n], e) == Count(effects, e)
    decreases |effects|
  {
    if effects != [] {
      var last := |effects| - 1;
      CountPrefix(effects[..last], if n <= last then n else last, e);
      if n <= last {
        assert effects[..last][..n] == effects[..n];
      } else {
        assert effects[..n] == effects;
        assert effects[..last][..last] == effects[..last];
      }
    } else {
      assert effects[..n] == effects;
    }
  }

  lemma {:induction false} CountConcat(xs: seq<Effect>, ys: seq<Effect>, e: Effect)
    ensures Count(xs + ys, e) == Count(xs, e) + Count(ys, e)
  {
    if ys == [] {
      assert xs + ys == xs;
    } else {
      assert (xs + ys)[..|xs + ys| - 1] == xs + ys[..|ys| - 1];
      CountConcat(xs, ys[..|ys| - 1], e);
    }
  }

  lemma FinishCounts(t: Ticket)
    ensures Count(Finish(t), Persist) == 0 && Count(Finish(t), ReleaseStock) == 0
    ensures Persist !in Finish(t) && ReleaseStock !in Finish(t) && AbortQuota !in Finish(t)
  {
    CountPrefix(Finish(t), 0, Persist);
    CountPrefix(Finish(t), 0, ReleaseStock);
  }

  lemma PersistedCounts(t: Ticket, done: seq<Effect>, rest: seq<Effect>)
    requires done == [Persist] || done == [Persist, Schedule]
    requires rest == Finish(t) || rest == []
    ensures Count(done + rest, Persist) == 1 && Count(done + rest, ReleaseStock) == 0
    ensures ReleaseStock !in done + rest && AbortQuota !in done + rest
  {
    FinishCounts(t);
    CountConcat(done, rest, Persist);
    CountConcat(done, rest, ReleaseStock);
    assert [Persist, Schedule][..1] == [Persist] && [Persist][..0] == [];
  }

  lemma AbortCounts(t: Ticket, w: World)
    ensures Count(Abort(t, w), ReleaseStock) == (if w.itemsBack then 1 else 0)
    ensures Count(Abort(t, w), Persist) == 0 && Persist !in Abort(t, w)
  {
    var rest := if t.seckill then [Unmark, QuotaCall(w), PutFailed] else [Unmark, PutFailed];
    assert Abort(t, w) == [ItemsCall(w)] + rest;
    CountOne(ItemsCall(w), ReleaseStock);
    CountConcat([ItemsCall(w)], rest, ReleaseStock);
    CountPrefix(rest, 0, ReleaseStock);
    CountPrefix(Abort(t, w), 0, Persist);
  }

  lemma CountOne(x: Effect, e: Effect)
    ensures Count([x], e) == if x == e then 1 else 0
  {
    assert [x][..0] == [];
  }

  /** A handler plans at most one order, none if there is one, and never plans to release items or quota when it
      finds or makes an order. */
  lemma PlanIsSafe(t: Ticket, w: World)
    ensures Count(Plan(t, w), Persist) <= (if t.orders > 0 then 0 else 1)
    ensures ReleaseStock in Plan(t, w) || AbortQuota in Plan(t, w) ==>
      t.orders == 0 && Persist !in Plan(t, w) && Plan(t, w) == Abort(t, w)
    ensures Count(Plan(t, w), ReleaseStock) <= 1
  {
    FinishCounts(t);
    AbortCounts(t, w);
    PersistedCounts(t, [Persist, Schedule], Finish(t));
    PersistedCounts(t, [Persist], if w.recheck then Finish(t) else []);
  }

  /** A delivery that releases items makes no order. */
  predicate Releases(t: Ticket, d: Delivery) {
    ReleaseStock in Run(t, d)
  }

  lemma DeliveryCounts(t: Ticket, d: Delivery)
    requires t.queued
    ensures Deliver(t, d).orders <= (if t.orders > 0 then t.orders else 1) && Deliver(t, d).orders >= t.orders
    ensures Deliver(t, d).releases == t.releases + if Releases(t, d) then 1 else 0
    ensures Releases(t, d) ==> t.orders == 0 && Deliver(t, d).orders == 0
    ensures Deliver(t, d).reserves == t.reserves && Deliver(t, d).queued && Deliver(t, d).seckill == t.seckill
  {
    var plan, run := Plan(t, d.w), Run(t, d);
    PlanIsSafe(t, d.w);
    ApplyAllCounts(t, run);
    var n := if d.steps < |plan| then d.steps else |plan|;
    assert plan[..|plan|] == plan;
    assert run == plan[..n];
    CountPrefix(plan, n, Persist);
    CountPrefix(plan, n, ReleaseStock);
    CountPrefix(run, 0, ReleaseStock);
    CountPrefix(run, 0, Persist);
    if Releases(t, d) {
      assert run[0] == ReleaseStock;
      CountFirst(run, ReleaseStock);
    }
  }

  lemma {:induction false} CountFirst(effects: seq<Effect>, e: Effect)
    requires effects != [] && effects[0] == e
    ensures Count(effects, e) >= 1
  {
    if |effects| > 1 {
      CountFirst(effects[..|effects| - 1], e);
    }
  }

  // ---- Any number of deliveries ----

  /** At most one order per ticket, whatever is redelivered and wherever a delivery crashes; and no delivery that
      finds the order, or makes it, releases its items or gives up its quota. */
  lemma {:induction false} AtMostOneOrder(t: Ticket, ds: seq<Delivery>)
    requires t.orders == 0
    ensures DeliverAll(t, ds).orders <= 1
    ensures DeliverAll(t, ds).queued == t.queued && DeliverAll(t, ds).reserves == t.reserves
  {
    if ds != [] {
      var before, d := DeliverAll(t, ds[..|ds| - 1]), ds[|ds| - 1];
      AtMostOneOrder(t, ds[..|ds| - 1]);
      if t.queued {
        DeliveryCounts(before, d);
      }
    }
  }

  lemma CommittedOrderIsLeftAlone(t: Ticket, d: Delivery)
    requires t.orders > 0
    ensures ReleaseStock !in Run(t, d) && AbortQuota !in Run(t, d)
    ensures Deliver(t, d).releases == t.releases && Deliver(t, d).orders == t.orders
  {
    PlanIsSafe(t, d.w);
    if t.queued {
      DeliveryCounts(t, d);
    }
  }

  // ---- What a delivery decides ----

  /** The delivery gets as far as the committed order, if there is none yet. */
  predicate Commits(d: Delivery) {
    d.steps > 0 && d.w.lookup && !d.w.stale && d.w.settled && !d.w.tx.RolledBack?
  }

  /** It gets into an abort, if there is no order yet: too old, prices or coupon not to be had, or rolled back and
      looked up again with an answer. */
  predicate Fails(d: Delivery) {
    d.steps > 0 && d.w.lookup && (d.w.stale || !d.w.settled || (d.w.tx.RolledBack? && d.w.recheck))
  }

  /** And its items come back. */
  predicate Frees(d: Delivery) {
    Fails(d) && d.w.itemsBack
  }

  /** A ticket does not get younger. */
  predicate Aging(ds: seq<Delivery>) {
    forall i, j :: 0 <= i < j < |ds| && ds[i].w.stale ==> ds[j].w.stale
  }

  predicate SomeCommits(ds: seq<Delivery>) {
    exists i :: 0 <= i < |ds| && Commits(ds[i])
  }

  /** Deliveries before the first committing one that give the items back. */
  function FreedBefore(ds: seq<Delivery>): nat {
    if ds == [] then 0
    else
      FreedBefore(ds[..|ds| - 1]) + if !SomeCommits(ds[..|ds| - 1]) && Frees(ds[|ds| - 1]) then 1 else 0
  }

  lemma CommitsFirstOrLast(ds: seq<Delivery>)
    requires ds != []
    ensures SomeCommits(ds) <==> SomeCommits(ds[..|ds| - 1]) || Commits(ds[|ds| - 1])
  {
    if SomeCommits(ds[..|ds| - 1]) {
      var i :| 0 <= i < |ds| - 1 && Commits(ds[..|ds| - 1][i]);
      assert Commits(ds[i]);
    }
    if SomeCommits(ds) && !Commits(ds[|ds| - 1]) {
      var i :| 0 <= i < |ds| && Commits(ds[i]);
      assert Commits(ds[..|ds| - 1][i]);
    }
  }

  lemma FreesIsReleases(t: Ticket, d: Delivery)
    requires t.orders == 0
    ensures Releases(t, d) <==> Frees(d)
  {
    FinishCounts(t);
    AbortCounts(t, d.w);
    PersistedCounts(t, [Persist, Schedule], Finish(t));
    PersistedCounts(t, [Persist], if d.w.recheck then Finish(t) else []);
    var plan, run := Plan(t, d.w), Run(t, d);
    if run != [] {
      assert run[0] == plan[0];
      assert forall e :: e in run ==> e in plan;
    }
  }

  lemma CommitsIsPersist(t: Ticket, d: Delivery)
    requires t.orders == 0 && t.queued
    ensures Deliver(t, d).orders == if Commits(d) then 1 else 0
  {
    DeliveryCounts(t, d);
    var run := Run(t, d);
    ApplyAllCounts(t, run);
    if Commits(d) {
      assert run[0] == Persist;
      CountFirst(run, Persist);
    } else {
      AbortCounts(t, d.w);
      CountPrefix(Plan(t, d.w), |run|, Persist);
      assert run == Plan(t, d.w)[..|run|];
    }
  }

  /** What any deliveries come to, decided by their own circumstances: there is an order exactly if one of them
      commits, and the items come back once per abort before that. */
  lemma {:induction false} Outcome(t: Ticket, ds: seq<Delivery>)
    requires t.orders == 0 && t.queued
    ensures DeliverAll(t, ds).orders == if SomeCommits(ds) then 1 else 0
    ensures DeliverAll(t, ds).releases == t.releases + FreedBefore(ds)
    ensures DeliverAll(t, ds).queued && DeliverAll(t, ds).seckill == t.seckill
  {
    if ds != [] {
      var rest, d := ds[..|ds| - 1], ds[|ds| - 1];
      var before := DeliverAll(t, rest);
      Outcome(t, rest);
      CommitsFirstOrLast(ds);
      DeliveryCounts(before, d);
      if before.orders == 0 {
        FreesIsReleases(before, d);
        CommitsIsPersist(before, d);
      } else {
        CommittedOrderIsLeftAlone(before, d);
      }
    }
  }

  lemma {:induction false} NothingWithoutTheMessage(t: Ticket, ds: seq<Delivery>)
    requires !t.queued
    ensures DeliverAll(t, ds) == t
  {
    if ds != [] {
      NothingWithoutTheMessage(t, ds[..|ds| - 1]);
    }
  }

  lemma {:induction false} NothingFreedBefore(ds: seq<Delivery>)
    ensures FreedBefore(ds) == 0 <==> forall i :: 0 <= i < |ds| && Frees(ds[i]) ==> SomeCommits(ds[..i])
  {
    if ds != [] {
      var n := |ds| - 1;
      NothingFreedBefore(ds[..n]);
      assert forall i :: 0 <= i < n ==> ds[..n][i] == ds[i] && ds[..n][..i] == ds[..i];
    }
  }

  /** The order's items are reserved exactly if its message was not taken for unsent, or the release after that did
      not take effect, and every delivery that was too old, could not be settled, or was rolled back and looked up
      again, and whose release took effect, came after one that committed. */
  lemma CommittedItemsAreReservedIff(seckill: bool, written: bool, publish: Publish, itemsBack: bool, quotaBack: bool,
                                     ds: seq<Delivery>)
    requires DeliverAll(Enqueue(seckill, written, publish, itemsBack, quotaBack), ds).orders > 0
    ensures DeliverAll(Enqueue(seckill, written, publish, itemsBack, quotaBack), ds).releases == 0 <==>
      (publish == Sent || !itemsBack) && forall i :: 0 <= i < |ds| && Frees(ds[i]) ==> SomeCommits(ds[..i])
  {
    var t := Enqueue(seckill, written, publish, itemsBack, quotaBack);
    if t.queued {
      Outcome(t, ds);
      NothingFreedBefore(ds);
    } else {
      NothingWithoutTheMessage(t, ds);
    }
  }

  /** An abort that runs long enough to give the seckill quota back, with effect. */
  predicate FailsQuota(d: Delivery) {
    Fails(d) && d.steps >= 3 && d.w.quotaBack
  }

  lemma {:induction false} QuotaUntouched(t: Ticket, effects: seq<Effect>)
    requires AbortQuota !in effects
    ensures ApplyAll(t, effects).quota.GivenBack? <==> t.quota.GivenBack?
  {
    if effects != [] {
      QuotaUntouched(t, effects[..|effects| - 1]);
    }
  }

  lemma AbortGivesBack(t: Ticket, w: World, steps: nat)
    requires t.seckill && t.quota.InFlight?
    ensures CutShort(t, Abort(t, w), steps).quota == if steps >= 3 && w.quotaBack then GivenBack else InFlight
  {
    var a := Abort(t, w);
    assert a == [ItemsCall(w), Unmark, QuotaCall(w), PutFailed];
    assert a[..0] == [] && a[..1][..0] == [] && a[..2][..1] == a[..1] && a[..3][..2] == a[..2];
    assert a[..4][..3] == a[..3] && a[..4] == a;
    assert ApplyAll(t, a[..1]).quota.InFlight?;
    assert ApplyAll(t, a[..2]).quota.InFlight?;
    assert ApplyAll(t, a[..3]).quota == if w.quotaBack then GivenBack else InFlight;
    assert ApplyAll(t, a).quota == ApplyAll(t, a[..3]).quota;
  }

  lemma DeliveryQuota(t: Ticket, d: Delivery)
    requires t.queued && t.seckill && t.orders == 0 && t.quota.InFlight? && !Commits(d)
    ensures Deliver(t, d).quota == if FailsQuota(d) then GivenBack else InFlight
  {
    if Fails(d) {
      assert Run(t, d) == if d.steps < |Abort(t, d.w)| then Abort(t, d.w)[..d.steps] else Abort(t, d.w);
      AbortGivesBack(t, d.w, d.steps);
    } else {
      assert Run(t, d) == [];
    }
  }

  lemma KeepsGivenBack(t: Ticket, d: Delivery)
    requires t.queued && (t.quota.GivenBack? || t.orders > 0 || Commits(d))
    ensures Deliver(t, d).quota.GivenBack? <==> t.quota.GivenBack?
  {
    var run := Run(t, d);
    if t.quota.GivenBack? {
      StaysGivenBack(t, run);
    } else {
      PlanIsSafe(t, d.w);
      assert AbortQuota !in Plan(t, d.w) by {
        if t.orders == 0 {
          FinishCounts(t);
          PersistedCounts(t, [Persist, Schedule], Finish(t));
          PersistedCounts(t, [Persist], if d.w.recheck then Finish(t) else []);
        }
      }
      QuotaUntouched(t, run);
    }
  }

  lemma {:induction false} StaysGivenBack(t: Ticket, effects: seq<Effect>)
    requires t.quota.GivenBack?
    ensures ApplyAll(t, effects).quota.GivenBack?
  {
    if effects != [] {
      StaysGivenBack(t, effects[..|effects| - 1]);
    }
  }

  predicate SomeFailsQuotaFirst(ds: seq<Delivery>) {
    exists i :: 0 <= i < |ds| && FailsQuota(ds[i]) && !SomeCommits(ds[..i])
  }

  lemma FailsQuotaFirstOrLast(ds: seq<Delivery>)
    requires ds != []
    ensures SomeFailsQuotaFirst(ds) <==>
      SomeFailsQuotaFirst(ds[..|ds| - 1]) || (FailsQuota(ds[|ds| - 1]) && !SomeCommits(ds[..|ds| - 1]))
  {
    var n := |ds| - 1;
    assert forall i :: 0 <= i < n ==> ds[..n][i] == ds[i] && ds[..n][..i] == ds[..i];
    if SomeFailsQuotaFirst(ds[..n]) {
      var i :| 0 <= i < n && FailsQuota(ds[..n][i]) && !SomeCommits(ds[..n][..i]);
      assert FailsQuota(ds[i]) && !SomeCommits(ds[..i]);
    }
    if SomeFailsQuotaFirst(ds) && !(FailsQuota(ds[n]) && !SomeCommits(ds[..n])) {
      var i :| 0 <= i < |ds| && FailsQuota(ds[i]) && !SomeCommits(ds[..i]);
      assert FailsQuota(ds[..n][i]) && !SomeCommits(ds[..n][..i]);
    }
  }

  lemma {:induction false} QuotaOutcome(t: Ticket, ds: seq<Delivery>)
    requires t.orders == 0 && t.queued && t.seckill && t.quota.InFlight?
    ensures var r := DeliverAll(t, ds);
      && (r.quota.GivenBack? <==> SomeFailsQuotaFirst(ds))
      && (!SomeCommits(ds) && !r.quota.GivenBack? ==> r.quota.InFlight?)
  {
    if ds != [] {
      var rest, d := ds[..|ds| - 1], ds[|ds| - 1];
      var before := DeliverAll(t, rest);
      Outcome(t, rest);
      QuotaOutcome(t, rest);
      CommitsFirstOrLast(ds);
      FailsQuotaFirstOrLast(ds);
      if before.quota.GivenBack? || SomeCommits(rest) || Commits(d) {
        KeepsGivenBack(before, d);
      } else {
        DeliveryQuota(before, d);
      }
    }
  }

  /** A seckill order still has its quota exactly if the same holds of the aborts that got as far as giving the
      quota back. Otherwise its ticket was out of the in-flight set when it was committed, which leaves Redis one
      item over. */
  lemma CommittedQuotaIsHeldIff(written: bool, publish: Publish, itemsBack: bool, quotaBack: bool, ds: seq<Delivery>)
    requires DeliverAll(Enqueue(true, written, publish, itemsBack, quotaBack), ds).orders > 0
    ensures !DeliverAll(Enqueue(true, written, publish, itemsBack, quotaBack), ds).quota.GivenBack? <==>
      (publish == Sent || !quotaBack) && forall i :: 0 <= i < |ds| && FailsQuota(ds[i]) ==> SomeCommits(ds[..i])
  {
    var t := Enqueue(true, written, publish, itemsBack, quotaBack);
    if !t.queued {
      NothingWithoutTheMessage(t, ds);
    } else if publish == Sent || !quotaBack {
      QuotaOutcome(t, ds);
    } else {
      GivenBackAllAlong(t, ds);
    }
  }

  lemma {:induction false} GivenBackAllAlong(t: Ticket, ds: seq<Delivery>)
    requires t.queued && t.quota.GivenBack?
    ensures DeliverAll(t, ds).quota.GivenBack? && DeliverAll(t, ds).queued
  {
    if ds != [] {
      GivenBackAllAlong(t, ds[..|ds| - 1]);
      KeepsGivenBack(DeliverAll(t, ds[..|ds| - 1]), ds[|ds| - 1]);
      DeliveryCounts(DeliverAll(t, ds[..|ds| - 1]), ds[|ds| - 1]);
    }
  }

  lemma FreedByTwo(x: Delivery, y: Delivery)
    requires Frees(x)
    ensures FreedBefore([x, y]) == if Frees(y) then 2 else 1
    ensures !SomeCommits([x])
  {
    assert [x][..0] == [] && [x, y][..1] == [x];
    assert FreedBefore([x]) == 1 by {
      assert FreedBefore([]) == 0 && !SomeCommits([]);
    }
    assert [x, y][|[x, y]| - 1] == y;
  }

  /** Why: a task that could not be settled, or whose transaction was rolled back, and is delivered again while it
      is still young becomes an order whose items, and whose quota, are free; so does one whose sent message was
      taken for unsent; and one that is aborted twice gives its items back twice. */
  lemma RedeliveredAbortOversells(seckill: bool, gone: Delivery, again: Delivery)
    requires FailsQuota(gone) && Frees(gone) && !gone.w.stale && Commits(again)
    ensures Aging([gone, again])
    ensures var r := DeliverAll(Enqueue(seckill, true, Sent, true, true), [gone, again]);
      r.orders == 1 && r.releases == 1 && (seckill ==> r.quota.GivenBack?)
    ensures var r := DeliverAll(Enqueue(seckill, true, SentLost, true, true), [again]);
      r.orders == 1 && r.releases == 1 && (seckill ==> r.quota.GivenBack?)
    ensures DeliverAll(Enqueue(seckill, true, Sent, true, true), [gone, gone]).releases == 2
  {
    var t, u := Enqueue(seckill, true, Sent, true, true), Enqueue(seckill, true, SentLost, true, true);
    var both, twice := [gone, again], [gone, gone];
    FreedByTwo(gone, again);
    FreedByTwo(gone, gone);
    assert both[1] == again && [again][0] == again && [again][..0] == [];
    Outcome(t, both);
    Outcome(t, twice);
    Outcome(u, [again]);
    if seckill {
      QuotaOutcome(t, both);
      assert FailsQuota(both[0]) && !SomeCommits(both[..0]);
      GivenBackAllAlong(u, [again]);
    }
  }

  /** A sent task has neither order nor release exactly while no delivery has committed or given the items back; and
      it ends in exactly one of them exactly if one commits with no release before it, or none commits and one
      releases. */
  lemma OrderOrRelease(seckill: bool, ds: seq<Delivery>)
    ensures var r := DeliverAll(Enqueue(seckill, true, Sent, true, true), ds);
      && (r.orders + r.releases == 0 <==> forall i :: 0 <= i < |ds| ==> !Commits(ds[i]) && !Frees(ds[i]))
      && (r.orders + r.releases == 1 <==> if SomeCommits(ds) then FreedBefore(ds) == 0 else FreedBefore(ds) == 1)
  {
    Outcome(Enqueue(seckill, true, Sent, true, true), ds);
    NothingFreedBefore(ds);
  }

  // ---- How enqueueing and one whole delivery end ----

  /** An enqueued task is reserved, marked and pending; one that fails has all of that undone as far as the calls take
      effect, and is reported failed if its ticket was written. Its message is out exactly if the ticket was written and
      the broker has it, whatever was reported. */
  lemma EnqueueEndsAs(seckill: bool, written: bool, publish: Publish, itemsBack: bool, quotaBack: bool)
    ensures var t := Enqueue(seckill, written, publish, itemsBack, quotaBack);
      && t.orders == 0 && t.reserves == 1 && t.seckill == seckill
      && (t.queued <==> written && publish != NotSent)
      && (t.marked <==> written && publish == Sent)
      && t.releases == (if (!written || publish != Sent) && itemsBack then 1 else 0)
      && t.quota == (if !seckill then NoQuota else if (!written || publish != Sent) && quotaBack then GivenBack
                     else InFlight)
      && t.status == if !written then Unwritten else if publish == Sent then Pending else Failed
  {
  }

  lemma ApplyOne(t: Ticket, e: Effect)
    ensures ApplyAll(t, [e]) == Apply(t, e)
  {
    assert [e][..0] == [];
  }

  lemma ApplyFirst(t: Ticket, e: Effect, rest: seq<Effect>)
    ensures ApplyAll(t, [e] + rest) == ApplyAll(Apply(t, e), rest)
  {
    ApplyOne(t, e);
    ApplyAllConcat(t, [e], rest);
  }

  lemma FinishEndsAs(t: Ticket)
    ensures ApplyAll(t, Finish(t)) ==
      t.(marked := false, status := Ok, quota := if t.seckill && t.quota.InFlight? then Settled else t.quota)
  {
    var rest := (if t.seckill then [SettleQuota] else []) + [PutOk];
    assert Finish(t) == [Unmark] + rest;
    ApplyFirst(t, Unmark, rest);
    if t.seckill {
      ApplyFirst(Apply(t, Unmark), SettleQuota, [PutOk]);
      ApplyOne(Apply(Apply(t, Unmark), SettleQuota), PutOk);
    } else {
      assert rest == [PutOk];
      ApplyOne(Apply(t, Unmark), PutOk);
    }
  }

  lemma AbortEndsAs(t: Ticket, w: World)
    ensures ApplyAll(t, Abort(t, w)) ==
      t.(releases := t.releases + (if w.itemsBack then 1 else 0), marked := false, status := Failed,
         quota := if t.seckill && t.quota.InFlight? && w.quotaBack then GivenBack else t.quota)
  {
    var t1 := Apply(t, ItemsCall(w));
    var t2 := Apply(t1, Unmark);
    if t.seckill {
      assert Abort(t, w) == [ItemsCall(w)] + ([Unmark] + ([QuotaCall(w)] + [PutFailed]));
      ApplyFirst(t, ItemsCall(w), [Unmark] + ([QuotaCall(w)] + [PutFailed]));
      ApplyFirst(t1, Unmark, [QuotaCall(w)] + [PutFailed]);
      ApplyFirst(t2, QuotaCall(w), [PutFailed]);
      ApplyOne(Apply(t2, QuotaCall(w)), PutFailed);
    } else {
      assert Abort(t, w) == [ItemsCall(w)] + ([Unmark] + [PutFailed]);
      ApplyFirst(t, ItemsCall(w), [Unmark] + [PutFailed]);
      ApplyFirst(t1, Unmark, [PutFailed]);
      ApplyOne(t2, PutFailed);
    }
  }

  /** The order is there and reported: its ticket is Ok, off the queue's books, its seckill quota settled. */
  predicate Reported(t: Ticket, r: Ticket, orders: nat) {
    r == t.(orders := orders, marked := false, status := Ok,
            quota := if t.seckill && t.quota.InFlight? then Settled else t.quota)
  }

  /** Neither order nor anything against making one. */
  predicate Sound(t: Ticket, w: World) {
    w.lookup && t.orders == 0 && !w.stale && w.settled
  }

  lemma CommitEndsAs(t: Ticket, w: World)
    requires Sound(t, w) && w.tx != RolledBack
    ensures ApplyAll(t, Plan(t, w)) ==
      if w.tx == Committed || w.recheck then ApplyAll(t.(orders := 1), Finish(t)) else t.(orders := 1)
  {
    var made := t.(orders := 1);
    if w.tx == Committed {
      assert Plan(t, w) == [Persist] + ([Schedule] + Finish(t));
      ApplyFirst(t, Persist, [Schedule] + Finish(t));
      ApplyFirst(made, Schedule, Finish(t));
    } else if w.recheck {
      assert Plan(t, w) == [Persist] + Finish(t);
      ApplyFirst(t, Persist, Finish(t));
    } else {
      assert Plan(t, w) == [Persist];
      ApplyOne(t, Persist);
    }
  }

  /** How a whole delivery ends: without a readable order table it does nothing; it reports an order that is there, or
      that it makes and knows of; it gives up a task that is too old, cannot be settled, or was rolled back and has no
      order; and when the transaction failed and the table cannot be read again it leaves things as they are. */
  lemma DeliveryEndsAs(t: Ticket, w: World)
    ensures var r := ApplyAll(t, Plan(t, w));
      && (!w.lookup ==> r == t)
      && (w.lookup && t.orders > 0 ==> Reported(t, r, t.orders))
      && (Sound(t, w) && (w.tx == Committed || (w.tx == CommitLost && w.recheck)) ==> Reported(t, r, 1))
      && (Sound(t, w) && w.tx == CommitLost && !w.recheck ==> r == t.(orders := 1))
      && (Sound(t, w) && w.tx == RolledBack && !w.recheck ==> r == t)
      && (w.lookup && t.orders == 0 && (w.stale || !w.settled || (w.tx == RolledBack && w.recheck)) ==>
            r == t.(releases := t.releases + (if w.itemsBack then 1 else 0), marked := false, status := Failed,
                    quota := if t.seckill && t.quota.InFlight? && w.quotaBack then GivenBack else t.quota))
  {
    if w.lookup && t.orders > 0 {
      FinishEndsAs(t);
    } else if Sound(t, w) && w.tx != RolledBack {
      CommitEndsAs(t, w);
      FinishEndsAs(t.(orders := 1));
      assert Finish(t.(orders := 1)) == Finish(t);
    } else {
      AbortEndsAs(t, w);
    }
  }

  // ---- The handler as it runs ----

  class Handler {
    var ticket: Ticket
    var left: nat

    constructor (t: Ticket, steps: nat)
      ensures ticket == t && left == steps
    {
      ticket, left := t, steps;
    }

    /** One effect, unless the process has crashed. */
    method Do(e: Effect)
      modifies this
      ensures ticket == if old(left) > 0 then Apply(old(ticket), e) else old(ticket)
      ensures left == if old(left) > 0 then old(left) - 1 else 0
    {
      if left > 0 {
        ticket := Apply(ticket, e);
        left := left - 1;
      }
    }

    /** One more effect of the task that started at `t` with `n` effects to go. */
    method Then(e: Effect, ghost t: Ticket, ghost done: seq<Effect>, ghost n: nat) returns (ghost more: seq<Effect>)
      requires ticket == CutShort(t, done, n) && left == if n > |done| then n - |done| else 0
      modifies this
      ensures more == done + [e] && ticket.seckill == old(ticket).seckill
      ensures ticket == CutShort(t, more, n) && left == if n > |more| then n - |more| else 0
    {
      Do(e);
      OneMore(t, done, e, n);
      more := done + [e];
    }

    method FinishTask()
      modifies this
      ensures ticket == CutShort(old(ticket), Finish(old(ticket)), old(left))
    {
      ghost var t, n := ticket, left;
      ghost var done := Then(Unmark, t, [], n);
      if ticket.seckill {
        done := Then(SettleQuota, t, done, n);
      }
      done := Then(PutOk, t, done, n);
      assert done == Finish(t);
    }

    method AbortTask(w: World)
      modifies this
      ensures ticket == CutShort(old(ticket), Abort(old(ticket), w), old(left))
    {
      ghost var t, n := ticket, left;
      ghost var done := Then(ItemsCall(w), t, [], n);
      done := Then(Unmark, t, done, n);
      if ticket.seckill {
        done := Then(QuotaCall(w), t, done, n);
      }
      done := Then(PutFailed, t, done, n);
      AbortInOrder(t, w);
    }

    /** The order transaction has failed, or says so: look the ticket up again before undoing anything. */
    method RecheckTicket(w: World)
      requires ticket.orders == 0 && w.lookup && !w.stale && w.settled && w.tx != Committed
      modifies this
      ensures ticket == CutShort(old(ticket), Plan(old(ticket), w), old(left))
    {
      ghost var t, n := ticket, left;
      if w.tx == RolledBack {
        if w.recheck {
          AbortTask(w);
        }
        return;
      }
      Do(Persist);
      OneMore(t, [], Persist, n);
      assert [] + [Persist] == [Persist];
      if w.recheck {
        FinishTask();
        Resume(t, [Persist], Finish(t), n);
      } else {
        assert [Persist] + [] == [Persist];
      }
    }

    /** The transaction has committed: schedule the cancellation and report success. */
    method PersistAndFinish()
      modifies this
      ensures ticket == CutShort(old(ticket), [Persist, Schedule] + Finish(old(ticket)), old(left))
    {
      ghost var t, n := ticket, left;
      Do(Persist);
      OneMore(t, [], Persist, n);
      assert [] + [Persist] == [Persist];
      Do(Schedule);
      OneMore(t, [Persist], Schedule, n);
      assert [Persist] + [Schedule] == [Persist, Schedule];
      FinishTask();
      Resume(t, [Persist, Schedule], Finish(t), n);
    }

    method HandleAsyncOrderTask(w: World)
      modifies this
      ensures ticket == CutShort(old(ticket), Plan(old(ticket), w), old(left))
    {
      if !w.lookup {
        return;
      }
      if ticket.orders > 0 {
        FinishTask();
        return;
      }
      if w.stale {
        AbortTask(w);
        return;
      }
      if !w.settled {
        AbortTask(w);
        return;
      }
      if w.tx != Committed {
        RecheckTicket(w);
        return;
      }
      PersistAndFinish();
    }
  }

  lemma AbortInOrder(t: Ticket, w: World)
    ensures t.seckill ==> Abort(t, w) == [] + [ItemsCall(w)] + [Unmark] + [QuotaCall(w)] + [PutFailed]
    ensures !t.seckill ==> Abort(t, w) == [] + [ItemsCall(w)] + [Unmark] + [PutFailed]
  {
  }

  function CutShort(t: Ticket, effects: seq<Effect>, n: nat): Ticket {
    ApplyAll(t, if n < |effects| then effects[..n] else effects)
  }

  lemma OneMore(t: Ticket, done: seq<Effect>, e: Effect, n: nat)
    ensures CutShort(t, done + [e], n) == if n > |done| then Apply(CutShort(t, done, n), e) else CutShort(t, done, n)
  {
    if n > |done| {
      assert (done + [e])[..|done|] == done;
    } else if n == |done| {
      assert (done + [e])[..n] == done;
    } else {
      assert (done + [e])[..n] == done[..n];
    }
  }

  lemma {:induction false} ApplyAllConcat(t: Ticket, xs: seq<Effect>, ys: seq<Effect>)
    ensures ApplyAll(t, xs + ys) == ApplyAll(ApplyAll(t, xs), ys)
  {
    if ys == [] {
      assert xs + ys == xs;
    } else {
      assert (xs + ys)[..|xs + ys| - 1] == xs + ys[..|ys| - 1];
      ApplyAllConcat(t, xs, ys[..|ys| - 1]);
    }
  }

  lemma Resume(t: Ticket, done: seq<Effect>, rest: seq<Effect>, n: nat)
    ensures CutShort(t, done + rest, n) == CutShort(CutShort(t, done, n), rest, if n > |done| then n - |done| else 0)
  {
    if n <= |done| {
      assert (done + rest)[..n] == done[..n];
      assert rest[..0] == [];
      assert n == |done| ==> done[..n] == done;
      assert rest == [] ==> done + rest == done;
    } else if n < |done + rest| {
      assert (done + rest)[..n] == done + rest[..n - |done|];
      ApplyAllConcat(t, done, rest[..n - |done|]);
    } else {
      ApplyAllConcat(t, done, rest);
    }
  }
}

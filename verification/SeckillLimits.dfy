/** Two families of reachable states that show why the conditions of the seckill results are there: one item, one per
    user; user a's ticket survives a data loss and is committed after Redis was re-heated from a stale view. */
module SeckillLimits {
  import opened Results
  import opened Seckill
  import opened SeckillRuns
  import opened SeckillExact

  ghost function Fresh(num: nat, limit: nat): Db {
    Db(num, limit, 0, map[], map[])
  }

  ghost function Built(num: nat, limit: nat, a: Member, id: nat): Db {
    Db(num, limit, 1, map[a.user := 1], map[id := Row(a.user, a.ticket, true)])
  }

  ghost function Hot(num: nat): Redis {
    Redis(Some(num), map[], {}, {}, 1)
  }

  /** a grabs, Redis loses everything and is re-heated while the task is still queued. */
  ghost function Reheated(num: nat, limit: nat, a: Member): Sys {
    Sys(Hot(num), Fresh(num, limit), map[a.ticket := a.user], {a}, {}, {}, {Fresh(num, limit)}, None)
  }

  ghost function Grabbed(num: nat, limit: nat, a: Member): Sys {
    Sys(Redis(Some(num - 1), map[a.user := 1], {a}, {}, 2), Fresh(num, limit), map[a.ticket := a.user], {a}, {}, {},
      {}, None)
  }

  lemma GrabbedIsReachable(num: nat, limit: nat, a: Member)
    requires num >= 1 && limit >= 1
    ensures Reachable(Init(num, limit), Grabbed(num, limit, a))
  {
    var s0 := Init(num, limit);
    assert After(s0, []) == s0;
    GrabFirst(num, limit, a);
    ReachStep(s0, s0, GrabQuota(a));
  }

  lemma ReheatedIsReachable(num: nat, limit: nat, a: Member)
    requires num >= 1 && limit >= 1
    ensures Reachable(Init(num, limit), Reheated(num, limit, a))
  {
    var s0, s1 := Init(num, limit), Grabbed(num, limit, a);
    GrabbedIsReachable(num, limit, a);
    ReachStep(s0, s1, LoseRedis);
    var s2 := s1.(redis := EMPTY_REDIS);
    ReachStep(s0, s2, ReadForPreheat);
    var s3 := s2.(previews := {Fresh(num, limit)});
    assert Apply(s2, ReadForPreheat) == s3;
    ReachStep(s0, s3, RunPreheat(Fresh(num, limit)));
    HotFromFresh(num, limit);
    assert Apply(s3, RunPreheat(Fresh(num, limit))) == Reheated(num, limit, a);
  }

  lemma HotFromFresh(num: nat, limit: nat)
    ensures Preheat(EMPTY_REDIS, Fresh(num, limit)) == Hot(num)
  {
    assert ClosedIds(Fresh(num, limit)) == {};
  }

  lemma GrabFirst(num: nat, limit: nat, a: Member)
    requires num >= 1 && limit >= 1
    ensures Apply(Init(num, limit), GrabQuota(a)) == Grabbed(num, limit, a)
  {
    HotFromFresh(num, limit);
    assert Init(num, limit) == Sys(Hot(num), Fresh(num, limit), map[], {}, {}, {}, {}, None);
  }

  lemma BuiltSets(num: nat, limit: nat, a: Member, id: nat)
    ensures Tickets(Built(num, limit, a, id)) == {a.ticket} && ClosedIds(Built(num, limit, a, id)) == {}
  {
    assert Built(num, limit, a, id).orders[id].ticket in Tickets(Built(num, limit, a, id));
  }

  /** What is held against `Built` when the in-flight set is empty or only holds b. */
  lemma BuiltHeld(num: nat, limit: nat, a: Member, b: Member, id: nat, r: Redis, u: nat)
    requires a.ticket != b.ticket && (r.inflight == {} || r.inflight == {b}) && r.returned == {}
    ensures Held(r, Built(num, limit, a, id)) == |r.inflight|
    ensures HeldBy(r, Built(num, limit, a, id), u) == if u == b.user then |r.inflight| else 0
  {
    BuiltSets(num, limit, a, id);
    assert Pending(r.inflight, {a.ticket}) == r.inflight;
    assert PendingOf(r.inflight, {a.ticket}, u) == if u == b.user then r.inflight else {};
    assert Unreturned(Built(num, limit, a, id), {}) == {} && UnreturnedOf(Built(num, limit, a, id), {}, u) == {};
  }

  lemma CommitBuilds(num: nat, limit: nat, a: Member, id: nat)
    requires num >= 1 && limit >= 1
    ensures Commit(Fresh(num, limit), a, id) == Success(Built(num, limit, a, id))
  {
  }

  // ---- A repair while an abort is outstanding ----

  ghost function Oversold(b: Member): Redis {
    Redis(Some(0), map[b.user := 1], {b}, {}, 2)
  }

  ghost predicate TwoUsers(a: Member, b: Member) {
    a.ticket != b.ticket && a.user != b.user
  }

  ghost function Rejected(num: nat, limit: nat, a: Member, b: Member, id: nat): Sys {
    Sys(Oversold(b), Built(num, limit, a, id), map[a.ticket := a.user, b.ticket := b.user], {}, {b}, {},
      {Fresh(num, limit)}, None)
  }

  lemma RejectedIsReachable(num: nat, limit: nat, a: Member, b: Member, id: nat)
    requires num == 1 && limit >= 1 && TwoUsers(a, b)
    ensures Reachable(Init(num, limit), Rejected(num, limit, a, b, id))
  {
    var s0, s1 := Init(num, limit), Reheated(num, limit, a);
    ReheatedIsReachable(num, limit, a);
    ReachStep(s0, s1, GrabQuota(b));
    var s2 := s1.(redis := Oversold(b), owner := map[a.ticket := a.user, b.ticket := b.user], live := {a, b});
    assert Apply(s1, GrabQuota(b)) == s2;
    ReachStep(s0, s2, CommitTask(a, id));
    CommitBuilds(num, limit, a, id);
    var s3 := s2.(db := Built(num, limit, a, id), live := {b});
    assert Apply(s2, CommitTask(a, id)) == s3;
    ReachStep(s0, s3, CommitTask(b, id + 1));
    assert Commit(Built(num, limit, a, id), b, id + 1) == Failure(SoldOut);
    assert Apply(s3, CommitTask(b, id + 1)) == Rejected(num, limit, a, b, id);
  }

  lemma OversoldFix(num: nat, limit: nat, a: Member, b: Member, id: nat)
    requires num == 1 && limit >= 1 && TwoUsers(a, b)
    ensures FixArgs(Oversold(b), Built(num, limit, a, id), -1, map[a.user := 1])
    ensures Fix(Oversold(b), 2, -1, map[a.user := 1]) == Redis(Some(-1), map[a.user := 1, b.user := 1], {b}, {}, 3)
  {
    var r, d := Oversold(b), Built(num, limit, a, id);
    BuiltHeld(num, limit, a, b, id, r, 0);
    forall u ensures (if u in map[a.user := 1] then 1 else Count(r.users, u)) == Bought(d, u) + HeldBy(r, d, u) {
      BuiltHeld(num, limit, a, b, id, r, u);
    }
    assert Overwrite(map[b.user := 1], map[a.user := 1]) == map[a.user := 1, b.user := 1];
  }

  lemma RepairedIsReachable(num: nat, limit: nat, a: Member, b: Member, id: nat)
    requires num == 1 && limit >= 1 && TwoUsers(a, b)
    ensures Reachable(Init(num, limit), Rejected(num, limit, a, b, id).(
              redis := Redis(Some(-1), map[a.user := 1, b.user := 1], {b}, {}, 3),
              recon := Some(Recon(Oversold(b), Some(Built(num, limit, a, id)), false, multiset{}))))
  {
    var s0, s1 := Init(num, limit), Rejected(num, limit, a, b, id);
    RejectedIsReachable(num, limit, a, b, id);
    ReachStep(s0, s1, SnapRedis);
    var s2 := Apply(s1, SnapRedis);
    ReachStep(s0, s2, SnapDb);
    var s3 := Apply(s2, SnapDb);
    OversoldFix(num, limit, a, b, id);
    ReachStep(s0, s3, RunFix(-1, map[a.user := 1]));
  }

  /** Run after a repair, a sold-out abort takes an item that is no longer too many. */
  lemma AbortAfterRepairUndersells(num: nat, limit: nat, a: Member, b: Member, id: nat)
    requires num == 1 && limit >= 1 && TwoUsers(a, b)
    ensures exists s: Sys ::
      && Reachable(Init(num, limit), s) && b in s.soldOut && b in s.redis.inflight && s.redis.stock.Some?
      && StockDrift(s.redis, s.db) == 0 && StockDrift(Release(s.redis, b, false, true), s.db) == -1
  {
    var r := Redis(Some(-1), map[a.user := 1, b.user := 1], {b}, {}, 3);
    RepairedIsReachable(num, limit, a, b, id);
    BuiltHeld(num, limit, a, b, id, r, 0);
    BuiltSets(num, limit, a, id);
    ReleaseMovesDrift(r, Built(num, limit, a, id), b, false, true);
  }

  // ---- A repair across a data loss ----

  lemma HotFix(num: nat, limit: nat, a: Member, id: nat)
    requires num >= 1 && limit >= 1
    ensures FixArgs(Hot(num), Built(num, limit, a, id), -1, map[a.user := 1])
  {
    var b := Member(a.user + 1, a.ticket + 1);
    BuiltHeld(num, limit, a, b, id, Hot(num), 0);
    forall u ensures (if u in map[a.user := 1] then 1 else Count(Hot(num).users, u)) ==
      Bought(Built(num, limit, a, id), u) + HeldBy(Hot(num), Built(num, limit, a, id), u) {
      BuiltHeld(num, limit, a, b, id, Hot(num), u);
    }
  }

  ghost function RightAfterLoss(num: nat, limit: nat, a: Member, id: nat): Sys {
    Sys(Redis(Some(num - 1), map[a.user := 1], {}, {}, 1), Built(num, limit, a, id), map[a.ticket := a.user], {}, {},
      {}, {Fresh(num, limit), Built(num, limit, a, id)},
      Some(Recon(Hot(num), Some(Built(num, limit, a, id)), true, multiset{})))
  }

  /** a's order is committed after re-heating, and the reconciler has read both stores. */
  ghost function ReadBoth(num: nat, limit: nat, a: Member, id: nat): Sys {
    Sys(Hot(num), Built(num, limit, a, id), map[a.ticket := a.user], {}, {}, {}, {Fresh(num, limit)},
        Some(Recon(Hot(num), Some(Built(num, limit, a, id)), false, multiset{})))
  }

  lemma ReadBothIsReachable(num: nat, limit: nat, a: Member, id: nat)
    requires num >= 1 && limit >= 1
    ensures Reachable(Init(num, limit), ReadBoth(num, limit, a, id))
  {
    var s0, s1 := Init(num, limit), Reheated(num, limit, a);
    ReheatedIsReachable(num, limit, a);
    CommitBuilds(num, limit, a, id);
    ReachStep(s0, s1, CommitTask(a, id));
    var s2 := s1.(db := Built(num, limit, a, id), live := {});
    assert Apply(s1, CommitTask(a, id)) == s2;
    ReachStep(s0, s2, SnapRedis);
    var s3 := s2.(recon := Some(Recon(Hot(num), None, false, multiset{})));
    ReachStep(s0, s3, SnapDb);
    assert Apply(s3, SnapDb) == ReadBoth(num, limit, a, id);
  }

  lemma RightAfterLossIsReachable(num: nat, limit: nat, a: Member, id: nat)
    requires num >= 1 && limit >= 1
    ensures Reachable(Init(num, limit), RightAfterLoss(num, limit, a, id))
  {
    var s0, s4 := Init(num, limit), ReadBoth(num, limit, a, id);
    ReadBothIsReachable(num, limit, a, id);
    ReachStep(s0, s4, LoseRedis);
    var s5 := s4.(redis := EMPTY_REDIS, recon := Some(s4.recon.value.(lost := true)));
    ReachStep(s0, s5, ReadForPreheat);
    var s6 := s5.(previews := {Fresh(num, limit), Built(num, limit, a, id)});
    assert Apply(s5, ReadForPreheat) == s6;
    ReachStep(s0, s6, RunPreheat(Built(num, limit, a, id)));
    HeatFromBuilt(num, limit, a, id);
  }

  lemma HeatFromBuilt(num: nat, limit: nat, a: Member, id: nat)
    requires num >= 1 && limit >= 1
    ensures Preheat(EMPTY_REDIS, Built(num, limit, a, id)) == Redis(Some(num - 1), map[a.user := 1], {}, {}, 1)
  {
    BuiltSets(num, limit, a, id);
  }

  ghost predicate OffBy(r: Redis, d: Db, drift: int) {
    r.stock.Some? && StockDrift(r, d) == drift
  }

  /** Redis loses its data between the snapshot and the script and is re-heated to the same version: the script
      applies and takes an item off a stock that was already right. */
  lemma RepairAcrossLossUndersells(num: nat, limit: nat, a: Member, id: nat)
    requires num >= 1 && limit >= 1
    ensures exists s: Sys, fix: Step ::
      && Reachable(Init(num, limit), s) && fix.RunFix? && Enabled(s, fix) && s.redis.ver == s.recon.value.snap.ver
      && OffBy(s.redis, s.db, 0) && OffBy(Apply(s, fix).redis, s.db, -1)
  {
    var s := RightAfterLoss(num, limit, a, id);
    RightAfterLossIsReachable(num, limit, a, id);
    HotFix(num, limit, a, id);
    var fix := RunFix(-1, map[a.user := 1]);
    var b := Member(a.user + 1, a.ticket + 1);
    BuiltHeld(num, limit, a, b, id, s.redis, 0);
    BuiltHeld(num, limit, a, b, id, Apply(s, fix).redis, 0);
    assert Enabled(s, fix);
  }

  // ---- A repair across a commit that its snapshot does not hold ----

  ghost predicate StrandsOne(s: Sys, delta: int, writes: map<nat, int>) {
    && FixApplies(s, delta, writes) && delta != 0
    && OffBy(s.redis, s.db, 2) && OffBy(Apply(s, RunFix(delta, writes)).redis, s.db, 1)
  }

  /** Both tasks are queued when Redis loses everything and is re-heated. */
  ghost function BothQueued(num: nat, limit: nat, a: Member, b: Member): Sys {
    Sys(Hot(num), Fresh(num, limit), map[a.ticket := a.user, b.ticket := b.user], {a, b}, {}, {},
      {Fresh(num, limit)}, None)
  }

  lemma BothQueuedIsReachable(num: nat, limit: nat, a: Member, b: Member)
    requires num >= 2 && limit >= 1 && TwoUsers(a, b)
    ensures Reachable(Init(num, limit), BothQueued(num, limit, a, b))
  {
    var s0, s1 := Init(num, limit), Reheated(num, limit, a);
    ReheatedIsReachable(num, limit, a);
    ReachStep(s0, s1, GrabQuota(b));
    var s2 := s1.(redis := Redis(Some(num - 1), map[b.user := 1], {b}, {}, 2),
                  owner := map[a.ticket := a.user, b.ticket := b.user], live := {a, b});
    assert Apply(s1, GrabQuota(b)) == s2;
    ReachStep(s0, s2, LoseRedis);
    var s3 := s2.(redis := EMPTY_REDIS);
    ReachStep(s0, s3, RunPreheat(Fresh(num, limit)));
    HotFromFresh(num, limit);
    assert Apply(s3, RunPreheat(Fresh(num, limit))) == BothQueued(num, limit, a, b);
  }

  /** a's order is committed, and the reconciler has read both stores. */
  ghost function ReadBeforeSecond(num: nat, limit: nat, a: Member, b: Member, id: nat): Sys {
    Sys(Hot(num), Built(num, limit, a, id), map[a.ticket := a.user, b.ticket := b.user], {b}, {}, {},
      {Fresh(num, limit)},
        Some(Recon(Hot(num), Some(Built(num, limit, a, id)), false, multiset{})))
  }

  lemma ReadBeforeSecondIsReachable(num: nat, limit: nat, a: Member, b: Member, id: nat)
    requires num >= 2 && limit >= 1 && TwoUsers(a, b)
    ensures Reachable(Init(num, limit), ReadBeforeSecond(num, limit, a, b, id))
  {
    var s0, s1 := Init(num, limit), BothQueued(num, limit, a, b);
    BothQueuedIsReachable(num, limit, a, b);
    CommitBuilds(num, limit, a, id);
    ReachStep(s0, s1, CommitTask(a, id));
    var s2 := s1.(db := Built(num, limit, a, id), live := {b});
    assert Apply(s1, CommitTask(a, id)) == s2;
    ReachStep(s0, s2, SnapRedis);
    var s3 := s2.(recon := Some(Recon(Hot(num), None, false, multiset{})));
    ReachStep(s0, s3, SnapDb);
    assert Apply(s3, SnapDb) == ReadBeforeSecond(num, limit, a, b, id);
  }

  lemma SecondCommits(num: nat, limit: nat, a: Member, b: Member, id: nat)
    requires num >= 2 && limit >= 1 && TwoUsers(a, b)
    ensures var s := ReadBeforeSecond(num, limit, a, b, id); var t := Apply(s, CommitTask(b, id + 1));
      && t.redis == s.redis && t.db.num == num && t.db.sold == 2
      && t.recon == Some(Recon(Hot(num), Some(Built(num, limit, a, id)), false, multiset{b.user}))
  {
    assert Commit(Built(num, limit, a, id), b, id + 1).Success?;
    assert multiset{} + multiset{b.user} == multiset{b.user};
  }

  /** Two tasks outlive a data loss; the second is committed after the reconciler has read both stores. The script
      finds its version, takes away the one item it knows to be too many, and leaves the other. */
  lemma StrandedCommitSurvivesRepair(num: nat, limit: nat, a: Member, b: Member, id: nat)
    requires num >= 2 && limit >= 1 && TwoUsers(a, b)
    ensures exists s: Sys, delta, writes :: Reachable(Init(num, limit), s) && StrandsOne(s, delta, writes)
  {
    var s0, s1 := Init(num, limit), ReadBeforeSecond(num, limit, a, b, id);
    var s := Apply(s1, CommitTask(b, id + 1));
    ReadBeforeSecondIsReachable(num, limit, a, b, id);
    ReachStep(s0, s1, CommitTask(b, id + 1));
    SecondCommits(num, limit, a, b, id);
    HotFix(num, limit, a, id);
    var writes := map[a.user := 1];
    assert FixApplies(s, -1, writes);
    var steps :| After(s0, steps) == s;
    FixLeavesStranded(num, limit, steps, -1, writes);
    assert |multiset{b.user}| == 1;
    StockOfFix(s.redis, s.db, -1, writes);
    assert StrandsOne(s, -1, writes);
  }

  /** A repair with this delta moves the stock drift by it. */
  lemma StockOfFix(r: Redis, d: Db, delta: int, writes: map<nat, int>)
    requires r.stock.Some?
    ensures Fix(r, r.ver, delta, writes).stock.Some?
    ensures StockDrift(Fix(r, r.ver, delta, writes), d) == StockDrift(r, d) + delta
  {
  }

  // ---- Runs without data loss that oversell ----

  lemma FourSteps(start: Sys, w: Step, x: Step, y: Step, z: Step)
    ensures After(start, [w, x, y, z][..3]) == Apply(Apply(Apply(start, w), x), y)
    ensures After(start, [w, x, y, z]) == Apply(Apply(Apply(Apply(start, w), x), y), z)
  {
    var steps := [w, x, y, z];
    assert steps[..|steps| - 1] == steps[..3];
    assert steps[..3][..2] == steps[..2] && steps[..2][..1] == steps[..1] && steps[..1][..0] == [];
    assert After(start, steps[..1]) == Apply(start, w);
    assert After(start, steps[..2]) == Apply(Apply(start, w), x);
  }

  /** a's quota is given back while the task is queued, and b grabs the item. */
  ghost function Regrabbed(limit: nat, a: Member, b: Member): Sys {
    Sys(Redis(Some(0), map[b.user := 1], {b}, {}, 4), Fresh(1, limit), map[a.ticket := a.user, b.ticket := b.user],
      {a, b}, {}, {}, {}, None)
  }

  lemma GivesBackAndRegrabs(limit: nat, a: Member, b: Member)
    requires limit >= 1 && TwoUsers(a, b)
    ensures Apply(Apply(Apply(Init(1, limit), GrabQuota(a)), GiveBack(a)), GrabQuota(b)) == Regrabbed(limit, a, b)
  {
    GrabFirst(1, limit, a);
    var s2 := Grabbed(1, limit, a).(redis := Redis(Some(1), map[], {}, {}, 3));
    assert Apply(Grabbed(1, limit, a), GiveBack(a)) == s2;
    assert Apply(s2, GrabQuota(b)).redis == Redis(Some(0), map[b.user := 1], {b}, {}, 4);
  }

  lemma RegrabbedCommits(limit: nat, a: Member, b: Member, id: nat)
    requires limit >= 1 && TwoUsers(a, b)
    ensures Oversells(Regrabbed(limit, a, b), CommitTask(a, id))
    ensures Apply(Regrabbed(limit, a, b), CommitTask(a, id)) ==
      Regrabbed(limit, a, b).(db := Built(1, limit, a, id), live := {b})
  {
    CommitBuilds(1, limit, a, id);
  }

  /** The quota of a's task is given back, because its sent message was taken for unsent, its abort was redelivered,
      or its ticket was marked failed, and b grabs the item before a's order is built: b, in flight, is turned
      away. */
  lemma GiveBackOversells(limit: nat, a: Member, b: Member, id: nat)
    requires limit >= 1 && TwoUsers(a, b)
    ensures var steps := [GrabQuota(a), GiveBack(a), GrabQuota(b), CommitTask(a, id)];
      var s := After(Init(1, limit), steps);
      && Lossless(steps) && !Careful(Init(1, limit), steps)
      && b in s.redis.inflight && b.ticket !in Tickets(s.db) && Commit(s.db, b, id + 1) == Failure(SoldOut)
      && OffBy(s.redis, s.db, 1)
  {
    var steps := [GrabQuota(a), GiveBack(a), GrabQuota(b), CommitTask(a, id)];
    FourSteps(Init(1, limit), steps[0], steps[1], steps[2], steps[3]);
    GivesBackAndRegrabs(limit, a, b);
    RegrabbedCommits(limit, a, b, id);
    assert OversellsAt(Init(1, limit), steps, 3);
    BuiltSets(1, limit, a, id);
    BuiltHeld(1, limit, a, b, id, Redis(Some(0), map[b.user := 1], {b}, {}, 4), 0);
  }

  /** The order is built before the producer, which takes its message for unsent, gives the quota back, and the
      ticket is still in flight: the item is sold and on offer. */
  lemma LateGiveBackOversells(num: nat, limit: nat, a: Member, id: nat)
    requires num >= 1 && limit >= 1
    ensures var steps := [GrabQuota(a), CommitTask(a, id), GiveBack(a)]; var s := After(Init(num, limit), steps);
      Lossless(steps) && !Careful(Init(num, limit), steps) && OffBy(s.redis, s.db, 1)
  {
    var steps := [GrabQuota(a), CommitTask(a, id), GiveBack(a)];
    assert steps[..2][..1] == steps[..1] && steps[..1][..0] == [];
    GrabFirst(num, limit, a);
    CommitBuilds(num, limit, a, id);
    var s0, s1 := Init(num, limit), Grabbed(num, limit, a);
    assert After(s0, steps[..1]) == s1;
    var s2 := s1.(db := Built(num, limit, a, id), live := {});
    assert After(s0, steps[..2]) == s2;
    BuiltSets(num, limit, a, id);
    assert OversellsAt(s0, steps, 2);
    var s3 := s2.(redis := Redis(Some(num), map[], {}, {}, 3));
    assert steps[..|steps| - 1] == steps[..2];
    assert After(s0, steps) == s3;
    BuiltHeld(num, limit, a, Member(a.user, a.ticket + 1), id, s3.redis, 0);
  }
}

/** Every interleaving of buyers, order consumers, order closers, the reconciler and Redis data loss over one
    seckill event. A run is any list of steps; a step whose guard fails leaves the state alone. */
module SeckillRuns {
  import opened Results
  import opened Seckill

  /** The reconciler between its reads and its script. `stranded` counts, per user, the orders committed since the
      database read for tickets that are not in the Redis snapshot; `lost` records that Redis lost its data since. */
  datatype Recon = Recon(snap: Redis, view: Option<Db>, lost: bool, stranded: multiset<nat>)

  /** `owner`: every ticket ever issued. `live`: tasks whose message is queued or being handled. `soldOut`,
      `limited`: tasks the database rejected whose quota release is outstanding. `previews`: database views read by
      preheats under way. */
  datatype Sys = Sys(redis: Redis, db: Db, owner: map<nat, nat>, live: set<Member>, soldOut: set<Member>,
                     limited: set<Member>, previews: set<Db>, recon: Option<Recon>)

  datatype Step =
    | GrabQuota(m: Member)
    | DropTask(m: Member)
    | CommitTask(m: Member, id: nat)
    | SettleTicket(m: Member)
    | AbortSoldOut(m: Member)
    | AbortLimited(m: Member)
    | GiveBack(m: Member)
    | Redeliver(m: Member)
    | CloseOrder(id: nat)
    | ReturnOrder(id: nat)
    | LoseRedis
    | ReadForPreheat
    | RunPreheat(d: Db)
    | SnapRedis
    | SnapDb
    | RunFix(delta: int, writes: map<nat, int>)

  ghost function Init(num: nat, limit: nat): Sys {
    var d := Db(num, limit, 0, map[], map[]);
    Sys(Preheat(EMPTY_REDIS, d), d, map[], {}, {}, {}, {}, None)
  }

  ghost predicate Issued(s: Sys, m: Member) {
    m.ticket in s.owner && s.owner[m.ticket] == m.user
  }

  /** The arguments fixDrift hands to the script: they bring stock and every user to the value the invariant asks
      for. */
  ghost predicate FixArgs(snap: Redis, view: Db, delta: int, writes: map<nat, int>) {
    && snap.stock.Some?
    && delta == -StockDrift(snap, view)
    && forall u :: (if u in writes then writes[u] else Count(snap.users, u)) == Bought(view, u) + HeldBy(snap, view, u)
  }

  /** GiveBack: the producer that takes its message for unsent, an abort other than by the database's refusal, and the
      reconciler give stock and user back for a ticket without asking the database whether its task may still build an
      order, or has built one. Redeliver: the message of a task without an order is handled once more. */
  ghost predicate Enabled(s: Sys, step: Step) {
    match step
    case GrabQuota(m) => m.ticket !in s.owner
    case DropTask(m) => m in s.live
    case CommitTask(m, id) => m in s.live && id !in s.db.orders
    case SettleTicket(m) => m.ticket in Tickets(s.db)
    case AbortSoldOut(m) => m in s.soldOut
    case AbortLimited(m) => m in s.limited
    case GiveBack(m) => Issued(s, m)
    case Redeliver(m) => Issued(s, m) && m.ticket !in Tickets(s.db)
    case CloseOrder(id) => id in s.db.orders
    case ReturnOrder(id) => id in ClosedIds(s.db)
    case LoseRedis => true
    case ReadForPreheat => true
    case RunPreheat(d) => d in s.previews
    case SnapRedis => s.redis.stock.Some?
    case SnapDb => s.recon.Some?
    case RunFix(delta, writes) =>
      s.recon.Some? && s.recon.value.view.Some? && FixArgs(s.recon.value.snap, s.recon.value.view.value, delta, writes)
  }

  ghost function Apply(s: Sys, step: Step): Sys {
    if !Enabled(s, step) then s else
    match step
    case GrabQuota(m) =>
      var (r, code) := Grab(s.redis, m, s.db.limit);
      if code == 1 then s.(redis := r, owner := s.owner[m.ticket := m.user], live := s.live + {m}) else s
    case DropTask(m) => s.(live := s.live - {m})
    case CommitTask(m, id) => AfterCommit(s, m, id)
    case SettleTicket(m) => s.(redis := Settle(s.redis, m))
    case AbortSoldOut(m) => s.(redis := Release(s.redis, m, false, true), soldOut := s.soldOut - {m})
    case AbortLimited(m) => s.(redis := Release(s.redis, m, true, false), limited := s.limited - {m})
    case Redeliver(m) => s.(live := s.live + {m}, soldOut := s.soldOut - {m}, limited := s.limited - {m})
    case GiveBack(m) =>
      s.(redis := Release(s.redis, m, true, true), soldOut := s.soldOut - {m}, limited := s.limited - {m})
    case CloseOrder(id) => s.(db := Close(s.db, id))
    case ReturnOrder(id) => s.(redis := Return(s.redis, s.db.orders[id].user, id))
    case LoseRedis =>
      s.(redis := EMPTY_REDIS, recon := if s.recon.None? then None else Some(s.recon.value.(lost := true)))
    case ReadForPreheat => s.(previews := s.previews + {s.db})
    case RunPreheat(d) => s.(redis := Preheat(s.redis, d))
    case SnapRedis => s.(recon := Some(Recon(s.redis, None, false, multiset{})))
    case SnapDb => s.(recon := Some(s.recon.value.(view := Some(s.db), stranded := multiset{})))
    case RunFix(delta, writes) => s.(redis := Fix(s.redis, s.recon.value.snap.ver, delta, writes))
  }

  ghost function AfterCommit(s: Sys, m: Member, id: nat): Sys {
    match Commit(s.db, m, id)
    case Success(d) => s.(db := d, live := s.live - {m}, recon := NoteCommit(s.recon, m))
    case Failure(SoldOut) => s.(live := s.live - {m}, soldOut := s.soldOut + {m})
    case Failure(LimitExceeded) => s.(live := s.live - {m}, limited := s.limited + {m})
  }

  ghost function NoteCommit(recon: Option<Recon>, m: Member): Option<Recon> {
    if recon.None? || m in recon.value.snap.inflight then recon
    else Some(recon.value.(stranded := recon.value.stranded + multiset{m.user}))
  }

  ghost function After(s: Sys, steps: seq<Step>): Sys {
    if steps == [] then s else Apply(After(s, steps[..|steps| - 1]), steps[|steps| - 1])
  }

  ghost predicate Reachable(start: Sys, s: Sys) {
    exists steps :: After(start, steps) == s
  }

  lemma ReachStep(start: Sys, s: Sys, step: Step)
    requires Reachable(start, s)
    ensures Reachable(start, Apply(s, step))
  {
    var steps :| After(start, steps) == s;
    assert (steps + [step])[..|steps|] == steps;
    assert After(start, steps + [step]) == Apply(s, step);
  }

  // ---- Bookkeeping that every run keeps ----

  ghost predicate Owned(owner: map<nat, nat>, ms: set<Member>) {
    forall m :: m in ms ==> m.ticket in owner && owner[m.ticket] == m.user
  }

  ghost predicate Unbuilt(d: Db, ms: set<Member>) {
    forall m :: m in ms ==> m.ticket !in Tickets(d)
  }

  ghost predicate TaskInv(s: Sys) {
    && Owned(s.owner, s.redis.inflight) && Owned(s.owner, s.live) && Owned(s.owner, s.soldOut)
        && Owned(s.owner, s.limited)
    && Tickets(s.db) <= s.owner.Keys
    && Unbuilt(s.db, s.live) && Unbuilt(s.db, s.soldOut) && Unbuilt(s.db, s.limited)
    && s.live !! s.soldOut && s.live !! s.limited && s.soldOut !! s.limited
    && DbInv(s.db)
    && s.redis.returned <= ClosedIds(s.db)
    && (s.redis.stock.None? ==> s.redis == EMPTY_REDIS)
  }

  /** `d` is an earlier state of the same event's rows. */
  ghost predicate Past(d: Db, now: Db) {
    && d.num == now.num && d.limit == now.limit && DbInv(d)
    && ClosedIds(d) <= ClosedIds(now)
    && d.orders.Keys <= now.orders.Keys
    && forall id :: id in d.orders ==> d.orders[id].user == now.orders[id].user
  }

  ghost predicate PastInv(s: Sys) {
    forall d :: d in s.previews ==> Past(d, s.db)
  }

  /** The drift of the snapshot against the database has moved by the stranded commits only, and an equal version
      means an equal Redis. */
  ghost predicate ReconInv(s: Sys) {
    s.recon.Some? ==>
      var c := s.recon.value;
      && c.snap.stock.Some? && Owned(s.owner, c.snap.inflight) && c.snap.returned <= ClosedIds(s.db)
      && (c.view.Some? ==> c.view.value.num == s.db.num && Moved(c.snap, c.view.value, s.db, c.stranded))
      && (!c.lost ==>
            && s.redis.stock.Some? && s.redis.ver >= c.snap.ver
            && (s.redis.ver == c.snap.ver ==> s.redis == c.snap))
  }

  ghost predicate Moved(r: Redis, from: Db, to: Db, stranded: multiset<nat>)
    requires r.stock.Some?
  {
    && StockDrift(r, to) == StockDrift(r, from) + |stranded|
    && forall u :: UserDrift(r, to, u) == UserDrift(r, from, u) - stranded[u]
  }

  lemma CommitKeepsTaskInv(s: Sys, m: Member, id: nat)
    requires TaskInv(s) && m in s.live && id !in s.db.orders
    ensures TaskInv(AfterCommit(s, m, id))
  {
    if Commit(s.db, m, id).Success? {
      var d := Commit(s.db, m, id).value;
      CommitKeepsDbInv(s.db, m, id);
      CommitSets(s.db, m, id, {});
      forall x | x in s.live - {m} || x in s.soldOut || x in s.limited ensures x.ticket !in Tickets(d) {
        assert x != m;
      }
    }
  }

  lemma CloseKeepsTaskInv(s: Sys, id: nat)
    requires TaskInv(s)
    ensures TaskInv(s.(db := Close(s.db, id)))
  {
    CloseKeepsDbInv(s.db, id);
    CloseTickets(s.db, id);
  }

  lemma PreheatKeepsTaskInv(s: Sys, d: Db)
    requires TaskInv(s) && Past(d, s.db)
    ensures TaskInv(s.(redis := Preheat(s.redis, d)))
  {
  }

  lemma StepKeepsTaskInv(s: Sys, step: Step)
    requires TaskInv(s) && PastInv(s)
    ensures TaskInv(Apply(s, step))
  {
    if Enabled(s, step) {
      match step
      case CommitTask(m, id) => CommitKeepsTaskInv(s, m, id);
      case CloseOrder(id) => CloseKeepsTaskInv(s, id);
      case RunPreheat(d) => PreheatKeepsTaskInv(s, d);
      case _ =>
    }
  }

  lemma CommitExtendsPast(d: Db, now: Db, m: Member, id: nat)
    requires Past(d, now) && Commit(now, m, id).Success? && id !in now.orders
    ensures Past(d, Commit(now, m, id).value)
  {
  }

  lemma CloseExtendsPast(d: Db, now: Db, id: nat)
    requires Past(d, now)
    ensures Past(d, Close(now, id))
  {
  }

  lemma StepKeepsPastInv(s: Sys, step: Step)
    requires TaskInv(s) && PastInv(s)
    ensures PastInv(Apply(s, step))
  {
    if Enabled(s, step) {
      forall d | d in Apply(s, step).previews ensures Past(d, Apply(s, step).db) {
        match step
        case CommitTask(m, id) =>
          if Commit(s.db, m, id).Success? {
            CommitExtendsPast(d, s.db, m, id);
          }
        case CloseOrder(id) => CloseExtendsPast(d, s.db, id);
        case _ =>
      }
    }
  }

  lemma OneOwner(owner: map<nat, nat>, ms: set<Member>, m: Member)
    requires Owned(owner, ms) && Owned(owner, {m})
    ensures forall x :: x in ms && x.ticket == m.ticket ==> x == m
  {
    assert m in {m};
  }

  lemma CommitKeepsMoved(r: Redis, from: Db, to: Db, stranded: multiset<nat>, m: Member, id: nat)
    requires r.stock.Some? && Moved(r, from, to, stranded)
    requires Commit(to, m, id).Success? && id !in to.orders && m.ticket !in Tickets(to) && id !in r.returned
    requires forall x :: x in r.inflight && x.ticket == m.ticket ==> x == m
    ensures Moved(r, from, Commit(to, m, id).value, if m in r.inflight then stranded else stranded + multiset{m.user})
  {
    CommitMovesDrift(r, to, m, id);
    var d := Commit(to, m, id).value;
    forall u
      ensures UserDrift(r, d, u) ==
        UserDrift(r, from, u) - (if m in r.inflight then stranded else stranded + multiset{m.user})[u]
    {
      assert UserDrift(r, to, u) == UserDrift(r, from, u) - stranded[u];
    }
  }

  lemma CommitKeepsReconInv(s: Sys, m: Member, id: nat)
    requires TaskInv(s) && ReconInv(s) && m in s.live && id !in s.db.orders
    ensures ReconInv(AfterCommit(s, m, id))
  {
    if Commit(s.db, m, id).Success? && s.recon.Some? {
      var c := s.recon.value;
      CommitSets(s.db, m, id, {});
      OneOwner(s.owner, c.snap.inflight, m);
      if c.view.Some? {
        CommitKeepsMoved(c.snap, c.view.value, s.db, c.stranded, m, id);
      }
    }
  }

  lemma CloseKeepsReconInv(s: Sys, id: nat)
    requires TaskInv(s) && ReconInv(s)
    ensures ReconInv(s.(db := Close(s.db, id)))
  {
    if s.recon.Some? {
      CloseKeepsDrift(s.recon.value.snap, s.db, id);
    }
  }

  lemma StepKeepsReconInv(s: Sys, step: Step)
    requires TaskInv(s) && ReconInv(s)
    ensures ReconInv(Apply(s, step))
  {
    if Enabled(s, step) {
      match step
      case CommitTask(m, id) => CommitKeepsReconInv(s, m, id);
      case CloseOrder(id) => CloseKeepsReconInv(s, id);
      case _ =>
    }
  }

  lemma {:induction false} RunKeepsBooks(num: nat, limit: nat, steps: seq<Step>)
    ensures var s := After(Init(num, limit), steps); TaskInv(s) && PastInv(s) && ReconInv(s)
  {
    if steps == [] {
      InitBooks(num, limit);
    } else {
      var n := |steps| - 1;
      RunKeepsBooks(num, limit, steps[..n]);
      var s := After(Init(num, limit), steps[..n]);
      StepKeepsTaskInv(s, steps[n]);
      StepKeepsPastInv(s, steps[n]);
      StepKeepsReconInv(s, steps[n]);
    }
  }

  // ---- The repair script ----

  /** Whatever the users' fields were, writing the computed values leaves every user at the wanted count. */
  lemma OverwriteCounts(users: map<nat, int>, writes: map<nat, int>, u: nat)
    requires u in writes ==> writes[u] >= 0
    ensures Count(Overwrite(users, writes), u) == if u in writes then writes[u] else Count(users, u)
  {
  }

  lemma FixFromSnapshot(snap: Redis, view: Db, now: Db, delta: int, writes: map<nat, int>, stranded: multiset<nat>)
    requires FixArgs(snap, view, delta, writes) && view.num == now.num && Moved(snap, view, now, stranded)
    ensures var r := Fix(snap, snap.ver, delta, writes);
      && r.stock.Some? && r.ver == snap.ver + 1 && StockDrift(r, now) == |stranded|
      && forall u :: UserDrift(r, now, u) + stranded[u] == 0
  {
    var r := Fix(snap, snap.ver, delta, writes);
    assert Held(r, now) == Held(snap, now);
    forall u ensures UserDrift(r, now, u) + stranded[u] == 0 {
      OverwriteCounts(snap.users, writes, u);
      assert UserDrift(snap, now, u) == UserDrift(snap, view, u) - stranded[u];
      assert HeldBy(r, now, u) == HeldBy(snap, now, u);
    }
  }

  ghost predicate FixApplies(s: Sys, delta: int, writes: map<nat, int>) {
    Enabled(s, RunFix(delta, writes)) && !s.recon.value.lost && s.redis.ver == s.recon.value.snap.ver
  }

  /** Main result on the repair. In any run, when the script applies and Redis lost nothing since its snapshot, the
      remaining drift is exactly the orders committed since the database read for tickets outside the snapshot:
      one item too many in stock and one too few for the user, for each. Commits of tickets in the snapshot and
      closures in between do not count. */
  lemma FixLeavesStranded(num: nat, limit: nat, steps: seq<Step>, delta: int, writes: map<nat, int>)
    requires FixApplies(After(Init(num, limit), steps), delta, writes)
    ensures var s := After(Init(num, limit), steps); var r := Apply(s, RunFix(delta, writes)).redis;
      && r.stock.Some? && r.ver == s.redis.ver + 1
      && StockDrift(r, s.db) == |s.recon.value.stranded|
      && forall u :: UserDrift(r, s.db, u) + s.recon.value.stranded[u] == 0
  {
    RunKeepsBooks(num, limit, steps);
    var s := After(Init(num, limit), steps);
    var c := s.recon.value;
    FixFromSnapshot(c.snap, c.view.value, s.db, delta, writes, c.stranded);
  }

  ghost predicate NoDrift(r: Redis, d: Db) {
    r.stock.Some? && StockDrift(r, d) == 0 && forall u :: UserDrift(r, d, u) == 0
  }

  /** The invariant holds exactly after the repair if and only if no stranded order was committed meanwhile. */
  lemma FixIsExactIff(num: nat, limit: nat, steps: seq<Step>, delta: int, writes: map<nat, int>)
    requires FixApplies(After(Init(num, limit), steps), delta, writes)
    ensures var s := After(Init(num, limit), steps);
      NoDrift(Apply(s, RunFix(delta, writes)).redis, s.db) <==> s.recon.value.stranded == multiset{}
  {
    FixLeavesStranded(num, limit, steps, delta, writes);
  }

  lemma InitBooks(num: nat, limit: nat)
    ensures TaskInv(Init(num, limit)) && PastInv(Init(num, limit)) && ReconInv(Init(num, limit))
    ensures NoDrift(Init(num, limit).redis, Init(num, limit).db)
  {
    var d := Db(num, limit, 0, map[], map[]);
    assert OpenIds(d) == {};
    forall u ensures BoughtOk(d, u) {
      assert OpenIdsOf(d, u) == {};
    }
    assert Pending({}, Tickets(d)) == {} && Unreturned(d, {}) == {};
    assert forall u :: PendingOf({}, Tickets(d), u) == {} && UnreturnedOf(d, {}, u) == {};
  }

  // ---- Bounds ----

  /** What the grab guards keep true of the keys themselves. */
  ghost predicate InBounds(r: Redis, limit: nat) {
    && (r.stock.Some? ==> r.stock.value >= 0)
    && forall u :: 0 <= Count(r.users, u) <= limit
  }

  lemma DecrCount(users: map<nat, int>, u: nat)
    ensures forall v :: v != u ==> Count(DecrUser(users, u), v) == Count(users, v)
    ensures Count(DecrUser(users, u), u) == if Count(users, u) <= 1 then 0 else Count(users, u) - 1
  {
  }

  lemma StepKeepsBounds(s: Sys, step: Step)
    requires TaskInv(s) && PastInv(s) && InBounds(s.redis, s.db.limit) && !step.RunFix?
    ensures InBounds(Apply(s, step).redis, Apply(s, step).db.limit)
  {
    if Enabled(s, step) {
      match step
      case AbortSoldOut(m) => DecrCount(s.redis.users, m.user);
      case GiveBack(m) => DecrCount(s.redis.users, m.user);
      case ReturnOrder(id) => DecrCount(s.redis.users, s.db.orders[id].user);
      case RunPreheat(d) =>
        if s.redis.stock.None? {
          forall u ensures 0 <= Count(Preheat(s.redis, d).users, u) <= s.db.limit {
            assert BoughtOk(d, u);
          }
        }
      case GrabQuota(m) =>
        if Grab(s.redis, m, s.db.limit).1 == 1 {
          forall u ensures 0 <= Count(Apply(s, step).redis.users, u) <= s.db.limit {
            assert 0 <= Count(s.redis.users, u) <= s.db.limit;
          }
        }
      case CommitTask(m, id) => assert Apply(s, step).db.limit == s.db.limit;
      case CloseOrder(id) => assert Apply(s, step).db.limit == s.db.limit;
      case _ =>
    }
  }
}

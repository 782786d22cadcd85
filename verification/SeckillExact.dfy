/** Runs in which Redis loses nothing: the documented invariant holds in every reachable state, not only at rest. */
module SeckillExact {
  import opened Results
  import opened Seckill
  import opened SeckillRuns

  /** Redis and the database agree, every outstanding rejection is of a ticket out of flight, and a repair that
      would still apply knows of every order. */
  ghost predicate Exact(s: Sys) {
    && NoDrift(s.redis, s.db) && InBounds(s.redis, s.db.limit)
    && s.soldOut !! s.redis.inflight && s.limited !! s.redis.inflight
    && (s.recon.Some? ==> !s.recon.value.lost)
    && (s.recon.Some? && s.redis.ver == s.recon.value.snap.ver ==> s.recon.value.stranded == multiset{})
  }

  /** The step sells an item that Redis offers again: an order is built for a ticket that is out of flight, or a
      ticket whose order is built is given back while it is still in flight. */
  ghost predicate Oversells(s: Sys, step: Step) {
    && Enabled(s, step)
    && match step
       case CommitTask(m, id) => m !in s.redis.inflight && Commit(s.db, m, id).Success?
       case GiveBack(m) => m in s.redis.inflight && m.ticket in Tickets(s.db)
       case _ => false
  }

  /** An unsettled in-flight ticket stands for a free item and a free slot of its user. */
  lemma PendingHasRoom(r: Redis, d: Db, m: Member)
    requires NoDrift(r, d) && InBounds(r, d.limit) && m in Pending(r.inflight, Tickets(d))
    ensures d.sold < d.num && Bought(d, m.user) < d.limit && Count(r.users, m.user) >= 1
  {
    assert m in PendingOf(r.inflight, Tickets(d), m.user);
    assert UserDrift(r, d, m.user) == 0;
  }

  lemma UnreturnedHasField(r: Redis, d: Db, id: nat)
    requires NoDrift(r, d) && id in Unreturned(d, r.returned)
    ensures Count(r.users, d.orders[id].user) >= 1
  {
    assert id in UnreturnedOf(d, r.returned, d.orders[id].user);
    assert UserDrift(r, d, d.orders[id].user) == 0;
  }

  lemma CommitKeepsExact(s: Sys, m: Member, id: nat)
    requires TaskInv(s) && ReconInv(s) && Exact(s) && m in s.live && id !in s.db.orders
    requires m in s.redis.inflight || Commit(s.db, m, id).Failure?
    ensures Exact(AfterCommit(s, m, id))
  {
    if m in s.redis.inflight {
      PendingHasRoom(s.redis, s.db, m);
      OneOwner(s.owner, s.redis.inflight, m);
      CommitMovesDrift(s.redis, s.db, m, id);
    }
  }

  lemma FixKeepsExact(s: Sys, delta: int, writes: map<nat, int>)
    requires TaskInv(s) && ReconInv(s) && Exact(s) && Enabled(s, RunFix(delta, writes))
    ensures Exact(Apply(s, RunFix(delta, writes)))
  {
    var c := s.recon.value;
    var r := Apply(s, RunFix(delta, writes)).redis;
    if s.redis.ver == c.snap.ver {
      FixFromSnapshot(c.snap, c.view.value, s.db, delta, writes, c.stranded);
      assert delta == 0;
      forall u ensures UserDrift(r, s.db, u) == 0 && Count(r.users, u) == Count(s.redis.users, u) {
        assert UserDrift(r, s.db, u) + c.stranded[u] == 0;
        assert UserDrift(s.redis, s.db, u) == 0;
        assert HeldBy(r, s.db, u) == HeldBy(s.redis, s.db, u);
      }
    }
  }

  lemma RedisStepKeepsNoDrift(s: Sys, step: Step)
    requires TaskInv(s) && Exact(s) && !Oversells(s, step)
    requires step.GrabQuota? || step.SettleTicket? || step.GiveBack? || step.ReturnOrder?
    ensures NoDrift(Apply(s, step).redis, s.db)
  {
    if Enabled(s, step) {
      match step
      case GrabQuota(m) =>
        if Grab(s.redis, m, s.db.limit).1 == 1 {
          GrabKeepsDrift(s.redis, s.db, m);
        }
      case SettleTicket(m) => SettleKeepsDrift(s.redis, s.db, m);
      case GiveBack(m) =>
        if m in s.redis.inflight {
          PendingHasRoom(s.redis, s.db, m);
          ReleaseMovesDrift(s.redis, s.db, m, true, true);
        }
      case ReturnOrder(id) =>
        if id !in s.redis.returned {
          UnreturnedHasField(s.redis, s.db, id);
        }
        ReturnMovesDrift(s.redis, s.db, id);
      case _ =>
    }
  }

  lemma StepKeepsExact(s: Sys, step: Step)
    requires TaskInv(s) && PastInv(s) && ReconInv(s) && Exact(s) && !step.LoseRedis? && !Oversells(s, step)
    ensures Exact(Apply(s, step))
  {
    if Enabled(s, step) {
      match step
      case CommitTask(m, id) => CommitKeepsExact(s, m, id);
      case RunFix(delta, writes) => FixKeepsExact(s, delta, writes);
      case CloseOrder(id) => CloseKeepsDrift(s.redis, s.db, id);
      case GrabQuota(_) | SettleTicket(_) | GiveBack(_) | ReturnOrder(_) =>
        RedisStepKeepsNoDrift(s, step);
        StepKeepsBounds(s, step);
      case _ =>
    }
  }

  /** From an exact state such a step leaves the stock one item over. */
  lemma OversellingStepDrifts(s: Sys, step: Step)
    requires TaskInv(s) && Exact(s) && Oversells(s, step)
    ensures Apply(s, step).redis.stock.Some? && StockDrift(Apply(s, step).redis, Apply(s, step).db) == 1
  {
    match step
    case CommitTask(m, id) =>
      OneOwner(s.owner, s.redis.inflight, m);
      CommitMovesDrift(s.redis, s.db, m, id);
    case GiveBack(m) => ReleaseBuiltMovesDrift(s.redis, s.db, m);
  }

  // ---- Runs ----

  ghost predicate Lossless(steps: seq<Step>) {
    LoseRedis !in steps
  }

  ghost predicate OversellsAt(start: Sys, steps: seq<Step>, k: nat)
    requires k < |steps|
  {
    Oversells(After(start, steps[..k]), steps[k])
  }

  /** No step of the run oversells. */
  ghost predicate Careful(start: Sys, steps: seq<Step>) {
    forall k :: 0 <= k < |steps| ==> !OversellsAt(start, steps, k)
  }

  ghost predicate AlwaysExact(start: Sys, steps: seq<Step>) {
    forall k :: 0 <= k <= |steps| ==> NoDrift(After(start, steps[..k]).redis, After(start, steps[..k]).db)
  }

  lemma CarefulPrefix(start: Sys, steps: seq<Step>, n: nat)
    requires Careful(start, steps) && n <= |steps|
    ensures Careful(start, steps[..n])
  {
    BeforeFirst(start, steps, n);
  }

  lemma {:induction false} RunIsExact(num: nat, limit: nat, steps: seq<Step>)
    requires Lossless(steps) && Careful(Init(num, limit), steps)
    ensures Exact(After(Init(num, limit), steps))
  {
    if steps == [] {
      InitBooks(num, limit);
      assert Init(num, limit).redis.users == map[];
    } else {
      var n := |steps| - 1;
      CarefulPrefix(Init(num, limit), steps, n);
      RunIsExact(num, limit, steps[..n]);
      RunKeepsBooks(num, limit, steps[..n]);
      assert !OversellsAt(Init(num, limit), steps, n);
      StepKeepsExact(After(Init(num, limit), steps[..n]), steps[n]);
    }
  }

  /** Main result: the documented invariant holds in every state of a run without data loss, not only at rest, if
      and only if no order in it was built for a ticket out of flight and no ticket in flight with an order was
      given back. */
  lemma RunIsExactIff(num: nat, limit: nat, steps: seq<Step>)
    requires Lossless(steps)
    ensures AlwaysExact(Init(num, limit), steps) <==> Careful(Init(num, limit), steps)
  {
    var start := Init(num, limit);
    if Careful(start, steps) {
      forall k | 0 <= k <= |steps| ensures NoDrift(After(start, steps[..k]).redis, After(start, steps[..k]).db) {
        CarefulPrefix(start, steps, k);
        RunIsExact(num, limit, steps[..k]);
      }
    } else {
      var k := FirstOversell(start, steps, |steps|);
      BeforeFirst(start, steps, k);
      RunIsExact(num, limit, steps[..k]);
      RunKeepsBooks(num, limit, steps[..k]);
      OversellingStepDrifts(After(start, steps[..k]), steps[k]);
      assert steps[..k + 1][..k] == steps[..k];
      assert After(start, steps[..k + 1]) == Apply(After(start, steps[..k]), steps[k]);
    }
  }

  lemma {:induction false} FirstOversell(start: Sys, steps: seq<Step>, n: nat) returns (k: nat)
    requires n <= |steps| && exists j :: 0 <= j < n && OversellsAt(start, steps, j)
    ensures k < n && OversellsAt(start, steps, k) && forall j :: 0 <= j < k ==> !OversellsAt(start, steps, j)
  {
    k := n - 1;
    if exists j :: 0 <= j < n - 1 && OversellsAt(start, steps, j) {
      k := FirstOversell(start, steps, n - 1);
    }
  }

  lemma BeforeFirst(start: Sys, steps: seq<Step>, n: nat)
    requires n <= |steps| && forall j :: 0 <= j < n ==> !OversellsAt(start, steps, j)
    ensures Careful(start, steps[..n])
  {
    forall j | 0 <= j < n ensures !OversellsAt(start, steps[..n], j) {
      assert steps[..n][..j] == steps[..j];
      assert !OversellsAt(start, steps, j);
    }
  }

  /** In such a run no ticket in flight can be turned away by the database. */
  lemma NoLossNeverRejects(num: nat, limit: nat, steps: seq<Step>, m: Member, id: nat)
    requires Lossless(steps) && Careful(Init(num, limit), steps)
    requires var s := After(Init(num, limit), steps); m in s.redis.inflight && m.ticket !in Tickets(s.db)
    ensures var s := After(Init(num, limit), steps);
      && NoDrift(s.redis, s.db)
      && s.db.sold < s.db.num && Bought(s.db, m.user) < s.db.limit
      && Commit(s.db, m, id).Success?
  {
    RunIsExact(num, limit, steps);
    var s := After(Init(num, limit), steps);
    PendingHasRoom(s.redis, s.db, m);
  }

  lemma StepKeepsSize(s: Sys, step: Step)
    ensures Apply(s, step).db.num == s.db.num && Apply(s, step).db.limit == s.db.limit
  {
  }

  lemma {:induction false} RunKeepsSize(num: nat, limit: nat, steps: seq<Step>)
    ensures var d := After(Init(num, limit), steps).db; d.num == num && d.limit == limit
  {
    if steps != [] {
      RunKeepsSize(num, limit, steps[..|steps| - 1]);
      StepKeepsSize(After(Init(num, limit), steps[..|steps| - 1]), steps[|steps| - 1]);
    }
  }

  /** In such a run a buyer with a new ticket is turned away exactly if all items are sold or held, or he has bought
      and holds as many as he may; otherwise the ticket is his, in flight and queued, and neither number is passed. */
  lemma BuyerIsServedIff(num: nat, limit: nat, steps: seq<Step>, m: Member)
    requires Lossless(steps) && Careful(Init(num, limit), steps)
    requires m.ticket !in After(Init(num, limit), steps).owner
    ensures var s := After(Init(num, limit), steps); var t := Apply(s, GrabQuota(m));
      && s.db.sold + Held(s.redis, s.db) <= num && Bought(s.db, m.user) + HeldBy(s.redis, s.db, m.user) <= limit
      && (t == s <==> s.db.sold + Held(s.redis, s.db) == num
                      || Bought(s.db, m.user) + HeldBy(s.redis, s.db, m.user) == limit)
      && (t != s ==>
            && m !in s.redis.inflight && t.redis.inflight == s.redis.inflight + {m} && t.live == s.live + {m}
            && t.owner == s.owner[m.ticket := m.user] && t.db == s.db
            && Held(t.redis, t.db) == Held(s.redis, s.db) + 1
            && HeldBy(t.redis, t.db, m.user) == HeldBy(s.redis, s.db, m.user) + 1)
  {
    var s := After(Init(num, limit), steps);
    RunIsExact(num, limit, steps);
    RunKeepsBooks(num, limit, steps);
    RunKeepsSize(num, limit, steps);
    assert UserDrift(s.redis, s.db, m.user) == 0;
    if Apply(s, GrabQuota(m)) != s {
      GrabKeepsDrift(s.redis, s.db, m);
      assert UserDrift(Apply(s, GrabQuota(m)).redis, s.db, m.user) == 0;
    }
  }

  lemma {:induction false} LosslessKeepsStock(num: nat, limit: nat, steps: seq<Step>)
    requires Lossless(steps)
    ensures After(Init(num, limit), steps).redis.stock.Some?
  {
    if steps != [] {
      LosslessKeepsStock(num, limit, steps[..|steps| - 1]);
    }
  }
}

/** The reconciler's walk over the tickets and closed orders of its snapshot, with steps of everyone else between
    any two of its own. */
module SeckillService {
  import opened Results
  import opened Seckill
  import opened SeckillRuns
  import opened SeckillExact

  lemma {:induction false} AfterConcat(s: Sys, xs: seq<Step>, ys: seq<Step>)
    ensures After(s, xs + ys) == After(After(s, xs), ys)
  {
    if ys == [] {
      assert xs + ys == xs;
    } else {
      var n := |ys| - 1;
      AfterConcat(s, xs, ys[..n]);
      assert (xs + ys)[..|xs + ys| - 1] == xs + ys[..n];
    }
  }

  // ---- What steps of others leave alone ----

  /** Orders stay, and stay closed. */
  ghost predicate Grown(d: Db, now: Db) {
    forall id :: id in d.orders ==>
      && id in now.orders && now.orders[id].user == d.orders[id].user && now.orders[id].ticket == d.orders[id].ticket
      && (!d.orders[id].open ==> !now.orders[id].open)
  }

  lemma StepGrows(s: Sys, step: Step)
    ensures Grown(s.db, Apply(s, step).db)
  {
  }

  lemma {:induction false} RunGrows(s: Sys, steps: seq<Step>)
    ensures Grown(s.db, After(s, steps).db)
  {
    if steps != [] {
      RunGrows(s, steps[..|steps| - 1]);
      StepGrows(After(s, steps[..|steps| - 1]), steps[|steps| - 1]);
    }
  }

  /** Without data loss returned orders stay returned, and an issued ticket that is out of flight stays out. */
  ghost predicate RedisKept(s: Sys, t: Sys) {
    && t.redis.stock.Some? && s.redis.returned <= t.redis.returned && s.owner.Keys <= t.owner.Keys
    && (forall m :: Issued(s, m) ==> Issued(t, m))
    && forall m :: Issued(s, m) && m !in s.redis.inflight ==> m !in t.redis.inflight
  }

  lemma StepKeepsRedis(s: Sys, step: Step)
    requires TaskInv(s) && s.redis.stock.Some? && !step.LoseRedis?
    ensures RedisKept(s, Apply(s, step))
  {
  }

  lemma TicketsGrow(d: Db, now: Db)
    requires Grown(d, now)
    ensures Tickets(d) <= Tickets(now) && ClosedIds(d) <= ClosedIds(now)
  {
    forall t | t in Tickets(d) ensures t in Tickets(now) {
      var id :| id in d.orders && d.orders[id].ticket == t;
      assert now.orders[id].ticket == t;
    }
  }

  lemma {:induction false} RunKeepsRedis(num: nat, limit: nat, taken: seq<Step>, steps: seq<Step>)
    requires Lossless(taken) && Lossless(steps)
    ensures RedisKept(After(Init(num, limit), taken), After(After(Init(num, limit), taken), steps))
  {
    var s := After(Init(num, limit), taken);
    if steps == [] {
      LosslessKeepsStock(num, limit, taken);
    } else {
      var n := |steps| - 1;
      RunKeepsRedis(num, limit, taken, steps[..n]);
      AfterConcat(Init(num, limit), taken, steps[..n]);
      RunKeepsBooks(num, limit, taken + steps[..n]);
      StepKeepsRedis(After(s, steps[..n]), steps[n]);
    }
  }

  /** The first `n` tickets that have an order, or are said to be gone, are out of flight. */
  ghost predicate OutOfFlight(s: Sys, inflight: seq<Member>, n: nat, settled: set<nat>, gone: nat -> bool)
    requires n <= |inflight|
  {
    forall k :: 0 <= k < n && (inflight[k].ticket in settled || gone(k)) ==> inflight[k] !in s.redis.inflight
  }

  ghost predicate AllReturned(s: Sys, closed: seq<(nat, nat)>, n: nat)
    requires n <= |closed|
  {
    forall k :: 0 <= k < n ==> closed[k].0 in s.redis.returned
  }

  ghost predicate AllIssued(s: Sys, inflight: seq<Member>) {
    forall k :: 0 <= k < |inflight| ==> Issued(s, inflight[k])
  }

  lemma OutStaysOut(s: Sys, t: Sys, inflight: seq<Member>, n: nat, settled: set<nat>, gone: nat -> bool)
    requires RedisKept(s, t) && AllIssued(s, inflight) && n <= |inflight| && OutOfFlight(s, inflight, n, settled, gone)
    ensures OutOfFlight(t, inflight, n, settled, gone)
  {
  }

  lemma OutOneMore(s: Sys, inflight: seq<Member>, n: nat, settled: set<nat>, gone: nat -> bool)
    requires n < |inflight| && OutOfFlight(s, inflight, n, settled, gone)
    requires inflight[n].ticket in settled || gone(n) ==> inflight[n] !in s.redis.inflight
    ensures OutOfFlight(s, inflight, n + 1, settled, gone)
  {
  }

  lemma KnownGrow(settled: set<nat>, view: Db, now: Db)
    requires settled <= Tickets(view) && Grown(view, now)
    ensures settled <= Tickets(now)
  {
    TicketsGrow(view, now);
  }

  lemma {:induction false} RunKeepsIssued(s: Sys, steps: seq<Step>)
    ensures forall m :: Issued(s, m) ==> Issued(After(s, steps), m)
  {
    if steps != [] {
      RunKeepsIssued(s, steps[..|steps| - 1]);
    }
  }

  /** `schedule(n)` are the steps everyone else takes in the n-th gap, `taken` all steps so far. */
  class Reconciler {
    ghost const num: nat
    ghost const limit: nat
    ghost const schedule: nat -> seq<Step>
    ghost var gap: nat
    ghost var taken: seq<Step>

    ghost function State(): Sys
      reads this
    {
      After(Init(num, limit), taken)
    }

    constructor (ghost num: nat, ghost limit: nat, ghost taken: seq<Step>, ghost schedule: nat -> seq<Step>)
      ensures this.num == num && this.limit == limit && this.taken == taken && this.schedule == schedule
    {
      this.num, this.limit, this.taken, this.schedule, gap := num, limit, taken, schedule, 0;
    }

    /** A call of our own, after whatever the others do before it. */
    method Do(ghost step: Step)
      requires !step.LoseRedis?
      modifies this
      ensures taken == old(taken) + schedule(old(gap)) + [step]
      ensures State() == Apply(After(old(State()), schedule(old(gap))), step)
      ensures Grown(old(State()).db, State().db)
      ensures forall m :: Issued(old(State()), m) ==> Issued(State(), m)
      ensures Lossless(taken) ==> Lossless(old(taken)) && RedisKept(old(State()), State())
      ensures Lossless(taken) && step.ReturnOrder? && step.id in ClosedIds(old(State()).db) ==>
        step.id in State().redis.returned
      ensures step.SettleTicket? && step.m.ticket in Tickets(old(State()).db) ==> step.m !in State().redis.inflight
      ensures step.GiveBack? && Issued(old(State()), step.m) ==> step.m !in State().redis.inflight
    {
      ghost var start, before, others := Init(num, limit), State(), schedule(gap);
      AfterConcat(start, taken, others);
      AfterConcat(start, taken + others, [step]);
      AfterConcat(start, taken, others + [step]);
      assert [step][..0] == [];
      assert taken + others + [step] == taken + (others + [step]);
      RunGrows(before, others + [step]);
      RunGrows(before, others);
      RunKeepsIssued(before, others);
      RunKeepsIssued(before, others + [step]);
      TicketsGrow(before.db, After(before, others).db);
      if Lossless(taken + others + [step]) {
        assert forall x :: x in taken ==> x in taken + others + [step];
        assert forall x :: x in others + [step] ==> x in taken + others + [step];
        assert forall x :: x in others ==> x in others + [step];
        RunKeepsRedis(num, limit, taken, others);
        RunKeepsRedis(num, limit, taken, others + [step]);
      }
      taken := taken + others + [step];
      gap := gap + 1;
    }

    method WalkTickets(inflight: seq<Member>, settled: set<nat>, gone: nat -> bool)
      requires settled <= Tickets(State().db) && AllIssued(State(), inflight)
      modifies this
      ensures Grown(old(State()).db, State().db) && AllIssued(State(), inflight)
      ensures Lossless(taken) ==> OutOfFlight(State(), inflight, |inflight|, settled, gone)
    {
      ghost var view := State().db;
      var i := 0;
      while i < |inflight|
        invariant 0 <= i <= |inflight| && Grown(view, State().db) && AllIssued(State(), inflight)
        invariant Lossless(taken) ==> OutOfFlight(State(), inflight, i, settled, gone)
      {
        KnownGrow(settled, view, State().db);
        ghost var before := State();
        var known := inflight[i].ticket in settled;
        if known || gone(i) {
          Do(if known then SettleTicket(inflight[i]) else GiveBack(inflight[i]));
          if Lossless(taken) {
            OutStaysOut(before, State(), inflight, i, settled, gone);
            OutOneMore(State(), inflight, i, settled, gone);
          }
        }
        i := i + 1;
      }
    }

    method WalkClosed(closed: seq<(nat, nat)>, ghost inflight: seq<Member>, ghost settled: set<nat>,
                      ghost gone: nat -> bool)
      requires forall k :: 0 <= k < |closed| ==> closed[k].0 in ClosedIds(State().db)
      requires AllIssued(State(), inflight)
      requires (Lossless(taken) ==> OutOfFlight(State(), inflight, |inflight|, settled, gone))
      modifies this
      ensures Lossless(taken) ==>
        OutOfFlight(State(), inflight, |inflight|, settled, gone) && AllReturned(State(), closed, |closed|)
    {
      ghost var view := State().db;
      var j := 0;
      while j < |closed|
        invariant 0 <= j <= |closed| && Grown(view, State().db) && AllIssued(State(), inflight)
        invariant Lossless(taken) ==>
          OutOfFlight(State(), inflight, |inflight|, settled, gone) && AllReturned(State(), closed, j)
      {
        ghost var before := State();
        TicketsGrow(view, before.db);
        assert closed[j].0 in ClosedIds(before.db);
        Do(ReturnOrder(closed[j].0));
        if Lossless(taken) {
          OutStaysOut(before, State(), inflight, |inflight|, settled, gone);
        }
        j := j + 1;
      }
    }

    /** The walk is a run of the state machine. Without data loss every ticket of the snapshot that had an order,
        and every one that the ticket store said had failed or was long forgotten (`gone`), is out of flight
        afterwards, and every closed order is returned; and no drift is left unless someone, the walk included, has
        oversold. */
    method Walk(inflight: seq<Member>, settled: set<nat>, gone: nat -> bool, closed: seq<(nat, nat)>)
      requires settled <= Tickets(State().db) && AllIssued(State(), inflight)
      requires forall k :: 0 <= k < |closed| ==> closed[k].0 in ClosedIds(State().db)
      modifies this
      ensures Lossless(taken) ==>
        OutOfFlight(State(), inflight, |inflight|, settled, gone) && AllReturned(State(), closed, |closed|)
      ensures Lossless(taken) && Careful(Init(num, limit), taken) ==> NoDrift(State().redis, State().db)
    {
      ghost var view := State().db;
      WalkTickets(inflight, settled, gone);
      TicketsGrow(view, State().db);
      WalkClosed(closed, inflight, settled, gone);
      if Lossless(taken) && Careful(Init(num, limit), taken) {
        RunIsExact(num, limit, taken);
      }
    }
  }
}

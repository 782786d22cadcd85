/** The three-state circuit breaker with its generation token, allow and report each taken as one step. */
module CircuitBreaker {
  datatype Phase = Closed | Open | HalfOpen

  datatype Options = Options(failureThreshold: int, openTimeout: int, halfOpenMaxReq: int)

  datatype Breaker = Breaker(phase: Phase, failures: int, openedAt: int, halfOpenReq: int, halfOpenSuccess: int,
    generation: nat)

  /** Non-positive options are replaced by the defaults; times are in seconds. */
  function WithDefaults(o: Options): Options {
    Options(if o.failureThreshold <= 0 then 5 else o.failureThreshold,
            if o.openTimeout <= 0 then 10 else o.openTimeout,
            if o.halfOpenMaxReq <= 0 then 3 else o.halfOpenMaxReq)
  }

  ghost predicate Usable(o: Options) {
    o.failureThreshold > 0 && o.openTimeout > 0 && o.halfOpenMaxReq > 0
  }

  const FRESH := Breaker(Closed, 0, 0, 0, 0, 0)

  // ---- One call ----

  /** The new state, and whether the request is let through; its token is the generation of the new state. */
  function Allow(b: Breaker, o: Options, now: int): (Breaker, bool) {
    if b.phase.Closed? then (b, true)
    else if b.phase.Open? && now - b.openedAt < o.openTimeout then (b, false)
    else
      var h := if b.phase.Open? then Breaker(HalfOpen, b.failures, b.openedAt, 0, 0, b.generation + 1) else b;
      var probing := h.(halfOpenReq := h.halfOpenReq + 1);
      (probing, probing.halfOpenReq <= o.halfOpenMaxReq)
  }

  function Trip(b: Breaker, now: int): Breaker {
    Breaker(Open, 0, now, 0, 0, b.generation)
  }

  function Report(b: Breaker, o: Options, failed: bool, gen: nat, now: int): Breaker {
    if gen != b.generation then b
    else
      match b.phase
      case Open => b
      case Closed =>
        if !failed then b.(failures := 0)
        else if b.failures + 1 >= o.failureThreshold then Trip(b, now)
        else b.(failures := b.failures + 1)
      case HalfOpen =>
        if failed then Trip(b, now)
        else if b.halfOpenSuccess + 1 >= o.halfOpenMaxReq then
          b.(phase := Closed, failures := 0, halfOpenSuccess := b.halfOpenSuccess + 1)
        else b.(halfOpenSuccess := b.halfOpenSuccess + 1)
  }

  // ---- Runs ----

  /** `out`: the tokens of the requests let through and not yet reported. `outcomes`: the reports that counted since the
      breaker last closed, oldest first, true for a failure. */
  datatype State = State(b: Breaker, out: multiset<nat>, outcomes: seq<bool>)

  datatype Step = Enter(now: int) | Leave(failed: bool, gen: nat, now: int)

  function Apply(s: State, o: Options, step: Step): State {
    match step
    case Enter(now) =>
      var (b, ok) := Allow(s.b, o, now);
      State(b, if ok then s.out + multiset{b.generation} else s.out, s.outcomes)
    case Leave(failed, gen, now) =>
      if gen !in s.out then s
      else
        var b := Report(s.b, o, failed, gen, now);
        State(b, s.out - multiset{gen},
              if gen != s.b.generation then s.outcomes
              else if s.b.phase.Closed? && b.phase.Closed? then s.outcomes + [failed]
              else [])
  }

  function After(s: State, o: Options, steps: seq<Step>): State {
    if steps == [] then s else Apply(After(s, o, steps[..|steps| - 1]), o, steps[|steps| - 1])
  }

  /** Failures at the end of the outcomes, unbroken by a success. */
  function Streak(outcomes: seq<bool>): nat {
    if outcomes == [] || !outcomes[|outcomes| - 1] then 0 else Streak(outcomes[..|outcomes| - 1]) + 1
  }

  function Min(x: int, y: int): int {
    if x <= y then x else y
  }

  ghost predicate TokensOk(s: State) {
    forall g :: g in s.out ==> g <= s.b.generation
  }

  /** In a half-open round the probes let through and not yet reported are exactly the ones still out. */
  ghost predicate ProbesOk(s: State, o: Options) {
    s.b.phase.HalfOpen? ==>
      && 0 <= s.b.halfOpenSuccess < o.halfOpenMaxReq
      && Min(s.b.halfOpenReq, o.halfOpenMaxReq) - s.b.halfOpenSuccess == s.out[s.b.generation]
  }

  ghost predicate StreakOk(s: State, o: Options) {
    s.b.phase.Closed? ==> s.b.failures == Streak(s.outcomes) < o.failureThreshold
  }

  ghost predicate Inv(s: State, o: Options) {
    TokensOk(s) && ProbesOk(s, o) && StreakOk(s, o) && s.b.halfOpenReq >= 0
  }

  lemma EnterKeepsInv(s: State, o: Options, now: int)
    requires Usable(o) && Inv(s, o)
    ensures Inv(Apply(s, o, Enter(now)), o)
  {
    assert s.b.generation + 1 !in s.out;
  }

  lemma LeaveKeepsInv(s: State, o: Options, failed: bool, gen: nat, now: int)
    requires Usable(o) && Inv(s, o)
    ensures Inv(Apply(s, o, Leave(failed, gen, now)), o)
  {
    assert (s.outcomes + [failed])[..|s.outcomes|] == s.outcomes;
  }

  lemma {:induction false} RunKeepsInv(o: Options, steps: seq<Step>)
    requires Usable(o)
    ensures Inv(After(State(FRESH, multiset{}, []), o, steps), o)
  {
    if steps != [] {
      RunKeepsInv(o, steps[..|steps| - 1]);
      var s := After(State(FRESH, multiset{}, []), o, steps[..|steps| - 1]);
      match steps[|steps| - 1]
      case Enter(now) => EnterKeepsInv(s, o, now);
      case Leave(failed, gen, now) => LeaveKeepsInv(s, o, failed, gen, now);
    }
  }

  // ---- Main results ----

  /** The states of all runs of a new breaker. */
  ghost predicate Reachable(s: State, o: Options) {
    exists steps :: After(State(FRESH, multiset{}, []), o, steps) == s
  }

  lemma ReachedIsSound(s: State, o: Options)
    requires Usable(o) && Reachable(s, o)
    ensures Inv(s, o)
  {
    var steps :| After(State(FRESH, multiset{}, []), o, steps) == s;
    RunKeepsInv(o, steps);
  }

  /** In every run the breaker is never half-open with no probe out and no slot left: it cannot get stuck. */
  lemma NeverStuck(s: State, o: Options)
    requires Usable(o) && Reachable(s, o) && s.b.phase.HalfOpen?
    ensures s.out[s.b.generation] > 0 || s.b.halfOpenReq < o.halfOpenMaxReq
  {
    ReachedIsSound(s, o);
  }

  /** Reports of other rounds change nothing; a round closes the breaker on its last needed success and not before, and
      reopens it on any failure; a closed breaker opens exactly when the failures in a row reach the threshold. */
  lemma ReportDecides(s: State, o: Options, failed: bool, gen: nat, now: int)
    requires Usable(o) && Reachable(s, o) && gen in s.out
    ensures var t := Apply(s, o, Leave(failed, gen, now));
      && (gen != s.b.generation ==> t.b == s.b)
      && (s.b.phase.HalfOpen? && gen == s.b.generation ==>
            && (t.b.phase.Closed? <==> !failed && s.b.halfOpenSuccess + 1 == o.halfOpenMaxReq)
            && (t.b.phase.Open? <==> failed))
      && (s.b.phase.Closed? && gen == s.b.generation ==>
            (t.b.phase.Open? <==> Streak(s.outcomes + [failed]) >= o.failureThreshold))
      && (s.b.phase.Open? ==> t.b == s.b)
      && (t.b.phase.Open? && !s.b.phase.Open? ==> t.b.openedAt == now && t.b.generation == s.b.generation)
      && t.out == s.out - multiset{gen}
  {
    ReachedIsSound(s, o);
    assert (s.outcomes + [failed])[..|s.outcomes|] == s.outcomes;
  }

  /** When a round closes the breaker, all of its probes have succeeded and none is left out. */
  lemma ClosingLeavesNoProbe(s: State, o: Options, gen: nat, now: int)
    requires Usable(o) && Reachable(s, o) && gen in s.out && s.b.phase.HalfOpen? && gen == s.b.generation
    requires Apply(s, o, Leave(false, gen, now)).b.phase.Closed?
    ensures Apply(s, o, Leave(false, gen, now)).out[gen] == 0 && s.b.halfOpenReq >= o.halfOpenMaxReq
  {
    ReachedIsSound(s, o);
  }

  /** A closed breaker lets every request through and does not change. An open one refuses everything until its timeout
      is over, and a round lets through the allowed number of probes and no more. */
  lemma EntryDecides(s: State, o: Options, now: int)
    requires Usable(o) && Reachable(s, o)
    ensures var t := Apply(s, o, Enter(now));
      && (s.b.phase.Closed? ==> t == s.(out := s.out + multiset{s.b.generation}))
      && (s.b.phase.Open? && now - s.b.openedAt < o.openTimeout ==> t == s)
      && (s.b.phase.Open? && now - s.b.openedAt >= o.openTimeout ==>
            t.b.phase.HalfOpen? && t.b.generation == s.b.generation + 1 && t.out[t.b.generation] == 1)
      && (s.b.phase.HalfOpen? ==>
            t.out == if s.b.halfOpenReq < o.halfOpenMaxReq then s.out + multiset{s.b.generation} else s.out)
  {
    ReachedIsSound(s, o);
    assert s.b.generation + 1 !in s.out;
  }

  // ---- Recovery ----

  function Entered(b: Breaker, o: Options, now: int, n: nat): Breaker {
    if n == 0 then b else Allow(Entered(b, o, now, n - 1), o, now).0
  }

  function Succeeded(b: Breaker, o: Options, gen: nat, now: int, n: nat): Breaker {
    if n == 0 then b else Report(Succeeded(b, o, gen, now, n - 1), o, false, gen, now)
  }

  lemma {:induction false} ProbesEnter(b: Breaker, o: Options, now: int, n: nat)
    requires Usable(o) && b.phase.Open? && now - b.openedAt >= o.openTimeout && 0 < n <= o.halfOpenMaxReq
    ensures Entered(b, o, now, n) == Breaker(HalfOpen, b.failures, b.openedAt, n, 0, b.generation + 1)
    ensures Allow(Entered(b, o, now, n - 1), o, now).1
  {
    if n > 1 {
      ProbesEnter(b, o, now, n - 1);
    }
  }

  lemma {:induction false} ProbesSucceed(b: Breaker, o: Options, now: int, n: nat)
    requires Usable(o) && b.phase.HalfOpen? && b.halfOpenSuccess == 0 && n < o.halfOpenMaxReq
    ensures Succeeded(b, o, b.generation, now, n) == b.(halfOpenSuccess := n)
  {
    if n > 0 {
      ProbesSucceed(b, o, now, n - 1);
    }
  }

  /** From any open state, once the timeout is over, the full number of probes is let through and their success
      closes the breaker with a clean count. */
  lemma Recovers(b: Breaker, o: Options, now: int, later: int)
    requires Usable(o) && b.phase.Open? && now - b.openedAt >= o.openTimeout
    ensures var n := o.halfOpenMaxReq; var c := Succeeded(Entered(b, o, now, n), o, b.generation + 1, later, n);
      c.phase.Closed? && c.failures == 0 && c.generation == b.generation + 1
  {
    ProbesEnter(b, o, now, o.halfOpenMaxReq);
    ProbesSucceed(Entered(b, o, now, o.halfOpenMaxReq), o, later, o.halfOpenMaxReq - 1);
  }

  // ---- The breaker as it runs ----

  class Switch {
    const opt: Options
    var phase: Phase
    var failures: int
    var openedAt: int
    var halfOpenReq: int
    var halfOpenSuccess: int
    var generation: nat

    ghost function State(): Breaker
      reads this
    {
      Breaker(phase, failures, openedAt, halfOpenReq, halfOpenSuccess, generation)
    }

    constructor (o: Options)
      ensures opt == WithDefaults(o) && Usable(opt) && State() == FRESH
      ensures o == Options(0, 0, 0) ==> opt == Options(5, 10, 3)
      ensures Usable(o) ==> opt == o
    {
      opt := WithDefaults(o);
      phase, failures, openedAt, halfOpenReq, halfOpenSuccess, generation := Closed, 0, 0, 0, 0, 0;
    }

    method TryEnter(now: int) returns (gen: nat, ok: bool)
      modifies this
      ensures (State(), ok) == Allow(old(State()), opt, now)
      ensures match old(phase)
              case Closed => ok && State() == old(State())
              case Open =>
                if now - old(openedAt) < opt.openTimeout then !ok && State() == old(State())
                else ok == (opt.halfOpenMaxReq > 0)
              case HalfOpen => ok == (old(halfOpenReq) < opt.halfOpenMaxReq)
      ensures ok ==> gen == generation
    {
      if phase.Closed? {
        return generation, true;
      }
      if phase.Open? && now - openedAt < opt.openTimeout {
        return 0, false;
      }
      if phase.Open? {
        generation := generation + 1;
        phase := HalfOpen;
        halfOpenReq := 0;
        halfOpenSuccess := 0;
      }
      halfOpenReq := halfOpenReq + 1;
      if halfOpenReq > opt.halfOpenMaxReq {
        return 0, false;
      }
      return generation, true;
    }

    method TripOpenLocked(now: int)
      modifies this
      ensures State() == Trip(old(State()), now)
    {
      phase := Open;
      openedAt := now;
      failures, halfOpenReq, halfOpenSuccess := 0, 0, 0;
    }

    method Leave(failed: bool, gen: nat, now: int)
      modifies this
      ensures State() == Report(old(State()), opt, failed, gen, now)
      ensures gen != old(generation) || old(phase).Open? ==> State() == old(State())
      ensures phase.Open? && !old(phase).Open? ==> failed && openedAt == now
    {
      if gen != generation {
        return;
      }
      match phase
      case Open =>
      case Closed =>
        if failed {
          failures := failures + 1;
          if failures >= opt.failureThreshold {
            TripOpenLocked(now);
          }
        } else {
          failures := 0;
        }
      case HalfOpen =>
        if failed {
          TripOpenLocked(now);
        } else {
          halfOpenSuccess := halfOpenSuccess + 1;
          if halfOpenSuccess >= opt.halfOpenMaxReq {
            phase := Closed;
            failures := 0;
          }
        }
    }
  }
}

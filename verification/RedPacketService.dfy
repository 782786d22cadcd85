/** The claim request and the reconciler as they run, with steps of everyone else between any two of their own. */
module RedPacketService {
  import opened Results
  import opened Sums
  import opened Ledger
  import opened RedPacket
  import opened RedPacketRuns
  import opened RedPacketMoney
  import opened RedPacketTheorems

  ghost predicate Leads(s: Sys, t: Sys) {
    exists steps :: After(s, steps) == t
  }

  lemma {:induction false} AfterConcat(s: Sys, xs: seq<Step>, ys: seq<Step>)
    ensures After(After(s, xs), ys) == After(s, xs + ys)
  {
    if ys == [] {
      assert xs + ys == xs;
    } else {
      var n := |ys| - 1;
      AfterConcat(s, xs, ys[..n]);
      assert (xs + ys)[..|xs + ys| - 1] == xs + ys[..n];
    }
  }

  lemma LeadsOn(s: Sys, t: Sys, steps: seq<Step>)
    requires Leads(s, t)
    ensures Leads(s, After(t, steps))
  {
    var xs :| After(s, xs) == t;
    AfterConcat(s, xs, steps);
  }

  lemma {:induction false} AfterKeepsSaga(s: Sys, steps: seq<Step>)
    requires SagaInv(s)
    ensures SagaInv(After(s, steps))
  {
    if steps != [] {
      AfterKeepsSaga(s, steps[..|steps| - 1]);
      StepKeepsSaga(After(s, steps[..|steps| - 1]), steps[|steps| - 1]);
    }
  }

  /** Steps of other requests: none of them runs the session of `user`. */
  predicate HandsOff(steps: seq<Step>, user: nat) {
    forall i :: 0 <= i < |steps| ==>
      match steps[i]
      case RunClaim(u, _) => u != user
      case CheckClaim(u, _) => u != user
      case UndoClaim(u) => u != user
      case DropSession(u) => u != user
      case _ => true
  }

  lemma {:induction false} OthersKeepSession(s: Sys, steps: seq<Step>, user: nat)
    requires SagaInv(s) && user in s.sessions && HandsOff(steps, user)
    ensures user in After(s, steps).sessions && After(s, steps).sessions[user] == s.sessions[user]
  {
    if steps != [] {
      OthersKeepSession(s, steps[..|steps| - 1], user);
      AfterKeepsSaga(s, steps[..|steps| - 1]);
      OtherStepKeepsSession(After(s, steps[..|steps| - 1]), steps[|steps| - 1], user);
    }
  }

  lemma OtherStepKeepsSession(s: Sys, step: Step, user: nat)
    requires SagaInv(s) && user in s.sessions && HandsOff([step], user)
    ensures user in Apply(s, step).sessions && Apply(s, step).sessions[user] == s.sessions[user]
  {
    assert [step][0] == step;
  }

  datatype ClaimError = Ended | Overdue | Drained | AlreadyTaken | TxFailed

  /** `schedule(n)` are the steps everyone else takes in the n-th gap; the state is always one that steps lead to. */
  class Service {
    ghost const start: Sys
    var s: Sys
    var gap: nat
    const schedule: nat -> seq<Step>

    ghost predicate Valid()
      reads this
    {
      SagaInv(s) && Leads(start, s)
    }

    ghost predicate Waiting(user: nat, phase: Phase)
      reads this
    {
      user in s.sessions && s.sessions[user].phase == phase && forall n :: HandsOff(schedule(n), user)
    }

    /** Nobody else takes a step. */
    ghost predicate Quiet()
      reads this
    {
      forall n :: schedule(n) == []
    }

    constructor (s: Sys, schedule: nat -> seq<Step>)
      requires SagaInv(s)
      ensures this.s == start == s && this.schedule == schedule && Valid()
    {
      this.start, this.s, this.schedule, gap := s, s, schedule, 0;
      new;
      assert After(s, []) == s;
    }

    method Do(step: Step)
      requires Valid()
      modifies this`s
      ensures s == Apply(old(s), step) && Valid()
    {
      StepKeepsSaga(s, step);
      LeadsOn(start, s, [step]);
      assert [step][..0] == [];
      assert After(s, []) == s;
      s := Apply(s, step);
    }

    method Others()
      requires Valid()
      modifies this`s, this`gap
      ensures s == After(old(s), schedule(old(gap))) && gap == old(gap) + 1 && Valid()
    {
      AfterKeepsSaga(s, schedule(gap));
      LeadsOn(start, s, schedule(gap));
      s := After(s, schedule(gap));
      gap := gap + 1;
    }

    /** The others' steps, none of them in this request's place. */
    method Wait(user: nat, ghost phase: Phase)
      requires Valid() && Waiting(user, phase)
      modifies this`s, this`gap
      ensures Valid() && Waiting(user, phase) && s.sessions[user] == old(s.sessions[user])
      ensures s == After(old(s), schedule(old(gap))) && gap == old(gap) + 1
    {
      OthersKeepSession(s, schedule(gap), user);
      Others();
    }

    /** The states in which a claim request reads the packet, runs its script, and runs its transaction. */
    ghost function AtRead(): Sys
      reads this
    {
      After(s, schedule(gap))
    }

    ghost function AtScript(): Sys
      reads this
    {
      After(AtRead(), schedule(gap + 1))
    }

    ghost function AtTx(user: nat, at: nat): Sys
      reads this
    {
      After(Apply(AtScript(), GrabShare(user, at)), schedule(gap + 2))
    }

    /** The request gets as far as its transaction. */
    ghost predicate GetsShare(user: nat, overdue: bool)
      reads this
    {
      AtRead().db.packet.status.Active? && !overdue && user !in AtScript().keys.marks && AtScript().keys.pool != []
    }

    /** A claim request. A success is true: the claim row is there, with the amount answered, which is the user's
        share. Each refusal has its cause: the packet had ended when it was read, and has still; it was past its time;
        the user had a mark, or the pool was empty, when the script ran. With a share in hand an answered transaction
        that the packet and the ledger take succeeds with that share. While nobody else acts, so does one whose reply
        was lost if the claim can be read; a transaction that was not done puts the share back if it can be read, and
        leaves the mark otherwise. */
    method Claim(user: nat, at: nat, overdue: bool, reply: Reply, readable: bool) returns (r: Result<nat, ClaimError>)
      requires Valid() && forall n :: HandsOff(schedule(n), user)
      modifies this`s, this`gap
      ensures Valid()
      ensures r.Success? ==> Found(s, user, r.value)
      ensures r == Failure(Ended) <==> !old(AtRead()).db.packet.status.Active?
      ensures r == Failure(Ended) ==> !s.db.packet.status.Active?
      ensures r == Failure(Overdue) <==> old(AtRead()).db.packet.status.Active? && overdue
      ensures r == Failure(AlreadyTaken) <==>
        old(AtRead()).db.packet.status.Active? && !overdue && user in old(AtScript()).keys.marks
      ensures r == Failure(Drained) <==>
        && old(AtRead()).db.packet.status.Active? && !overdue && user !in old(AtScript()).keys.marks
        && old(AtScript()).keys.pool == []
      ensures old(GetsShare(user, overdue)) ==>
        reply.Told? && Takes(old(AtTx(user, at)).db, user, old(AtScript()).keys.pool[0]) ==>
          r == Success(old(AtScript()).keys.pool[0])
      ensures Quiet() && old(GetsShare(user, overdue)) ==>
        && (Lands(reply, old(s).db, user, old(s).keys.pool[0]) && (reply.Told? || readable) ==>
              && r == Success(old(s).keys.pool[0]) && s.keys.pool == old(s).keys.pool[1..]
              && s.db.claims == old(s).db.claims + [RedPacket.Claim(old(s).db.nextId, user, r.value)])
        && (!Lands(reply, old(s).db, user, old(s).keys.pool[0]) && readable ==>
              r == Failure(TxFailed) && s.db == old(s).db && s.keys == old(s).keys)
        && (!Lands(reply, old(s).db, user, old(s).keys.pool[0]) && !readable ==>
              && r == Failure(TxFailed) && s.db == old(s).db && s.keys.pool == old(s).keys.pool[1..]
              && s.keys.marks == old(s).keys.marks[user := Mark(old(s).keys.pool[0], at, false)])
    {
      ghost var s0 := s;
      Others();
      if !s.db.packet.status.Active? {
        return Failure(Ended);
      }
      if overdue {
        return Failure(Overdue);
      }
      Others();
      ghost var before := s;
      var code := Grab(s.keys, user, at).1;
      GrabOpensSession(s, user, at);
      Do(GrabShare(user, at));
      if code == -1 {
        return Failure(Drained);
      }
      if code == -2 {
        return Failure(AlreadyTaken);
      }
      Wait(user, Popped);
      ghost var share := before.keys.pool[0];
      if Quiet() {
        assert before == s0;
        UnrecordedWithoutMark(s0, user);
        PutBack(s0.keys, user, Mark(share, at, false));
      }
      r := Commit(user, reply, readable);
    }

    /** The database transaction and what follows from its reply. */
    method Commit(user: nat, reply: Reply, readable: bool) returns (r: Result<nat, ClaimError>)
      requires Valid() && Waiting(user, Popped)
      modifies this`s, this`gap
      ensures Valid()
      ensures r.Success? ==> Found(s, user, r.value)
      ensures r.Failure? ==> r.error == TxFailed
      ensures reply.Told? && Takes(old(s).db, user, old(s).sessions[user].amount) ==>
        r == Success(old(s).sessions[user].amount)
      ensures Quiet() && Lands(reply, old(s).db, user, old(s).sessions[user].amount) ==>
        reply.Told? || readable ==>
          && r == Success(old(s).sessions[user].amount) && s.keys == old(s).keys
          && s.db.claims == old(s).db.claims + [RedPacket.Claim(old(s).db.nextId, user, r.value)]
      ensures Quiet() && !Lands(reply, old(s).db, user, old(s).sessions[user].amount) ==>
        && (!readable ==> r == Failure(TxFailed) && s.db == old(s).db && s.keys == old(s).keys)
        && (readable && old(s).db.packet.status.Active? && !Recorded(old(s).db.claims, user)
            && !old(s).keys.marks[user].repairing ==>
              r == Failure(TxFailed) && s.db == old(s).db && GaveBack(old(s), s, user))
    {
      var amount := s.sessions[user].amount;
      ClaimTxIff(s.db, user, amount);
      if reply.Told? && ClaimTx(s.db, user, amount).Success? {
        CommittedIsFound(s, user);
        Do(RunClaim(user, reply));
        return Success(amount);
      }
      LostIsRecorded(s, user);
      Do(RunClaim(user, reply));
      r := Recover(user, readable);
    }

    /** After a failed transaction: ask the database first, then put the share back unless the packet has ended or a
        repair has taken the mark over. */
    method Recover(user: nat, readable: bool) returns (r: Result<nat, ClaimError>)
      requires Valid() && user in s.sessions && Waiting(user, s.sessions[user].phase) && s.sessions[user].phase.Failed?
      modifies this`s, this`gap
      ensures Valid()
      ensures r.Success? ==> Found(s, user, r.value)
      ensures r.Failure? ==> r.error == TxFailed
      ensures Quiet() && readable && Recorded(old(s).db.claims, user) ==>
        r == Success(old(s).sessions[user].amount) && s.keys == old(s).keys && s.db == old(s).db
      ensures Quiet() && !readable ==> r == Failure(TxFailed) && s.db == old(s).db && s.keys == old(s).keys
      ensures Quiet() && !Recorded(old(s).db.claims, user) && old(s).sessions[user].phase.closed ==>
        r == Failure(TxFailed) && s.db == old(s).db && s.keys == old(s).keys
      ensures Quiet() && readable && !Recorded(old(s).db.claims, user) ==>
        !old(s).sessions[user].phase.closed && !old(s).keys.marks[user].repairing ==>
          r == Failure(TxFailed) && s.db == old(s).db && GaveBack(old(s), s, user)
    {
      Wait(user, s.sessions[user].phase);
      var existing := if readable then FindClaim(s.db.claims, user) else None;
      if existing.Some? {
        FoundAmount(s, user);
      }
      Do(CheckClaim(user, readable));
      if existing.Some? {
        return Success(existing.value.amount);
      }
      r := Failure(TxFailed);
      if user in s.sessions {
        r := Undo(user);
      }
    }

    method Undo(user: nat) returns (r: Result<nat, ClaimError>)
      requires Valid() && Waiting(user, Undoing)
      modifies this`s, this`gap
      ensures Valid()
      ensures r.Success? ==> Found(s, user, r.value)
      ensures r.Failure? ==> r.error == TxFailed
      ensures Quiet() && !old(s).keys.marks[user].repairing ==>
        r == Failure(TxFailed) && s.db == old(s).db && GaveBack(old(s), s, user)
    {
      r := Failure(TxFailed);
      Wait(user, Undoing);
      var refused := Rollback(s.keys, user, s.sessions[user].amount).1 == -1;
      Do(UndoClaim(user));
      if refused {
        Others();
        var again := FindClaim(s.db.claims, user);
        if again.Some? {
          FoundAmount(s, user);
          return Success(again.value.amount);
        }
      }
    }

    /** One reconcile round over the marks read from Redis. `oldEnough`: the packet is past the grace time. It never
        reports a repair that is not a new claim row, and refunds early only into a packet that has ended. */
    method Reconcile(now: nat, grace: nat, oldEnough: bool, lock: nat -> Reply, reply: nat -> Reply)
      returns (repaired: nat, refunded: bool, pending: bool)
      requires Valid()
      modifies this`s, this`gap
      ensures Valid()
      ensures |s.db.claims| >= |old(s).db.claims| + repaired
      ensures refunded ==> !s.db.packet.status.Active? && !pending && oldEnough
      ensures Quiet() && AllTold(lock, reply) && Creditable(old(s).db, old(s).keys.marks) ==>
        RoundDone(s, old(s).keys.marks, old(s).db.claims, now, grace, pending)
      ensures Quiet() && refunded ==> old(s).keys.pool == []
      ensures Quiet() && !refunded && !pending && oldEnough && old(s).keys.pool == [] ==>
        !s.db.packet.status.Active? || RefundTx(s.db).Failure?
    {
      refunded := false;
      OthersGrow();
      var poolGone := oldEnough && s.keys.pool == [];
      OthersGrow();
      var marks := s.keys.marks;
      OthersGrow();
      repaired, pending := RepairMarks(marks, s.db.claims, now, grace, lock, reply);
      if !pending && poolGone {
        refunded := RefundEarly();
      }
    }

    /** A mark without a claim row is an orphan, and young within the grace time. While nobody else acts and every call
        is answered, young orphans are left as they are and keep the round pending, and every other mark has its claim
        row afterwards unless the packet has ended. */
    method RepairMarks(marks: map<nat, Mark>, claims: seq<RedPacket.Claim>, now: nat, grace: nat,
                       lock: nat -> Reply, reply: nat -> Reply)
      returns (repaired: nat, pending: bool)
      requires Valid()
      modifies this`s, this`gap
      ensures Valid()
      ensures |s.db.claims| >= |old(s).db.claims| + repaired
      ensures Quiet() && AllTold(lock, reply) && marks == old(s).keys.marks && claims == old(s).db.claims ==>
        Creditable(old(s).db, marks) ==> RoundDone(s, marks, claims, now, grace, pending)
    {
      ghost var calm := Quiet() && AllTold(lock, reply) && marks == s.keys.marks && claims == s.db.claims
        && Creditable(s.db, marks);
      if calm {
        CalmStarts(s, now, grace);
      }
      var closed;
      ghost var todo;
      repaired, pending, closed, todo := RepairEach(marks, claims, now, grace, lock, reply, calm);
      if calm {
        CalmEnds(s, marks, claims, todo, now, grace, pending, closed);
      }
    }

    /** The loop over the marks, up to one whose packet has ended. */
    method RepairEach(marks: map<nat, Mark>, claims: seq<RedPacket.Claim>, now: nat, grace: nat, lock: nat -> Reply,
                      reply: nat -> Reply, ghost calm: bool)
      returns (repaired: nat, pending: bool, closed: bool, ghost left: set<nat>)
      requires Valid()
      requires calm ==> Quiet() && AllTold(lock, reply) && Calm(s, marks, claims, marks.Keys, now, grace, false, false)
      modifies this`s, this`gap
      ensures Valid() && (left == {} || closed)
      ensures |s.db.claims| >= |old(s).db.claims| + repaired
      ensures calm ==> Calm(s, marks, claims, left, now, grace, pending, closed)
    {
      repaired, pending, closed := 0, false, false;
      var todo := marks.Keys;
      while todo != {} && !closed
        invariant Valid() && todo <= marks.Keys
        invariant |s.db.claims| >= |old(s).db.claims| + repaired
        invariant calm ==> Calm(s, marks, claims, todo, now, grace, pending, closed)
        decreases |todo|
      {
        var u :| u in todo;
        var outcome := Next(u, marks, claims, todo, now, grace, pending, lock(gap), reply(gap));
        closed := outcome.EndedPacket?;
        pending := pending || outcome.StillOpen?;
        repaired := if outcome.Repaired? then repaired + 1 else repaired;
        todo := todo - {u};
      }
      left := todo;
    }

    /** The next mark of the round. */
    method Next(u: nat, marks: map<nat, Mark>, claims: seq<RedPacket.Claim>, ghost todo: set<nat>, now: nat, grace: nat,
                ghost pending: bool, lock: Reply, reply: Reply)
      returns (outcome: Outcome)
      requires Valid() && u in marks && u in todo
      modifies this`s, this`gap
      ensures Valid()
      ensures |s.db.claims| >= |old(s).db.claims| + if outcome.Repaired? then 1 else 0
      ensures Quiet() && lock.Told? && reply.Told? && Calm(old(s), marks, claims, todo, now, grace, pending, false) ==>
        Calm(s, marks, claims, todo - {u}, now, grace, pending || outcome.StillOpen?, outcome.EndedPacket?)
    {
      ghost var before := s;
      outcome := Visit(u, marks[u], FindClaim(claims, u).Some?, now, grace, lock, reply);
      if Quiet() && lock.Told? && reply.Told? && Calm(before, marks, claims, todo, now, grace, pending, false) {
        CalmVisit(before, s, marks, claims, todo, now, grace, pending, u, outcome);
      }
    }

    /** A recorded mark is passed over, a young orphan stays open, any other orphan is repaired. */
    method Visit(u: nat, raw: Mark, recorded: bool, now: nat, grace: nat, lock: Reply, reply: Reply)
      returns (outcome: Outcome)
      requires Valid()
      modifies this`s, this`gap
      ensures Valid()
      ensures |s.db.claims| >= |old(s).db.claims| + if outcome.Repaired? then 1 else 0
      ensures recorded || now < raw.at + grace ==> s == old(s) && outcome == if recorded then GivenUp else StillOpen
      ensures Quiet() && lock.Told? && reply.Told? && u in old(s).keys.marks && old(s).keys.marks[u] == raw ==>
        !recorded && now >= raw.at + grace && !Recorded(old(s).db.claims, u) ==> TakenOver(old(s), s, u, raw, outcome)
    {
      if recorded {
        return GivenUp;
      }
      if now < raw.at + grace {
        return StillOpen;
      }
      outcome := Repair(u, raw, lock, reply);
    }

    method RefundEarly() returns (refunded: bool)
      requires Valid()
      modifies this`s, this`gap
      ensures Valid()
      ensures |s.db.claims| >= |old(s).db.claims|
      ensures refunded ==> !s.db.packet.status.Active?
      ensures Quiet() ==> s.db.claims == old(s).db.claims && s.keys.marks == old(s).keys.marks
      ensures Quiet() && !refunded ==> s == old(s)
      ensures Quiet() && old(s).db.packet.status.Active? && old(s).db.packet.remaining > 0 ==>
        refunded == RefundTx(old(s).db).Success?
    {
      refunded := false;
      OthersGrow();
      if !s.db.packet.status.Active? || s.db.packet.remaining == 0 {
        return;
      }
      OthersGrow();
      if RefundTx(s.db).Success? {
        RefundEnds(s);
        Do(RunRefund);
        Do(DropPool);
        refunded := true;
      }
    }

    method OthersGrow()
      requires Valid()
      modifies this`s, this`gap
      ensures Valid() && |s.db.claims| >= |old(s).db.claims| && old(s).repairs <= s.repairs
      ensures Quiet() ==> s == old(s)
    {
      RunExtends(s, schedule(gap));
      RunKeepsRepairs(s, schedule(gap));
      Others();
    }

    /** One orphan mark: take the mark over, then record it. An error of the lock script, which may have run, leaves the
        mark pending. */
    method Repair(u: nat, raw: Mark, lock: Reply, reply: Reply) returns (outcome: Outcome)
      requires Valid()
      modifies this`s, this`gap
      ensures Valid()
      ensures |s.db.claims| >= |old(s).db.claims| + if outcome.Repaired? then 1 else 0
      ensures !lock.Told? ==> outcome.StillOpen?
      ensures outcome.Repaired? ==> Recorded(s.db.claims, u)
      ensures Quiet() && lock.Told? && reply.Told? && u in old(s).keys.marks && old(s).keys.marks[u] == raw ==>
        !Recorded(old(s).db.claims, u) ==> TakenOver(old(s), s, u, raw, outcome)
    {
      OthersGrow();
      if lock.Broken? {
        return StillOpen;
      }
      var locked := LockMark(s.keys, u, raw).1;
      Do(LockRepair(u, raw));
      if lock.LostReply? {
        return StillOpen;
      }
      if !locked {
        return GivenUp;
      }
      OthersGrow();
      outcome := Record(u, raw.amount, reply);
    }

    method Record(u: nat, amount: nat, reply: Reply) returns (outcome: Outcome)
      requires Valid() && (u, amount) in s.repairs
      modifies this`s, this`gap
      ensures Valid()
      ensures |s.db.claims| >= |old(s).db.claims| + if outcome.Repaired? then 1 else 0
      ensures outcome.Repaired? ==> Recorded(s.db.claims, u)
      ensures Quiet() && reply.Told? && !Recorded(old(s).db.claims, u) ==> RecordedAs(old(s), s, u, amount, outcome)
    {
      var r := ClaimTx(s.db, u, amount);
      ClaimTxIff(s.db, u, amount);
      RepairRecords(s, u, amount);
      Do(RunRepair(u, amount, reply));
      if r.Success? && reply.Told? {
        return Repaired;
      }
      if r.Failure? && r.error.Closed? && reply.Told? {
        return EndedPacket;
      }
      OthersGrow();
      outcome := if FindClaim(s.db.claims, u).Some? then GivenUp else StillOpen;
    }
  }

  datatype Outcome = Repaired | GivenUp | EndedPacket | StillOpen

  lemma {:induction false} RunKeepsRepairs(s: Sys, steps: seq<Step>)
    ensures s.repairs <= After(s, steps).repairs
  {
    if steps != [] {
      RunKeepsRepairs(s, steps[..|steps| - 1]);
    }
  }

  lemma RefundEnds(s: Sys)
    requires RefundTx(s.db).Success?
    ensures var t := Apply(Apply(s, RunRefund), DropPool);
      t.db.claims == s.db.claims && !t.db.packet.status.Active? && t.keys.marks == s.keys.marks
  {
    assert Apply(s, RunRefund).db == RefundTx(s.db).value;
  }

  lemma GrabOpensSession(s: Sys, user: nat, at: nat)
    requires SagaInv(s)
    ensures Grab(s.keys, user, at).1 != -1 && Grab(s.keys, user, at).1 != -2 ==>
      var t := Apply(s, GrabShare(user, at)); user in t.sessions && t.sessions[user].phase == Popped
  {
  }

  /** The user's claim row exists with this amount, which is the share that the user's mark names. */
  ghost predicate Found(s: Sys, user: nat, amount: nat) {
    && FindClaim(s.db.claims, user).Some? && FindClaim(s.db.claims, user).value.amount == amount
    && user in s.keys.marks && s.keys.marks[user].amount == amount
  }

  /** The share is back at the front of the pool and the mark is gone. */
  ghost predicate GaveBack(s: Sys, t: Sys, user: nat)
    requires user in s.sessions
  {
    t.keys == Keys([s.sessions[user].amount] + s.keys.pool, s.keys.marks - {user})
  }

  /** The claim transaction commits, whatever its caller is told. */
  ghost predicate Lands(reply: Reply, d: Db, user: nat, amount: nat) {
    !reply.Broken? && Takes(d, user, amount)
  }

  ghost predicate AllTold(lock: nat -> Reply, reply: nat -> Reply) {
    forall n :: lock(n).Told? && reply(n).Told?
  }

  /** Every marked user has a wallet, and claim ids are new. */
  ghost predicate Creditable(d: Db, marks: map<nat, Mark>) {
    IdsFresh(d.books, d.nextId) && forall u :: u in marks ==> u in d.books.wallets
  }

  predicate Young(marks: map<nat, Mark>, claims: seq<RedPacket.Claim>, u: nat, now: nat, grace: nat)
    requires u in marks
  {
    !Recorded(claims, u) && now < marks[u].at + grace
  }

  /** How far a round has come that nobody disturbs and that gets every answer; `todo`: the marks still to be seen. */
  ghost predicate Calm(s: Sys, marks: map<nat, Mark>, claims: seq<RedPacket.Claim>, todo: set<nat>, now: nat,
                       grace: nat, pending: bool, closed: bool)
  {
    && Creditable(s.db, marks) && s.keys.marks.Keys == marks.Keys && todo <= marks.Keys
    && (forall u :: u in todo ==> s.keys.marks[u] == marks[u])
    && (forall u :: u in todo ==> (Recorded(s.db.claims, u) <==> Recorded(claims, u)))
    && (forall u :: u in marks && Young(marks, claims, u, now, grace) ==>
          !Recorded(s.db.claims, u) && s.keys.marks[u] == marks[u])
    && (forall u :: u in marks && u !in todo && !Young(marks, claims, u, now, grace) ==>
          Recorded(s.db.claims, u) || closed)
    && (pending <==> exists u :: u in marks && u !in todo && Young(marks, claims, u, now, grace))
    && (closed ==> !s.db.packet.status.Active?)
  }

  lemma CalmStarts(s: Sys, now: nat, grace: nat)
    requires Creditable(s.db, s.keys.marks)
    ensures Calm(s, s.keys.marks, s.db.claims, s.keys.marks.Keys, now, grace, false, false)
  {
  }

  /** What such a round leaves: every mark has its claim row, save the young orphans, which keep it pending, and those
      of a packet that has ended. */
  ghost predicate RoundDone(s: Sys, marks: map<nat, Mark>, claims: seq<RedPacket.Claim>, now: nat, grace: nat,
                            pending: bool)
  {
    && (forall u :: u in marks && Young(marks, claims, u, now, grace) ==>
          !Recorded(s.db.claims, u) && u in s.keys.marks && s.keys.marks[u] == marks[u])
    && (forall u :: u in marks && !Young(marks, claims, u, now, grace) && s.db.packet.status.Active? ==>
          Recorded(s.db.claims, u))
    && (s.db.packet.status.Active? ==> (pending <==> exists u :: u in marks && Young(marks, claims, u, now, grace)))
  }

  lemma CalmEnds(s: Sys, marks: map<nat, Mark>, claims: seq<RedPacket.Claim>, todo: set<nat>, now: nat, grace: nat,
                 pending: bool, closed: bool)
    requires Calm(s, marks, claims, todo, now, grace, pending, closed) && (todo == {} || closed)
    ensures RoundDone(s, marks, claims, now, grace, pending)
  {
  }

  lemma PendingVisit(marks: map<nat, Mark>, claims: seq<RedPacket.Claim>, todo: set<nat>, now: nat, grace: nat, u: nat)
    requires todo <= marks.Keys && u in todo
    ensures (exists v :: v in marks && v !in todo - {u} && Young(marks, claims, v, now, grace)) <==>
      Young(marks, claims, u, now, grace) || exists v :: v in marks && v !in todo && Young(marks, claims, v, now, grace)
  {
    if v :| v in marks && v !in todo && Young(marks, claims, v, now, grace) {
      assert v !in todo - {u};
    }
    if Young(marks, claims, u, now, grace) {
      assert u !in todo - {u};
    }
  }

  lemma CalmVisit(s: Sys, t: Sys, marks: map<nat, Mark>, claims: seq<RedPacket.Claim>, todo: set<nat>, now: nat,
                  grace: nat, pending: bool, u: nat, outcome: Outcome)
    requires SagaInv(s) && Calm(s, marks, claims, todo, now, grace, pending, false) && u in todo
    requires Recorded(claims, u) || Young(marks, claims, u, now, grace) ==>
      t == s && outcome == if Recorded(claims, u) then GivenUp else StillOpen
    requires !Recorded(claims, u) && !Young(marks, claims, u, now, grace) ==> TakenOver(s, t, u, marks[u], outcome)
    ensures Calm(t, marks, claims, todo - {u}, now, grace, pending || outcome.StillOpen?, outcome.EndedPacket?)
  {
    PendingVisit(marks, claims, todo, now, grace, u);
    if !Recorded(claims, u) && !Young(marks, claims, u, now, grace) {
      FreshId(s.db.books, s.db.nextId);
      assert Takes(s.db, u, marks[u].amount) <==> s.db.packet.status.Active?;
      if s.db.packet.status.Active? {
        var c := RedPacket.Claim(s.db.nextId, u, marks[u].amount);
        forall v ensures Recorded(t.db.claims, v) <==> Recorded(s.db.claims, v) || v == u {
          RecordedAppend(s.db.claims, c, v);
        }
      }
    }
  }

  /** What an answered repair transaction of an unrecorded share does. */
  ghost predicate RecordedAs(s: Sys, t: Sys, u: nat, amount: nat, outcome: Outcome) {
    && t.keys == s.keys
    && (Takes(s.db, u, amount) ==>
          && outcome.Repaired? && t.db.claims == s.db.claims + [RedPacket.Claim(s.db.nextId, u, amount)]
          && t.db.books.wallets.Keys == s.db.books.wallets.Keys
          && (IdsFresh(s.db.books, s.db.nextId) ==> IdsFresh(t.db.books, t.db.nextId)))
    && (!Takes(s.db, u, amount) ==> t.db == s.db)
    && (!s.db.packet.status.Active? ==> outcome.EndedPacket?)
  }

  /** The mark is taken over, then its share recorded. */
  ghost predicate TakenOver(s: Sys, t: Sys, u: nat, raw: Mark, outcome: Outcome) {
    && t.keys == s.keys.(marks := s.keys.marks[u := Mark(raw.amount, raw.at, true)])
    && RecordedAs(s.(keys := t.keys), t, u, raw.amount, outcome)
  }

  lemma RepairRecords(s: Sys, u: nat, amount: nat)
    requires (u, amount) in s.repairs
    ensures var t := Apply(s, RunRepair(u, amount, Told));
      && t.keys == s.keys
      && (!Takes(s.db, u, amount) ==> t.db == s.db)
      && (Takes(s.db, u, amount) ==>
            && t.db.claims == s.db.claims + [RedPacket.Claim(s.db.nextId, u, amount)]
            && Recorded(t.db.claims, u)
            && t.db.books.wallets.Keys == s.db.books.wallets.Keys
            && (IdsFresh(s.db.books, s.db.nextId) ==> IdsFresh(t.db.books, t.db.nextId)))
  {
    ClaimTxIff(s.db, u, amount);
    if Takes(s.db, u, amount) {
      ClaimTxRows(s.db, u, amount);
      RecordedAppend(s.db.claims, RedPacket.Claim(s.db.nextId, u, amount), u);
      MoveGoesThroughIff(s.db.books, Wallet(u), Credit, RedPacketEscrow, amount, s.db.nextId, RedPacketClaim);
      if IdsFresh(s.db.books, s.db.nextId) {
        ClaimMove(s.db, u, amount);
        MoveKeepsFresh(s.db.books, Wallet(u), Credit, RedPacketEscrow, amount, s.db.nextId, RedPacketClaim,
          s.db.nextId);
      }
    }
  }

  lemma UnrecordedWithoutMark(s: Sys, user: nat)
    requires SagaInv(s) && user !in s.keys.marks
    ensures !Recorded(s.db.claims, user)
  {
  }

  lemma PutBack(k: Keys, user: nat, mark: Mark)
    requires user !in k.marks && k.pool != []
    ensures [k.pool[0]] + k.pool[1..] == k.pool && k.marks[user := mark] - {user} == k.marks
  {
  }

  lemma LostIsRecorded(s: Sys, user: nat)
    requires SagaInv(s) && user in s.sessions && s.sessions[user].phase.Popped?
    ensures var t := Apply(s, RunClaim(user, LostReply)); var amount := s.sessions[user].amount;
      ClaimTx(s.db, user, amount).Success? ==>
        && t.keys == s.keys && Recorded(t.db.claims, user) && user in t.sessions && t.sessions[user].amount == amount
        && t.db.claims == s.db.claims + [RedPacket.Claim(s.db.nextId, user, amount)]
  {
    var amount := s.sessions[user].amount;
    if ClaimTx(s.db, user, amount).Success? {
      ClaimTxRows(s.db, user, amount);
      RecordedAppend(s.db.claims, RedPacket.Claim(s.db.nextId, user, amount), user);
    }
  }

  lemma CommittedIsFound(s: Sys, user: nat)
    requires SagaInv(s) && user in s.sessions && s.sessions[user].phase.Popped?
    requires ClaimTx(s.db, user, s.sessions[user].amount).Success?
    ensures Found(Apply(s, RunClaim(user, Told)), user, s.sessions[user].amount)
  {
    var t := Apply(s, RunClaim(user, Told));
    ClaimTxRows(s.db, user, s.sessions[user].amount);
    RecordedAppend(s.db.claims, RedPacket.Claim(s.db.nextId, user, s.sessions[user].amount), user);
    RunClaimKeepsSaga(s, user, Told);
    FoundAmount(t, user);
  }

  lemma FoundAmount(s: Sys, user: nat)
    requires SagaInv(s) && Recorded(s.db.claims, user)
    ensures FindClaim(s.db.claims, user).Some? && Found(s, user, FindClaim(s.db.claims, user).value.amount)
  {
  }
}

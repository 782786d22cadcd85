/** What every run of a red packet keeps: no share is lost or handed out twice, and the escrow holds exactly what the
    claims and the refund have not taken. */
module RedPacketRuns {
  import opened Results
  import opened Sums
  import opened Ledger
  import opened RedPacket

  // ---- Where each share is ----

  /** Users holding a mark of this amount without a claim row. */
  ghost function Unrecorded(k: Keys, claims: seq<Claim>, amount: int): set<nat> {
    set u | u in k.marks && !Recorded(claims, u) && k.marks[u].amount == amount
  }

  ghost function Seen(s: Sys, amount: int): int {
    multiset(s.unsent)[amount] + multiset(s.keys.pool)[amount] + |Unrecorded(s.keys, s.db.claims, amount)|
    + multiset(Amounts(s.db.claims))[amount] + s.gone[amount]
  }

  /** Unsent shares, pool, marks without a row, claim rows and dropped shares are together the split, as bags. */
  ghost predicate Conserved(s: Sys, shares: seq<nat>) {
    forall amount: int :: Seen(s, amount) == multiset(shares)[amount]
  }

  // ---- Marks, sessions and repairs ----

  ghost predicate SessionsOk(sessions: map<nat, Session>, marks: map<nat, Mark>, claims: seq<Claim>) {
    forall u :: u in sessions ==>
      && u in marks && marks[u].amount == sessions[u].amount
      && (!sessions[u].phase.Failed? && !marks[u].repairing ==> !Recorded(claims, u))
  }

  ghost predicate RepairsOk(repairs: set<(nat, nat)>, marks: map<nat, Mark>) {
    forall r :: r in repairs ==> r.0 in marks && marks[r.0].repairing && marks[r.0].amount == r.1
  }

  ghost predicate ClaimsOk(claims: seq<Claim>, marks: map<nat, Mark>) {
    && (forall i :: 0 <= i < |claims| ==> claims[i].user in marks && marks[claims[i].user].amount == claims[i].amount)
    && forall i, j :: 0 <= i < j < |claims| ==> claims[i].user != claims[j].user
  }

  ghost predicate Positive(s: Sys) {
    && (forall i :: 0 <= i < |s.keys.pool| ==> s.keys.pool[i] >= 1)
    && (forall i :: 0 <= i < |s.unsent| ==> s.unsent[i] >= 1)
    && forall u :: u in s.keys.marks ==> s.keys.marks[u].amount >= 1
  }

  ghost predicate CountOk(d: Db) {
    && d.packet.remaining >= 0 && |d.claims| + d.packet.remaining == d.packet.count
    && (d.packet.remaining == 0 <==> d.packet.status.Finished?)
  }

  ghost predicate SagaInv(s: Sys) {
    && SessionsOk(s.sessions, s.keys.marks, s.db.claims) && RepairsOk(s.repairs, s.keys.marks)
    && ClaimsOk(s.db.claims, s.keys.marks) && Positive(s) && CountOk(s.db)
  }

  lemma RecordedAppend(claims: seq<Claim>, c: Claim, u: nat)
    ensures Recorded(claims + [c], u) <==> Recorded(claims, u) || u == c.user
  {
    assert (claims + [c])[|claims|] == c;
    if Recorded(claims, u) {
      var i :| 0 <= i < |claims| && claims[i].user == u;
      assert (claims + [c])[i] == claims[i];
    }
  }

  // ---- The scripts ----

  lemma GrabKeepsSaga(s: Sys, u: nat, at: nat)
    requires SagaInv(s)
    ensures SagaInv(Apply(s, GrabShare(u, at)))
  {
    if u !in s.keys.marks {
      assert !Recorded(s.db.claims, u);
    }
  }

  lemma GrabMovesShare(s: Sys, u: nat, at: nat, amount: int)
    requires SagaInv(s)
    ensures Seen(Apply(s, GrabShare(u, at)), amount) == Seen(s, amount)
  {
    if u !in s.keys.marks && s.keys.pool != [] {
      var x := s.keys.pool[0];
      assert s.keys.pool == [x] + s.keys.pool[1..];
      assert !Recorded(s.db.claims, u);
      NewMark(s.keys, Grab(s.keys, u, at).0, s.db.claims, u, amount);
    }
  }

  lemma NewMark(k: Keys, k1: Keys, claims: seq<Claim>, u: nat, amount: int)
    requires u !in k.marks && !Recorded(claims, u) && u in k1.marks && k1.marks == k.marks[u := k1.marks[u]]
    ensures |Unrecorded(k1, claims, amount)| ==
      |Unrecorded(k, claims, amount)| + if k1.marks[u].amount == amount then 1 else 0
  {
    var before := Unrecorded(k, claims, amount);
    assert Unrecorded(k1, claims, amount) == if k1.marks[u].amount == amount then before + {u} else before;
  }

  lemma UndoKeepsSaga(s: Sys, u: nat)
    requires SagaInv(s)
    ensures SagaInv(Apply(s, UndoClaim(u)))
  {
  }

  lemma UndoMovesShare(s: Sys, u: nat, amount: int)
    requires SagaInv(s)
    ensures Seen(Apply(s, UndoClaim(u)), amount) == Seen(s, amount)
  {
    if Enabled(s, UndoClaim(u)) && !s.keys.marks[u].repairing {
      var x := s.sessions[u].amount;
      OldMark(s.keys, Rollback(s.keys, u, x).0, s.db.claims, u, amount);
    }
  }

  lemma OldMark(k: Keys, k1: Keys, claims: seq<Claim>, u: nat, amount: int)
    requires u in k.marks && !Recorded(claims, u) && k1.marks == k.marks - {u}
    ensures |Unrecorded(k1, claims, amount)| ==
      |Unrecorded(k, claims, amount)| - if k.marks[u].amount == amount then 1 else 0
  {
    var before := Unrecorded(k, claims, amount);
    assert Unrecorded(k1, claims, amount) == if k.marks[u].amount == amount then before - {u} else before;
  }

  lemma LockKeepsSaga(s: Sys, u: nat, raw: Mark)
    requires SagaInv(s)
    ensures SagaInv(Apply(s, LockRepair(u, raw)))
  {
  }

  lemma LockMovesNothing(s: Sys, u: nat, raw: Mark, amount: int)
    ensures Seen(Apply(s, LockRepair(u, raw)), amount) == Seen(s, amount)
  {
    var k := LockMark(s.keys, u, raw).0;
    assert Unrecorded(k, s.db.claims, amount) == Unrecorded(s.keys, s.db.claims, amount);
  }

  // ---- The claim transaction ----

  lemma ClaimTxRows(d: Db, user: nat, amount: nat)
    requires ClaimTx(d, user, amount).Success?
    ensures !Recorded(d.claims, user)
    ensures ClaimTx(d, user, amount).value.claims == d.claims + [Claim(d.nextId, user, amount)]
  {
  }

  lemma ClaimTxKeepsRows(d: Db, marks: map<nat, Mark>, user: nat, amount: nat)
    requires ClaimsOk(d.claims, marks) && CountOk(d) && user in marks && marks[user].amount == amount
    requires ClaimTx(d, user, amount).Success?
    ensures ClaimsOk(ClaimTx(d, user, amount).value.claims, marks)
    ensures CountOk(ClaimTx(d, user, amount).value)
  {
    ClaimTxRows(d, user, amount);
  }

  lemma ClaimMovesShare(k: Keys, claims: seq<Claim>, c: Claim, amount: int)
    requires c.user in k.marks && k.marks[c.user].amount == c.amount && !Recorded(claims, c.user)
    ensures |Unrecorded(k, claims + [c], amount)| + multiset(Amounts(claims + [c]))[amount]
      == |Unrecorded(k, claims, amount)| + multiset(Amounts(claims))[amount]
  {
    forall u ensures Recorded(claims + [c], u) <==> Recorded(claims, u) || u == c.user {
      RecordedAppend(claims, c, u);
    }
    var before := Unrecorded(k, claims, amount);
    assert Unrecorded(k, claims + [c], amount) == if c.amount == amount then before - {c.user} else before;
    assert Amounts(claims + [c]) == Amounts(claims) + [c.amount];
  }

  lemma RunClaimKeepsSaga(s: Sys, u: nat, reply: Reply)
    requires SagaInv(s)
    ensures SagaInv(Apply(s, RunClaim(u, reply)))
  {
    if Enabled(s, RunClaim(u, reply)) && !reply.Broken? && ClaimTx(s.db, u, s.sessions[u].amount).Success? {
      var amount := s.sessions[u].amount;
      ClaimTxRows(s.db, u, amount);
      ClaimTxKeepsRows(s.db, s.keys.marks, u, amount);
      forall v ensures v != u ==>
        (Recorded(s.db.claims + [Claim(s.db.nextId, u, amount)], v) <==> Recorded(s.db.claims, v)) {
        RecordedAppend(s.db.claims, Claim(s.db.nextId, u, amount), v);
      }
    }
  }

  lemma RunClaimMovesShare(s: Sys, u: nat, reply: Reply, amount: int)
    requires SagaInv(s)
    ensures Seen(Apply(s, RunClaim(u, reply)), amount) == Seen(s, amount)
  {
    if Enabled(s, RunClaim(u, reply)) && !reply.Broken? && ClaimTx(s.db, u, s.sessions[u].amount).Success? {
      var x := s.sessions[u].amount;
      ClaimTxRows(s.db, u, x);
      ClaimMovesShare(s.keys, s.db.claims, Claim(s.db.nextId, u, x), amount);
    }
  }

  lemma RunRepairKeepsSaga(s: Sys, u: nat, x: nat, reply: Reply)
    requires SagaInv(s)
    ensures SagaInv(Apply(s, RunRepair(u, x, reply)))
  {
    if Enabled(s, RunRepair(u, x, reply)) && !reply.Broken? && ClaimTx(s.db, u, x).Success? {
      assert (u, x) in s.repairs;
      ClaimTxRows(s.db, u, x);
      ClaimTxKeepsRows(s.db, s.keys.marks, u, x);
      forall v ensures v != u ==>
        (Recorded(s.db.claims + [Claim(s.db.nextId, u, x)], v) <==> Recorded(s.db.claims, v)) {
        RecordedAppend(s.db.claims, Claim(s.db.nextId, u, x), v);
      }
    }
  }

  lemma RunRepairMovesShare(s: Sys, u: nat, x: nat, reply: Reply, amount: int)
    requires SagaInv(s)
    ensures Seen(Apply(s, RunRepair(u, x, reply)), amount) == Seen(s, amount)
  {
    if Enabled(s, RunRepair(u, x, reply)) && !reply.Broken? && ClaimTx(s.db, u, x).Success? {
      assert (u, x) in s.repairs;
      ClaimTxRows(s.db, u, x);
      ClaimMovesShare(s.keys, s.db.claims, Claim(s.db.nextId, u, x), amount);
    }
  }

  // ---- Refund, pool and the rest ----

  lemma RestKeepsSaga(s: Sys, step: Step)
    requires SagaInv(s)
    requires step.Prepare? || step.CheckClaim? || step.DropSession? || step.RunRefund? || step.DropPool?
      || step.LosePool?
      || step.Replay? || step.Elsewhere?
    ensures SagaInv(Apply(s, step))
  {
  }

  lemma RestMovesNothing(s: Sys, step: Step, amount: int)
    requires step.Prepare? || step.CheckClaim? || step.DropSession? || step.RunRefund? || step.DropPool?
      || step.LosePool?
      || step.Replay? || step.Elsewhere?
    ensures Seen(Apply(s, step), amount) == Seen(s, amount)
  {
  }

  lemma StepKeepsSaga(s: Sys, step: Step)
    requires SagaInv(s)
    ensures SagaInv(Apply(s, step))
  {
    match step
    case GrabShare(u, at) => GrabKeepsSaga(s, u, at);
    case RunClaim(u, reply) => RunClaimKeepsSaga(s, u, reply);
    case UndoClaim(u) => UndoKeepsSaga(s, u);
    case LockRepair(u, raw) => LockKeepsSaga(s, u, raw);
    case RunRepair(u, x, reply) => RunRepairKeepsSaga(s, u, x, reply);
    case _ => RestKeepsSaga(s, step);
  }

  lemma StepMovesShares(s: Sys, step: Step, amount: int)
    requires SagaInv(s)
    ensures Seen(Apply(s, step), amount) == Seen(s, amount)
  {
    match step
    case GrabShare(u, at) => GrabMovesShare(s, u, at, amount);
    case RunClaim(u, reply) => RunClaimMovesShare(s, u, reply, amount);
    case UndoClaim(u) => UndoMovesShare(s, u, amount);
    case LockRepair(u, raw) => LockMovesNothing(s, u, raw, amount);
    case RunRepair(u, x, reply) => RunRepairMovesShare(s, u, x, reply, amount);
    case _ => RestMovesNothing(s, step, amount);
  }
}

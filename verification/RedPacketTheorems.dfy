/** The main results about a red packet, for every run from its creation. */
module RedPacketTheorems {
  import opened Results
  import opened Sums
  import opened Ledger
  import opened RedPacket
  import opened RedPacketRuns
  import opened RedPacketMoney

  ghost predicate PacketInv(s: Sys, shares: seq<nat>, opening: map<nat, int>) {
    && SagaInv(s) && Conserved(s, shares) && MoneyInv(s.db, opening)
    && Shares(shares, s.db.packet.total, s.db.packet.count) && s.db.packet.total >= 1
  }

  lemma SharesSumPositive(shares: seq<nat>, total: nat, count: nat)
    requires Shares(shares, total, count)
    ensures total >= 1
  {
    assert multiset([shares[0]]) <= multiset(shares) by {
      assert shares == [shares[0]] + shares[1..];
    }
    SubBagSum([shares[0]], shares);
    SumAppend([], shares[0]);
    assert [] + [shares[0]] == [shares[0]];
  }

  lemma CreationStarts(b: Books, id: nat, nextId: nat, sender: nat, shares: seq<nat>, total: nat,
                       opening: map<nat, int>)
    requires BooksInv(b, opening) && FreshIds(b, id, nextId) && Shares(shares, total, |shares|)
    requires Created(b, id, nextId, sender, shares, total).Success?
    ensures PacketInv(Created(b, id, nextId, sender, shares, total).value, shares, opening)
  {
    var s := Created(b, id, nextId, sender, shares, total).value;
    SharesSumPositive(shares, total, |shares|);
    CreationOpensMoney(b, id, nextId, sender, shares, total, opening);
    forall amount: int ensures Seen(s, amount) == multiset(shares)[amount] {
      assert Unrecorded(s.keys, s.db.claims, amount) == {};
      assert Amounts(s.db.claims) == [];
    }
  }

  /** A packet right after its creation from balanced books. */
  ghost predicate Launched(start: Sys, shares: seq<nat>, opening: map<nat, int>) {
    exists b: Books, nextId: nat ::
      && BooksInv(b, opening) && FreshIds(b, start.db.packet.id, nextId)
          && Shares(shares, start.db.packet.total, |shares|)
      && Created(b, start.db.packet.id, nextId, start.db.packet.sender, shares, start.db.packet.total) == Success(start)
  }

  lemma LaunchedIsSound(start: Sys, shares: seq<nat>, opening: map<nat, int>)
    requires Launched(start, shares, opening)
    ensures PacketInv(start, shares, opening) && start.gone == multiset{} && start.db.packet.count == |shares|
  {
    var b, nextId :| && BooksInv(b, opening) && FreshIds(b, start.db.packet.id, nextId)
      && Shares(shares, start.db.packet.total, |shares|)
      && Created(b, start.db.packet.id, nextId, start.db.packet.sender, shares,
          start.db.packet.total) == Success(start);
    CreationStarts(b, start.db.packet.id, nextId, start.db.packet.sender, shares, start.db.packet.total, opening);
  }

  lemma StepKeepsTerms(s: Sys, step: Step)
    ensures Apply(s, step).db.packet.total == s.db.packet.total && Apply(s, step).db.packet.count == s.db.packet.count
  {
  }

  lemma StepKeepsConserved(s: Sys, step: Step, shares: seq<nat>)
    requires SagaInv(s) && Conserved(s, shares)
    ensures Conserved(Apply(s, step), shares)
  {
    forall amount: int ensures Seen(Apply(s, step), amount) == multiset(shares)[amount] {
      StepMovesShares(s, step, amount);
    }
  }

  /** The invariant of every run: shares and money are conserved whatever the interleaving, replies lost, crashes,
      repairs, refunds and other people's movements. */
  lemma {:induction false} RunKeepsPacket(start: Sys, steps: seq<Step>, shares: seq<nat>, opening: map<nat, int>)
    requires Launched(start, shares, opening)
    ensures PacketInv(After(start, steps), shares, opening)
  {
    if steps == [] {
      LaunchedIsSound(start, shares, opening);
    } else {
      var s, step := After(start, steps[..|steps| - 1]), steps[|steps| - 1];
      RunKeepsPacket(start, steps[..|steps| - 1], shares, opening);
      StepKeepsSaga(s, step);
      StepKeepsConserved(s, step, shares);
      StepKeepsMoney(s, step, opening);
      StepKeepsTerms(s, step);
    }
  }

  // ---- Escrow ----

  lemma ClaimsInsideSplit(s: Sys, shares: seq<nat>)
    requires SagaInv(s) && Conserved(s, shares) && Shares(shares, s.db.packet.total, s.db.packet.count)
    ensures multiset(Amounts(s.db.claims)) <= multiset(shares)
    ensures Claimed(s.db.claims) <= s.db.packet.total
    ensures s.db.packet.status.Finished? ==> Claimed(s.db.claims) == s.db.packet.total
  {
    forall amount: int ensures multiset(Amounts(s.db.claims))[amount] <= multiset(shares)[amount] {
      assert Seen(s, amount) == multiset(shares)[amount];
    }
    SubBagSum(Amounts(s.db.claims), shares);
  }

  /** With a share unclaimed the claims sum to less than the total. */
  lemma UnclaimedLeavesMoney(claims: seq<nat>, shares: seq<nat>)
    requires multiset(claims) <= multiset(shares) && |claims| < |shares|
    requires forall i :: 0 <= i < |shares| ==> shares[i] >= 1
    ensures Sum(claims) < Sum(shares)
  {
    var missing := multiset(shares) - multiset(claims);
    assert |missing| == |shares| - |claims|;
    var x :| x in missing;
    assert multiset(claims + [x]) <= multiset(shares);
    assert x in shares;
    SubBagSum(claims + [x], shares);
    SumAppend(claims, x);
  }

  lemma EscrowOfState(s: Sys, shares: seq<nat>, opening: map<nat, int>)
    requires PacketInv(s, shares, opening)
    ensures var escrow := Net(s.db.books.rows, PacketKeys(s.db.packet.id, s.db.claims), RedPacketEscrow);
      && escrow == s.db.packet.total - Claimed(s.db.claims) - Returned(s.db)
      && escrow >= 0
      && (escrow == 0 <==> !s.db.packet.status.Active?)
  {
    ClaimsInsideSplit(s, shares);
    if s.db.packet.status.Active? {
      UnclaimedLeavesMoney(Amounts(s.db.claims), shares);
    }
  }

  /** In every run of a created packet the ledger stays balanced and not overdrawn, the packet's escrow is total
      less claims less refund, never negative, and empty exactly once the packet is finished or refunded; claims and
      remaining are together the number of shares. */
  lemma EscrowIsExact(start: Sys, steps: seq<Step>, shares: seq<nat>, opening: map<nat, int>)
    requires Launched(start, shares, opening)
    ensures var s := After(start, steps);
      var escrow := Net(s.db.books.rows, PacketKeys(s.db.packet.id, s.db.claims), RedPacketEscrow);
      && BooksInv(s.db.books, opening)
      && escrow == start.db.packet.total - Claimed(s.db.claims) - Returned(s.db) >= 0
      && (escrow == 0 <==> !s.db.packet.status.Active?)
      && |s.db.claims| + s.db.packet.remaining == |shares|
  {
    LaunchedIsSound(start, shares, opening);
    RunKeepsPacket(start, steps, shares, opening);
    RunKeepsTerms(start, steps);
    EscrowOfState(After(start, steps), shares, opening);
  }

  /** What the packet did to a wallet: its one claim, and for the sender minus what was not refunded. */
  lemma WalletIsExact(start: Sys, steps: seq<Step>, shares: seq<nat>, opening: map<nat, int>, u: nat)
    requires Launched(start, shares, opening)
    ensures var s := After(start, steps);
      Net(s.db.books.rows, PacketKeys(s.db.packet.id, s.db.claims), Wallet(u))
      == ClaimedBy(s.db.claims, u) + if u == s.db.packet.sender then Returned(s.db) - s.db.packet.total else 0
  {
    RunKeepsPacket(start, steps, shares, opening);
  }

  lemma {:induction false} RunKeepsTerms(s: Sys, steps: seq<Step>)
    ensures After(s, steps).db.packet.total == s.db.packet.total && After(s, steps).db.packet.count == s.db.packet.count
  {
    if steps != [] {
      RunKeepsTerms(s, steps[..|steps| - 1]);
      StepKeepsTerms(After(s, steps[..|steps| - 1]), steps[|steps| - 1]);
    }
  }

  // ---- Finality ----

  ghost predicate Extends(d: Db, later: Db) {
    && d.claims <= later.claims && later.packet.id == d.packet.id
    && (!d.packet.status.Active? ==> later.packet.status == d.packet.status && later.claims == d.claims)
  }

  lemma StepExtends(s: Sys, step: Step)
    ensures Extends(s.db, Apply(s, step).db)
  {
  }

  /** Finished and refunded exclude each other for good: an ended packet keeps its status and takes no more claims, and
      a claim row never goes away. */
  lemma {:induction false} RunExtends(s: Sys, steps: seq<Step>)
    ensures Extends(s.db, After(s, steps).db)
  {
    if steps != [] {
      RunExtends(s, steps[..|steps| - 1]);
      StepExtends(After(s, steps[..|steps| - 1]), steps[|steps| - 1]);
    }
  }

  // ---- Rollback against repair ----

  /** A rollback that puts a share back found no claim row and no repair of it, and leaves nothing to repair; any mark a
      reconciler holds, or any repaired or committed share, is not put back. */
  lemma PutBackOrRepaired(start: Sys, steps: seq<Step>, shares: seq<nat>, opening: map<nat, int>, u: nat)
    requires Launched(start, shares, opening) && Enabled(After(start, steps), UndoClaim(u))
    ensures var s := After(start, steps);
      Rollback(s.keys, u, s.sessions[u].amount).1 == 1 ==>
      && !Recorded(s.db.claims, u) && (forall r :: r in s.repairs ==> r.0 != u)
      && u !in Apply(s, UndoClaim(u)).keys.marks
      && Apply(s, UndoClaim(u)).keys.pool == [s.sessions[u].amount] + s.keys.pool
    ensures var s := After(start, steps);
      (exists r :: r in s.repairs && r.0 == u) || Recorded(s.db.claims, u) ==> Apply(s, UndoClaim(u)).keys == s.keys
  {
    RunKeepsPacket(start, steps, shares, opening);
  }

  // ---- Intact pools ----

  ghost predicate Intact(steps: seq<Step>) {
    forall i :: 0 <= i < |steps| ==> !steps[i].LosePool?
  }

  lemma {:induction false} IntactLosesNothing(start: Sys, steps: seq<Step>)
    requires start.gone == multiset{} && Intact(steps)
    ensures After(start, steps).db.packet.status.Active? ==> After(start, steps).gone == multiset{}
  {
    if steps != [] {
      IntactLosesNothing(start, steps[..|steps| - 1]);
      StepExtends(After(start, steps[..|steps| - 1]), steps[|steps| - 1]);
    }
  }

  /** As long as the packet is active and its pool was never lost, the shares still to be written, in the pool, marked
      without a row and recorded are exactly the split. */
  lemma IntactSharesAreTheSplit(start: Sys, steps: seq<Step>, shares: seq<nat>, opening: map<nat, int>, amount: int)
    requires Launched(start, shares, opening) && Intact(steps)
    requires After(start, steps).db.packet.status.Active?
    ensures var s := After(start, steps);
      multiset(s.unsent)[amount] + multiset(s.keys.pool)[amount] + |Unrecorded(s.keys, s.db.claims, amount)|
      + multiset(Amounts(s.db.claims))[amount] == multiset(shares)[amount]
  {
    LaunchedIsSound(start, shares, opening);
    RunKeepsPacket(start, steps, shares, opening);
    IntactLosesNothing(start, steps);
    assert Seen(After(start, steps), amount) == multiset(shares)[amount];
  }

  lemma SameBagSameLength(claims: seq<nat>, shares: seq<nat>)
    requires forall amount: int :: multiset(claims)[amount] == multiset(shares)[amount]
    ensures |claims| == |shares|
  {
    assert multiset(claims) == multiset(shares);
    assert |multiset(claims)| == |claims| && |multiset(shares)| == |shares|;
  }

  lemma NothingElseLeft(s: Sys, shares: seq<nat>)
    requires Conserved(s, shares) && s.gone == multiset{} && s.unsent == [] && s.keys.pool == []
    requires forall u :: u in s.keys.marks ==> Recorded(s.db.claims, u)
    ensures |s.db.claims| == |shares|
  {
    forall amount: int ensures multiset(Amounts(s.db.claims))[amount] == multiset(shares)[amount] {
      assert Seen(s, amount) == multiset(shares)[amount];
      assert Unrecorded(s.keys, s.db.claims, amount) == {};
    }
    SameBagSameLength(Amounts(s.db.claims), shares);
  }

  /** Such a packet always has something left to claim or to repair: a share in the pool or not yet written, or an
      orphan mark whose repair would record it. */
  lemma IntactPacketIsClaimable(start: Sys, steps: seq<Step>, shares: seq<nat>, opening: map<nat, int>)
    requires Launched(start, shares, opening) && Intact(steps)
    requires After(start, steps).db.packet.status.Active?
    ensures var s := After(start, steps);
      s.unsent != [] || s.keys.pool != [] || exists u :: u in s.keys.marks && !Recorded(s.db.claims, u)
  {
    var s := After(start, steps);
    LaunchedIsSound(start, shares, opening);
    RunKeepsPacket(start, steps, shares, opening);
    IntactLosesNothing(start, steps);
    if s.unsent == [] && s.keys.pool == [] && forall u :: u in s.keys.marks ==> Recorded(s.db.claims, u) {
      NothingElseLeft(s, shares);
    }
  }

  // ---- When a creation, a claim and a refund go through ----

  /** A claim transaction goes through exactly if the packet is active with shares left, the user has no claim row, and
      his wallet can be credited, or was credited under that id before. */
  ghost predicate Takes(d: Db, user: nat, amount: nat) {
    && d.packet.status.Active? && d.packet.remaining > 0 && amount > 0
    && (forall i :: 0 <= i < |d.claims| ==> d.claims[i].user != user)
    && (HasRow(d.books.rows, d.nextId, Credit, RedPacketClaim)
        || (user in d.books.wallets && !HasRow(d.books.rows, d.nextId, Debit, RedPacketClaim)))
  }

  lemma ClaimTxIff(d: Db, user: nat, amount: nat)
    ensures ClaimTx(d, user, amount).Success? <==> Takes(d, user, amount)
  {
    MoveGoesThroughIff(d.books, Wallet(user), Credit, RedPacketEscrow, amount, d.nextId, RedPacketClaim);
  }

  /** A packet is created exactly if its sender exists and can pay it; it starts active with all its shares unclaimed,
      and its total is gone from the sender's wallet. */
  lemma CreationGoesThroughIff(b: Books, id: nat, nextId: nat, sender: nat, shares: seq<nat>, total: nat,
                               opening: map<nat, int>)
    requires BooksInv(b, opening) && FreshIds(b, id, nextId) && Shares(shares, total, |shares|)
    ensures var r := Created(b, id, nextId, sender, shares, total);
      && (r.Success? <==> sender in opening && b.wallets[sender] >= total)
      && (r.Success? ==>
            && r.value.db.packet == Header(id, sender, total, |shares|, |shares|, Active)
            && r.value.db.claims == [] && r.value.unsent == shares && r.value.keys == Keys([], map[])
            && r.value.db.books.wallets == b.wallets[sender := b.wallets[sender] - total])
  {
    SharesSumPositive(shares, total, |shares|);
    MoveGoesThroughIff(b, Wallet(sender), Debit, RedPacketEscrow, total, id, RedPacketSend);
  }

  lemma {:induction false} RunKeepsSender(s: Sys, steps: seq<Step>)
    ensures After(s, steps).db.packet.sender == s.db.packet.sender && After(s, steps).db.packet.id == s.db.packet.id
  {
    if steps != [] {
      RunKeepsSender(s, steps[..|steps| - 1]);
    }
  }

  lemma LaunchedHasSender(start: Sys, shares: seq<nat>, opening: map<nat, int>)
    requires Launched(start, shares, opening)
    ensures start.db.packet.sender in opening
  {
    var b, nextId :| && BooksInv(b, opening) && FreshIds(b, start.db.packet.id, nextId)
      && Shares(shares, start.db.packet.total, |shares|)
      && Created(b, start.db.packet.id, nextId, start.db.packet.sender, shares,
          start.db.packet.total) == Success(start);
    CreationGoesThroughIff(b, start.db.packet.id, nextId, start.db.packet.sender, shares, start.db.packet.total,
      opening);
  }

  lemma FreshId(b: Books, nextId: nat)
    requires IdsFresh(b, nextId)
    ensures forall dir :: !HasRow(b.rows, nextId, dir, RedPacketClaim)
  {
  }

  lemma ClaimPays(d: Db, u: nat, amount: nat)
    requires amount > 0 && d.packet.remaining > 0 && forall dir :: !HasRow(d.books.rows, d.nextId, dir, RedPacketClaim)
    ensures var r := ClaimTx(d, u, amount);
      && (r.Success? <==> d.packet.status.Active? && !Recorded(d.claims, u) && u in d.books.wallets)
      && (r.Success? ==>
            && r.value.claims == d.claims + [Claim(d.nextId, u, amount)]
            && r.value.packet.remaining == d.packet.remaining - 1
            && r.value.packet.status == (if r.value.packet.remaining == 0 then Finished else Active)
            && r.value.books.wallets == d.books.wallets[u := d.books.wallets[u] + amount])
  {
    MoveGoesThroughIff(d.books, Wallet(u), Credit, RedPacketEscrow, amount, d.nextId, RedPacketClaim);
  }

  /** `s` is a state of some run of the packet created as `start`. */
  ghost predicate Reached(start: Sys, s: Sys, shares: seq<nat>, opening: map<nat, int>) {
    Launched(start, shares, opening) && exists steps :: After(start, steps) == s
  }

  lemma ReachedIsSound(start: Sys, s: Sys, shares: seq<nat>, opening: map<nat, int>)
    requires Reached(start, s, shares, opening)
    ensures PacketInv(s, shares, opening)
    ensures s.db.packet.sender == start.db.packet.sender && s.db.packet.sender in opening
    ensures s.db.packet.total == start.db.packet.total && s.db.packet.count == |shares|
  {
    var steps :| After(start, steps) == s;
    RunKeepsPacket(start, steps, shares, opening);
    LaunchedIsSound(start, shares, opening);
    LaunchedHasSender(start, shares, opening);
    RunKeepsTerms(start, steps);
    RunKeepsSender(start, steps);
  }

  lemma ClaimFromState(s: Sys, shares: seq<nat>, opening: map<nat, int>, u: nat, amount: nat)
    requires PacketInv(s, shares, opening) && amount >= 1
    ensures var d := s.db; var r := ClaimTx(d, u, amount);
      && (r.Success? <==> d.packet.status.Active? && !Recorded(d.claims, u) && u in opening)
      && (r.Success? ==>
            && r.value.claims == d.claims + [Claim(d.nextId, u, amount)]
            && (r.value.packet.status == if |r.value.claims| == d.packet.count then Finished else Active)
            && u in d.books.wallets && r.value.books.wallets == d.books.wallets[u := d.books.wallets[u] + amount])
  {
    FreshId(s.db.books, s.db.nextId);
    if s.db.packet.remaining > 0 {
      ClaimPays(s.db, u, amount);
    }
  }

  /** In every run a claim of a positive amount goes through exactly if the packet is active, the user exists and has
      not claimed; it then pays him that amount, takes one share, and ends the packet with the last. */
  lemma ClaimGoesThroughIff(start: Sys, s: Sys, shares: seq<nat>, opening: map<nat, int>, u: nat, amount: nat)
    requires Reached(start, s, shares, opening) && amount >= 1
    ensures var d := s.db; var r := ClaimTx(d, u, amount);
      && (r.Success? <==> d.packet.status.Active? && !Recorded(d.claims, u) && u in opening)
      && (r.Success? ==>
            && r.value.claims == d.claims + [Claim(d.nextId, u, amount)]
            && (r.value.packet.status == if |r.value.claims| == |shares| then Finished else Active)
            && u in d.books.wallets && r.value.books.wallets == d.books.wallets[u := d.books.wallets[u] + amount])
  {
    ReachedIsSound(start, s, shares, opening);
    ClaimFromState(s, shares, opening, u, amount);
  }

  lemma RefundPays(d: Db)
    requires d.packet.status.Active? && Left(d) > 0 && d.packet.sender in d.books.wallets
    requires forall dir :: !HasRow(d.books.rows, d.packet.id, dir, RedPacketRefund)
    ensures var r := RefundTx(d); var sender := d.packet.sender;
      && r.Success? && r.value.packet == d.packet.(status := Refunded) && r.value.claims == d.claims
      && r.value.books.wallets == d.books.wallets[sender := d.books.wallets[sender] + Left(d)]
  {
    MoveGoesThroughIff(d.books, Wallet(d.packet.sender), Credit, RedPacketEscrow, Left(d), d.packet.id,
      RedPacketRefund);
  }

  lemma RefundFromState(s: Sys, shares: seq<nat>, opening: map<nat, int>)
    requires PacketInv(s, shares, opening) && s.db.packet.sender in opening && s.db.packet.status.Active?
    ensures var d := s.db; var r := RefundTx(d); var sender := d.packet.sender;
      && r.Success? && r.value.packet == d.packet.(status := Refunded) && r.value.claims == d.claims
      && sender in d.books.wallets
      && r.value.books.wallets ==
           d.books.wallets[sender := d.books.wallets[sender] + d.packet.total - Sum(Amounts(d.claims))]
  {
    ClaimsInsideSplit(s, shares);
    UnclaimedLeavesMoney(Amounts(s.db.claims), shares);
    var rows, id := s.db.books.rows, s.db.packet.id;
    assert HasRow(rows, id, Debit, RedPacketRefund) <==> HasRow(rows, id, Credit, RedPacketRefund);
    RefundPays(s.db);
  }

  /** In every run the refund of an active packet goes through: it pays the sender what was not claimed and ends the
      packet; of a packet that has ended it changes nothing. */
  lemma ActivePacketIsRefunded(start: Sys, s: Sys, shares: seq<nat>, opening: map<nat, int>)
    requires Reached(start, s, shares, opening)
    ensures var d := s.db; var r := RefundTx(d); var sender := start.db.packet.sender;
      && r.Success?
      && (!d.packet.status.Active? ==> r.value == d)
      && (d.packet.status.Active? ==>
            && r.value.packet == d.packet.(status := Refunded) && r.value.claims == d.claims
            && sender in d.books.wallets
            && r.value.books.wallets ==
                 d.books.wallets[sender := d.books.wallets[sender] + start.db.packet.total - Sum(Amounts(d.claims))])
  {
    ReachedIsSound(start, s, shares, opening);
    if s.db.packet.status.Active? {
      RefundFromState(s, shares, opening);
    }
  }
}

/** The money of one red packet inside books that other parts of the program, and other packets, write to as well. */
module RedPacketMoney {
  import opened Results
  import opened Sums
  import opened Ledger
  import opened RedPacket
  import opened RedPacketRuns

  ghost function ClaimIds(claims: seq<Claim>): set<nat> {
    set i | 0 <= i < |claims| :: claims[i].id
  }

  /** The references and business types of the packet's rows. */
  ghost function PacketKeys(id: nat, claims: seq<Claim>): set<(nat, Biz)> {
    {(id, RedPacketSend), (id, RedPacketRefund)} + set c | c in ClaimIds(claims) :: (c, RedPacketClaim)
  }

  // ---- The exact money of a packet ----

  function ClaimedBy(claims: seq<Claim>, user: nat): int {
    match FindClaim(claims, user)
    case None => 0
    case Some(c) => c.amount
  }

  /** Escrow: what neither claims nor the refund took. A wallet: its claim, and for the sender the refund less the
      total. */
  ghost function Owed(d: Db, a: Account): int {
    match a
    case RedPacketEscrow => Left(d) - Returned(d)
    case Wallet(u) => ClaimedBy(d.claims, u) + if u == d.packet.sender then Returned(d) - d.packet.total else 0
    case _ => 0
  }

  ghost predicate RowsWritten(d: Db) {
    && HasRow(d.books.rows, d.packet.id, Debit, RedPacketSend)
    && (forall i :: 0 <= i < |d.claims| ==>
        d.claims[i].id < d.nextId && HasRow(d.books.rows, d.claims[i].id, Credit, RedPacketClaim))
    && (HasRow(d.books.rows, d.packet.id, Credit, RedPacketRefund) <==> d.packet.status.Refunded? && Left(d) > 0)
  }

  ghost predicate IdsFresh(b: Books, nextId: nat) {
    forall i :: 0 <= i < |b.rows| && b.rows[i].biz == RedPacketClaim ==> b.rows[i].ref < nextId
  }

  ghost predicate NetExact(d: Db) {
    forall a :: Net(d.books.rows, PacketKeys(d.packet.id, d.claims), a) == Owed(d, a)
  }

  ghost predicate MoneyInv(d: Db, opening: map<nat, int>) {
    BooksInv(d.books, opening) && RowsWritten(d) && IdsFresh(d.books, d.nextId) && NetExact(d)
  }

  // ---- Claim ----

  lemma FindAppend(claims: seq<Claim>, c: Claim, u: nat)
    requires FindClaim(claims, c.user).None?
    ensures ClaimedBy(claims + [c], u) == ClaimedBy(claims, u) + if u == c.user then c.amount else 0
    decreases |claims|
  {
    if claims == [] {
      assert [c][1..] == [];
    } else {
      assert (claims + [c])[1..] == claims[1..] + [c];
      FindAppend(claims[1..], c, u);
    }
  }

  lemma ClaimedAppend(claims: seq<Claim>, c: Claim)
    ensures Claimed(claims + [c]) == Claimed(claims) + c.amount
  {
    assert Amounts(claims + [c]) == Amounts(claims) + [c.amount];
    SumAppend(Amounts(claims), c.amount);
  }

  lemma KeysAppend(id: nat, claims: seq<Claim>, c: Claim)
    ensures PacketKeys(id, claims + [c]) == PacketKeys(id, claims) + {(c.id, RedPacketClaim)}
  {
    var all := claims + [c];
    assert all[|claims|] == c;
    forall x | x in ClaimIds(claims) ensures x in ClaimIds(all) {
      var i :| 0 <= i < |claims| && claims[i].id == x;
      assert all[i].id == x;
    }
    assert ClaimIds(all) == ClaimIds(claims) + {c.id};
  }

  lemma ClaimMove(d: Db, user: nat, amount: nat)
    requires ClaimTx(d, user, amount).Success? && IdsFresh(d.books, d.nextId)
    ensures Move(d.books, Wallet(user), Credit, RedPacketEscrow, amount, d.nextId, RedPacketClaim)
      == Success(ClaimTx(d, user, amount).value.books)
  {
  }

  lemma ClaimKeepsNet(d: Db, user: nat, amount: nat, a: Account)
    requires ClaimTx(d, user, amount).Success? && IdsFresh(d.books, d.nextId) && NetExact(d)
    ensures var d1 := ClaimTx(d, user, amount).value;
      Net(d1.books.rows, PacketKeys(d1.packet.id, d1.claims), a) == Owed(d1, a)
  {
    var d1 := ClaimTx(d, user, amount).value;
    var c := Claim(d.nextId, user, amount);
    ClaimMove(d, user, amount);
    var keys := PacketKeys(d.packet.id, d.claims);
    KeysAppend(d.packet.id, d.claims, c);
    NetMoreKeys(d.books.rows, keys, {(c.id, RedPacketClaim)}, a);
    NetMove(d.books, Wallet(user), Credit, RedPacketEscrow, amount, c.id, RedPacketClaim, keys
      + {(c.id, RedPacketClaim)}, a);
    ClaimedAppend(d.claims, c);
    if a.Wallet? {
      FindAppend(d.claims, c, a.user);
    }
  }

  lemma MoveKeepsFresh(b: Books, first: Account, dir: Direction, second: Account, amount: nat, ref: nat, biz: Biz,
                       n: nat)
    requires IdsFresh(b, n) && Move(b, first, dir, second, amount, ref, biz).Success?
    ensures IdsFresh(Move(b, first, dir, second, amount, ref, biz).value,
      if biz == RedPacketClaim && ref >= n then ref + 1 else n)
  {
    MoveRows(b, first, dir, second, amount, ref, biz);
  }

  lemma ClaimKeepsRows(d: Db, user: nat, amount: nat)
    requires ClaimTx(d, user, amount).Success? && IdsFresh(d.books, d.nextId) && RowsWritten(d)
    ensures RowsWritten(ClaimTx(d, user, amount).value)
  {
    var d1 := ClaimTx(d, user, amount).value;
    ClaimMove(d, user, amount);
    var b := d.books;
    MoveHas(b, Wallet(user), Credit, RedPacketEscrow, amount, d.nextId, RedPacketClaim, d.packet.id, Debit,
      RedPacketSend);
    MoveHas(b, Wallet(user), Credit, RedPacketEscrow, amount, d.nextId, RedPacketClaim, d.packet.id, Credit,
      RedPacketRefund);
    forall i | 0 <= i < |d1.claims|
      ensures d1.claims[i].id < d1.nextId && HasRow(d1.books.rows, d1.claims[i].id, Credit, RedPacketClaim)
    {
      MoveHas(b, Wallet(user), Credit, RedPacketEscrow, amount, d.nextId, RedPacketClaim, d1.claims[i].id, Credit,
        RedPacketClaim);
    }
  }

  lemma ClaimKeepsMoney(d: Db, user: nat, amount: nat, opening: map<nat, int>)
    requires ClaimTx(d, user, amount).Success? && MoneyInv(d, opening)
    ensures MoneyInv(ClaimTx(d, user, amount).value, opening)
  {
    ClaimMove(d, user, amount);
    MoveKeepsBooks(d.books, Wallet(user), Credit, RedPacketEscrow, amount, d.nextId, RedPacketClaim, opening);
    MoveKeepsFresh(d.books, Wallet(user), Credit, RedPacketEscrow, amount, d.nextId, RedPacketClaim, d.nextId);
    ClaimKeepsRows(d, user, amount);
    forall a ensures Net(ClaimTx(d, user, amount).value.books.rows,
      PacketKeys(d.packet.id, ClaimTx(d, user, amount).value.claims), a)
      == Owed(ClaimTx(d, user, amount).value, a) {
      ClaimKeepsNet(d, user, amount, a);
    }
  }

  // ---- Refund ----

  lemma RefundMove(d: Db)
    requires RefundTx(d).Success? && RowsWritten(d) && d.packet.status.Active? && Left(d) > 0
    ensures Move(d.books, Wallet(d.packet.sender), Credit, RedPacketEscrow, Left(d), d.packet.id, RedPacketRefund)
      == Success(RefundTx(d).value.books)
    ensures RefundTx(d).value == d.(packet := d.packet.(status := Refunded), books := RefundTx(d).value.books)
  {
  }

  lemma RefundKeepsNet(d: Db, a: Account)
    requires RefundTx(d).Success? && NetExact(d) && RowsWritten(d) && d.packet.status.Active? && Left(d) > 0
    ensures Net(RefundTx(d).value.books.rows, PacketKeys(d.packet.id, d.claims), a) == Owed(RefundTx(d).value, a)
  {
    var x, keys, b1 := Left(d), PacketKeys(d.packet.id, d.claims), RefundTx(d).value.books;
    RefundMove(d);
    NetMove(d.books, Wallet(d.packet.sender), Credit, RedPacketEscrow, x, d.packet.id, RedPacketRefund, keys, a);
    assert Net(b1.rows, keys, a) == Owed(d, a) + Moved(Wallet(d.packet.sender), Credit, RedPacketEscrow, x, a);
  }

  lemma RefundKeepsMoney(d: Db, opening: map<nat, int>)
    requires RefundTx(d).Success? && MoneyInv(d, opening)
    ensures MoneyInv(RefundTx(d).value, opening)
  {
    var d1 := RefundTx(d).value;
    if d.packet.status.Active? && Left(d) > 0 {
      var b, x, ref := d.books, Left(d), d.packet.id;
      RefundMove(d);
      MoveKeepsBooks(b, Wallet(d.packet.sender), Credit, RedPacketEscrow, x, ref, RedPacketRefund, opening);
      MoveKeepsFresh(b, Wallet(d.packet.sender), Credit, RedPacketEscrow, x, ref, RedPacketRefund, d.nextId);
      RefundKeepsRows(d);
      forall a ensures Net(d1.books.rows, PacketKeys(d1.packet.id, d1.claims), a) == Owed(d1, a) {
        RefundKeepsNet(d, a);
      }
    }
  }

  lemma RefundKeepsRows(d: Db)
    requires RefundTx(d).Success? && RowsWritten(d) && d.packet.status.Active? && Left(d) > 0
    ensures RowsWritten(RefundTx(d).value)
  {
    var d1 := RefundTx(d).value;
    var b, x, ref := d.books, Left(d), d.packet.id;
    RefundMove(d);
    MoveHas(b, Wallet(d.packet.sender), Credit, RedPacketEscrow, x, ref, RedPacketRefund, ref, Debit, RedPacketSend);
    MoveHas(b, Wallet(d.packet.sender), Credit, RedPacketEscrow, x, ref, RedPacketRefund, ref, Credit, RedPacketRefund);
    forall i | 0 <= i < |d1.claims|
      ensures HasRow(d1.books.rows, d1.claims[i].id, Credit, RedPacketClaim)
    {
      MoveHas(b, Wallet(d.packet.sender), Credit, RedPacketEscrow, x, ref, RedPacketRefund, d.claims[i].id, Credit,
        RedPacketClaim);
    }
  }

  // ---- Every step ----

  /** A replayed settlement event changes nothing. */
  lemma ReplayChangesNothing(d: Db, e: Event)
    requires RowsWritten(d) && Written(d, e) && d.packet.total >= 1
    requires forall i :: 0 <= i < |d.claims| ==> d.claims[i].amount >= 1
    ensures Settle(d, e) == Success(d.books)
  {
  }

  lemma ElsewhereKeepsNet(s: Sys, step: Step, a: Account)
    requires step.Elsewhere? && NetExact(s.db) && RowsWritten(s.db) && Enabled(s, step)
    requires Move(s.db.books, step.first, step.dir, step.second, step.amount, step.ref, step.biz).Success?
    ensures var d1 := Apply(s, step).db; Net(d1.books.rows, PacketKeys(d1.packet.id, d1.claims), a) == Owed(d1, a)
  {
    NetMove(s.db.books, step.first, step.dir, step.second, step.amount, step.ref, step.biz,
            PacketKeys(s.db.packet.id, s.db.claims), a);
  }

  lemma ElsewhereKeepsMoney(s: Sys, step: Step, opening: map<nat, int>)
    requires step.Elsewhere? && MoneyInv(s.db, opening)
    ensures MoneyInv(Apply(s, step).db, opening)
  {
    var d, d1 := s.db, Apply(s, step).db;
    var r := Move(d.books, step.first, step.dir, step.second, step.amount, step.ref, step.biz);
    if Enabled(s, step) && r.Success? {
      MoveKeepsBooks(d.books, step.first, step.dir, step.second, step.amount, step.ref, step.biz, opening);
      MoveKeepsFresh(d.books, step.first, step.dir, step.second, step.amount, step.ref, step.biz, d.nextId);
      ElsewhereKeepsRows(s, step);
      forall a ensures Net(d1.books.rows, PacketKeys(d1.packet.id, d1.claims), a) == Owed(d1, a) {
        ElsewhereKeepsNet(s, step, a);
      }
    }
  }

  lemma ElsewhereKeepsRows(s: Sys, step: Step)
    requires step.Elsewhere? && RowsWritten(s.db)
    ensures RowsWritten(Apply(s, step).db)
  {
    var d, d1 := s.db, Apply(s, step).db;
    var r := Move(d.books, step.first, step.dir, step.second, step.amount, step.ref, step.biz);
    if Enabled(s, step) && r.Success? {
      var b, id := d.books, d.packet.id;
      MoveHas(b, step.first, step.dir, step.second, step.amount, step.ref, step.biz, id, Debit, RedPacketSend);
      MoveHas(b, step.first, step.dir, step.second, step.amount, step.ref, step.biz, id, Credit, RedPacketRefund);
      forall i | 0 <= i < |d.claims|
        ensures d1.claims[i].id < d1.nextId && HasRow(d1.books.rows, d1.claims[i].id, Credit, RedPacketClaim)
      {
        MoveHas(b, step.first, step.dir, step.second, step.amount, step.ref, step.biz, d.claims[i].id, Credit,
          RedPacketClaim);
      }
    }
  }

  lemma ReplayKeepsMoney(s: Sys, e: Event)
    requires SagaInv(s) && RowsWritten(s.db) && s.db.packet.total >= 1
    ensures Apply(s, Replay(e)) == s
  {
    if Written(s.db, e) {
      ReplayChangesNothing(s.db, e);
      assert s.db.(books := s.db.books) == s.db;
    }
  }

  lemma RunClaimKeepsMoney(s: Sys, u: nat, reply: Reply, opening: map<nat, int>)
    requires MoneyInv(s.db, opening)
    ensures MoneyInv(Apply(s, RunClaim(u, reply)).db, opening)
  {
    var d := Apply(s, RunClaim(u, reply)).db;
    assert d == s.db || (ClaimTx(s.db, u, s.sessions[u].amount).Success?
      && d == ClaimTx(s.db, u, s.sessions[u].amount).value);
    if d != s.db {
      ClaimKeepsMoney(s.db, u, s.sessions[u].amount, opening);
    }
  }

  lemma RunRepairKeepsMoney(s: Sys, u: nat, amount: nat, reply: Reply, opening: map<nat, int>)
    requires MoneyInv(s.db, opening)
    ensures MoneyInv(Apply(s, RunRepair(u, amount, reply)).db, opening)
  {
    var d := Apply(s, RunRepair(u, amount, reply)).db;
    assert d == s.db || (ClaimTx(s.db, u, amount).Success? && d == ClaimTx(s.db, u, amount).value);
    if d != s.db {
      ClaimKeepsMoney(s.db, u, amount, opening);
    }
  }

  lemma StepKeepsMoney(s: Sys, step: Step, opening: map<nat, int>)
    requires SagaInv(s) && MoneyInv(s.db, opening) && s.db.packet.total >= 1
    ensures MoneyInv(Apply(s, step).db, opening)
  {
    match step
    case RunClaim(u, reply) => RunClaimKeepsMoney(s, u, reply, opening);
    case RunRepair(u, amount, reply) => RunRepairKeepsMoney(s, u, amount, reply, opening);
    case RunRefund =>
      if RefundTx(s.db).Success? {
        RefundKeepsMoney(s.db, opening);
      }
    case Replay(e) => ReplayKeepsMoney(s, e);
    case Elsewhere(_, _, _, _, _, _) => ElsewhereKeepsMoney(s, step, opening);
    case _ =>
  }

  lemma CreationOpensNet(b: Books, id: nat, nextId: nat, sender: nat, shares: seq<nat>, total: nat, a: Account)
    requires FreshIds(b, id, nextId) && Created(b, id, nextId, sender, shares, total).Success?
    ensures var d := Created(b, id, nextId, sender, shares, total).value.db;
      Net(d.books.rows, PacketKeys(id, d.claims), a) == Owed(d, a)
  {
    FreshMeansUnused(b, id, nextId);
    var keys := PacketKeys(id, []);
    assert ClaimIds([]) == {};
    NetNone(b.rows, a);
    NetMoreKeys(b.rows, {}, keys, a);
    assert {} + keys == keys;
    NetMove(b, Wallet(sender), Debit, RedPacketEscrow, total, id, RedPacketSend, keys, a);
  }

  lemma CreationOpensMoney(b: Books, id: nat, nextId: nat, sender: nat, shares: seq<nat>, total: nat,
                           opening: map<nat, int>)
    requires BooksInv(b, opening) && FreshIds(b, id, nextId) && Created(b, id, nextId, sender, shares, total).Success?
    ensures MoneyInv(Created(b, id, nextId, sender, shares, total).value.db, opening)
  {
    var d := Created(b, id, nextId, sender, shares, total).value.db;
    assert Move(b, Wallet(sender), Debit, RedPacketEscrow, total, id, RedPacketSend) == Success(d.books);
    MoveKeepsBooks(b, Wallet(sender), Debit, RedPacketEscrow, total, id, RedPacketSend, opening);
    FreshMeansUnused(b, id, nextId);
    MoveKeepsFresh(b, Wallet(sender), Debit, RedPacketEscrow, total, id, RedPacketSend, nextId);
    MoveHas(b, Wallet(sender), Debit, RedPacketEscrow, total, id, RedPacketSend, id, Debit, RedPacketSend);
    MoveHas(b, Wallet(sender), Debit, RedPacketEscrow, total, id, RedPacketSend, id, Credit, RedPacketRefund);
    forall a ensures Net(d.books.rows, PacketKeys(id, d.claims), a) == Owed(d, a) {
      CreationOpensNet(b, id, nextId, sender, shares, total, a);
    }
  }

  lemma FreshMeansUnused(b: Books, id: nat, nextId: nat)
    requires FreshIds(b, id, nextId)
    ensures IdsFresh(b, nextId) && Unused(b.rows, PacketKeys(id, []))
  {
    assert ClaimIds([]) == {};
    forall i | 0 <= i < |b.rows|
      ensures b.rows[i].biz == RedPacketClaim ==> b.rows[i].ref < nextId
      ensures (b.rows[i].ref, b.rows[i].biz) !in PacketKeys(id, [])
    {
      assert HasRow(b.rows, b.rows[i].ref, b.rows[i].dir, b.rows[i].biz);
    }
  }
}

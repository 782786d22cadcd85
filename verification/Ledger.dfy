/** Double-entry books: wallets, the append-only transaction rows with their unique index, and the one shape every
    money movement of the program has: two rows of opposite direction with the same reference, business type and
    amount. */
module Ledger {
  import opened Results

  datatype Account = Wallet(user: nat) | ExternalClearing | MerchantEscrow | GroupbuyEscrow | RedPacketEscrow

  datatype Direction = Debit | Credit

  datatype Biz =
    | OrderClear | OrderSettle | Refund | EscrowRefund
    | PreorderDeposit | PreorderFinal | PreorderRefund
    | GroupbuyPay | GroupbuySettle | GroupbuyRefund
    | RedPacketSend | RedPacketClaim | RedPacketRefund

  datatype Entry = Entry(account: Account, dir: Direction, amount: nat, ref: nat, biz: Biz, after: int)

  datatype Books = Books(wallets: map<nat, int>, rows: seq<Entry>)

  datatype Fault = NoUser | Insufficient | DuplicateRow | Refused

  // ---- Posting ----

  function Opposite(dir: Direction): Direction {
    if dir.Debit? then Credit else Debit
  }

  function Signed(dir: Direction, amount: nat): int {
    if dir.Credit? then amount else 0 - amount
  }

  /** The unique index on (reference, direction, business type). */
  predicate HasRow(rows: seq<Entry>, ref: nat, dir: Direction, biz: Biz) {
    exists i :: 0 <= i < |rows| && rows[i].ref == ref && rows[i].dir == dir && rows[i].biz == biz
  }

  function Append(b: Books, e: Entry): Result<Books, Fault> {
    if HasRow(b.rows, e.ref, e.dir, e.biz) then Failure(DuplicateRow) else Success(b.(rows := b.rows + [e]))
  }

  /** One side of a movement. A wallet is read, checked against overdraft, written back and logged with its new
      balance; a system account has no wallet row. */
  function Post(b: Books, account: Account, dir: Direction, amount: nat, ref: nat, biz: Biz): Result<Books, Fault> {
    if !account.Wallet? then Append(b, Entry(account, dir, amount, ref, biz, 0))
    else if account.user !in b.wallets then Failure(NoUser)
    else
      var after := b.wallets[account.user] + Signed(dir, amount);
      if dir.Debit? && after < 0 then Failure(Insufficient)
      else Append(b.(wallets := b.wallets[account.user := after]), Entry(account, dir, amount, ref, biz, after))
  }

  /** A movement: `first` is posted in direction `dir`, then `second` in the opposite direction. */
  function Move(b: Books, first: Account, dir: Direction, second: Account, amount: nat, ref: nat,
                biz: Biz): Result<Books, Fault> {
    var b1 :- Post(b, first, dir, amount, ref, biz);
    Post(b1, second, Opposite(dir), amount, ref, biz)
  }

  // ---- What the books must satisfy ----

  function Total(rows: seq<Entry>, dir: Direction): int {
    if rows == [] then 0
    else Total(rows[..|rows| - 1], dir) + if rows[|rows| - 1].dir == dir then rows[|rows| - 1].amount else 0
  }

  function Balance(rows: seq<Entry>, account: Account): int {
    if rows == [] then 0
    else
      var e := rows[|rows| - 1];
      Balance(rows[..|rows| - 1], account) + if e.account == account then Signed(e.dir, e.amount) else 0
  }

  ghost predicate UniqueRows(rows: seq<Entry>) {
    forall i, j :: 0 <= i < j < |rows| ==>
      !(rows[i].ref == rows[j].ref && rows[i].dir == rows[j].dir && rows[i].biz == rows[j].biz)
  }

  /** Every wallet is its opening balance plus its credits minus its debits, and is not overdrawn. */
  ghost predicate WalletsMatch(b: Books, opening: map<nat, int>) {
    b.wallets.Keys == opening.Keys
    && forall u :: u in opening ==> b.wallets[u] == opening[u] + Balance(b.rows, Wallet(u)) && b.wallets[u] >= 0
  }

  /** Every wallet row was logged with the wallet's balance at that moment. */
  ghost predicate AuditTrail(rows: seq<Entry>, opening: map<nat, int>) {
    forall i :: 0 <= i < |rows| && rows[i].account.Wallet? ==>
      rows[i].account.user in opening
      && rows[i].after == opening[rows[i].account.user] + Balance(rows[..i + 1], rows[i].account)
  }

  /** A reference has both sides of a business type or neither. */
  ghost predicate Paired(rows: seq<Entry>) {
    forall ref, biz :: HasRow(rows, ref, Debit, biz) <==> HasRow(rows, ref, Credit, biz)
  }

  ghost predicate BooksInv(b: Books, opening: map<nat, int>) {
    && WalletsMatch(b, opening) && UniqueRows(b.rows) && AuditTrail(b.rows, opening) && Paired(b.rows)
    && Total(b.rows, Debit) == Total(b.rows, Credit)
  }

  lemma AppendRow(rows: seq<Entry>, e: Entry)
    ensures forall dir ::
      Total(rows + [e], dir) == Total(rows, dir) + if e.dir == dir then e.amount else 0
    ensures forall a ::
      Balance(rows + [e], a) == Balance(rows, a) + if e.account == a then Signed(e.dir, e.amount) else 0
    ensures forall ref, dir, biz ::
      HasRow(rows + [e], ref, dir, biz) <==>
        HasRow(rows, ref, dir, biz) || (ref == e.ref && dir == e.dir && biz == e.biz)
  {
    assert (rows + [e])[..|rows|] == rows;
    forall ref, dir, biz
      ensures HasRow(rows + [e], ref, dir, biz) <==>
        HasRow(rows, ref, dir, biz) || (ref == e.ref && dir == e.dir && biz == e.biz)
    {
      assert (rows + [e])[|rows|] == e;
      if HasRow(rows, ref, dir, biz) {
        var i :| 0 <= i < |rows| && rows[i].ref == ref && rows[i].dir == dir && rows[i].biz == biz;
        assert (rows + [e])[i] == rows[i];
      }
    }
  }

  lemma PostWallets(b: Books, account: Account, dir: Direction, amount: nat, ref: nat, biz: Biz, opening: map<nat, int>)
    requires WalletsMatch(b, opening) && Post(b, account, dir, amount, ref, biz).Success?
    ensures WalletsMatch(Post(b, account, dir, amount, ref, biz).value, opening)
  {
    var b1 := Post(b, account, dir, amount, ref, biz).value;
    AppendRow(b.rows, b1.rows[|b.rows|]);
  }

  lemma PostTrail(b: Books, account: Account, dir: Direction, amount: nat, ref: nat, biz: Biz, opening: map<nat, int>)
    requires WalletsMatch(b, opening) && AuditTrail(b.rows, opening) && Post(b, account, dir, amount, ref, biz).Success?
    ensures AuditTrail(Post(b, account, dir, amount, ref, biz).value.rows, opening)
  {
    var rows := Post(b, account, dir, amount, ref, biz).value.rows;
    var e := rows[|b.rows|];
    AppendRow(b.rows, e);
    forall i | 0 <= i < |rows| && rows[i].account.Wallet?
      ensures rows[i].account.user in opening
      ensures rows[i].after == opening[rows[i].account.user] + Balance(rows[..i + 1], rows[i].account)
    {
      if i < |b.rows| {
        assert rows[..i + 1] == b.rows[..i + 1];
      } else {
        assert rows[..i + 1] == b.rows + [e];
      }
    }
  }

  lemma PostUnique(b: Books, account: Account, dir: Direction, amount: nat, ref: nat, biz: Biz)
    requires UniqueRows(b.rows) && Post(b, account, dir, amount, ref, biz).Success?
    ensures UniqueRows(Post(b, account, dir, amount, ref, biz).value.rows)
  {
  }

  /** What a movement appends, and that it needed both index slots free. */
  lemma MoveRows(b: Books, first: Account, dir: Direction, second: Account, amount: nat, ref: nat, biz: Biz)
    requires Move(b, first, dir, second, amount, ref, biz).Success?
    ensures !HasRow(b.rows, ref, Debit, biz) && !HasRow(b.rows, ref, Credit, biz)
    ensures var rows := Move(b, first, dir, second, amount, ref, biz).value.rows;
      exists x, y :: rows == b.rows
        + [Entry(first, dir, amount, ref, biz, x), Entry(second, Opposite(dir), amount, ref, biz, y)]
  {
    var b1 := Post(b, first, dir, amount, ref, biz).value;
    var b2 := Post(b1, second, Opposite(dir), amount, ref, biz).value;
    AppendRow(b.rows, b1.rows[|b.rows|]);
    var x, y := b1.rows[|b.rows|].after, b2.rows[|b1.rows|].after;
    assert b2.rows == b.rows + [Entry(first, dir, amount, ref, biz, x),
      Entry(second, Opposite(dir), amount, ref, biz, y)];
  }

  lemma PostEffect(b: Books, account: Account, dir: Direction, amount: nat, ref: nat, biz: Biz, a: Account,
                   other: Direction)
    requires Post(b, account, dir, amount, ref, biz).Success?
    ensures var rows := Post(b, account, dir, amount, ref, biz).value.rows;
      && Balance(rows, a) == Balance(b.rows, a) + (if a == account then Signed(dir, amount) else 0)
      && Total(rows, other) == Total(b.rows, other) + (if other == dir then amount else 0)
  {
    AppendRow(b.rows, Post(b, account, dir, amount, ref, biz).value.rows[|b.rows|]);
  }

  lemma PostHas(b: Books, account: Account, dir: Direction, amount: nat, ref: nat, biz: Biz, r: nat, d: Direction,
                z: Biz)
    requires Post(b, account, dir, amount, ref, biz).Success?
    ensures var rows := Post(b, account, dir, amount, ref, biz).value.rows;
      HasRow(rows, r, d, z) <==> HasRow(b.rows, r, d, z) || (r == ref && d == dir && z == biz)
  {
    AppendRow(b.rows, Post(b, account, dir, amount, ref, biz).value.rows[|b.rows|]);
  }

  /** A movement writes both sides of its reference and business type, and touches no other slot of the index. */
  lemma MoveHas(b: Books, first: Account, dir: Direction, second: Account, amount: nat, ref: nat, biz: Biz, r: nat,
                d: Direction, z: Biz)
    requires Move(b, first, dir, second, amount, ref, biz).Success?
    ensures var rows := Move(b, first, dir, second, amount, ref, biz).value.rows;
      HasRow(rows, r, d, z) <==> HasRow(b.rows, r, d, z) || (r == ref && z == biz)
  {
    var b1 := Post(b, first, dir, amount, ref, biz).value;
    PostHas(b, first, dir, amount, ref, biz, r, d, z);
    PostHas(b1, second, Opposite(dir), amount, ref, biz, r, d, z);
  }

  lemma MovePairs(b: Books, first: Account, dir: Direction, second: Account, amount: nat, ref: nat, biz: Biz)
    requires Paired(b.rows) && Move(b, first, dir, second, amount, ref, biz).Success?
    ensures Paired(Move(b, first, dir, second, amount, ref, biz).value.rows)
  {
    var b2 := Move(b, first, dir, second, amount, ref, biz).value;
    forall r, z ensures HasRow(b2.rows, r, Debit, z) <==> HasRow(b2.rows, r, Credit, z) {
      MoveHas(b, first, dir, second, amount, ref, biz, r, Debit, z);
      MoveHas(b, first, dir, second, amount, ref, biz, r, Credit, z);
    }
  }

  /** The conservation step: any movement between any two accounts, the same wallet on both sides included, keeps the
      books balanced, paired, traceable and not overdrawn. */
  lemma MoveKeepsBooks(b: Books, first: Account, dir: Direction, second: Account, amount: nat, ref: nat, biz: Biz,
                       opening: map<nat, int>)
    requires BooksInv(b, opening) && Move(b, first, dir, second, amount, ref, biz).Success?
    ensures BooksInv(Move(b, first, dir, second, amount, ref, biz).value, opening)
  {
    var b1 := Post(b, first, dir, amount, ref, biz).value;
    PostWallets(b, first, dir, amount, ref, biz, opening);
    PostWallets(b1, second, Opposite(dir), amount, ref, biz, opening);
    PostTrail(b, first, dir, amount, ref, biz, opening);
    PostTrail(b1, second, Opposite(dir), amount, ref, biz, opening);
    PostUnique(b, first, dir, amount, ref, biz);
    PostUnique(b1, second, Opposite(dir), amount, ref, biz);
    MovePairs(b, first, dir, second, amount, ref, biz);
    MoveTotals(b, first, dir, second, amount, ref, biz);
  }

  lemma MoveTotals(b: Books, first: Account, dir: Direction, second: Account, amount: nat, ref: nat, biz: Biz)
    requires Move(b, first, dir, second, amount, ref, biz).Success?
    ensures var rows := Move(b, first, dir, second, amount, ref, biz).value.rows;
      Total(rows, Debit) - Total(b.rows, Debit) == amount == Total(rows, Credit) - Total(b.rows, Credit)
  {
    var b1 := Post(b, first, dir, amount, ref, biz).value;
    PostEffect(b, first, dir, amount, ref, biz, first, Debit);
    PostEffect(b, first, dir, amount, ref, biz, first, Credit);
    PostEffect(b1, second, Opposite(dir), amount, ref, biz, first, Debit);
    PostEffect(b1, second, Opposite(dir), amount, ref, biz, first, Credit);
  }

  // ---- When a movement goes through ----

  /** Free index slots, existing wallets, and on the side that is debited enough money; a wallet that is credited by a
      movement to itself is debited afterwards. */
  ghost predicate CanMove(b: Books, first: Account, dir: Direction, second: Account, amount: nat, ref: nat, biz: Biz) {
    && !HasRow(b.rows, ref, Debit, biz) && !HasRow(b.rows, ref, Credit, biz)
    && (first.Wallet? ==> first.user in b.wallets) && (second.Wallet? ==> second.user in b.wallets)
    && (dir.Debit? && first.Wallet? ==> b.wallets[first.user] >= amount)
    && (dir.Credit? && second.Wallet? ==> b.wallets[second.user] >= if first == second then 0 else amount)
  }

  /** What a wallet holds after `amount` went from one account to another. */
  ghost predicate Shifted(from: map<nat, int>, to: map<nat, int>, payer: Account, payee: Account, amount: nat) {
    && to.Keys == from.Keys
    && forall u :: u in from ==>
         to[u] == from[u] - (if payer == Wallet(u) then amount else 0) + if payee == Wallet(u) then amount else 0
  }

  lemma MoveGoesThroughIff(b: Books, first: Account, dir: Direction, second: Account, amount: nat, ref: nat, biz: Biz)
    ensures Move(b, first, dir, second, amount, ref, biz).Success? <==> CanMove(b, first, dir, second, amount, ref, biz)
    ensures CanMove(b, first, dir, second, amount, ref, biz) ==>
      Shifted(b.wallets, Move(b, first, dir, second, amount, ref, biz).value.wallets,
              if dir.Debit? then first else second, if dir.Debit? then second else first, amount)
  {
    var b1 := Post(b, first, dir, amount, ref, biz);
    if b1.Success? {
      PostHas(b, first, dir, amount, ref, biz, ref, Opposite(dir), biz);
    }
  }

  // ---- The rows of one subject ----

  /** What the rows with these references and business types have put into an account. */
  ghost function Net(rows: seq<Entry>, keys: set<(nat, Biz)>, a: Account): int {
    if rows == [] then 0
    else
      var e := rows[|rows| - 1];
      Net(rows[..|rows| - 1], keys, a) + if e.account == a && (e.ref, e.biz) in keys then Signed(e.dir, e.amount) else 0
  }

  /** What a movement puts into an account. */
  function Moved(first: Account, dir: Direction, second: Account, amount: nat, a: Account): int {
    (if a == first then Signed(dir, amount) else 0) + if a == second then Signed(Opposite(dir), amount) else 0
  }

  ghost predicate Unused(rows: seq<Entry>, keys: set<(nat, Biz)>) {
    forall i :: 0 <= i < |rows| ==> (rows[i].ref, rows[i].biz) !in keys
  }

  lemma NetAppend(rows: seq<Entry>, e: Entry, keys: set<(nat, Biz)>, a: Account)
    ensures Net(rows + [e], keys, a)
      == Net(rows, keys, a) + if e.account == a && (e.ref, e.biz) in keys then Signed(e.dir, e.amount) else 0
  {
    assert (rows + [e])[..|rows|] == rows;
  }

  lemma NetPost(b: Books, account: Account, dir: Direction, amount: nat, ref: nat, biz: Biz, keys: set<(nat, Biz)>,
                a: Account)
    requires Post(b, account, dir, amount, ref, biz).Success?
    ensures Net(Post(b, account, dir, amount, ref, biz).value.rows, keys, a) == Net(b.rows, keys, a)
      + if a == account && (ref, biz) in keys then Signed(dir, amount) else 0
  {
    NetAppend(b.rows, Post(b, account, dir, amount, ref, biz).value.rows[|b.rows|], keys, a);
  }

  lemma NetMove(b: Books, first: Account, dir: Direction, second: Account, amount: nat, ref: nat, biz: Biz,
                keys: set<(nat, Biz)>, a: Account)
    requires Move(b, first, dir, second, amount, ref, biz).Success?
    ensures Net(Move(b, first, dir, second, amount, ref, biz).value.rows, keys, a) == Net(b.rows, keys, a)
      + if (ref, biz) in keys then Moved(first, dir, second, amount, a) else 0
  {
    var b1 := Post(b, first, dir, amount, ref, biz).value;
    NetPost(b, first, dir, amount, ref, biz, keys, a);
    NetPost(b1, second, Opposite(dir), amount, ref, biz, keys, a);
  }

  lemma {:induction false} NetMoreKeys(rows: seq<Entry>, keys: set<(nat, Biz)>, unused: set<(nat, Biz)>, a: Account)
    requires Unused(rows, unused)
    ensures Net(rows, keys + unused, a) == Net(rows, keys, a)
  {
    if rows != [] {
      NetMoreKeys(rows[..|rows| - 1], keys, unused, a);
    }
  }

  lemma {:induction false} NetNone(rows: seq<Entry>, a: Account)
    ensures Net(rows, {}, a) == 0
  {
    if rows != [] {
      NetNone(rows[..|rows| - 1], a);
    }
  }

  lemma UnusedMeansNoRow(rows: seq<Entry>, keys: set<(nat, Biz)>)
    requires forall ref, biz, dir :: (ref, biz) in keys ==> !HasRow(rows, ref, dir, biz)
    ensures Unused(rows, keys)
  {
    forall i | 0 <= i < |rows| ensures (rows[i].ref, rows[i].biz) !in keys {
      assert HasRow(rows, rows[i].ref, rows[i].dir, rows[i].biz);
    }
  }

  lemma OpenBooks(opening: map<nat, int>)
    requires forall u :: u in opening ==> opening[u] >= 0
    ensures BooksInv(Books(opening, []), opening)
  {
  }

  // ---- The movements of the services, as functions of the books ----

  /** debitUser, and refundUser with the parties swapped. */
  function Between(b: Books, from: nat, to: nat, amount: int, ref: nat, biz: Biz): Result<Books, Fault> {
    if amount <= 0 then Success(b) else Move(b, Wallet(from), Debit, Wallet(to), amount, ref, biz)
  }

  function Collect(b: Books, member: nat, amount: int, ref: nat): Result<Books, Fault> {
    if amount <= 0 then Success(b) else Move(b, Wallet(member), Debit, GroupbuyEscrow, amount, ref, GroupbuyPay)
  }

  function GiveBack(b: Books, member: nat, amount: int, ref: nat): Result<Books, Fault> {
    if amount <= 0 || HasRow(b.rows, ref, Credit, GroupbuyRefund) then Success(b)
    else Move(b, GroupbuyEscrow, Debit, Wallet(member), amount, ref, GroupbuyRefund)
  }

  /** The red-packet movements: skipped when the wallet side is already in the books. */
  function EscrowMove(b: Books, user: nat, dir: Direction, amount: int, ref: nat, biz: Biz): Result<Books, Fault> {
    if amount <= 0 then Failure(Refused)
    else if HasRow(b.rows, ref, dir, biz) then Success(b)
    else Move(b, Wallet(user), dir, RedPacketEscrow, amount, ref, biz)
  }

  // ---- The same movements as the services run them ----

  /** The users' wallets and the transaction table inside one database transaction. */
  class Desk {
    var wallets: map<nat, int>
    var rows: seq<Entry>

    ghost function State(): Books
      reads this
    {
      Books(wallets, rows)
    }

    constructor (opening: map<nat, int>)
      ensures State() == Books(opening, [])
    {
      wallets, rows := opening, [];
    }

    method Log(account: Account, dir: Direction, amount: nat, ref: nat, biz: Biz, after: int) returns (ok: bool)
      modifies this`rows
      ensures ok <==> !HasRow(old(rows), ref, dir, biz)
      ensures rows == if ok then old(rows) + [Entry(account, dir, amount, ref, biz, after)] else old(rows)
    {
      if HasRow(rows, ref, dir, biz) {
        return false;
      }
      rows := rows + [Entry(account, dir, amount, ref, biz, after)];
      ok := true;
    }

    method Rollback(wallets0: map<nat, int>, rows0: seq<Entry>)
      modifies this
      ensures wallets == wallets0 && rows == rows0
    {
      wallets, rows := wallets0, rows0;
    }

    /** Buyer to seller: the buyer's row is written before the seller's is read. */
    method DebitUser(user: nat, boss: nat, amount: int, ref: nat, biz: Biz) returns (ok: bool)
      modifies this
      ensures ok <==> Between(old(State()), user, boss, amount, ref, biz).Success?
      ensures State() == if ok then Between(old(State()), user, boss, amount, ref, biz).value else old(State())
      ensures ok <==> amount <= 0 || CanMove(old(State()), Wallet(user), Debit, Wallet(boss), amount, ref, biz)
      ensures ok ==> Shifted(old(wallets), wallets, Wallet(user), Wallet(boss), if amount <= 0 then 0 else amount)
    {
      if amount > 0 {
        MoveGoesThroughIff(State(), Wallet(user), Debit, Wallet(boss), amount, ref, biz);
      }
      if amount <= 0 {
        return true;
      }
      var wallets0, rows0 := wallets, rows;
      if user !in wallets {
        return false;
      }
      var buyerAfter := wallets[user] - amount;
      if buyerAfter < 0 {
        return false;
      }
      wallets := wallets[user := buyerAfter];
      ok := Log(Wallet(user), Debit, amount, ref, biz, buyerAfter);
      if ok {
        if boss !in wallets {
          ok := false;
        } else {
          var bossAfter := wallets[boss] + amount;
          wallets := wallets[boss := bossAfter];
          ok := Log(Wallet(boss), Credit, amount, ref, biz, bossAfter);
        }
      }
      if !ok {
        Rollback(wallets0, rows0);
      }
    }

    /** Seller back to buyer: the buyer's row is read first, so a self-purchase has to take over the written seller
        row. */
    method RefundUser(user: nat, boss: nat, amount: int, ref: nat, biz: Biz) returns (ok: bool)
      requires user in wallets
      modifies this
      ensures ok <==> Between(old(State()), boss, user, amount, ref, biz).Success?
      ensures State() == if ok then Between(old(State()), boss, user, amount, ref, biz).value else old(State())
      ensures ok <==> amount <= 0 || CanMove(old(State()), Wallet(boss), Debit, Wallet(user), amount, ref, biz)
      ensures ok ==> Shifted(old(wallets), wallets, Wallet(boss), Wallet(user), if amount <= 0 then 0 else amount)
    {
      if amount > 0 {
        MoveGoesThroughIff(State(), Wallet(boss), Debit, Wallet(user), amount, ref, biz);
      }
      if amount <= 0 {
        return true;
      }
      var wallets0, rows0 := wallets, rows;
      var userMoney := wallets[user];
      if boss !in wallets {
        return false;
      }
      var bossAfter := wallets[boss] - amount;
      if bossAfter < 0 {
        return false;
      }
      wallets := wallets[boss := bossAfter];
      ok := Log(Wallet(boss), Debit, amount, ref, biz, bossAfter);
      if ok {
        if user == boss {
          userMoney := bossAfter;
        }
        var userAfter := userMoney + amount;
        wallets := wallets[user := userAfter];
        ok := Log(Wallet(user), Credit, amount, ref, biz, userAfter);
      }
      if !ok {
        Rollback(wallets0, rows0);
      }
    }

    method CollectToEscrow(member: nat, amount: int, ref: nat) returns (ok: bool)
      modifies this
      ensures ok <==> Collect(old(State()), member, amount, ref).Success?
      ensures State() == if ok then Collect(old(State()), member, amount, ref).value else old(State())
      ensures ok <==>
        amount <= 0 || CanMove(old(State()), Wallet(member), Debit, GroupbuyEscrow, amount, ref, GroupbuyPay)
      ensures ok ==> Shifted(old(wallets), wallets, Wallet(member), GroupbuyEscrow, if amount <= 0 then 0 else amount)
    {
      if amount > 0 {
        MoveGoesThroughIff(State(), Wallet(member), Debit, GroupbuyEscrow, amount, ref, GroupbuyPay);
      }
      if amount <= 0 {
        return true;
      }
      var wallets0, rows0 := wallets, rows;
      if member !in wallets || wallets[member] - amount < 0 {
        return false;
      }
      var after := wallets[member] - amount;
      wallets := wallets[member := after];
      ok := Log(Wallet(member), Debit, amount, ref, GroupbuyPay, after);
      if ok {
        ok := Log(GroupbuyEscrow, Credit, amount, ref, GroupbuyPay, 0);
      }
      if !ok {
        Rollback(wallets0, rows0);
      }
    }

    method RefundFromEscrow(member: nat, amount: int, ref: nat) returns (ok: bool)
      modifies this
      ensures ok <==> GiveBack(old(State()), member, amount, ref).Success?
      ensures State() == if ok then GiveBack(old(State()), member, amount, ref).value else old(State())
      ensures ok <==>
        || amount <= 0 || HasRow(old(rows), ref, Credit, GroupbuyRefund)
        || CanMove(old(State()), GroupbuyEscrow, Debit, Wallet(member), amount, ref, GroupbuyRefund)
      ensures ok ==> Shifted(old(wallets), wallets, GroupbuyEscrow, Wallet(member),
                             if amount <= 0 || HasRow(old(rows), ref, Credit, GroupbuyRefund) then 0 else amount)
    {
      if amount > 0 {
        MoveGoesThroughIff(State(), GroupbuyEscrow, Debit, Wallet(member), amount, ref, GroupbuyRefund);
      }
      if amount <= 0 || HasRow(rows, ref, Credit, GroupbuyRefund) {
        return true;
      }
      var wallets0, rows0 := wallets, rows;
      ok := Log(GroupbuyEscrow, Debit, amount, ref, GroupbuyRefund, 0);
      if ok {
        if member !in wallets {
          ok := false;
        } else {
          var after := wallets[member] + amount;
          wallets := wallets[member := after];
          ok := Log(Wallet(member), Credit, amount, ref, GroupbuyRefund, after);
        }
      }
      if !ok {
        Rollback(wallets0, rows0);
      }
    }

    /** A signed change of one wallet, skipped when its row is there already. */
    method AdjustWallet(user: nat, ref: nat, delta: int, biz: Biz) returns (skipped: bool, ok: bool)
      requires delta != 0
      modifies this
      ensures var dir := if delta < 0 then Debit else Credit; var amount := if delta < 0 then -delta else delta;
        if HasRow(old(rows), ref, dir, biz) then skipped && ok && State() == old(State())
        else
          && !skipped
          && (ok <==> Post(old(State()), Wallet(user), dir, amount, ref, biz).Success?)
          && State() == if ok then Post(old(State()), Wallet(user), dir, amount, ref, biz).value else old(State())
    {
      var dir := if delta < 0 then Debit else Credit;
      if HasRow(rows, ref, dir, biz) {
        return true, true;
      }
      if user !in wallets {
        return false, false;
      }
      var after := wallets[user] + delta;
      if delta < 0 && after < 0 {
        return false, false;
      }
      wallets := wallets[user := after];
      ok := Log(Wallet(user), dir, if delta < 0 then -delta else delta, ref, biz, after);
      skipped := false;
    }

    /** The escrow side, skipped when its row is there already. */
    method AdjustClearing(ref: nat, delta: int, biz: Biz)
      requires delta != 0
      modifies this`rows
      ensures var dir := if delta < 0 then Debit else Credit; var amount := if delta < 0 then -delta else delta;
        rows == if HasRow(old(rows), ref, dir, biz) then old(rows)
                else old(rows) + [Entry(RedPacketEscrow, dir, amount, ref, biz, 0)]
    {
      var dir := if delta < 0 then Debit else Credit;
      if !HasRow(rows, ref, dir, biz) {
        var _ := Log(RedPacketEscrow, dir, if delta < 0 then -delta else delta, ref, biz, 0);
      }
    }

    /** settleSendTx, settleClaimTx and settleRefundTx: only the direction and the business type differ. */
    method SettlePacket(user: nat, ref: nat, delta: int, biz: Biz) returns (ok: bool)
      requires Paired(rows)
      modifies this
      ensures var dir := if delta < 0 then Debit else Credit; var amount := if delta < 0 then -delta else delta;
        var r := EscrowMove(old(State()), user, dir, amount, ref, biz);
        (ok <==> r.Success?) && State() == if ok then r.value else old(State())
      ensures var dir := if delta < 0 then Debit else Credit; var amount := if delta < 0 then -delta else delta;
        ok <==>
          delta != 0 && (HasRow(old(rows), ref, dir, biz)
                         || CanMove(old(State()), Wallet(user), dir, RedPacketEscrow, amount, ref, biz))
      ensures ok ==> wallets == if HasRow(old(rows), ref, if delta < 0 then Debit else Credit, biz) then old(wallets)
                                else old(wallets)[user := old(wallets)[user] + delta]
    {
      if delta == 0 {
        return false;
      }
      if delta < 0 {
        MoveGoesThroughIff(State(), Wallet(user), Debit, RedPacketEscrow, -delta, ref, biz);
      } else {
        MoveGoesThroughIff(State(), Wallet(user), Credit, RedPacketEscrow, delta, ref, biz);
      }
      ghost var dir := if delta < 0 then Debit else Credit;
      assert HasRow(rows, ref, Debit, biz) <==> HasRow(rows, ref, Credit, biz);
      ghost var rows0 := rows;
      var skipped;
      skipped, ok := AdjustWallet(user, ref, delta, biz);
      if ok && !skipped {
        AppendRow(rows0, rows[|rows0|]);
        AdjustClearing(ref, -delta, biz);
      }
    }
  }
}

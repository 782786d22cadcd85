/** The order transactions as the services run them, statement by statement with rollback, each proved to be the
    transaction that the runs are made of. */
module MallDatabase {
  import opened Results
  import opened Ledger
  import opened Orders
  import opened Mall

  /** What a transaction leaves behind: its new state, or the old one. */
  function Committed(s: State, t: Option<State>): State {
    if t.Some? then t.value else s
  }

  /** A payment into the merchant escrow, said with its two rows. */
  lemma MoveAsRows(b: Books, payer: Account, amount: nat, id: nat, biz: Biz)
    requires payer.Wallet? ==> payer.user in b.wallets && b.wallets[payer.user] - amount >= 0
    ensures var r := Move(b, payer, Debit, MerchantEscrow, amount, id, biz);
      var after := if payer.Wallet? then b.wallets[payer.user] - amount else 0;
      && (r.Success? <==> !HasRow(b.rows, id, Debit, biz) && !HasRow(b.rows, id, Credit, biz))
      && (r.Success? ==>
            && r.value.wallets == (if payer.Wallet? then b.wallets[payer.user := after] else b.wallets)
            && r.value.rows ==
                 b.rows + [Entry(payer, Debit, amount, id, biz, after)]
                 + [Entry(MerchantEscrow, Credit, amount, id, biz, 0)])
  {
    AppendRow(b.rows,
      Entry(payer, Debit, amount, id, biz, if payer.Wallet? then b.wallets[payer.user] - amount else 0));
  }

  /** The price by the order's columns has left the buyer's wallet, and no other wallet has changed. */
  ghost predicate TookPrice(s: State, t: State, o: Order) {
    && o.buyer in s.books.wallets
    && t.books.wallets == s.books.wallets[o.buyer := s.books.wallets[o.buyer]
         - if o.promoRule == 0 && o.coupon == 0 then o.money * o.num else o.final]
  }

  class Database {
    var deals: seq<Deal>
    var groups: seq<Group>
    var stock: map<nat, int>
    var supply: map<nat, int>
    var decisions: set<(nat, Type)>
    const desk: Desk

    ghost function State(): Mall.State
      reads this, desk
    {
      Mall.State(deals, groups, stock, supply, desk.State(), decisions)
    }

    constructor (s: Mall.State, desk: Desk)
      requires desk.State() == s.books
      ensures State() == s && this.desk == desk
    {
      deals, groups, stock, supply, decisions, this.desk := s.deals, s.groups, s.stock, s.supply, s.decisions, desk;
    }

    method Rollback(deals0: seq<Deal>, stock0: map<nat, int>, wallets0: map<nat, int>, rows0: seq<Entry>)
      modifies this`deals, this`stock, desk
      ensures deals == deals0 && stock == stock0 && desk.wallets == wallets0 && desk.rows == rows0
    {
      deals, stock := deals0, stock0;
      desk.Rollback(wallets0, rows0);
    }

    /** UPDATE product SET num = num - ? WHERE id = ? AND num >= ?. */
    method DeductStock(product: nat, num: int) returns (ok: bool)
      requires num > 0
      modifies this`stock
      ensures ok <==> MoveStock(old(stock), product, -num).Some?
      ensures stock == if ok then MoveStock(old(stock), product, -num).value else old(stock)
    {
      ok := product in stock && stock[product] >= num;
      if ok {
        stock := stock[product := stock[product] - num];
      }
    }

    method RollbackStock(product: nat, num: int) returns (ok: bool)
      requires num > 0
      modifies this`stock
      ensures ok <==> MoveStock(old(stock), product, num).Some?
      ensures stock == if ok then MoveStock(old(stock), product, num).value else old(stock)
    {
      ok := product in stock;
      if ok {
        stock := stock[product := stock[product] + num];
      }
    }

    /** Escrow to seller: the balance is written before the two rows. */
    method PayOut(seller: nat, net: nat, id: nat) returns (ok: bool)
      modifies desk
      ensures var r := Move(old(desk.State()), MerchantEscrow, Debit, Wallet(seller), net, id, OrderSettle);
        (ok <==> r.Success?) && (ok ==> desk.State() == r.value)
    {
      if seller !in desk.wallets {
        return false;
      }
      var after := desk.wallets[seller] + net;
      desk.wallets := desk.wallets[seller := after];
      ok := desk.Log(MerchantEscrow, Debit, net, id, OrderSettle, 0);
      if ok {
        ok := desk.Log(Wallet(seller), Credit, net, id, OrderSettle, after);
      }
    }

    /** The settlement of a completed order: wallet first, then the two rows, then the clearing row. */
    method SettleCompletedOrder(id: nat) returns (ok: bool)
      modifies this`deals, this`stock, desk
      ensures ok <==> Act(old(State()), id, SettleCompleted).Some?
      ensures State() == Committed(old(State()), Act(old(State()), id, SettleCompleted))
    {
      if id >= |deals| {
        return false;
      }
      var d := deals[id];
      assert deals[id := d] == deals;
      if d.clearing.None? || d.clearing.value.status != Cleared {
        return true;
      }
      var record := d.clearing.value;
      if d.order.typ == Refunding || d.order.typ == Refunded {
        return true;
      }
      if d.order.typ != Completed || record.buyer != d.order.buyer || record.seller != d.order.seller
        || record.net < 0 {
        return false;
      }
      var deals0, stock0, wallets0, rows0 := deals, stock, desk.wallets, desk.rows;
      ok := PayOut(record.seller, record.net, id);
      if !ok {
        Rollback(deals0, stock0, wallets0, rows0);
        return;
      }
      deals := deals[id := d.(clearing := Some(record.(status := Settled, settledAt := true)))];
    }

    /** One side of a refund that takes the money from the seller, read after the buyer's write. */
    method TakeFromSeller(seller: nat, amount: nat, id: nat) returns (ok: bool)
      modifies desk
      ensures ok <==> Post(old(desk.State()), Wallet(seller), Debit, amount, id, Refund).Success?
      ensures ok ==> desk.State() == Post(old(desk.State()), Wallet(seller), Debit, amount, id, Refund).value
    {
      if seller !in desk.wallets || desk.wallets[seller] - amount < 0 {
        return false;
      }
      var after := desk.wallets[seller] - amount;
      desk.wallets := desk.wallets[seller := after];
      ok := desk.Log(Wallet(seller), Debit, amount, id, Refund, after);
    }

    method PayBack(buyer: nat, seller: nat, amount: nat, id: nat, fromEscrow: bool) returns (ok: bool)
      modifies desk
      ensures var m := if fromEscrow then Movement(Wallet(buyer), Credit, MerchantEscrow, amount, EscrowRefund)
                       else Movement(Wallet(buyer), Credit, Wallet(seller), amount, Refund);
        var r := PostMoney(old(desk.State()), Some(m), id);
        (ok <==> r.Success?) && (ok ==> desk.State() == r.value)
    {
      var biz := if fromEscrow then EscrowRefund else Refund;
      if buyer !in desk.wallets {
        return false;
      }
      var after := desk.wallets[buyer] + amount;
      desk.wallets := desk.wallets[buyer := after];
      ok := desk.Log(Wallet(buyer), Credit, amount, id, biz, after);
      if !ok {
        return;
      }
      if fromEscrow {
        ok := desk.Log(MerchantEscrow, Debit, amount, id, EscrowRefund, 0);
      } else {
        ok := TakeFromSeller(seller, amount, id);
      }
    }

    /** Buyer first, then escrow or seller, then the stock of an unshipped order, then the clearing row. */
    method SettleRefundedOrder(id: nat) returns (ok: bool)
      requires id < |deals| && deals[id].order.typ == Refunded ==> deals[id].order.num > 0
      modifies this`deals, this`stock, desk
      ensures ok <==> Act(old(State()), id, SettleRefund).Some?
      ensures State() == Committed(old(State()), Act(old(State()), id, SettleRefund))
    {
      if id >= |deals| {
        return false;
      }
      var d := deals[id];
      assert deals[id := d] == deals;
      var found := d.clearing.Some?;
      if d.order.typ != Refunded || (found && d.clearing.value.status == Repaid) {
        return true;
      }
      var fromEscrow := found && d.clearing.value.status == Cleared;
      if HasRow(desk.rows, id, Credit, if fromEscrow then EscrowRefund else Refund) {
        return true;
      }
      var checked := RefundAmount(d);
      if checked.Failure? {
        return false;
      }
      var deals0, stock0, wallets0, rows0 := deals, stock, desk.wallets, desk.rows;
      ok := PayBack(d.order.buyer, d.order.seller, checked.value, id, fromEscrow);
      var restock := Restockable(d.order, true);
      if ok && restock {
        ok := RollbackStock(d.order.product, d.order.num);
      }
      if !ok {
        Rollback(deals0, stock0, wallets0, rows0);
        return;
      }
      var paid := if found then d.(clearing := Some(d.clearing.value.(status := Repaid)))
        else d.(back := Some(checked.value));
      deals := deals[id := paid.(order := d.order.(restocked := d.order.restocked || restock))];
    }

    /** The ledger half of RecordClearedTx and RecordClearedFromSystemTx; the payer's balance was changed before. */
    method LogCleared(payer: Account, after: int, amount: nat, id: nat, biz: Biz) returns (ok: bool)
      modifies desk`rows
      ensures ok <==> !HasRow(old(desk.rows), id, Debit, biz) && !HasRow(old(desk.rows), id, Credit, biz)
      ensures ok ==> desk.rows == old(desk.rows) + [Entry(payer, Debit, amount, id, biz, after)]
                                  + [Entry(MerchantEscrow, Credit, amount, id, biz, 0)]
    {
      ghost var rows0 := desk.rows;
      ok := desk.Log(payer, Debit, amount, id, biz, after);
      if ok {
        AppendRow(rows0, Entry(payer, Debit, amount, id, biz, after));
        ok := desk.Log(MerchantEscrow, Credit, amount, id, biz, 0);
      }
    }

    method PayIn(buyer: nat, payable: nat, id: nat) returns (ok: bool)
      requires buyer in desk.wallets && desk.wallets[buyer] - payable >= 0
      modifies desk
      ensures var r := Move(old(desk.State()), Wallet(buyer), Debit, MerchantEscrow, payable, id, OrderClear);
        (ok <==> r.Success?) && (ok ==> desk.State() == r.value)
    {
      MoveAsRows(desk.State(), Wallet(buyer), payable, id, OrderClear);
      var after := desk.wallets[buyer] - payable;
      desk.wallets := desk.wallets[buyer := after];
      ok := LogCleared(Wallet(buyer), after, payable, id, OrderClear);
    }

    /** A balance payment: wallet, clearing row with its two ledger rows, stock, order type. */
    method PayDown(id: nat) returns (ok: bool)
      modifies this`deals, this`stock, desk
      ensures ok <==> Act(old(State()), id, PayWallet).Some?
      ensures State() == Committed(old(State()), Act(old(State()), id, PayWallet))
      ensures ok ==> id < |old(deals)| && TookPrice(old(State()), State(), old(deals)[id].order)
    {
      if id >= |deals| {
        return false;
      }
      var d := deals[id];
      var payable := Payable(d.order);
      if d.order.typ != WaitPay || d.order.stage != NoPreorder || d.order.buyer !in desk.wallets {
        return false;
      }
      if desk.wallets[d.order.buyer] - payable < 0 || d.order.buyer == 0 || d.order.seller == 0 || d.order.num <= 0
        || payable < 0
         || d.clearing.Some? {
        return false;
      }
      var deals0, stock0, wallets0, rows0 := deals, stock, desk.wallets, desk.rows;
      ok := PayIn(d.order.buyer, payable, id);
      if ok {
        ok := DeductStock(d.order.product, d.order.num);
      }
      if !ok {
        Rollback(deals0, stock0, wallets0, rows0);
        return;
      }
      var record := Clearing(d.order.buyer, d.order.seller, WalletPay, "", payable, 0, payable, Cleared, false);
      deals := deals[id := d.(clearing := Some(record), order := d.order.(typ := WaitShip))];
    }

    // ---- Preorders ----

    /** The final payment: money, stock, then the stage and the type in one conditional update. */
    method PayFinalAmount(id: nat, amount: int) returns (ok: bool)
      requires id < |deals| ==> deals[id].order.num > 0
      modifies this`deals, this`stock, desk
      ensures ok <==> Act(old(State()), id, PayFinal(amount)).Some?
      ensures State() == Committed(old(State()), Act(old(State()), id, PayFinal(amount)))
    {
      if id >= |deals| || deals[id].order.stage != DepositPaid {
        return false;
      }
      var d := deals[id];
      var deals0, stock0, wallets0, rows0 := deals, stock, desk.wallets, desk.rows;
      ok := desk.DebitUser(d.order.buyer, d.order.seller, amount, id, PreorderFinal);
      if ok {
        ok := DeductStock(d.order.product, d.order.num);
      }
      if !ok || d.order.typ != WaitPay {
        Rollback(deals0, stock0, wallets0, rows0);
        return false;
      }
      deals := deals[id := d.(order := d.order.(typ := WaitShip, stage := FinalPaid), last := Natural(amount))];
    }

    /** Cancelling in the deposit window: the configured deposit back to the buyer, then the order closed. */
    method CancelInDepositWindow(id: nat, amount: int) returns (ok: bool)
      modifies this`deals, this`stock, desk
      ensures ok <==> Act(old(State()), id, CancelPreorder(amount)).Some?
      ensures State() == Committed(old(State()), Act(old(State()), id, CancelPreorder(amount)))
    {
      if id >= |deals| || deals[id].order.stage != DepositPaid {
        return false;
      }
      var d := deals[id];
      if amount > 0 && d.order.buyer !in desk.wallets {
        return false;
      }
      var deals0, stock0, wallets0, rows0 := deals, stock, desk.wallets, desk.rows;
      ok := true;
      if amount > 0 {
        ok := desk.RefundUser(d.order.buyer, d.order.seller, amount, id, PreorderRefund);
      }
      if !ok || d.order.typ != WaitPay {
        Rollback(deals0, stock0, wallets0, rows0);
        return false;
      }
      deals := deals[id := d.(order := d.order.(typ := Closed, stage := NoPreorder), cancelled := Natural(amount))];
    }

    // ---- Groups ----

    /** One round of the success loop: stock, then the money into the merchant escrow, then the order type. */
    method SellMember(id: nat) returns (ok: bool)
      modifies this`deals, this`stock, desk
      ensures ok <==> Act(old(State()), id, GroupSell).Some?
      ensures ok ==> State() == Act(old(State()), id, GroupSell).value
    {
      if id >= |deals| {
        return false;
      }
      var d := deals[id];
      var gross := Payable(d.order);
      if d.order.buyer == 0 || d.order.seller == 0 || d.order.num <= 0 || gross < 0 || d.clearing.Some? {
        return false;
      }
      ok := DeductStock(d.order.product, d.order.num);
      if ok {
        MoveAsRows(desk.State(), GroupbuyEscrow, gross, id, GroupbuySettle);
        ok := LogCleared(GroupbuyEscrow, 0, gross, id, GroupbuySettle);
      }
      if !ok || d.order.typ != WaitGroup {
        return false;
      }
      var record := Clearing(d.order.buyer, d.order.seller, WalletPay, "", gross, 0, gross, Cleared, false);
      deals := deals[id := d.(clearing := Some(record), order := d.order.(typ := WaitShip))];
    }

    /** One round of the dissolving loop: an order that is no longer waiting is skipped. */
    method CloseMember(id: nat) returns (ok: bool)
      modifies this`deals, desk
      ensures ok <==> Act(old(State()), id, GroupClose).Some?
      ensures ok ==> State() == Act(old(State()), id, GroupClose).value
    {
      if id >= |deals| {
        return false;
      }
      var d := deals[id];
      assert deals[id := d] == deals;
      if d.order.typ != WaitGroup {
        return true;
      }
      deals := deals[id := d.(order := d.order.(typ := Closed))];
      ok := desk.RefundFromEscrow(d.order.buyer, d.order.money, id);
    }

    method SellMembers(members: seq<Member>) returns (ok: bool)
      modifies this`deals, this`stock, desk
      ensures ok <==> ActAll(old(State()), members, GroupSell).Some?
      ensures ok ==> State() == ActAll(old(State()), members, GroupSell).value
    {
      ghost var s0 := State();
      var i := 0;
      while i < |members|
        invariant 0 <= i <= |members|
        invariant ActAll(s0, members[..i], GroupSell) == Some(State())
      {
        assert members[..i + 1][..i] == members[..i];
        ok := SellMember(members[i].order);
        if !ok {
          LoopStopped(s0, members, i + 1, GroupSell);
          return;
        }
        i := i + 1;
      }
      assert members[..i] == members;
      ok := true;
    }

    method CloseMembers(members: seq<Member>) returns (ok: bool)
      modifies this`deals, this`stock, desk
      ensures ok <==> ActAll(old(State()), members, GroupClose).Some?
      ensures ok ==> State() == ActAll(old(State()), members, GroupClose).value
    {
      ghost var s0 := State();
      var i := 0;
      while i < |members|
        invariant 0 <= i <= |members|
        invariant ActAll(s0, members[..i], GroupClose) == Some(State())
      {
        assert members[..i + 1][..i] == members[..i];
        ok := CloseMember(members[i].order);
        if !ok {
          LoopStopped(s0, members, i + 1, GroupClose);
          return;
        }
        i := i + 1;
      }
      assert members[..i] == members;
      ok := true;
    }

    /** All members in the order they joined, then the status; any failure rolls the whole transaction back. */
    method MarkGroupSuccess(gid: nat) returns (switched: bool)
      modifies this`deals, this`stock, this`groups, desk
      ensures switched <==> MarkSuccess(old(State()), gid).Some?
      ensures State() == Committed(old(State()), MarkSuccess(old(State()), gid))
    {
      if gid >= |groups| || !groups[gid].status.Open? || groups[gid].count < groups[gid].target {
        return false;
      }
      var deals0, stock0, wallets0, rows0 := deals, stock, desk.wallets, desk.rows;
      switched := SellMembers(groups[gid].members);
      if !switched {
        Rollback(deals0, stock0, wallets0, rows0);
        return;
      }
      groups := groups[gid := groups[gid].(status := Succeeded)];
    }

    method DissolveGroup(gid: nat, to: GroupStatus) returns (switched: bool)
      requires to.Expired? || to.Dissolved?
      modifies this`deals, this`stock, this`groups, desk
      ensures switched <==> Dissolve(old(State()), gid, to).Some?
      ensures State() == Committed(old(State()), Dissolve(old(State()), gid, to))
    {
      if gid >= |groups| || !groups[gid].status.Open? {
        return false;
      }
      var deals0, stock0, wallets0, rows0 := deals, stock, desk.wallets, desk.rows;
      switched := CloseMembers(groups[gid].members);
      if !switched {
        Rollback(deals0, stock0, wallets0, rows0);
        return;
      }
      groups := groups[gid := groups[gid].(status := to)];
    }
  }

  /** A member whose transaction fails fails the whole loop. */
  lemma {:induction false} LoopStopped(s: State, members: seq<Member>, n: nat, e: Event)
    requires n <= |members| && ActAll(s, members[..n], e).None?
    ensures ActAll(s, members, e).None?
    decreases |members|
  {
    if n < |members| {
      assert members[..|members| - 1][..n] == members[..n];
      LoopStopped(s, members[..|members| - 1], n, e);
    } else {
      assert members[..n] == members;
    }
  }
}

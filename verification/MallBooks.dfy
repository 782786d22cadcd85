/** What every run of the mall keeps: each order's ledger rows are exactly the ones its state calls for, the stock adds
    up, and each group holds the money of its members exactly while it is open. */
module MallBooks {
  import opened Results
  import opened Ledger
  import opened Orders
  import opened Mall

  // ---- The rows of one order ----

  ghost function OrderKeys(id: nat): set<(nat, Biz)> {
    {(id, OrderClear), (id, OrderSettle), (id, Refund), (id, EscrowRefund), (id, PreorderDeposit), (id, PreorderFinal),
     (id, PreorderRefund), (id, GroupbuyPay), (id, GroupbuySettle), (id, GroupbuyRefund)}
  }

  lemma KeyOfOrder(id: nat, ref: nat, biz: Biz)
    ensures (ref, biz) in OrderKeys(id) <==> ref == id && OrderBiz(biz)
  {
  }

  ghost predicate RowsMatch(rows: seq<Entry>, id: nat, d: Deal) {
    forall biz, dir :: OrderBiz(biz) ==> HasRow(rows, id, dir, biz) == Written(d, biz)
  }

  ghost predicate BalancesMatch(rows: seq<Entry>, id: nat, d: Deal) {
    forall a :: Net(rows, OrderKeys(id), a) == Owed(d, a)
  }

  ghost predicate OrderOk(rows: seq<Entry>, id: nat, d: Deal) {
    DealInv(d) && RowsMatch(rows, id, d) && BalancesMatch(rows, id, d)
  }

  ghost predicate Unborn(rows: seq<Entry>, n: nat) {
    forall ref, biz, dir :: ref >= n && OrderBiz(biz) ==> !HasRow(rows, ref, dir, biz)
  }

  lemma OwnMove(b: Books, m: Movement, id: nat, d: Deal, eff: Effect)
    requires OrderOk(b.rows, id, d) && DealInv(eff.deal) && MoneyMatches(d, eff) && eff.money == Some(m)
    requires PostMoney(b, Some(m), id).Success?
    ensures OrderOk(PostMoney(b, Some(m), id).value.rows, id, eff.deal)
  {
    var rows := PostMoney(b, Some(m), id).value.rows;
    forall biz, dir | OrderBiz(biz) ensures HasRow(rows, id, dir, biz) == Written(eff.deal, biz) {
      MoveHas(b, m.first, m.dir, m.second, m.amount, id, m.biz, id, dir, biz);
    }
    forall a ensures Net(rows, OrderKeys(id), a) == Owed(eff.deal, a) {
      NetMove(b, m.first, m.dir, m.second, m.amount, id, m.biz, OrderKeys(id), a);
      KeyOfOrder(id, id, m.biz);
    }
  }

  lemma OwnNoMove(b: Books, id: nat, d: Deal, eff: Effect)
    requires OrderOk(b.rows, id, d) && DealInv(eff.deal) && MoneyMatches(d, eff) && eff.money == None
    ensures OrderOk(b.rows, id, eff.deal)
  {
  }

  /** A movement under another reference, or of another part of the program, leaves the order's rows alone. */
  lemma OtherMove(b: Books, first: Account, dir: Direction, second: Account, amount: nat, ref: nat, biz: Biz, id: nat,
                  d: Deal)
    requires OrderOk(b.rows, id, d) && Move(b, first, dir, second, amount, ref, biz).Success?
    requires (ref != id || !OrderBiz(biz))
    ensures OrderOk(Move(b, first, dir, second, amount, ref, biz).value.rows, id, d)
  {
    var rows := Move(b, first, dir, second, amount, ref, biz).value.rows;
    forall z, e | OrderBiz(z) ensures HasRow(rows, id, e, z) == Written(d, z) {
      MoveHas(b, first, dir, second, amount, ref, biz, id, e, z);
    }
    forall a ensures Net(rows, OrderKeys(id), a) == Owed(d, a) {
      NetMove(b, first, dir, second, amount, ref, biz, OrderKeys(id), a);
      KeyOfOrder(id, ref, biz);
    }
  }

  lemma MoveKeepsUnborn(b: Books, first: Account, dir: Direction, second: Account, amount: nat, ref: nat, biz: Biz,
                        n: nat)
    requires Unborn(b.rows, n) && Move(b, first, dir, second, amount, ref, biz).Success? && (ref < n || !OrderBiz(biz))
    ensures Unborn(Move(b, first, dir, second, amount, ref, biz).value.rows, n)
  {
    var rows := Move(b, first, dir, second, amount, ref, biz).value.rows;
    forall r, z, e | r >= n && OrderBiz(z) ensures !HasRow(rows, r, e, z) {
      MoveHas(b, first, dir, second, amount, ref, biz, r, e, z);
    }
  }

  // ---- Stock ----

  ghost function TakenOf(deals: seq<Deal>, product: nat): int {
    if deals == [] then 0
    else
      var d := deals[|deals| - 1];
      TakenOf(deals[..|deals| - 1], product) + if d.order.product == product then Taken(d) else 0
  }

  lemma TakenAppend(deals: seq<Deal>, d: Deal, product: nat)
    ensures TakenOf(deals + [d], product) ==
      TakenOf(deals, product) + if d.order.product == product then Taken(d) else 0
  {
    assert (deals + [d])[..|deals|] == deals;
  }

  lemma {:induction false} TakenUpdate(deals: seq<Deal>, id: nat, d: Deal, product: nat)
    requires id < |deals| && d.order.product == deals[id].order.product
    ensures TakenOf(deals[id := d], product)
      == TakenOf(deals, product) + if d.order.product == product then Taken(d) - Taken(deals[id]) else 0
  {
    var n := |deals| - 1;
    if id == n {
      assert deals[id := d][..n] == deals[..n];
    } else {
      assert deals[id := d][..n] == deals[..n][id := d];
      TakenUpdate(deals[..n], id, d, product);
    }
  }

  function Level(stock: map<nat, int>, product: nat): int {
    if product in stock then stock[product] else 0
  }

  /** Stock plus the items of paid, not restocked orders is what merchants have supplied. */
  ghost predicate StockOk(s: State) {
    forall p: nat :: Level(s.stock, p) >= 0 && Level(s.stock, p) + TakenOf(s.deals, p) == Level(s.supply, p)
  }

  // ---- All orders ----

  ghost predicate OrdersOk(s: State) {
    forall id :: 0 <= id < |s.deals| ==> OrderOk(s.books.rows, id, s.deals[id])
  }

  ghost predicate CoreInv(s: State, opening: map<nat, int>) {
    OrdersOk(s) && Unborn(s.books.rows, |s.deals|) && BooksInv(s.books, opening) && StockOk(s)
  }

  lemma EnvIsOk(s: State, id: nat)
    requires id < |s.deals| && OrderOk(s.books.rows, id, s.deals[id])
    ensures EnvOk(s.deals[id], EnvOf(s, id))
  {
    assert OrderBiz(EscrowRefund) && OrderBiz(Refund) && OrderBiz(GroupbuyRefund);
  }

  /** The repayment of a group member is only ever run on a closed member order. */
  predicate Applicable(d: Deal, e: Event) {
    e.GroupRepay? ==> d.grouped && d.order.typ == Closed
  }

  lemma ActEffect(s: State, id: nat, e: Event, opening: map<nat, int>)
    requires CoreInv(s, opening) && Act(s, id, e).Some? && Applicable(s.deals[id], e)
    ensures Transact(s.deals[id], e, EnvOf(s, id)).Success?
    ensures var eff := Transact(s.deals[id], e, EnvOf(s, id)).value; var t := Act(s, id, e).value;
      && Sound(s.deals[id], eff) && MoneyMatches(s.deals[id], eff)
      && PostMoney(s.books, eff.money, id) == Success(t.books)
      && MoveStock(s.stock, s.deals[id].order.product, eff.stock) == Some(t.stock)
      && t == s.(deals := s.deals[id := eff.deal], books := t.books, stock := t.stock)
  {
    assert OrderOk(s.books.rows, id, s.deals[id]);
    EnvIsOk(s, id);
    TransactionIsSound(s.deals[id], e, EnvOf(s, id));
  }

  lemma ActKeepsOrders(s: State, id: nat, e: Event, opening: map<nat, int>)
    requires CoreInv(s, opening) && Act(s, id, e).Some? && Applicable(s.deals[id], e)
    ensures OrdersOk(Act(s, id, e).value) && Unborn(Act(s, id, e).value.books.rows, |s.deals|)
  {
    ActEffect(s, id, e, opening);
    var t, eff := Act(s, id, e).value, Transact(s.deals[id], e, EnvOf(s, id)).value;
    assert OrderOk(s.books.rows, id, s.deals[id]);
    if eff.money.Some? {
      var m := eff.money.value;
      OwnMove(s.books, m, id, s.deals[id], eff);
      MoveKeepsUnborn(s.books, m.first, m.dir, m.second, m.amount, id, m.biz, |s.deals|);
      forall x | 0 <= x < |t.deals| ensures OrderOk(t.books.rows, x, t.deals[x]) {
        if x != id {
          OtherMove(s.books, m.first, m.dir, m.second, m.amount, id, m.biz, x, s.deals[x]);
        }
      }
    } else {
      OwnNoMove(s.books, id, s.deals[id], eff);
    }
  }

  lemma ActKeepsBooks(s: State, id: nat, e: Event, opening: map<nat, int>)
    requires CoreInv(s, opening) && Act(s, id, e).Some? && Applicable(s.deals[id], e)
    ensures BooksInv(Act(s, id, e).value.books, opening)
  {
    ActEffect(s, id, e, opening);
    var eff := Transact(s.deals[id], e, EnvOf(s, id)).value;
    if eff.money.Some? {
      var m := eff.money.value;
      MoveKeepsBooks(s.books, m.first, m.dir, m.second, m.amount, id, m.biz, opening);
    }
  }

  lemma ActKeepsStock(s: State, id: nat, e: Event, opening: map<nat, int>)
    requires CoreInv(s, opening) && Act(s, id, e).Some? && Applicable(s.deals[id], e)
    ensures StockOk(Act(s, id, e).value)
  {
    ActEffect(s, id, e, opening);
    var t, eff := Act(s, id, e).value, Transact(s.deals[id], e, EnvOf(s, id)).value;
    assert OrderOk(s.books.rows, id, s.deals[id]);
    forall p: nat ensures Level(t.stock, p) >= 0 && Level(t.stock, p) + TakenOf(t.deals, p) == Level(t.supply, p) {
      TakenUpdate(s.deals, id, eff.deal, p);
      assert Level(s.stock, p) + TakenOf(s.deals, p) == Level(s.supply, p);
    }
  }

  /** Any transaction on any order keeps every order's books, the ledger and the stock. */
  lemma ActKeepsCore(s: State, id: nat, e: Event, opening: map<nat, int>)
    requires CoreInv(s, opening) && Act(s, id, e).Some? && Applicable(s.deals[id], e)
    ensures CoreInv(Act(s, id, e).value, opening)
  {
    ActEffect(s, id, e, opening);
    ActKeepsOrders(s, id, e, opening);
    ActKeepsBooks(s, id, e, opening);
    ActKeepsStock(s, id, e, opening);
  }

  // ---- New orders ----

  /** A deal that starts with at most one movement, and with nothing else written. */
  ghost predicate Starts(d: Deal, m: Option<Movement>) {
    && DealInv(d) && Taken(d) == 0
    && (m.Some? ==> OrderBiz(m.value.biz))
    && (forall biz :: Written(d, biz) == (m.Some? && biz == m.value.biz))
    && forall a ::
         Owed(d, a) == if m.Some? then Moved(m.value.first, m.value.dir, m.value.second, m.value.amount, a) else 0
  }

  lemma NetUnborn(rows: seq<Entry>, n: nat, a: Account)
    requires Unborn(rows, n)
    ensures Net(rows, OrderKeys(n), a) == 0
  {
    forall ref, biz, dir | (ref, biz) in OrderKeys(n) ensures !HasRow(rows, ref, dir, biz) {
      KeyOfOrder(n, ref, biz);
    }
    UnusedMeansNoRow(rows, OrderKeys(n));
    NetNone(rows, a);
    NetMoreKeys(rows, {}, OrderKeys(n), a);
    assert {} + OrderKeys(n) == OrderKeys(n);
  }

  lemma NewOrderIsOk(b: Books, n: nat, d: Deal, m: Option<Movement>)
    requires Unborn(b.rows, n) && Starts(d, m) && PostMoney(b, m, n).Success?
    ensures OrderOk(PostMoney(b, m, n).value.rows, n, d)
  {
    var rows := PostMoney(b, m, n).value.rows;
    forall a ensures Net(rows, OrderKeys(n), a) == Owed(d, a) {
      NetUnborn(b.rows, n, a);
      if m.Some? {
        NetMove(b, m.value.first, m.value.dir, m.value.second, m.value.amount, n, m.value.biz, OrderKeys(n), a);
        KeyOfOrder(n, n, m.value.biz);
      }
    }
    forall biz, dir | OrderBiz(biz) ensures HasRow(rows, n, dir, biz) == Written(d, biz) {
      if m.Some? {
        MoveHas(b, m.value.first, m.value.dir, m.value.second, m.value.amount, n, m.value.biz, n, dir, biz);
      }
    }
  }

  lemma OthersStayOk(s: State, m: Option<Movement>, id: nat)
    requires OrdersOk(s) && PostMoney(s.books, m, |s.deals|).Success? && id < |s.deals|
    ensures OrderOk(PostMoney(s.books, m, |s.deals|).value.rows, id, s.deals[id])
  {
    if m.Some? {
      OtherMove(s.books, m.value.first, m.value.dir, m.value.second, m.value.amount, |s.deals|, m.value.biz, id,
        s.deals[id]);
    }
  }

  lemma UnbornShrinks(b: Books, n: nat, m: Option<Movement>)
    requires Unborn(b.rows, n) && PostMoney(b, m, n).Success?
    ensures Unborn(PostMoney(b, m, n).value.rows, n + 1)
  {
    if m.Some? {
      assert Unborn(b.rows, n + 1);
      MoveKeepsUnborn(b, m.value.first, m.value.dir, m.value.second, m.value.amount, n, m.value.biz, n + 1);
    }
  }

  lemma PlacedKeepsCore(s: State, d: Deal, m: Option<Movement>, opening: map<nat, int>)
    requires CoreInv(s, opening) && Starts(d, m) && Placed(s, d, m).Some?
    ensures CoreInv(Placed(s, d, m).value, opening)
  {
    var t, n := Placed(s, d, m).value, |s.deals|;
    NewOrderIsOk(s.books, n, d, m);
    UnbornShrinks(s.books, n, m);
    forall id | 0 <= id < |t.deals| ensures OrderOk(t.books.rows, id, t.deals[id]) {
      if id < n {
        OthersStayOk(s, m, id);
      }
    }
    if m.Some? {
      MoveKeepsBooks(s.books, m.value.first, m.value.dir, m.value.second, m.value.amount, n, m.value.biz, opening);
    }
    forall p: nat ensures Level(t.stock, p) >= 0 && Level(t.stock, p) + TakenOf(t.deals, p) == Level(t.supply, p) {
      TakenAppend(s.deals, d, p);
      assert Level(s.stock, p) + TakenOf(s.deals, p) == Level(s.supply, p);
    }
  }

  lemma FreshOrderStarts(o: Order)
    requires Fresh(o)
    ensures Starts(Deal(o, None, false, 0, 0, 0, None), None)
  {
  }

  lemma DepositStarts(buyer: nat, seller: nat, product: nat, deposit: int, final: int)
    ensures Starts(Deal(NewOrder(buyer, seller, product, 1, deposit + final, 0, 0, 0, WaitPay, DepositPaid), None,
      false, Natural(deposit), 0, 0, None),
                   Positive(Movement(Wallet(buyer), Debit, Wallet(seller), Natural(deposit), PreorderDeposit), deposit))
  {
  }

  lemma JoinStarts(user: nat, seller: nat, product: nat, price: nat)
    requires price > 0
    ensures Starts(Deal(NewOrder(user, seller, product, 1, price, 0, 0, 0, WaitGroup, NoPreorder), None, true, 0, 0,
      0, None),
                   Some(Movement(Wallet(user), Debit, GroupbuyEscrow, price, GroupbuyPay)))
  {
  }
}

/** When the transactions of orders and groups go through, in every reachable state and by the columns they read, and
    what they write. */
module MallGates {
  import opened Results
  import opened Ledger
  import opened Orders
  import opened Mall
  import opened MallBooks
  import opened MallRuns
  import opened MallTheorems
  import D = Discounts

  // ---- Orders and stock ----

  /** A new order is appended as it was priced, and moves neither money nor stock. */
  lemma OrderIsPlaced(s: State, o: Order)
    requires o.typ == WaitPay && o.stage == NoPreorder && o.refundFrom.None? && o.refundCount == 0 && !o.restocked
    ensures Apply(s, PlaceOrder(o)) == s.(deals := s.deals + [Deal(o, None, false, 0, 0, 0, None)])
  {
  }

  /** A merchant puts items on sale at any time and takes back at most what is in stock; both count as supply. */
  lemma StockIsEditedIff(s: State, product: nat, delta: int)
    ensures var t := Apply(s, EditStock(product, delta));
      var level := if product in s.stock then s.stock[product] else 0;
      if delta >= 0 || (product in s.stock && level + delta >= 0)
      then
        && t == s.(stock := s.stock[product := level + delta], supply := t.supply)
        && t.supply == s.supply[product := (if product in s.supply then s.supply[product] else 0) + delta]
      else t == s
  {
  }

  // ---- Payments ----

  /** The product row covers the order. */
  ghost predicate InStock(s: State, o: Order) {
    o.product in s.stock && s.stock[o.product] >= o.num
  }

  ghost predicate AwaitsPayment(o: Order, price: int) {
    && o.typ == WaitPay && o.stage == NoPreorder && o.buyer != 0 && o.seller != 0 && o.num > 0 && price >= 0
    && CostsExactly(o, price)
  }

  /** What a payment leaves: the order to be shipped, a cleared row over the price, the items out of the stock. */
  ghost predicate PaidFor(s: State, t: State, id: nat, channel: Channel, ref: string, price: int)
    requires id < |s.deals|
  {
    var d := s.deals[id];
    var o := d.order;
    && t == s.(deals := t.deals, books := t.books, stock := t.stock)
    && t.deals == s.deals[id := d.(order := o.(typ := WaitShip), clearing :=
         Some(Clearing(o.buyer, o.seller, channel, ref, price, 0, price, Cleared, false)))]
    && o.product in s.stock && t.stock == s.stock[o.product := s.stock[o.product] - o.num]
  }

  lemma UnpaidHasNoRows(s: State, id: nat, opening: map<nat, int>)
    requires Reachable(s, opening) && id < |s.deals|
    requires s.deals[id].order.typ == WaitPay && s.deals[id].order.stage == NoPreorder
    ensures s.deals[id].clearing.None? && forall dir :: !HasRow(s.books.rows, id, dir, OrderClear)
  {
    ReachedIsSound(s, opening);
    assert OrderOk(s.books.rows, id, s.deals[id]);
    assert OrderBiz(OrderClear);
  }

  /** A balance payment goes through exactly if the order waits for payment, its parties and number are set, the buyer
      has what it costs, and the product row covers it. It lowers the buyer's wallet by exactly that. */
  lemma PaymentGoesThroughIff(s: State, id: nat, price: int, opening: map<nat, int>)
    requires Reachable(s, opening) && id < |s.deals| && CostsExactly(s.deals[id].order, price)
    ensures var o := s.deals[id].order; var r := Act(s, id, PayWallet);
      && (r.Some? <==> AwaitsPayment(o, price) && InStock(s, o)
                       && o.buyer in s.books.wallets && s.books.wallets[o.buyer] >= price)
      && (r.Some? ==>
            && PaidFor(s, r.value, id, WalletPay, "", price)
            && o.buyer in s.books.wallets
            && r.value.books.wallets == s.books.wallets[o.buyer := s.books.wallets[o.buyer] - price])
  {
    var o := s.deals[id].order;
    if AwaitsPayment(o, price) {
      UnpaidHasNoRows(s, id, opening);
      MoveGoesThroughIff(s.books, Wallet(o.buyer), Debit, MerchantEscrow, price, id, OrderClear);
    }
  }

  /** A payment from outside goes through whatever the wallets hold, and leaves them alone. */
  lemma OutsidePaymentGoesThroughIff(s: State, id: nat, channel: Channel, ref: string, price: int,
                                     opening: map<nat, int>)
    requires Reachable(s, opening) && id < |s.deals| && CostsExactly(s.deals[id].order, price)
    ensures var o := s.deals[id].order; var r := Act(s, id, PayExternal(channel, ref));
      && (r.Some? <==>
            channel != WalletPay && o.buyer in s.books.wallets && AwaitsPayment(o, price) && InStock(s, o))
      && (r.Some? ==>
            PaidFor(s, r.value, id, channel, ref, price) && r.value.books.wallets == s.books.wallets)
  {
    var o := s.deals[id].order;
    if AwaitsPayment(o, price) {
      UnpaidHasNoRows(s, id, opening);
      MoveGoesThroughIff(s.books, ExternalClearing, Debit, MerchantEscrow, price, id, OrderClear);
    }
  }

  /** The columns that ordering writes from a quote and its bill. */
  ghost predicate OrderedAt(o: Order, q: D.Quote, bill: D.Bill, userCoupon: nat) {
    && o.money * o.num == q.subtotal && o.promoRule == bill.rule && o.final == bill.final
    && o.coupon == (if q.coupon.Some? then userCoupon else 0)
  }

  /** An order placed at a bill is paid with the subtotal less promotion and coupon: so much leaves the buyer's wallet
      and is cleared, whatever budgets were used up. */
  lemma BilledOrderIsPaidAtBill(s: State, id: nat, q: D.Quote, charges: seq<D.Charge>, bill: D.Bill, userCoupon: nat,
                                opening: map<nat, int>)
    requires Reachable(s, opening) && id < |s.deals| && Act(s, id, PayWallet).Some?
    requires |charges| == |q.promos| && D.Bills(q, charges, bill) && OrderedAt(s.deals[id].order, q, bill, userCoupon)
    requires userCoupon != 0 && forall i :: 0 <= i < |q.promos| ==> q.promos[i].rule.id != 0
    ensures var t := Act(s, id, PayWallet).value; var buyer := s.deals[id].order.buyer;
      && t.deals[id].clearing.Some?
      && t.deals[id].clearing.value.gross == q.subtotal - bill.promo - bill.coupon
      && buyer in s.books.wallets
      && t.books.wallets == s.books.wallets[buyer :=
           s.books.wallets[buyer] - (q.subtotal - bill.promo - bill.coupon)]
  {
    PaymentGoesThroughIff(s, id, q.subtotal - bill.promo - bill.coupon, opening);
  }

  // ---- What merchants and buyers may do ----

  /** The transaction only writes the type of its order. */
  ghost predicate Turns(s: State, r: Option<State>, id: nat, typ: Type)
    requires id < |s.deals|
  {
    r == Some(s.(deals := s.deals[id := s.deals[id].(order := s.deals[id].order.(typ := typ))]))
  }

  /** Shipping, deciding a refund and confirming a return are up to the order's own merchant, or the platform (boss 0),
      and each has its one state. */
  lemma MerchantActsIff(s: State, id: nat, boss: nat, seen: Type)
    requires id < |s.deals|
    ensures var o := s.deals[id].order; var his := boss == 0 || boss == o.seller;
      && (Act(s, id, Ship(boss)).Some? <==> his && o.typ == WaitShip)
      && (his && o.typ == WaitShip ==> Turns(s, Act(s, id, Ship(boss)), id, WaitReceive))
      && (Act(s, id, Approve(boss)).Some? <==> his && o.typ == Refunding)
      && (his && o.typ == Refunding ==> Turns(s, Act(s, id, Approve(boss)), id, Refunded))
      && (Act(s, id, Reject(seen, boss)).Some? <==>
            his && o.typ == Refunding && (seen == WaitShip || seen == WaitReceive || seen == Completed))
      && (Act(s, id, Reject(seen, boss)).Some? ==> Turns(s, Act(s, id, Reject(seen, boss)), id, seen))
  {
  }

  lemma PaidHasItems(s: State, id: nat, opening: map<nat, int>)
    requires Reachable(s, opening) && id < |s.deals| && Paid(s.deals[id].order.typ)
    ensures s.deals[id].order.num > 0
  {
    ReachedIsSound(s, opening);
    assert OrderOk(s.books.rows, id, s.deals[id]);
  }

  /** A returned order is restocked once, by its merchant or the platform, unless it was never shipped. */
  lemma ReturnIsConfirmedIff(s: State, id: nat, boss: nat, opening: map<nat, int>)
    requires Reachable(s, opening) && id < |s.deals|
    ensures var o := s.deals[id].order; var r := Act(s, id, ConfirmReturn(boss));
      && (r.Some? <==>
            && (boss == 0 || boss == o.seller) && o.typ == Refunded && !o.restocked && o.refundFrom != Some(WaitShip)
            && o.product in s.stock)
      && (r.Some? ==>
            r == Some(s.(deals := s.deals[id := s.deals[id].(order := o.(restocked := true))],
                         stock := s.stock[o.product := s.stock[o.product] + o.num])))
  {
    if s.deals[id].order.typ == Refunded {
      PaidHasItems(s, id, opening);
    }
  }

  /** A refund can be asked for while the order is paid and not refunded, after completion only within the after-sales
      time, and three times at most; the state it is asked from is kept. Receiving needs a shipped order. */
  lemma BuyerActsIff(s: State, id: nat, afterSalesOver: bool)
    requires id < |s.deals|
    ensures var d := s.deals[id]; var o := d.order; var ask := Act(s, id, AskRefund(afterSalesOver));
      && (ask.Some? <==>
            && (o.typ == WaitShip || o.typ == WaitReceive || (o.typ == Completed && !afterSalesOver))
            && o.refundCount < 3)
      && (ask.Some? ==>
            ask == Some(s.(deals := s.deals[id := d.(order :=
              o.(typ := Refunding, refundFrom := Some(o.typ), refundCount := o.refundCount + 1))])))
      && (Act(s, id, Receive).Some? <==> o.typ == WaitReceive)
      && (o.typ == WaitReceive ==> Turns(s, Act(s, id, Receive), id, Completed))
  {
  }

  /** The timeout closes an unpaid order and leaves any other alone. */
  lemma TimeoutCloses(s: State, id: nat)
    requires id < |s.deals|
    ensures var o := s.deals[id].order;
      Turns(s, Act(s, id, CloseUnpaid), id, if o.typ == WaitPay && o.stage == NoPreorder then Closed else o.typ)
  {
    assert s.deals[id := s.deals[id]] == s.deals;
  }

  // ---- Preorders ----

  /** One user pays another; an amount that is not positive moves nothing. */
  ghost predicate CanPay(s: State, from: nat, to: nat, amount: int) {
    amount > 0 ==> from in s.books.wallets && to in s.books.wallets && s.books.wallets[from] >= amount
  }

  ghost predicate Pays(s: State, t: State, from: nat, to: nat, amount: int) {
    Shifted(s.books.wallets, t.books.wallets, Wallet(from), Wallet(to), if amount > 0 then amount else 0)
  }

  lemma PreorderHasNoRows(s: State, id: nat, opening: map<nat, int>)
    requires Reachable(s, opening) && id < |s.deals|
    requires s.deals[id].order.typ == WaitPay && s.deals[id].order.stage == DepositPaid
    ensures forall dir ::
      !HasRow(s.books.rows, id, dir, PreorderFinal) && !HasRow(s.books.rows, id, dir, PreorderRefund)
    ensures s.deals[id].order.num > 0
  {
    ReachedIsSound(s, opening);
    assert OrderOk(s.books.rows, id, s.deals[id]);
    assert OrderBiz(PreorderFinal) && OrderBiz(PreorderRefund);
  }

  /** The final payment goes through exactly if the deposit is paid, the buyer has the amount, and the product row
      covers the order; it moves the amount to the seller and the order to be shipped. */
  lemma FinalPaymentGoesThroughIff(s: State, id: nat, amount: int, opening: map<nat, int>)
    requires Reachable(s, opening) && id < |s.deals|
    ensures var o := s.deals[id].order; var r := Act(s, id, PayFinal(amount));
      && (r.Some? <==>
            o.stage == DepositPaid && o.typ == WaitPay && CanPay(s, o.buyer, o.seller, amount) && InStock(s, o))
      && (r.Some? ==>
            && Pays(s, r.value, o.buyer, o.seller, amount)
            && r.value.deals[id].order == o.(typ := WaitShip, stage := FinalPaid)
            && o.product in s.stock && r.value.stock == s.stock[o.product := s.stock[o.product] - o.num])
  {
    var o := s.deals[id].order;
    if o.stage == DepositPaid && o.typ == WaitPay {
      PreorderHasNoRows(s, id, opening);
      if amount > 0 {
        MoveGoesThroughIff(s.books, Wallet(o.buyer), Debit, Wallet(o.seller), amount, id, PreorderFinal);
      }
    }
  }

  /** Cancelling in the deposit window goes through exactly if the deposit is paid and the seller has the amount; it
      moves the amount back and closes the order. */
  lemma CancellationGoesThroughIff(s: State, id: nat, amount: int, opening: map<nat, int>)
    requires Reachable(s, opening) && id < |s.deals|
    ensures var o := s.deals[id].order; var r := Act(s, id, CancelPreorder(amount));
      && (r.Some? <==> o.stage == DepositPaid && o.typ == WaitPay && CanPay(s, o.seller, o.buyer, amount))
      && (r.Some? ==>
            && Pays(s, r.value, o.seller, o.buyer, amount) && r.value.stock == s.stock
            && r.value.deals[id].order == o.(typ := Closed, stage := NoPreorder))
  {
    var o := s.deals[id].order;
    if o.stage == DepositPaid && o.typ == WaitPay {
      PreorderHasNoRows(s, id, opening);
      if amount > 0 {
        MoveGoesThroughIff(s.books, Wallet(o.seller), Debit, Wallet(o.buyer), amount, id, PreorderRefund);
      }
    }
  }

  /** The refund of an approved preorder goes through exactly if the seller can pay its price back, and its product row
      is there when items come back; the price goes from seller to buyer. */
  lemma PreorderRefundGoesThroughIff(s: State, id: nat, price: int, opening: map<nat, int>)
    requires Reachable(s, opening) && id < |s.deals| && CostsExactly(s.deals[id].order, price)
    requires s.deals[id].order.typ == Refunded && s.deals[id].clearing.None? && s.deals[id].back.None?
    ensures var o := s.deals[id].order; var r := Act(s, id, SettleRefund);
      && (r.Some? <==>
            && price >= 0 && o.buyer in s.books.wallets && o.seller in s.books.wallets
            && (o.buyer != o.seller ==> s.books.wallets[o.seller] >= price)
            && (o.refundFrom == Some(WaitShip) && !o.restocked ==> o.product in s.stock))
      && (r.Some? ==>
            && Shifted(s.books.wallets, r.value.books.wallets, Wallet(o.seller), Wallet(o.buyer), price)
            && BackInStock(s, r.value, id))
  {
    ApprovedRefundIsDue(s, id, opening);
    DueRefundIff(s, id, price);
  }

  /** A deposit order is placed exactly if the buyer has the deposit; its price is fixed at deposit plus final
      amount. */
  lemma DepositGoesThroughIff(s: State, buyer: nat, seller: nat, product: nat, deposit: int, final: int,
                              opening: map<nat, int>)
    requires Reachable(s, opening)
    ensures var r := PayDeposit(s, buyer, seller, product, deposit, final);
      && (r.Some? <==> CanPay(s, buyer, seller, deposit))
      && (r.Some? ==>
            && Pays(s, r.value, buyer, seller, deposit) && |r.value.deals| == |s.deals| + 1
            && r.value.deals[..|s.deals|] == s.deals
            && var o := r.value.deals[|s.deals|].order;
               && o.typ == WaitPay && o.stage == DepositPaid && o.num == 1 && CostsExactly(o, deposit + final)
               && o.buyer == buyer && o.seller == seller && o.product == product)
  {
    ReachedIsSound(s, opening);
    assert OrderBiz(PreorderDeposit);
    if deposit > 0 {
      MoveGoesThroughIff(s.books, Wallet(buyer), Debit, Wallet(seller), deposit, |s.deals|, PreorderDeposit);
    }
  }

  /** The expired deposit is forfeited: the order is closed and the money stays where it is. */
  lemma DepositIsForfeited(s: State, id: nat)
    requires id < |s.deals|
    ensures var d := s.deals[id]; var o := d.order;
      Act(s, id, Forfeit) ==
        if o.stage == DepositPaid && o.typ == WaitPay
        then Some(s.(deals := s.deals[id := d.(order := o.(typ := Closed, stage := Forfeited))])) else Some(s)
  {
    assert s.deals[id := s.deals[id]] == s.deals;
  }

  // ---- Groups ----

  /** The member's order with its money in the group escrow. */
  ghost predicate MemberPaid(s: State, t: State, user: nat, seller: nat, product: nat, price: nat) {
    && |t.deals| == |s.deals| + 1 && t.deals[..|s.deals|] == s.deals && t.stock == s.stock
    && Shifted(s.books.wallets, t.books.wallets, Wallet(user), GroupbuyEscrow, price)
    && var o := t.deals[|s.deals|].order;
       && o.typ == WaitGroup && o.buyer == user && o.seller == seller && o.product == product && o.num == 1
       && CostsExactly(o, price)
  }

  lemma MemberOrderIff(s: State, user: nat, seller: nat, product: nat, price: nat, opening: map<nat, int>)
    requires Reachable(s, opening)
    ensures var r := JoinOrder(s, user, seller, product, price);
      && (r.Some? <==> user in s.books.wallets && s.books.wallets[user] >= price)
      && (r.Some? ==> MemberPaid(s, r.value, user, seller, product, price) && r.value.groups == s.groups)
  {
    ReachedIsSound(s, opening);
    assert OrderBiz(GroupbuyPay);
    MoveGoesThroughIff(s.books, Wallet(user), Debit, GroupbuyEscrow, price, |s.deals|, GroupbuyPay);
  }

  /** A group is opened exactly for two to a hundred members at a price that its leader can pay; he is its first. */
  lemma GroupOpensIff(s: State, leader: nat, seller: nat, product: nat, target: nat, price: nat,
                      opening: map<nat, int>)
    requires Reachable(s, opening)
    ensures var r := OpenGroup(s, leader, seller, product, target, price);
      && (r.Some? <==>
            2 <= target <= 100 && price > 0 && leader in s.books.wallets && s.books.wallets[leader] >= price)
      && (r.Some? ==>
            && MemberPaid(s, r.value, leader, seller, product, price)
            && r.value.groups ==
                 s.groups + [Group(product, leader, target, 1, price, Open, [Member(leader, |s.deals|)])])
  {
    MemberOrderIff(s, leader, seller, product, price, opening);
  }

  /** A user joins exactly if the group is open, not full and not expired, he is not in it and can pay its price. */
  lemma UserJoinsIff(s: State, gid: nat, user: nat, seller: nat, expired: bool, opening: map<nat, int>)
    requires Reachable(s, opening) && gid < |s.groups|
    ensures var g := s.groups[gid]; var r := Join(s, gid, user, seller, expired);
      && (r.Some? <==>
            && g.status.Open? && g.count < g.target && !expired
            && (forall i :: 0 <= i < |g.members| ==> g.members[i].user != user)
            && user in s.books.wallets && s.books.wallets[user] >= g.price)
      && (r.Some? ==>
            && MemberPaid(s, r.value, user, seller, g.product, g.price)
            && r.value.groups == s.groups[gid :=
                 g.(count := g.count + 1, members := g.members + [Member(user, |s.deals|)])])
  {
    MemberOrderIff(s, user, seller, s.groups[gid].product, s.groups[gid].price, opening);
  }
}

/** The main results about orders, groups and their money, in every state that a run from an opened mall reaches. */
module MallTheorems {
  import opened Results
  import opened Ledger
  import opened Orders
  import opened Mall
  import opened MallBooks
  import opened MallRuns

  /** The states of all runs. */
  ghost predicate Reachable(s: State, opening: map<nat, int>) {
    exists start, steps :: Opening(start, opening) && After(start, steps) == s
  }

  lemma ReachedIsSound(s: State, opening: map<nat, int>)
    requires Reachable(s, opening)
    ensures MallInv(s, opening)
  {
    var start, steps :| Opening(start, opening) && After(start, steps) == s;
    RunKeepsMall(start, steps, opening);
  }

  // ---- Money ----

  /** Debits equal credits, no wallet differs from its opening balance plus its credits minus its debits or is
      overdrawn, and no reference, direction and business type is posted twice, or on one side only. */
  lemma LedgerIsSound(s: State, opening: map<nat, int>)
    requires Reachable(s, opening)
    ensures Total(s.books.rows, Debit) == Total(s.books.rows, Credit)
    ensures forall u :: u in s.books.wallets <==> u in opening
    ensures forall u :: u in opening ==> s.books.wallets[u] == opening[u] + Balance(s.books.rows, Wallet(u)) >= 0
    ensures UniqueRows(s.books.rows) && Paired(s.books.rows)
  {
    ReachedIsSound(s, opening);
  }

  /** The rows of an order keep in the merchant escrow its net amount exactly while its clearing row is `cleared`,
      have paid that to the seller exactly while it is `settled`, and keep its price in the group escrow exactly
      while it waits for its group. The settlement row exists exactly if it was ever settled, and at most one refund
      row exists. */
  lemma OrderMoneyIsExact(s: State, id: nat, opening: map<nat, int>)
    requires Reachable(s, opening) && id < |s.deals|
    ensures var o := s.deals[id].order; var c := s.deals[id].clearing; var rows := s.books.rows;
      && Net(rows, OrderKeys(id), MerchantEscrow) == (if c.Some? && c.value.status.Cleared? then c.value.net else 0)
      && Net(rows, OrderKeys(id), GroupbuyEscrow) == (if o.typ == WaitGroup then o.money else 0)
      && (c.Some? && o.buyer != o.seller ==>
            Net(rows, OrderKeys(id), Wallet(o.seller)) == if c.value.status.Settled? then c.value.net else 0)
      && (c.Some? && o.buyer == o.seller ==>
            Net(rows, OrderKeys(id), Wallet(o.seller))
            == (if c.value.status.Cleared? then 0 else c.value.net)
              - if c.value.channel == WalletPay then c.value.gross else 0)
      && (HasRow(rows, id, Credit, OrderSettle) <==> c.Some? && c.value.settledAt)
      && !(HasRow(rows, id, Credit, EscrowRefund) && HasRow(rows, id, Credit, Refund))
  {
    ReachedIsSound(s, opening);
    var d := s.deals[id];
    assert OrderOk(s.books.rows, id, d);
    EscrowHoldsIffCleared(d);
    GroupEscrowHoldsIffWaiting(d);
    if d.clearing.Some? && d.order.buyer != d.order.seller {
      SettledPaysTheSeller(d);
    }
    if d.clearing.Some? && d.order.buyer == d.order.seller {
      OwnOrderBalance(d);
    }
    assert OrderBiz(OrderSettle) && OrderBiz(EscrowRefund) && OrderBiz(Refund);
  }

  ghost predicate Posts(s: State, id: nat, e: Event, biz: Biz) {
    !HasRow(s.books.rows, id, Credit, biz) && Act(s, id, e).Some?
      && HasRow(Act(s, id, e).value.books.rows, id, Credit, biz)
  }

  /** A refund row is written only for an order whose refund was approved, and the seller's row only for a completed
      order that is still cleared. */
  lemma SettlementsAreGuarded(s: State, id: nat, e: Event, biz: Biz)
    requires id < |s.deals| && Posts(s, id, e, biz)
    ensures biz == EscrowRefund || biz == Refund ==> e == SettleRefund && s.deals[id].order.typ == Refunded
    ensures biz == OrderSettle ==>
      e == SettleCompleted && s.deals[id].order.typ == Completed && s.deals[id].clearing.Some?
        && s.deals[id].clearing.value.status.Cleared?
  {
  }

  /** What an order costs, by its columns: with a promotion or a coupon the final amount, otherwise price times
      number. */
  ghost predicate CostsExactly(o: Order, amount: int) {
    && (o.promoRule != 0 || o.coupon != 0 ==> amount == o.final)
    && (o.promoRule == 0 && o.coupon == 0 ==> amount == o.money * o.num)
  }

  /** Every non-preorder order that was paid has a clearing row, and every clearing row is over what its order costs. */
  lemma PaidOrdersAreCleared(s: State, id: nat, opening: map<nat, int>)
    requires Reachable(s, opening) && id < |s.deals|
    ensures var d := s.deals[id];
      && (Paid(d.order.typ) && d.order.stage == NoPreorder ==> d.clearing.Some?)
      && (d.clearing.Some? ==>
            && CostsExactly(d.order, d.clearing.value.gross) && d.clearing.value.net == d.clearing.value.gross
            && d.clearing.value.fee == 0
            && d.clearing.value.buyer == d.order.buyer && d.clearing.value.seller == d.order.seller)
  {
    ReachedIsSound(s, opening);
    assert OrderOk(s.books.rows, id, s.deals[id]);
  }

  /** What the first `n` members of a group have in the group escrow. */
  ghost function GroupMoney(rows: seq<Entry>, members: seq<Member>, n: nat): int
    requires n <= |members|
  {
    if n == 0 then 0 else GroupMoney(rows, members, n - 1) + Net(rows, OrderKeys(members[n - 1].order), GroupbuyEscrow)
  }

  lemma MemberMoney(s: State, g: Group, m: Member, opening: map<nat, int>)
    requires CoreInv(s, opening) && MemberOk(s.deals, g, m)
    ensures Net(s.books.rows, OrderKeys(m.order), GroupbuyEscrow) == if g.status.Open? then g.price else 0
  {
    assert OrderOk(s.books.rows, m.order, s.deals[m.order]);
    GroupEscrowHoldsIffWaiting(s.deals[m.order]);
  }

  lemma {:induction false} EqualShares(rows: seq<Entry>, members: seq<Member>, n: nat, share: int)
    requires n <= |members|
    requires forall i :: 0 <= i < |members| ==> Net(rows, OrderKeys(members[i].order), GroupbuyEscrow) == share
    ensures GroupMoney(rows, members, n) == n * share
  {
    if n > 0 {
      EqualShares(rows, members, n - 1, share);
      assert n * share == (n - 1) * share + share;
    }
  }

  /** Each group counts its members, at most its target; the group escrow holds the price of every member while it
      is open and nothing afterwards. */
  lemma GroupMoneyIsExact(s: State, gid: nat, opening: map<nat, int>)
    requires Reachable(s, opening) && gid < |s.groups|
    ensures var g := s.groups[gid];
      && g.count == |g.members| <= g.target
      && GroupMoney(s.books.rows, g.members, |g.members|) == if g.status.Open? then g.count * g.price else 0
  {
    ReachedIsSound(s, opening);
    var g := s.groups[gid];
    assert GroupOkIn(s.deals, g);
    var share := if g.status.Open? then g.price else 0;
    forall i | 0 <= i < |g.members| ensures Net(s.books.rows, OrderKeys(g.members[i].order), GroupbuyEscrow) == share {
      assert MemberOk(s.deals, g, g.members[i]);
      MemberMoney(s, g, g.members[i], opening);
    }
    EqualShares(s.books.rows, g.members, |g.members|, share);
  }

  /** The consumer of an expired group's event finds nothing to repay. */
  lemma ReplayedExpiryIsNoOp(s: State, gid: nat, opening: map<nat, int>)
    requires Reachable(s, opening)
    ensures Apply(s, ReplayExpired(gid)) == s
  {
    ReachedIsSound(s, opening);
    if gid < |s.groups| {
      SettleExpiredIsNoOp(s, gid, opening);
    }
  }

  /** A group that has ended keeps its status: success and dissolution exclude each other. */
  lemma EndedGroupsStay(s: State, step: Step, gid: nat)
    requires gid < |s.groups| && !s.groups[gid].status.Open?
    ensures gid < |Apply(s, step).groups| && Apply(s, step).groups[gid] == s.groups[gid]
  {
    ActsKeepGroups(s, step);
  }

  lemma {:induction false} LoopKeepsGroups(s: State, members: seq<Member>, e: Event)
    requires ActAll(s, members, e).Some?
    ensures ActAll(s, members, e).value.groups == s.groups
  {
    if members != [] {
      LoopKeepsGroups(s, members[..|members| - 1], e);
    }
  }

  lemma ActsKeepGroups(s: State, step: Step)
    ensures step.ReplayExpired? ==> Apply(s, step).groups == s.groups
  {
    if step.ReplayExpired? && SettleExpired(s, step.gid).Some? {
      LoopKeepsGroups(s, s.groups[step.gid].members, GroupRepay);
    }
  }

  predicate OnTable(before: Order, after: Order) {
    after.typ != before.typ ==> CanTransition(before.typ, after.typ)
  }

  lemma TransactionFollowsTable(s: State, id: nat, e: Event, opening: map<nat, int>)
    requires CoreInv(s, opening) && Act(s, id, e).Some? && Applicable(s.deals[id], e)
    ensures forall x :: 0 <= x < |s.deals| ==> OnTable(s.deals[x].order, Act(s, id, e).value.deals[x].order)
  {
    ActEffect(s, id, e, opening);
  }

  lemma LoopFollowsTable(s: State, t: State, members: seq<Member>, e: Event)
    requires Waiting(s, members) && Untouched(s, t, members) && Looped(s, t, members, e)
    ensures forall x :: 0 <= x < |s.deals| ==> OnTable(s.deals[x].order, t.deals[x].order)
  {
    forall x | 0 <= x < |s.deals| ensures OnTable(s.deals[x].order, t.deals[x].order) {
      if !forall i :: 0 <= i < |members| ==> members[i].order != x {
        var i :| 0 <= i < |members| && members[i].order == x;
      }
    }
  }

  lemma GroupEndFollowsTable(s: State, gid: nat, e: Event, opening: map<nat, int>)
    requires MallInv(s, opening) && gid < |s.groups| && s.groups[gid].status.Open? && (e.GroupSell? || e.GroupClose?)
    requires ActAll(s, s.groups[gid].members, e).Some?
    ensures |ActAll(s, s.groups[gid].members, e).value.deals| == |s.deals|
    ensures forall x :: 0 <= x < |s.deals| ==>
      OnTable(s.deals[x].order, ActAll(s, s.groups[gid].members, e).value.deals[x].order)
  {
    var g := s.groups[gid];
    assert GroupOkIn(s.deals, g);
    MembersWait(s, g);
    LoopKeepsCore(s, g.members, e, opening);
    LoopFollowsTable(s, ActAll(s, g.members, e).value, g.members, e);
  }

  /** Every type that any step of any run writes to an order is an edge of the transition table. */
  lemma StepFollowsTable(s: State, step: Step, opening: map<nat, int>)
    requires Reachable(s, opening)
    ensures |Apply(s, step).deals| >= |s.deals|
    ensures forall x :: 0 <= x < |s.deals| ==> OnTable(s.deals[x].order, Apply(s, step).deals[x].order)
  {
    ReachedIsSound(s, opening);
    match step
    case OnOrder(id, e) =>
      if Enabled(s, step) && Act(s, id, e).Some? {
        TransactionFollowsTable(s, id, e, opening);
      }
    case SucceedGroup(gid) =>
      if MarkSuccess(s, gid).Some? {
        GroupEndFollowsTable(s, gid, GroupSell, opening);
      }
    case DissolveGroup(gid, to) =>
      if Dissolve(s, gid, to).Some? {
        GroupEndFollowsTable(s, gid, GroupClose, opening);
      }
    case ReplayExpired(gid) =>
      if gid < |s.groups| {
        SettleExpiredIsNoOp(s, gid, opening);
      }
    case _ =>
  }

  /** A refunded clearing row means the rows of its order have left nothing with the escrow or the seller, and what
      came in from outside, if anything, with the buyer; also when buyer and seller are the same user. */
  lemma RefundedOrderLeavesNothing(s: State, id: nat, opening: map<nat, int>)
    requires Reachable(s, opening) && id < |s.deals|
    requires s.deals[id].clearing.Some? && s.deals[id].clearing.value.status.Repaid?
    ensures var o := s.deals[id].order; var rows := s.books.rows;
      && Net(rows, OrderKeys(id), MerchantEscrow) == 0
      && Net(rows, OrderKeys(id), Wallet(o.buyer)) == 0 - Net(rows, OrderKeys(id), ExternalClearing)
      && (o.seller != o.buyer ==> Net(rows, OrderKeys(id), Wallet(o.seller)) == 0)
  {
    ReachedIsSound(s, opening);
    assert OrderOk(s.books.rows, id, s.deals[id]);
    RefundedNetsZero(s.deals[id]);
  }

  /** Stock and the items of paid, not restocked orders are together what merchants supplied. */
  lemma StockIsConserved(s: State, product: nat, opening: map<nat, int>)
    requires Reachable(s, opening)
    ensures 0 <= Level(s.stock, product) == Level(s.supply, product) - TakenOf(s.deals, product)
  {
    ReachedIsSound(s, opening);
  }

  /** While a group is open every member's order waits for it. */
  lemma OpenGroupWaits(s: State, gid: nat, opening: map<nat, int>)
    requires Reachable(s, opening) && gid < |s.groups| && s.groups[gid].status.Open?
    ensures Waiting(s, s.groups[gid].members)
  {
    ReachedIsSound(s, opening);
    assert GroupOkIn(s.deals, s.groups[gid]);
    MembersWait(s, s.groups[gid]);
  }

  // ---- When a settlement goes through ----

  /** An order refunded before it was shipped puts its items back, once; any other refund leaves the stock to the
      return. */
  ghost predicate BackInStock(s: State, t: State, id: nat)
    requires id < |s.deals|
  {
    var o := s.deals[id].order;
    var restock := o.refundFrom == Some(WaitShip) && !o.restocked;
    && id < |t.deals| && t.deals[id].order == o.(restocked := o.restocked || restock)
    && (restock ==> o.product in s.stock && t.stock == s.stock[o.product := s.stock[o.product] + o.num])
    && (!restock ==> t.stock == s.stock)
  }

  ghost predicate FromEscrow(d: Deal) {
    d.clearing.Some? && d.clearing.value.status.Cleared?
  }

  /** An approved refund that was not paid yet, over `price`. */
  ghost predicate RefundDue(s: State, id: nat, price: int)
    requires id < |s.deals|
  {
    var d := s.deals[id];
    && d.order.typ == Refunded && d.back.None? && d.order.num > 0 && Payable(d.order) == price
    && (forall u :: u in s.books.wallets ==> s.books.wallets[u] >= 0)
    && (d.clearing.Some? ==>
          !d.clearing.value.status.Repaid? && d.clearing.value.fee == 0 && d.clearing.value.gross == price
          && d.clearing.value.net == price)
    && var biz := if FromEscrow(d) then EscrowRefund else Refund;
       !HasRow(s.books.rows, id, Debit, biz) && !HasRow(s.books.rows, id, Credit, biz)
  }

  lemma ApprovedRefundIsDue(s: State, id: nat, opening: map<nat, int>)
    requires Reachable(s, opening) && id < |s.deals|
    requires var d := s.deals[id];
      d.order.typ == Refunded && (if d.clearing.Some? then !d.clearing.value.status.Repaid? else d.back.None?)
    ensures RefundDue(s, id, Payable(s.deals[id].order))
    ensures s.deals[id].clearing.Some? ==> Payable(s.deals[id].order) >= 0
  {
    ReachedIsSound(s, opening);
    var d := s.deals[id];
    assert OrderOk(s.books.rows, id, d);
    assert OrderBiz(EscrowRefund) && OrderBiz(Refund);
  }

  lemma DueRefundIff(s: State, id: nat, price: int)
    requires id < |s.deals| && RefundDue(s, id, price)
    ensures var d := s.deals[id]; var o := d.order; var r := Act(s, id, SettleRefund);
      && (r.Some? <==>
            && price >= 0 && o.buyer in s.books.wallets
            && (FromEscrow(d) || (o.seller in s.books.wallets
                                  && (o.buyer == o.seller || s.books.wallets[o.seller] >= price)))
            && (o.refundFrom == Some(WaitShip) && !o.restocked ==> o.product in s.stock))
      && (r.Some? ==>
            && Shifted(s.books.wallets, r.value.books.wallets,
                       if FromEscrow(d) then MerchantEscrow else Wallet(o.seller), Wallet(o.buyer), price)
            && BackInStock(s, r.value, id)
            && r.value.deals[id].clearing ==
                 if d.clearing.Some? then Some(d.clearing.value.(status := Repaid)) else None)
  {
    var d := s.deals[id];
    if price >= 0 {
      if FromEscrow(d) {
        MoveGoesThroughIff(s.books, Wallet(d.order.buyer), Credit, MerchantEscrow, price, id, EscrowRefund);
      } else {
        MoveGoesThroughIff(s.books, Wallet(d.order.buyer), Credit, Wallet(d.order.seller), price, id, Refund);
      }
    }
  }

  /** The refund of an approved order goes through exactly when the money is still in escrow, or the seller is the buyer
      or can pay it: an order refunded before settlement never depends on the seller's balance. The money goes to the
      buyer, and the items of an unshipped order back into the stock. */
  lemma RefundGoesThroughIff(s: State, id: nat, opening: map<nat, int>)
    requires Reachable(s, opening) && id < |s.deals|
    requires var d := s.deals[id];
      && d.order.typ == Refunded && d.clearing.Some? && !d.clearing.value.status.Repaid?
      && d.order.buyer in s.books.wallets && d.order.seller in s.books.wallets && d.order.product in s.stock
    ensures var d := s.deals[id];
      Act(s, id, SettleRefund).Some? <==>
        d.clearing.value.status.Cleared? || d.order.buyer == d.order.seller
          || s.books.wallets[d.order.seller] >= d.clearing.value.gross
    ensures var d := s.deals[id]; var r := Act(s, id, SettleRefund);
      r.Some? ==>
        && r.value.deals[id].clearing == Some(d.clearing.value.(status := Repaid)) && d.clearing.value.gross >= 0
        && Shifted(s.books.wallets, r.value.books.wallets,
                   if d.clearing.value.status.Cleared? then MerchantEscrow else Wallet(d.order.seller),
                   Wallet(d.order.buyer), d.clearing.value.gross)
        && BackInStock(s, r.value, id)
  {
    ApprovedRefundIsDue(s, id, opening);
    DueRefundIff(s, id, Payable(s.deals[id].order));
  }

  /** A completed order that is still cleared is settled by the next completed event or compensation round. */
  lemma CompletedOrderSettles(s: State, id: nat, opening: map<nat, int>)
    requires Reachable(s, opening) && id < |s.deals|
    requires var d := s.deals[id];
      d.order.typ == Completed && d.clearing.Some? && d.clearing.value.status.Cleared?
        && d.order.seller in s.books.wallets
    ensures Act(s, id, SettleCompleted).Some?
    ensures Act(s, id, SettleCompleted).value.deals[id].clearing.value.status.Settled?
    ensures Act(s, id, SettleCompleted).value.books.wallets[s.deals[id].order.seller]
      == s.books.wallets[s.deals[id].order.seller] + s.deals[id].clearing.value.net
  {
    ReachedIsSound(s, opening);
    var d := s.deals[id];
    assert OrderOk(s.books.rows, id, d);
    assert OrderBiz(OrderSettle);
    PostHas(s.books, MerchantEscrow, Debit, d.clearing.value.net, id, OrderSettle, id, Credit, OrderSettle);
  }

  // ---- Stock ----

  /** Items come back to the stock only with the order's restocked mark, which no transaction takes away again. */
  lemma RestocksAtMostOnce(s: State, id: nat, e: Event, opening: map<nat, int>)
    requires Reachable(s, opening) && id < |s.deals| && !GroupOnly(e) && Act(s, id, e).Some?
    ensures var o := s.deals[id].order; var t := Act(s, id, e).value;
      && (Level(t.stock, o.product) > Level(s.stock, o.product) ==>
            o.typ == Refunded && !o.restocked && t.deals[id].order.restocked
            && Level(t.stock, o.product) == Level(s.stock, o.product) + o.num)
      && (o.restocked ==> t.deals[id].order.restocked)
  {
    ReachedIsSound(s, opening);
    ActEffect(s, id, e, opening);
    assert OrderOk(s.books.rows, id, s.deals[id]);
    EnvIsOk(s, id);
    RestockEvents(s.deals[id], e, EnvOf(s, id));
  }
}

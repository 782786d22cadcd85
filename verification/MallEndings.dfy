/** How a group ends in every reachable state: when its success goes through, that its dissolution always does, and what
    both do to stock and wallets. */
module MallEndings {
  import opened Results
  import opened Ledger
  import opened Orders
  import opened Mall
  import opened MallBooks
  import opened MallRuns
  import opened MallTheorems

  ghost predicate WaitingMember(s: State, g: Group, m: Member) {
    && m.order < |s.deals| && s.deals[m.order].grouped && s.deals[m.order].order.typ == WaitGroup
    && s.deals[m.order].order.buyer == m.user && s.deals[m.order].order.money == g.price
    && s.deals[m.order].order.product == g.product
  }

  ghost predicate PartiesKnown(o: Order) {
    o.buyer != 0 && o.seller != 0
  }

  /** The stock of a product covers `n` items; nothing is asked for none. */
  ghost predicate Covers(stock: map<nat, int>, product: nat, n: int) {
    n > 0 ==> product in stock && stock[product] >= n
  }

  function Less(stock: map<nat, int>, product: nat, n: nat): map<nat, int>
    requires n > 0 ==> product in stock
  {
    if n == 0 then stock else stock[product := stock[product] - n]
  }

  lemma {:induction false} NoRowsNoNet(rows: seq<Entry>, keys: set<(nat, Biz)>, a: Account)
    requires forall i :: 0 <= i < |rows| ==> rows[i].account != a
    ensures Net(rows, keys, a) == 0
  {
    if rows != [] {
      NoRowsNoNet(rows[..|rows| - 1], keys, a);
    }
  }

  /** Who waits for a group has paid, so his wallet is known. */
  lemma MemberHasWallet(s: State, g: Group, m: Member, opening: map<nat, int>)
    requires CoreInv(s, opening) && WaitingMember(s, g, m)
    ensures m.user in s.books.wallets
  {
    assert OrderOk(s.books.rows, m.order, s.deals[m.order]);
    assert Net(s.books.rows, OrderKeys(m.order), Wallet(m.user)) == Owed(s.deals[m.order], Wallet(m.user)) != 0;
    if forall i :: 0 <= i < |s.books.rows| ==> s.books.rows[i].account != Wallet(m.user) {
      NoRowsNoNet(s.books.rows, OrderKeys(m.order), Wallet(m.user));
    }
  }

  /** A waiting member's order is for one item at the plain price, not cleared, and its payment is neither moved on nor
      paid back. */
  ghost predicate Unsold(s: State, g: Group, m: Member) {
    && WaitingMember(s, g, m) && g.price > 0 && m.user in s.books.wallets
    && s.deals[m.order].clearing.None? && s.deals[m.order].order.num == 1
    && s.deals[m.order].order.promoRule == 0 && s.deals[m.order].order.coupon == 0
    && forall dir ::
         !HasRow(s.books.rows, m.order, dir, GroupbuySettle) && !HasRow(s.books.rows, m.order, dir, GroupbuyRefund)
  }

  lemma MemberIsUnsold(s: State, g: Group, m: Member, opening: map<nat, int>)
    requires CoreInv(s, opening) && WaitingMember(s, g, m)
    ensures Unsold(s, g, m)
  {
    MemberHasWallet(s, g, m, opening);
    assert OrderOk(s.books.rows, m.order, s.deals[m.order]);
    assert OrderBiz(GroupbuySettle) && OrderBiz(GroupbuyRefund);
  }

  lemma SellOneIff(s: State, g: Group, m: Member)
    requires Unsold(s, g, m)
    ensures var r := Act(s, m.order, GroupSell);
      && (r.Some? <==> PartiesKnown(s.deals[m.order].order) && Covers(s.stock, g.product, 1))
      && (r.Some? ==>
            && r.value.stock == Less(s.stock, g.product, 1) && r.value.books.wallets == s.books.wallets
            && r.value.deals[m.order].clearing.Some?
            && r.value.deals[m.order].clearing.value.gross == g.price)
  {
    MoveGoesThroughIff(s.books, GroupbuyEscrow, Debit, MerchantEscrow, g.price, m.order, GroupbuySettle);
  }

  lemma CloseOne(s: State, g: Group, m: Member)
    requires Unsold(s, g, m)
    ensures var r := Act(s, m.order, GroupClose);
      && r.Some? && r.value.stock == s.stock && r.value.groups == s.groups
      && r.value.books.wallets == s.books.wallets[m.user := s.books.wallets[m.user] + g.price]
  {
    MoveGoesThroughIff(s.books, GroupbuyEscrow, Debit, Wallet(m.user), g.price, m.order, GroupbuyRefund);
  }

  /** The members of an open group, none of them seen yet by the loop, in a state that the loop has come to. */
  ghost predicate AllWaiting(s: State, g: Group) {
    DistinctMembers(g.members) && forall i :: 0 <= i < |g.members| ==> WaitingMember(s, g, g.members[i])
  }

  lemma NextStillWaits(s: State, g: Group, n: nat, e: Event, opening: map<nat, int>)
    requires CoreInv(s, opening) && AllWaiting(s, g) && n < |g.members| && (e.GroupSell? || e.GroupClose?)
    requires ActAll(s, g.members[..n], e).Some?
    ensures var t := ActAll(s, g.members[..n], e).value;
      Unsold(t, g, g.members[n]) && t.deals[g.members[n].order] == s.deals[g.members[n].order]
  {
    assert WaitingMember(s, g, g.members[n]);
    forall i | 0 <= i < n
      ensures g.members[..n][i].order < |s.deals| && s.deals[g.members[..n][i].order].grouped
      ensures s.deals[g.members[..n][i].order].order.typ == WaitGroup
    {
      assert WaitingMember(s, g, g.members[i]);
    }
    LoopKeepsCore(s, g.members[..n], e, opening);
    MemberIsUnsold(ActAll(s, g.members[..n], e).value, g, g.members[n], opening);
  }

  /** The outcome of the loop over `n` members of a success. */
  ghost predicate Sold(s: State, r: Option<State>, g: Group, n: nat)
    requires n <= |g.members| && AllWaiting(s, g)
  {
    && (r.Some? <==>
          && (forall i :: 0 <= i < n ==> PartiesKnown(s.deals[g.members[i].order].order))
          && Covers(s.stock, g.product, n))
    && (r.Some? ==> r.value.stock == Less(s.stock, g.product, n) && r.value.books.wallets == s.books.wallets)
  }

  lemma OneMoreSold(s: State, t: State, r: Option<State>, g: Group, n: nat)
    requires n < |g.members| && AllWaiting(s, g) && Sold(s, Some(t), g, n)
    requires r.Some? <==> PartiesKnown(s.deals[g.members[n].order].order) && Covers(t.stock, g.product, 1)
    requires r.Some? ==> r.value.stock == Less(t.stock, g.product, 1) && r.value.books.wallets == t.books.wallets
    ensures Sold(s, r, g, n + 1)
  {
  }

  lemma NoneMoreSold(s: State, g: Group, n: nat)
    requires n < |g.members| && AllWaiting(s, g) && Sold(s, None, g, n)
    ensures Sold(s, None, g, n + 1)
  {
  }

  lemma LoopOneMore(s: State, members: seq<Member>, n: nat, e: Event)
    requires n < |members|
    ensures ActAll(s, members[..n], e).None? ==> ActAll(s, members[..n + 1], e).None?
    ensures ActAll(s, members[..n], e).Some? ==>
      ActAll(s, members[..n + 1], e) == Act(ActAll(s, members[..n], e).value, members[n].order, e)
  {
    assert members[..n + 1][..n] == members[..n];
  }

  lemma SellNext(s: State, g: Group, n: nat, opening: map<nat, int>)
    requires CoreInv(s, opening) && AllWaiting(s, g) && n < |g.members|
    requires ActAll(s, g.members[..n], GroupSell).Some? && Sold(s, ActAll(s, g.members[..n], GroupSell), g, n)
    ensures Sold(s, Act(ActAll(s, g.members[..n], GroupSell).value, g.members[n].order, GroupSell), g, n + 1)
  {
    var t := ActAll(s, g.members[..n], GroupSell).value;
    NextStillWaits(s, g, n, GroupSell, opening);
    SellOneIff(t, g, g.members[n]);
    OneMoreSold(s, t, Act(t, g.members[n].order, GroupSell), g, n);
  }

  lemma {:induction false} SellLoopIff(s: State, g: Group, n: nat, opening: map<nat, int>)
    requires CoreInv(s, opening) && AllWaiting(s, g) && n <= |g.members|
    ensures Sold(s, ActAll(s, g.members[..n], GroupSell), g, n)
  {
    if n > 0 {
      SellLoopIff(s, g, n - 1, opening);
      LoopOneMore(s, g.members, n - 1, GroupSell);
      if ActAll(s, g.members[..n - 1], GroupSell).Some? {
        SellNext(s, g, n - 1, opening);
      } else {
        NoneMoreSold(s, g, n - 1);
      }
    }
  }

  /** The first `n` members have their money back, the others have not. */
  ghost predicate PaidBack(s: State, t: State, g: Group, n: nat)
    requires n <= |g.members|
  {
    && t.books.wallets.Keys == s.books.wallets.Keys && t.stock == s.stock
    && (forall i :: 0 <= i < |g.members| ==>
          && g.members[i].user in s.books.wallets
          && t.books.wallets[g.members[i].user] ==
               s.books.wallets[g.members[i].user] + if i < n then g.price else 0)
    && forall u :: u in s.books.wallets && (forall i :: 0 <= i < |g.members| ==> g.members[i].user != u) ==>
         t.books.wallets[u] == s.books.wallets[u]
  }

  lemma OneMorePaidBack(s: State, t: State, u: State, g: Group, n: nat)
    requires n < |g.members| && DistinctMembers(g.members) && PaidBack(s, t, g, n)
    requires var m := g.members[n].user;
      && u.stock == t.stock && m in t.books.wallets
      && u.books.wallets == t.books.wallets[m := t.books.wallets[m] + g.price]
    ensures PaidBack(s, u, g, n + 1)
  {
  }

  lemma CloseNext(s: State, t: State, g: Group, n: nat)
    requires n < |g.members| && DistinctMembers(g.members) && PaidBack(s, t, g, n) && Unsold(t, g, g.members[n])
    ensures var r := Act(t, g.members[n].order, GroupClose); r.Some? && PaidBack(s, r.value, g, n + 1)
  {
    CloseOne(t, g, g.members[n]);
    var u := Act(t, g.members[n].order, GroupClose).value;
    OneMorePaidBack(s, t, u, g, n);
  }

  lemma CloseStep(s: State, t: State, g: Group, n: nat, opening: map<nat, int>)
    requires CoreInv(s, opening) && AllWaiting(s, g) && n < |g.members|
    requires ActAll(s, g.members[..n], GroupClose) == Some(t) && PaidBack(s, t, g, n)
    ensures var r := Act(t, g.members[n].order, GroupClose); r.Some? && PaidBack(s, r.value, g, n + 1)
  {
    NextStillWaits(s, g, n, GroupClose, opening);
    CloseNext(s, t, g, n);
  }

  lemma NoneAreClosed(s: State, g: Group, opening: map<nat, int>)
    requires CoreInv(s, opening) && AllWaiting(s, g)
    ensures PaidBack(s, s, g, 0)
  {
    forall i | 0 <= i < |g.members| ensures g.members[i].user in s.books.wallets {
      MemberHasWallet(s, g, g.members[i], opening);
    }
  }

  lemma {:induction false} CloseLoop(s: State, g: Group, n: nat, opening: map<nat, int>)
    requires CoreInv(s, opening) && AllWaiting(s, g) && n <= |g.members|
    ensures var r := ActAll(s, g.members[..n], GroupClose); r.Some? && PaidBack(s, r.value, g, n)
  {
    if n == 0 {
      NoneAreClosed(s, g, opening);
    } else {
      CloseLoop(s, g, n - 1, opening);
      LoopOneMore(s, g.members, n - 1, GroupClose);
      CloseStep(s, ActAll(s, g.members[..n - 1], GroupClose).value, g, n - 1, opening);
    }
  }

  lemma OpenGroupIsWaiting(s: State, gid: nat, opening: map<nat, int>)
    requires Reachable(s, opening) && gid < |s.groups| && s.groups[gid].status.Open?
    ensures CoreInv(s, opening) && AllWaiting(s, s.groups[gid]) && s.groups[gid].count == |s.groups[gid].members|
  {
    ReachedIsSound(s, opening);
    var g := s.groups[gid];
    assert GroupOkIn(s.deals, g);
    forall i | 0 <= i < |g.members| ensures WaitingMember(s, g, g.members[i]) {
      assert MemberOk(s.deals, g, g.members[i]);
    }
  }

  /** A group succeeds exactly if it is open and full, the parties of its orders are set, and the stock covers all of
      its members: then one item each leaves the stock and no wallet changes. */
  lemma GroupSucceedsIff(s: State, gid: nat, opening: map<nat, int>)
    requires Reachable(s, opening) && gid < |s.groups|
    ensures var g := s.groups[gid]; var r := MarkSuccess(s, gid);
      && (r.Some? <==>
            && g.status.Open? && g.count >= g.target && Covers(s.stock, g.product, g.count)
            && forall i :: 0 <= i < |g.members| ==>
                 g.members[i].order < |s.deals| && PartiesKnown(s.deals[g.members[i].order].order))
      && (r.Some? ==>
            && r.value.groups == s.groups[gid := g.(status := Succeeded)]
            && r.value.stock == Less(s.stock, g.product, g.count) && r.value.books.wallets == s.books.wallets)
  {
    var g := s.groups[gid];
    if g.status.Open? {
      OpenGroupIsWaiting(s, gid, opening);
      SellLoopIff(s, g, |g.members|, opening);
      assert g.members[..|g.members|] == g.members;
    }
  }

  /** An open group can always be ended without success: every member gets the price back, and nothing else moves. */
  lemma GroupDissolves(s: State, gid: nat, to: GroupStatus, opening: map<nat, int>)
    requires Reachable(s, opening) && gid < |s.groups| && (to.Expired? || to.Dissolved?)
    ensures var g := s.groups[gid]; var r := Dissolve(s, gid, to);
      && (r.Some? <==> g.status.Open?)
      && (r.Some? ==>
            r.value.groups == s.groups[gid := g.(status := to)] && PaidBack(s, r.value, g, |g.members|))
  {
    var g := s.groups[gid];
    if g.status.Open? {
      OpenGroupIsWaiting(s, gid, opening);
      CloseLoop(s, g, |g.members|, opening);
      assert g.members[..|g.members|] == g.members;
      LoopKeepsGroups(s, g.members, GroupClose);
    }
  }
}

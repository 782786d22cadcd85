/** What the two escrow accounts of orders and groups hold in all, in every state of every run. */
module MallTotals {
  import opened Results
  import opened Ledger
  import opened Orders
  import opened Mall
  import opened MallBooks
  import opened MallRuns
  import opened MallTheorems

  // ---- Sums ----

  /** What the rows of all orders have put into an account. */
  ghost function OwedAll(deals: seq<Deal>, a: Account): int {
    if deals == [] then 0 else OwedAll(deals[..|deals| - 1], a) + Owed(deals[|deals| - 1], a)
  }

  lemma OwedAppend(deals: seq<Deal>, d: Deal, a: Account)
    ensures OwedAll(deals + [d], a) == OwedAll(deals, a) + Owed(d, a)
  {
    assert (deals + [d])[..|deals|] == deals;
  }

  lemma {:induction false} OwedUpdate(deals: seq<Deal>, id: nat, d: Deal, a: Account)
    requires id < |deals|
    ensures OwedAll(deals[id := d], a) == OwedAll(deals, a) + Owed(d, a) - Owed(deals[id], a)
  {
    var n := |deals| - 1;
    if id == n {
      assert deals[id := d][..n] == deals[..n];
    } else {
      assert deals[id := d][..n] == deals[..n][id := d];
      OwedUpdate(deals[..n], id, d, a);
    }
  }

  /** The net amounts of all cleared rows. */
  function ClearedSum(deals: seq<Deal>): int {
    if deals == [] then 0
    else
      var c := deals[|deals| - 1].clearing;
      ClearedSum(deals[..|deals| - 1]) + if c.Some? && c.value.status.Cleared? then c.value.net else 0
  }

  function OpenShare(g: Group): int {
    if g.status.Open? then g.count * g.price else 0
  }

  /** Price times members of all open groups. */
  function OpenSum(groups: seq<Group>): int {
    if groups == [] then 0 else OpenSum(groups[..|groups| - 1]) + OpenShare(groups[|groups| - 1])
  }

  lemma OpenAppend(groups: seq<Group>, g: Group)
    ensures OpenSum(groups + [g]) == OpenSum(groups) + OpenShare(g)
  {
    assert (groups + [g])[..|groups|] == groups;
  }

  lemma {:induction false} OpenUpdate(groups: seq<Group>, gid: nat, g: Group)
    requires gid < |groups|
    ensures OpenSum(groups[gid := g]) == OpenSum(groups) + OpenShare(g) - OpenShare(groups[gid])
  {
    var n := |groups| - 1;
    if gid == n {
      assert groups[gid := g][..n] == groups[..n];
    } else {
      assert groups[gid := g][..n] == groups[..n][gid := g];
      OpenUpdate(groups[..n], gid, g);
    }
  }

  // ---- Single transactions ----

  lemma MoveBalance(b: Books, first: Account, dir: Direction, second: Account, amount: nat, ref: nat, biz: Biz,
                    a: Account)
    requires Move(b, first, dir, second, amount, ref, biz).Success?
    ensures Balance(Move(b, first, dir, second, amount, ref, biz).value.rows, a)
      == Balance(b.rows, a) + Moved(first, dir, second, amount, a)
  {
    var b1 := Post(b, first, dir, amount, ref, biz).value;
    PostEffect(b, first, dir, amount, ref, biz, a, Debit);
    PostEffect(b1, second, Opposite(dir), amount, ref, biz, a, Debit);
  }

  /** What is in an account beyond what orders have put there. */
  ghost function Excess(s: State, a: Account): int {
    Balance(s.books.rows, a) - OwedAll(s.deals, a)
  }

  function MovedBy(m: Option<Movement>, a: Account): int {
    if m.Some? then Moved(m.value.first, m.value.dir, m.value.second, m.value.amount, a) else 0
  }

  lemma PostedBalance(b: Books, m: Option<Movement>, id: nat, a: Account)
    requires PostMoney(b, m, id).Success?
    ensures Balance(PostMoney(b, m, id).value.rows, a) == Balance(b.rows, a) + MovedBy(m, a)
  {
    if m.Some? {
      MoveBalance(b, m.value.first, m.value.dir, m.value.second, m.value.amount, id, m.value.biz, a);
    }
  }

  lemma ActMovesOwed(s: State, id: nat, e: Event, a: Account, opening: map<nat, int>) returns (m: Option<Movement>)
    requires CoreInv(s, opening) && Act(s, id, e).Some? && Applicable(s.deals[id], e)
    ensures var t := Act(s, id, e).value;
      && id < |t.deals| && t.deals == s.deals[id := t.deals[id]] && PostMoney(s.books, m, id) == Success(t.books)
      && Owed(t.deals[id], a) == Owed(s.deals[id], a) + MovedBy(m, a)
  {
    ActEffect(s, id, e, opening);
    var eff := Transact(s.deals[id], e, EnvOf(s, id)).value;
    m := eff.money;
    assert MoneyMatches(s.deals[id], eff);
  }

  lemma ActKeepsExcess(s: State, id: nat, e: Event, a: Account, opening: map<nat, int>)
    requires CoreInv(s, opening) && Act(s, id, e).Some? && Applicable(s.deals[id], e)
    ensures var t := Act(s, id, e).value;
      && id < |t.deals| && Excess(t, a) == Excess(s, a)
      && Balance(t.books.rows, a) == Balance(s.books.rows, a) + Owed(t.deals[id], a) - Owed(s.deals[id], a)
  {
    var m := ActMovesOwed(s, id, e, a, opening);
    OwedUpdate(s.deals, id, Act(s, id, e).value.deals[id], a);
    PostedBalance(s.books, m, id, a);
  }

  lemma StartsOwed(d: Deal, m: Option<Movement>, a: Account)
    requires Starts(d, m)
    ensures Owed(d, a) == MovedBy(m, a)
  {
  }

  lemma PlacedAppends(s: State, d: Deal, m: Option<Movement>, a: Account)
    requires Placed(s, d, m).Some?
    ensures Placed(s, d, m).value.deals == s.deals + [d] && Placed(s, d, m).value.groups == s.groups
    ensures Balance(Placed(s, d, m).value.books.rows, a) == Balance(s.books.rows, a) + MovedBy(m, a)
  {
    PostedBalance(s.books, m, |s.deals|, a);
  }

  lemma PlacedKeepsExcess(s: State, d: Deal, m: Option<Movement>, a: Account)
    requires Owed(d, a) == MovedBy(m, a) && Placed(s, d, m).Some?
    ensures Excess(Placed(s, d, m).value, a) == Excess(s, a)
    ensures Balance(Placed(s, d, m).value.books.rows, a) == Balance(s.books.rows, a) + Owed(d, a)
  {
    var t, owed := Placed(s, d, m).value, Owed(d, a);
    PlacedAppends(s, d, m, a);
    OwedAppend(s.deals, d, a);
    assert OwedAll(t.deals, a) == OwedAll(s.deals, a) + owed;
    assert Balance(t.books.rows, a) == Balance(s.books.rows, a) + owed;
  }

  lemma OrdinaryKeepsWaiting(d: Deal, e: Event, env: Env)
    requires !GroupOnly(e) && Transact(d, e, env).Success?
    ensures var t := Transact(d, e, env).value.deal;
      (t.order.typ == WaitGroup <==> d.order.typ == WaitGroup) && t.order.money == d.order.money
  {
  }

  // ---- The invariant ----

  ghost predicate TotalsOk(s: State) {
    Excess(s, MerchantEscrow) == 0 && Balance(s.books.rows, GroupbuyEscrow) == OpenSum(s.groups)
  }

  lemma OrdinaryKeepsTotals(s: State, id: nat, e: Event, opening: map<nat, int>)
    requires MallInv(s, opening) && TotalsOk(s) && !GroupOnly(e) && Act(s, id, e).Some?
    ensures TotalsOk(Act(s, id, e).value)
  {
    var t := Act(s, id, e).value;
    ActKeepsExcess(s, id, e, MerchantEscrow, opening);
    ActKeepsExcess(s, id, e, GroupbuyEscrow, opening);
    ActKeepsWaiting(s, id, e, opening);
  }

  lemma ActKeepsWaiting(s: State, id: nat, e: Event, opening: map<nat, int>)
    requires CoreInv(s, opening) && !GroupOnly(e) && Act(s, id, e).Some?
    ensures var t := Act(s, id, e).value;
      t.groups == s.groups && Owed(t.deals[id], GroupbuyEscrow) == Owed(s.deals[id], GroupbuyEscrow)
  {
    ActEffect(s, id, e, opening);
    assert OrderOk(s.books.rows, id, s.deals[id]);
    OrdinaryKeepsWaiting(s.deals[id], e, EnvOf(s, id));
    GroupEscrowHoldsIffWaiting(s.deals[id]);
    GroupEscrowHoldsIffWaiting(Act(s, id, e).value.deals[id]);
  }

  /** One member of an ending group takes the price out of the group escrow. */
  lemma EndOfMember(s: State, id: nat, e: Event, opening: map<nat, int>)
    requires CoreInv(s, opening) && (e.GroupSell? || e.GroupClose?) && Act(s, id, e).Some?
    requires s.deals[id].grouped && s.deals[id].order.typ == WaitGroup
    ensures var t := Act(s, id, e).value;
      && Excess(t, MerchantEscrow) == Excess(s, MerchantEscrow)
      && Balance(t.books.rows, GroupbuyEscrow) == Balance(s.books.rows, GroupbuyEscrow) - s.deals[id].order.money
  {
    ActOnWaiting(s, id, e, opening);
    ActKeepsExcess(s, id, e, MerchantEscrow, opening);
    ActKeepsExcess(s, id, e, GroupbuyEscrow, opening);
    OrderIsSound(s, id, opening);
    OrderIsSound(Act(s, id, e).value, id, opening);
    GroupEscrowHoldsIffWaiting(s.deals[id]);
    GroupEscrowHoldsIffWaiting(Act(s, id, e).value.deals[id]);
  }

  lemma OrderIsSound(s: State, id: nat, opening: map<nat, int>)
    requires CoreInv(s, opening) && id < |s.deals|
    ensures DealInv(s.deals[id])
  {
    assert OrderOk(s.books.rows, id, s.deals[id]);
  }

  ghost predicate AllPay(s: State, members: seq<Member>, price: int) {
    forall i :: 0 <= i < |members| ==> members[i].order < |s.deals| && s.deals[members[i].order].order.money == price
  }

  lemma {:induction false} LoopTakesPrices(s: State, members: seq<Member>, e: Event, price: int, opening: map<nat, int>)
    requires CoreInv(s, opening) && (e.GroupSell? || e.GroupClose?) && ActAll(s, members, e).Some?
    requires DistinctMembers(members) && Waiting(s, members) && AllPay(s, members, price)
    ensures var t := ActAll(s, members, e).value;
      && Excess(t, MerchantEscrow) == Excess(s, MerchantEscrow)
      && Balance(t.books.rows, GroupbuyEscrow) == Balance(s.books.rows, GroupbuyEscrow) - |members| * price
  {
    if members != [] {
      var n := |members| - 1;
      assert Waiting(s, members[..n]) && AllPay(s, members[..n], price);
      LoopTakesPrices(s, members[..n], e, price, opening);
      LoopKeepsCore(s, members[..n], e, opening);
      var t := ActAll(s, members[..n], e).value;
      LastIsUntouched(s, t, members);
      EndOfMember(t, members[n].order, e, opening);
      assert n * price + price == |members| * price;
    }
  }

  lemma EndKeepsTotals(s: State, gid: nat, e: Event, to: GroupStatus, opening: map<nat, int>)
    requires MallInv(s, opening) && TotalsOk(s) && gid < |s.groups| && s.groups[gid].status.Open? && !to.Open?
    requires (e.GroupSell? || e.GroupClose?) && ActAll(s, s.groups[gid].members, e).Some?
    ensures TotalsOk(ActAll(s, s.groups[gid].members, e).value.(groups :=
      s.groups[gid := s.groups[gid].(status := to)]))
  {
    var g := s.groups[gid];
    assert GroupOkIn(s.deals, g);
    MembersWait(s, g);
    forall i | 0 <= i < |g.members| ensures s.deals[g.members[i].order].order.money == g.price {
      assert MemberOk(s.deals, g, g.members[i]);
    }
    LoopTakesPrices(s, g.members, e, g.price, opening);
    OpenUpdate(s.groups, gid, g.(status := to));
  }

  lemma JoinPays(s: State, user: nat, seller: nat, product: nat, price: nat)
    requires price > 0 && JoinOrder(s, user, seller, product, price).Some?
    ensures var t := JoinOrder(s, user, seller, product, price).value;
      && t.groups == s.groups && Excess(t, MerchantEscrow) == Excess(s, MerchantEscrow)
      && Balance(t.books.rows, GroupbuyEscrow) == Balance(s.books.rows, GroupbuyEscrow) + price
  {
    var d := Deal(NewOrder(user, seller, product, 1, price, 0, 0, 0, WaitGroup, NoPreorder), None, true, 0, 0, 0, None);
    var m := Some(Movement(Wallet(user), Debit, GroupbuyEscrow, price, GroupbuyPay));
    JoinStarts(user, seller, product, price);
    StartsOwed(d, m, MerchantEscrow);
    PlacedKeepsExcess(s, d, m, MerchantEscrow);
    StartsOwed(d, m, GroupbuyEscrow);
    PlacedKeepsExcess(s, d, m, GroupbuyEscrow);
    GroupEscrowHoldsIffWaiting(d);
  }

  lemma OneMoreShare(count: nat, price: nat)
    ensures (count + 1) * price == count * price + price
  {
  }

  lemma StartKeepsTotals(s: State, leader: nat, seller: nat, product: nat, target: nat, price: nat)
    requires TotalsOk(s) && OpenGroup(s, leader, seller, product, target, price).Some?
    ensures TotalsOk(OpenGroup(s, leader, seller, product, target, price).value)
  {
    JoinPays(s, leader, seller, product, price);
    OpenAppend(s.groups, Group(product, leader, target, 1, price, Open, [Member(leader, |s.deals|)]));
  }

  lemma JoinKeepsTotals(s: State, gid: nat, user: nat, seller: nat)
    requires TotalsOk(s) && Join(s, gid, user, seller, false).Some? && s.groups[gid].price > 0
    ensures TotalsOk(Join(s, gid, user, seller, false).value)
  {
    var g := s.groups[gid];
    var grown := g.(count := g.count + 1, members := g.members + [Member(user, |s.deals|)]);
    JoinPays(s, user, seller, g.product, g.price);
    OpenUpdate(s.groups, gid, grown);
    OneMoreShare(g.count, g.price);
    assert OpenShare(grown) == OpenShare(g) + g.price;
  }

  lemma PlaceDepositKeepsTotals(s: State, buyer: nat, seller: nat, product: nat, deposit: int, final: int)
    requires TotalsOk(s) && PayDeposit(s, buyer, seller, product, deposit, final).Some?
    ensures TotalsOk(PayDeposit(s, buyer, seller, product, deposit, final).value)
  {
    var o := NewOrder(buyer, seller, product, 1, deposit + final, 0, 0, 0, WaitPay, DepositPaid);
    var d := Deal(o, None, false, Natural(deposit), 0, 0, None);
    var m := Positive(Movement(Wallet(buyer), Debit, Wallet(seller), Natural(deposit), PreorderDeposit), deposit);
    DepositStarts(buyer, seller, product, deposit, final);
    StartsOwed(d, m, MerchantEscrow);
    PlacedKeepsExcess(s, d, m, MerchantEscrow);
    StartsOwed(d, m, GroupbuyEscrow);
    PlacedKeepsExcess(s, d, m, GroupbuyEscrow);
    GroupEscrowHoldsIffWaiting(d);
  }

  lemma NewOrderStepKeepsTotals(s: State, step: Step, opening: map<nat, int>)
    requires MallInv(s, opening) && TotalsOk(s)
    requires step.PlaceOrder? || step.PlaceDeposit? || step.StartGroup? || step.JoinGroup?
    ensures TotalsOk(Apply(s, step))
  {
    match step
    case PlaceOrder(o) =>
      if Fresh(o) {
        FreshOrderStarts(o);
        StartsOwed(Deal(o, None, false, 0, 0, 0, None), None, MerchantEscrow);
        PlacedKeepsExcess(s, Deal(o, None, false, 0, 0, 0, None), None, MerchantEscrow);
      }
    case PlaceDeposit(buyer, seller, product, deposit, final) =>
      if PayDeposit(s, buyer, seller, product, deposit, final).Some? {
        PlaceDepositKeepsTotals(s, buyer, seller, product, deposit, final);
      }
    case StartGroup(leader, seller, product, target, price) =>
      if OpenGroup(s, leader, seller, product, target, price).Some? {
        StartKeepsTotals(s, leader, seller, product, target, price);
      }
    case JoinGroup(gid, user, seller, expired) =>
      if Join(s, gid, user, seller, expired).Some? {
        assert GroupOkIn(s.deals, s.groups[gid]);
        JoinKeepsTotals(s, gid, user, seller);
      }
  }

  lemma GroupStepKeepsTotals(s: State, step: Step, opening: map<nat, int>)
    requires MallInv(s, opening) && TotalsOk(s)
    requires step.SucceedGroup? || step.DissolveGroup? || step.ReplayExpired?
    ensures TotalsOk(Apply(s, step))
  {
    match step
    case SucceedGroup(gid) =>
      if MarkSuccess(s, gid).Some? {
        EndKeepsTotals(s, gid, GroupSell, Succeeded, opening);
      }
    case DissolveGroup(gid, to) =>
      if Dissolve(s, gid, to).Some? {
        EndKeepsTotals(s, gid, GroupClose, to, opening);
      }
    case ReplayExpired(gid) =>
      if gid < |s.groups| {
        SettleExpiredIsNoOp(s, gid, opening);
      }
  }

  lemma ElsewhereKeepsTotals(s: State, first: Account, dir: Direction, second: Account, amount: nat, ref: nat, biz: Biz)
    requires TotalsOk(s) && Outside(first) && Outside(second)
    requires Move(s.books, first, dir, second, amount, ref, biz).Success?
    ensures TotalsOk(s.(books := Move(s.books, first, dir, second, amount, ref, biz).value))
  {
    MoveBalance(s.books, first, dir, second, amount, ref, biz, MerchantEscrow);
    MoveBalance(s.books, first, dir, second, amount, ref, biz, GroupbuyEscrow);
  }

  lemma StepKeepsTotals(s: State, step: Step, opening: map<nat, int>)
    requires MallInv(s, opening) && TotalsOk(s)
    ensures TotalsOk(Apply(s, step))
  {
    if Enabled(s, step) {
      match step
      case PlaceOrder(_) | PlaceDeposit(_, _, _, _, _) => NewOrderStepKeepsTotals(s, step, opening);
      case StartGroup(_, _, _, _, _) | JoinGroup(_, _, _, _) => NewOrderStepKeepsTotals(s, step, opening);
      case SucceedGroup(_) | DissolveGroup(_, _) | ReplayExpired(_) => GroupStepKeepsTotals(s, step, opening);
      case OnOrder(id, e) =>
        if Act(s, id, e).Some? {
          OrdinaryKeepsTotals(s, id, e, opening);
        }
      case Elsewhere(first, dir, second, amount, ref, biz) =>
        if Move(s.books, first, dir, second, amount, ref, biz).Success? {
          ElsewhereKeepsTotals(s, first, dir, second, amount, ref, biz);
        }
      case _ =>
    }
  }

  lemma {:induction false} RunKeepsTotals(start: State, steps: seq<Step>, opening: map<nat, int>)
    requires Opening(start, opening)
    ensures TotalsOk(After(start, steps))
  {
    if steps != [] {
      RunKeepsTotals(start, steps[..|steps| - 1], opening);
      RunKeepsMall(start, steps[..|steps| - 1], opening);
      StepKeepsTotals(After(start, steps[..|steps| - 1]), steps[|steps| - 1], opening);
    }
  }

  lemma {:induction false} OwedIsCleared(deals: seq<Deal>)
    requires forall id :: 0 <= id < |deals| ==> DealInv(deals[id])
    ensures OwedAll(deals, MerchantEscrow) == ClearedSum(deals)
  {
    if deals != [] {
      OwedIsCleared(deals[..|deals| - 1]);
      EscrowHoldsIffCleared(deals[|deals| - 1]);
    }
  }

  /** Main result: in every reachable state the merchant escrow holds the net amounts of the cleared orders, and the
      group escrow price times members of the open groups; nothing else is in either of them. */
  lemma EscrowsAreExact(s: State, opening: map<nat, int>)
    requires Reachable(s, opening)
    ensures Balance(s.books.rows, MerchantEscrow) == ClearedSum(s.deals)
    ensures Balance(s.books.rows, GroupbuyEscrow) == OpenSum(s.groups)
  {
    var start, steps :| Opening(start, opening) && After(start, steps) == s;
    RunKeepsTotals(start, steps, opening);
    ReachedIsSound(s, opening);
    forall id | 0 <= id < |s.deals| ensures DealInv(s.deals[id]) {
      OrderIsSound(s, id, opening);
    }
    OwedIsCleared(s.deals);
  }
}

/** What every step keeps of orders, groups, their money and the stock, and so every run. */
module MallRuns {
  import opened Results
  import opened Ledger
  import opened Orders
  import opened Mall
  import opened MallBooks

  // ---- Groups ----

  /** The state of a member's order follows from the status of the group. */
  predicate PhaseOf(status: GroupStatus, typ: Type) {
    match status
    case Open => typ == WaitGroup
    case Succeeded => Paid(typ)
    case Expired => typ == Closed
    case Dissolved => typ == Closed
  }

  ghost predicate MemberOk(deals: seq<Deal>, g: Group, m: Member) {
    && m.order < |deals|
    && var d := deals[m.order];
       && d.grouped && d.order.buyer == m.user && d.order.money == g.price && d.order.product == g.product
       && PhaseOf(g.status, d.order.typ)
  }

  /** The member orders of one group differ, as do its users. */
  ghost predicate DistinctMembers(members: seq<Member>) {
    forall i, j :: 0 <= i < j < |members| ==> members[i].order != members[j].order && members[i].user != members[j].user
  }

  ghost predicate GroupOkIn(deals: seq<Deal>, g: Group) {
    && g.count == |g.members| && g.count <= g.target && g.price > 0
    && DistinctMembers(g.members)
    && forall i :: 0 <= i < |g.members| ==> MemberOk(deals, g, g.members[i])
  }

  ghost predicate Holds(g: Group, order: nat) {
    exists i :: 0 <= i < |g.members| && g.members[i].order == order
  }

  ghost predicate Apart(groups: seq<Group>) {
    forall x, y, order :: 0 <= x < y < |groups| ==> !(Holds(groups[x], order) && Holds(groups[y], order))
  }

  ghost predicate GroupsOk(s: State) {
    && (forall gid :: 0 <= gid < |s.groups| ==> GroupOkIn(s.deals, s.groups[gid]))
    && Apart(s.groups)
  }

  ghost predicate MallInv(s: State, opening: map<nat, int>) {
    CoreInv(s, opening) && GroupsOk(s)
  }

  // ---- Single transactions and groups ----

  predicate GroupOnly(e: Event) {
    e.GroupSell? || e.GroupClose? || e.GroupRepay?
  }

  /** Only group transactions take a member's order out of its phase. */
  lemma OrdinaryKeepsPhase(d: Deal, e: Event, env: Env, status: GroupStatus)
    requires DealInv(d) && d.grouped && !GroupOnly(e) && Transact(d, e, env).Success? && PhaseOf(status, d.order.typ)
    ensures PhaseOf(status, Transact(d, e, env).value.deal.order.typ)
  {
  }

  lemma ActKeepsGroups(s: State, id: nat, e: Event, opening: map<nat, int>)
    requires MallInv(s, opening) && !GroupOnly(e) && Act(s, id, e).Some?
    ensures GroupsOk(Act(s, id, e).value)
  {
    ActEffect(s, id, e, opening);
    var t := Act(s, id, e).value;
    forall gid, i | 0 <= gid < |s.groups| && 0 <= i < |s.groups[gid].members|
      ensures MemberOk(t.deals, s.groups[gid], s.groups[gid].members[i])
    {
      var g := s.groups[gid];
      assert MemberOk(s.deals, g, g.members[i]);
      if g.members[i].order == id {
        assert OrderOk(s.books.rows, id, s.deals[id]);
        OrdinaryKeepsPhase(s.deals[id], e, EnvOf(s, id), g.status);
      }
    }
  }

  // ---- The member loops ----

  predicate Untouched(s: State, t: State, members: seq<Member>) {
    && |t.deals| == |s.deals|
    && forall id :: 0 <= id < |s.deals| && (forall i :: 0 <= i < |members| ==> members[i].order != id) ==>
        t.deals[id] == s.deals[id]
  }

  predicate LoopTarget(e: Event, typ: Type) {
    if e.GroupSell? then typ == WaitShip else typ == Closed
  }

  ghost predicate Waiting(s: State, members: seq<Member>) {
    forall i :: 0 <= i < |members| ==>
      members[i].order < |s.deals| && s.deals[members[i].order].grouped
        && s.deals[members[i].order].order.typ == WaitGroup
  }

  lemma ActOnWaiting(s: State, id: nat, e: Event, opening: map<nat, int>)
    requires CoreInv(s, opening) && (e.GroupSell? || e.GroupClose?) && Act(s, id, e).Some?
    requires s.deals[id].grouped && s.deals[id].order.typ == WaitGroup
    ensures var t := Act(s, id, e).value;
      && CoreInv(t, opening) && t.groups == s.groups && |t.deals| == |s.deals|
      && t.deals == s.deals[id := t.deals[id]]
      && LoopTarget(e, t.deals[id].order.typ) && t.deals[id].grouped && SameTerms(s.deals[id].order, t.deals[id].order)
  {
    ActEffect(s, id, e, opening);
    ActKeepsCore(s, id, e, opening);
  }

  ghost predicate Looped(s: State, t: State, members: seq<Member>, e: Event) {
    forall i :: 0 <= i < |members| ==>
      var id := members[i].order;
      && id < |s.deals| && id < |t.deals|
      && LoopTarget(e, t.deals[id].order.typ) && t.deals[id].grouped && SameTerms(s.deals[id].order, t.deals[id].order)
  }

  lemma LoopStep(s: State, t: State, u: State, members: seq<Member>, e: Event)
    requires |members| > 0 && Untouched(s, t, members[..|members| - 1]) && Looped(s, t, members[..|members| - 1], e)
    requires DistinctMembers(members) && Waiting(s, members)
    requires var last := members[|members| - 1].order;
      && |u.deals| == |t.deals| && last < |t.deals| && u.deals == t.deals[last := u.deals[last]]
      && LoopTarget(e, u.deals[last].order.typ) && u.deals[last].grouped
          && SameTerms(s.deals[last].order, u.deals[last].order)
    ensures Untouched(s, u, members) && Looped(s, u, members, e)
  {
    var n := |members| - 1;
    forall i | 0 <= i < n ensures members[..n][i] == members[i] && members[i].order != members[n].order {
    }
  }

  lemma LastIsUntouched(s: State, t: State, members: seq<Member>)
    requires |members| > 0 && Untouched(s, t, members[..|members| - 1]) && DistinctMembers(members)
    requires Waiting(s, members)
    ensures t.deals[members[|members| - 1].order] == s.deals[members[|members| - 1].order]
  {
  }

  lemma {:induction false} LoopKeepsCore(s: State, members: seq<Member>, e: Event, opening: map<nat, int>)
    requires CoreInv(s, opening) && (e.GroupSell? || e.GroupClose?) && ActAll(s, members, e).Some?
    requires DistinctMembers(members) && Waiting(s, members)
    ensures var t := ActAll(s, members, e).value;
      CoreInv(t, opening) && t.groups == s.groups && Untouched(s, t, members) && Looped(s, t, members, e)
  {
    if members != [] {
      var n := |members| - 1;
      assert Waiting(s, members[..n]);
      LoopKeepsCore(s, members[..n], e, opening);
      var t := ActAll(s, members[..n], e).value;
      LastIsUntouched(s, t, members);
      ActOnWaiting(t, members[n].order, e, opening);
      LoopStep(s, t, Act(t, members[n].order, e).value, members, e);
    }
  }

  lemma LoopKeepsOtherGroup(s: State, t: State, g: Group, h: Group, x: nat, y: nat)
    requires GroupsOk(s) && x < |s.groups| && y < |s.groups| && x != y && g == s.groups[x] && h == s.groups[y]
    requires Untouched(s, t, g.members)
    ensures GroupOkIn(t.deals, h)
  {
    forall i | 0 <= i < |h.members| ensures MemberOk(t.deals, h, h.members[i]) {
      var id := h.members[i].order;
      assert MemberOk(s.deals, h, h.members[i]);
      forall j | 0 <= j < |g.members| ensures g.members[j].order != id {
        if g.members[j].order == id {
          assert Holds(g, id) && Holds(h, id);
        }
      }
    }
  }

  lemma SameMembersStayApart(groups: seq<Group>, gid: nat, g: Group)
    requires Apart(groups) && gid < |groups| && g.members == groups[gid].members
    ensures Apart(groups[gid := g])
  {
    var later := groups[gid := g];
    forall x, y, order | 0 <= x < y < |later| ensures !(Holds(later[x], order) && Holds(later[y], order)) {
      assert Holds(later[x], order) == Holds(groups[x], order);
      assert Holds(later[y], order) == Holds(groups[y], order);
    }
  }

  lemma MembersWait(s: State, g: Group)
    requires GroupOkIn(s.deals, g) && g.status.Open?
    ensures Waiting(s, g.members)
  {
    forall i | 0 <= i < |g.members| ensures MemberOk(s.deals, g, g.members[i]) {
    }
  }

  /** Success and dissolution: the whole member loop, then the status. */
  lemma EndingKeepsMall(s: State, gid: nat, e: Event, to: GroupStatus, opening: map<nat, int>)
    requires MallInv(s, opening) && gid < |s.groups| && s.groups[gid].status.Open?
    requires (e.GroupSell? && to.Succeeded?) || (e.GroupClose? && (to.Expired? || to.Dissolved?))
    requires ActAll(s, s.groups[gid].members, e).Some?
    ensures var t := ActAll(s, s.groups[gid].members, e).value;
      MallInv(t.(groups := s.groups[gid := s.groups[gid].(status := to)]), opening)
  {
    var g := s.groups[gid];
    var t := ActAll(s, g.members, e).value;
    var ended := g.(status := to);
    assert GroupOkIn(s.deals, g);
    MembersWait(s, g);
    LoopKeepsCore(s, g.members, e, opening);
    CoreIgnoresGroups(t, s.groups[gid := ended], opening);
    SameMembersStayApart(s.groups, gid, ended);
    EndedGroupIsOk(s, t, g, e, to);
    forall x | 0 <= x < |s.groups| && x != gid ensures GroupOkIn(t.deals, s.groups[x]) {
      LoopKeepsOtherGroup(s, t, g, s.groups[x], gid, x);
    }
  }

  lemma EndedGroupIsOk(s: State, t: State, g: Group, e: Event, to: GroupStatus)
    requires GroupOkIn(s.deals, g) && Looped(s, t, g.members, e)
    requires (e.GroupSell? && to.Succeeded?) || (e.GroupClose? && (to.Expired? || to.Dissolved?))
    ensures GroupOkIn(t.deals, g.(status := to))
  {
    forall i | 0 <= i < |g.members| ensures MemberOk(t.deals, g.(status := to), g.members[i]) {
      assert MemberOk(s.deals, g, g.members[i]);
    }
  }

  // ---- Replayed dissolutions ----

  lemma RepayIsNoOp(s: State, id: nat, opening: map<nat, int>)
    requires CoreInv(s, opening) && id < |s.deals| && s.deals[id].grouped && s.deals[id].order.typ == Closed
    ensures Act(s, id, GroupRepay) == Some(s)
  {
    assert OrderOk(s.books.rows, id, s.deals[id]);
    EnvIsOk(s, id);
    assert s.deals[id := s.deals[id]] == s.deals;
  }

  /** In every reachable state the consumer of groupbuy.expired changes nothing. */
  lemma {:induction false} ReplayIsNoOp(s: State, members: seq<Member>, opening: map<nat, int>)
    requires CoreInv(s, opening)
    requires forall i :: 0 <= i < |members| ==>
      members[i].order < |s.deals| && s.deals[members[i].order].grouped && s.deals[members[i].order].order.typ == Closed
    ensures ActAll(s, members, GroupRepay) == Some(s)
  {
    if members != [] {
      var n := |members| - 1;
      assert forall i :: 0 <= i < n ==> members[..n][i] == members[i];
      ReplayIsNoOp(s, members[..n], opening);
      RepayIsNoOp(s, members[n].order, opening);
    }
  }

  lemma SettleExpiredIsNoOp(s: State, gid: nat, opening: map<nat, int>)
    requires MallInv(s, opening) && gid < |s.groups|
    ensures Apply(s, ReplayExpired(gid)) == s
  {
    var g := s.groups[gid];
    assert GroupOkIn(s.deals, g);
    if g.status.Expired? || g.status.Dissolved? {
      forall i | 0 <= i < |g.members| ensures MemberOk(s.deals, g, g.members[i]) {
      }
      ReplayIsNoOp(s, g.members, opening);
    }
  }

  // ---- Joining ----

  lemma GrownDealsKeepGroup(deals: seq<Deal>, d: Deal, g: Group)
    requires GroupOkIn(deals, g)
    ensures GroupOkIn(deals + [d], g) && !Holds(g, |deals|)
  {
    forall i | 0 <= i < |g.members| ensures MemberOk(deals + [d], g, g.members[i]) {
      assert MemberOk(deals, g, g.members[i]);
    }
  }

  lemma PlacedKeepsGroups(s: State, d: Deal, m: Option<Movement>)
    requires GroupsOk(s) && Placed(s, d, m).Some?
    ensures GroupsOk(Placed(s, d, m).value)
  {
    var t := Placed(s, d, m).value;
    forall gid | 0 <= gid < |s.groups| ensures GroupOkIn(t.deals, s.groups[gid]) {
      GrownDealsKeepGroup(s.deals, d, s.groups[gid]);
    }
  }

  ghost predicate NewMember(deals: seq<Deal>, g: Group, user: nat) {
    |deals| > 0 && MemberOk(deals, g.(status := Open), Member(user, |deals| - 1))
  }

  lemma HoldsAppend(g: Group, m: Member, order: nat)
    ensures Holds(g.(count := g.count + 1, members := g.members + [m]), order) <==> Holds(g, order) || order == m.order
  {
    var h := g.(count := g.count + 1, members := g.members + [m]);
    assert h.members[|g.members|] == m;
    if Holds(g, order) {
      var i :| 0 <= i < |g.members| && g.members[i].order == order;
      assert h.members[i] == g.members[i];
    }
  }

  lemma JoinedGroupIsOk(deals: seq<Deal>, g: Group, user: nat)
    requires GroupOkIn(deals, g) && g.status.Open? && g.count < g.target && !Joined(g, user)
    requires NewMember(deals, g, user)
    requires !Holds(g, |deals| - 1)
    ensures GroupOkIn(deals, g.(count := g.count + 1, members := g.members + [Member(user, |deals| - 1)]))
  {
    var m := Member(user, |deals| - 1);
    var h := g.(count := g.count + 1, members := g.members + [m]);
    forall i | 0 <= i < |h.members| ensures MemberOk(deals, h, h.members[i]) {
      if i < |g.members| {
        assert MemberOk(deals, g, g.members[i]);
      }
    }
  }

  lemma JoinKeepsGroups(s: State, gid: nat, user: nat, seller: nat, opening: map<nat, int>)
    requires MallInv(s, opening) && Join(s, gid, user, seller, false).Some?
    ensures GroupsOk(Join(s, gid, user, seller, false).value)
  {
    var t, g, n := Join(s, gid, user, seller, false).value, s.groups[gid], |s.deals|;
    var d := t.deals[n];
    assert GroupOkIn(s.deals, g);
    forall x | 0 <= x < |s.groups| ensures GroupOkIn(t.deals, s.groups[x]) && !Holds(s.groups[x], n) {
      GrownDealsKeepGroup(s.deals, d, s.groups[x]);
    }
    JoinedGroupIsOk(t.deals, g, user);
    forall x, y, order | 0 <= x < y < |t.groups| ensures !(Holds(t.groups[x], order) && Holds(t.groups[y], order)) {
      HoldsAppend(g, Member(user, n), order);
      assert !(Holds(s.groups[x], order) && Holds(s.groups[y], order));
    }
  }

  lemma OpenKeepsGroups(s: State, leader: nat, seller: nat, product: nat, target: nat, price: nat)
    requires GroupsOk(s) && OpenGroup(s, leader, seller, product, target, price).Some?
    ensures GroupsOk(OpenGroup(s, leader, seller, product, target, price).value)
  {
    var t, n := OpenGroup(s, leader, seller, product, target, price).value, |s.deals|;
    var d := t.deals[n];
    forall x | 0 <= x < |s.groups| ensures GroupOkIn(t.deals, s.groups[x]) && !Holds(s.groups[x], n) {
      GrownDealsKeepGroup(s.deals, d, s.groups[x]);
    }
    var g := t.groups[|s.groups|];
    assert MemberOk(t.deals, g, g.members[0]);
    forall x, y, order | 0 <= x < y < |t.groups| ensures !(Holds(t.groups[x], order) && Holds(t.groups[y], order)) {
      if y < |s.groups| {
        assert !(Holds(s.groups[x], order) && Holds(s.groups[y], order));
      }
    }
  }

  // ---- Every step ----

  lemma PlacementKeepsMall(s: State, d: Deal, m: Option<Movement>, opening: map<nat, int>)
    requires MallInv(s, opening) && Starts(d, m) && Placed(s, d, m).Some?
    ensures MallInv(Placed(s, d, m).value, opening)
  {
    PlacedKeepsCore(s, d, m, opening);
    PlacedKeepsGroups(s, d, m);
  }

  lemma StartKeepsMall(s: State, leader: nat, seller: nat, product: nat, target: nat, price: nat,
                       opening: map<nat, int>)
    requires MallInv(s, opening) && OpenGroup(s, leader, seller, product, target, price).Some?
    ensures MallInv(OpenGroup(s, leader, seller, product, target, price).value, opening)
  {
    PlacedJoinKeepsCore(s, leader, seller, product, price, opening);
    OpenKeepsGroups(s, leader, seller, product, target, price);
    CoreIgnoresGroups(JoinOrder(s, leader, seller, product, price).value,
                      OpenGroup(s, leader, seller, product, target, price).value.groups, opening);
  }

  lemma JoinKeepsMall(s: State, gid: nat, user: nat, seller: nat, opening: map<nat, int>)
    requires MallInv(s, opening) && Join(s, gid, user, seller, false).Some?
    ensures MallInv(Join(s, gid, user, seller, false).value, opening)
  {
    assert GroupOkIn(s.deals, s.groups[gid]);
    PlacedJoinKeepsCore(s, user, seller, s.groups[gid].product, s.groups[gid].price, opening);
    JoinKeepsGroups(s, gid, user, seller, opening);
    CoreIgnoresGroups(JoinOrder(s, user, seller, s.groups[gid].product, s.groups[gid].price).value,
                      Join(s, gid, user, seller, false).value.groups, opening);
  }

  lemma CoreIgnoresGroups(s: State, groups: seq<Group>, opening: map<nat, int>)
    requires CoreInv(s, opening)
    ensures CoreInv(s.(groups := groups), opening)
  {
  }

  lemma PlacedJoinKeepsCore(s: State, user: nat, seller: nat, product: nat, price: nat, opening: map<nat, int>)
    requires CoreInv(s, opening) && price > 0 && JoinOrder(s, user, seller, product, price).Some?
    ensures CoreInv(JoinOrder(s, user, seller, product, price).value, opening)
  {
    JoinStarts(user, seller, product, price);
    PlacedKeepsCore(s, Deal(NewOrder(user, seller, product, 1, price, 0, 0, 0, WaitGroup, NoPreorder), None, true, 0,
      0, 0, None),
                    Some(Movement(Wallet(user), Debit, GroupbuyEscrow, price, GroupbuyPay)), opening);
  }

  lemma DepositKeepsMall(s: State, buyer: nat, seller: nat, product: nat, deposit: int, final: int,
                         opening: map<nat, int>)
    requires MallInv(s, opening) && PayDeposit(s, buyer, seller, product, deposit, final).Some?
    ensures MallInv(PayDeposit(s, buyer, seller, product, deposit, final).value, opening)
  {
    DepositStarts(buyer, seller, product, deposit, final);
    PlacementKeepsMall(s,
      Deal(NewOrder(buyer, seller, product, 1, deposit + final, 0, 0, 0, WaitPay, DepositPaid), None, false,
        Natural(deposit), 0, 0, None),
      Positive(Movement(Wallet(buyer), Debit, Wallet(seller), Natural(deposit), PreorderDeposit), deposit), opening);
  }

  lemma PlaceStepKeepsMall(s: State, step: Step, opening: map<nat, int>)
    requires MallInv(s, opening) && (step.PlaceOrder? || step.PlaceDeposit?)
    ensures MallInv(Apply(s, step), opening)
  {
    match step
    case PlaceOrder(o) =>
      if Fresh(o) {
        FreshOrderStarts(o);
        PlacementKeepsMall(s, Deal(o, None, false, 0, 0, 0, None), None, opening);
      }
    case PlaceDeposit(buyer, seller, product, deposit, final) =>
      if PayDeposit(s, buyer, seller, product, deposit, final).Some? {
        DepositKeepsMall(s, buyer, seller, product, deposit, final, opening);
      }
  }

  lemma GroupEndKeepsMall(s: State, step: Step, opening: map<nat, int>)
    requires MallInv(s, opening) && (step.SucceedGroup? || step.DissolveGroup? || step.ReplayExpired?)
    ensures MallInv(Apply(s, step), opening)
  {
    match step
    case SucceedGroup(gid) =>
      if MarkSuccess(s, gid).Some? {
        EndingKeepsMall(s, gid, GroupSell, Succeeded, opening);
      }
    case DissolveGroup(gid, to) =>
      if Dissolve(s, gid, to).Some? {
        EndingKeepsMall(s, gid, GroupClose, to, opening);
      }
    case ReplayExpired(gid) =>
      if gid < |s.groups| {
        SettleExpiredIsNoOp(s, gid, opening);
      }
  }

  lemma ElsewhereKeepsMall(s: State, step: Step, opening: map<nat, int>)
    requires MallInv(s, opening) && step.Elsewhere?
    ensures MallInv(Apply(s, step), opening)
  {
    var r := Move(s.books, step.first, step.dir, step.second, step.amount, step.ref, step.biz);
    if r.Success? && !OrderBiz(step.biz) {
      MoveKeepsBooks(s.books, step.first, step.dir, step.second, step.amount, step.ref, step.biz, opening);
      MoveKeepsUnborn(s.books, step.first, step.dir, step.second, step.amount, step.ref, step.biz, |s.deals|);
      forall id | 0 <= id < |s.deals| ensures OrderOk(r.value.rows, id, s.deals[id]) {
        OtherMove(s.books, step.first, step.dir, step.second, step.amount, step.ref, step.biz, id, s.deals[id]);
      }
    }
  }

  lemma SupplyKeepsMall(s: State, product: nat, delta: int, opening: map<nat, int>)
    requires MallInv(s, opening)
    ensures MallInv(Apply(s, EditStock(product, delta)), opening)
  {
    var t := Apply(s, EditStock(product, delta));
    forall p: nat ensures Level(t.stock, p) >= 0 && Level(t.stock, p) + TakenOf(t.deals, p) == Level(t.supply, p) {
      assert Level(s.stock, p) >= 0 && Level(s.stock, p) + TakenOf(s.deals, p) == Level(s.supply, p);
    }
  }

  lemma StepKeepsMall(s: State, step: Step, opening: map<nat, int>)
    requires MallInv(s, opening)
    ensures MallInv(Apply(s, step), opening)
  {
    match step
    case PlaceOrder(_) => PlaceStepKeepsMall(s, step, opening);
    case PlaceDeposit(_, _, _, _, _) => PlaceStepKeepsMall(s, step, opening);
    case StartGroup(leader, seller, product, target, price) =>
      if OpenGroup(s, leader, seller, product, target, price).Some? {
        StartKeepsMall(s, leader, seller, product, target, price, opening);
      }
    case JoinGroup(gid, user, seller, expired) =>
      if Join(s, gid, user, seller, expired).Some? {
        JoinKeepsMall(s, gid, user, seller, opening);
      }
    case SucceedGroup(_) => GroupEndKeepsMall(s, step, opening);
    case DissolveGroup(_, _) => GroupEndKeepsMall(s, step, opening);
    case ReplayExpired(_) => GroupEndKeepsMall(s, step, opening);
    case OnOrder(id, e) =>
      if Enabled(s, step) && Act(s, id, e).Some? {
        ActKeepsCore(s, id, e, opening);
        ActKeepsGroups(s, id, e, opening);
      }
    case ReadForReject(_) =>
    case EditStock(product, delta) => SupplyKeepsMall(s, product, delta, opening);
    case Elsewhere(_, _, _, _, _, _) => ElsewhereKeepsMall(s, step, opening);
  }

  /** A new mall: wallets with their opening balances, products with their stock, nothing sold. */
  ghost predicate Opening(s: State, opening: map<nat, int>) {
    && s.deals == [] && s.groups == [] && s.books == Books(opening, []) && s.stock == s.supply && s.decisions == {}
    && (forall u :: u in opening ==> opening[u] >= 0) && forall p :: p in s.stock ==> s.stock[p] >= 0
  }

  lemma OpeningIsOk(s: State, opening: map<nat, int>)
    requires Opening(s, opening)
    ensures MallInv(s, opening)
  {
    OpenBooks(opening);
  }

  /** Every run from an opened mall, whatever is replayed, reordered, refused or interleaved with other movements,
      keeps the books balanced, paired and not overdrawn, each order's rows exact, the stock conserved and the
      groups whole. */
  lemma {:induction false} RunKeepsMall(start: State, steps: seq<Step>, opening: map<nat, int>)
    requires Opening(start, opening)
    ensures MallInv(After(start, steps), opening)
  {
    if steps == [] {
      OpeningIsOk(start, opening);
    } else {
      RunKeepsMall(start, steps[..|steps| - 1], opening);
      StepKeepsMall(After(start, steps[..|steps| - 1]), steps[|steps| - 1], opening);
    }
  }
}

/** All orders and groups over one set of books and one stock table, under every sequence of transactions, replayed or
    reordered events, and movements of other parts of the program. */
module Mall {
  import opened Results
  import opened Ledger
  import opened Orders

  datatype GroupStatus = Open | Succeeded | Expired | Dissolved

  datatype Member = Member(user: nat, order: nat)

  datatype Group = Group(product: nat, leader: nat, target: nat, count: nat, price: nat, status: GroupStatus,
    members: seq<Member>)

  /** `supply`: what merchants have ever put on sale, net of what they took back. `decisions`: restore states computed
      by rejections that have read their order and not yet run. */
  datatype State = State(deals: seq<Deal>, groups: seq<Group>, stock: map<nat, int>, supply: map<nat, int>,
    books: Books,
                         decisions: set<(nat, Type)>)

  const MAX_TARGET := 100

  // ---- One transaction ----

  function EnvOf(s: State, id: nat): Env
    requires id < |s.deals|
  {
    Env(s.deals[id].order.buyer in s.books.wallets, HasRow(s.books.rows, id, Credit, EscrowRefund),
        HasRow(s.books.rows, id, Credit, Refund), HasRow(s.books.rows, id, Credit, GroupbuyRefund))
  }

  function PostMoney(b: Books, m: Option<Movement>, id: nat): Result<Books, Fault> {
    match m
    case None => Success(b)
    case Some(v) => Move(b, v.first, v.dir, v.second, v.amount, id, v.biz)
  }

  /** DeductStock and RollbackStock: conditional on enough stock, and on the product row. */
  function MoveStock(stock: map<nat, int>, product: nat, delta: int): Option<map<nat, int>> {
    if delta == 0 then Some(stock)
    else if product !in stock || (delta < 0 && stock[product] + delta < 0) then None
    else Some(stock[product := stock[product] + delta])
  }

  /** One transaction on one order: None when it is refused or rolled back. */
  function Act(s: State, id: nat, e: Event): Option<State> {
    if id >= |s.deals| then None
    else
      match Transact(s.deals[id], e, EnvOf(s, id))
      case Failure(_) => None
      case Success(eff) =>
        match PostMoney(s.books, eff.money, id)
        case Failure(_) => None
        case Success(b) =>
          match MoveStock(s.stock, s.deals[id].order.product, eff.stock)
          case None => None
          case Some(stock) => Some(s.(deals := s.deals[id := eff.deal], books := b, stock := stock))
  }

  /** The member loop of a group transaction: all members or none. */
  function ActAll(s: State, members: seq<Member>, e: Event): Option<State> {
    if members == [] then Some(s)
    else
      match ActAll(s, members[..|members| - 1], e)
      case None => None
      case Some(t) => Act(t, members[|members| - 1].order, e)
  }

  // ---- New orders ----

  function NewOrder(buyer: nat, seller: nat, product: nat, num: int, money: int, promoRule: nat, coupon: nat,
                    final: int,
                    typ: Type, stage: Stage): Order {
    Order(buyer, seller, product, num, money, promoRule, coupon, final, typ, None, 0, false, stage)
  }

  function Placed(s: State, d: Deal, m: Option<Movement>): Option<State> {
    match PostMoney(s.books, m, |s.deals|)
    case Failure(_) => None
    case Success(b) => Some(s.(deals := s.deals + [d], books := b))
  }

  function Place(s: State, o: Order): Option<State> {
    Placed(s, Deal(o, None, false, 0, 0, 0, None), None)
  }

  function PayDeposit(s: State, buyer: nat, seller: nat, product: nat, deposit: int, final: int): Option<State> {
    var o := NewOrder(buyer, seller, product, 1, deposit + final, 0, 0, 0, WaitPay, DepositPaid);
    Placed(s, Deal(o, None, false, Natural(deposit), 0, 0, None),
           Positive(Movement(Wallet(buyer), Debit, Wallet(seller), Natural(deposit), PreorderDeposit), deposit))
  }

  /** A member's order, with the money collected into the group escrow. */
  function JoinOrder(s: State, user: nat, seller: nat, product: nat, price: nat): Option<State> {
    var o := NewOrder(user, seller, product, 1, price, 0, 0, 0, WaitGroup, NoPreorder);
    Placed(s, Deal(o, None, true, 0, 0, 0, None),
      Some(Movement(Wallet(user), Debit, GroupbuyEscrow, price, GroupbuyPay)))
  }

  function OpenGroup(s: State, leader: nat, seller: nat, product: nat, target: nat, price: nat): Option<State> {
    if !(2 <= target <= MAX_TARGET) || price == 0 then None
    else
      match JoinOrder(s, leader, seller, product, price)
      case None => None
      case Some(t) =>
        Some(t.(groups := s.groups + [Group(product, leader, target, 1, price, Open, [Member(leader, |s.deals|)])]))
  }

  predicate Joined(g: Group, user: nat) {
    exists i :: 0 <= i < |g.members| && g.members[i].user == user
  }

  /** The order, the conditional count update, the member row with its unique index, and the money, in one
      transaction. */
  function Join(s: State, gid: nat, user: nat, seller: nat, expired: bool): Option<State> {
    if gid >= |s.groups| then None
    else
      var g := s.groups[gid];
      if !g.status.Open? || g.count >= g.target || expired || Joined(g, user) then None
      else
        match JoinOrder(s, user, seller, g.product, g.price)
        case None => None
        case Some(t) =>
          Some(t.(groups := s.groups[gid :=
            g.(count := g.count + 1, members := g.members + [Member(user, |s.deals|)])]))
  }

  // ---- Group transactions ----

  function MarkSuccess(s: State, gid: nat): Option<State> {
    if gid >= |s.groups| || !s.groups[gid].status.Open? || s.groups[gid].count < s.groups[gid].target then None
    else
      match ActAll(s, s.groups[gid].members, GroupSell)
      case None => None
      case Some(t) => Some(t.(groups := s.groups[gid := s.groups[gid].(status := Succeeded)]))
  }

  /** ExpireGroup and CloseGroup. */
  function Dissolve(s: State, gid: nat, to: GroupStatus): Option<State> {
    if gid >= |s.groups| || !s.groups[gid].status.Open? || !(to.Expired? || to.Dissolved?) then None
    else
      match ActAll(s, s.groups[gid].members, GroupClose)
      case None => None
      case Some(t) => Some(t.(groups := s.groups[gid := s.groups[gid].(status := to)]))
  }

  /** The consumer of groupbuy.expired: repays every member of a dissolved group that has no refund row yet. */
  function SettleExpired(s: State, gid: nat): Option<State> {
    if gid >= |s.groups| || !(s.groups[gid].status.Expired? || s.groups[gid].status.Dissolved?) then None
    else ActAll(s, s.groups[gid].members, GroupRepay)
  }

  // ---- Runs ----

  datatype Step =
    | PlaceOrder(o: Order)
    | PlaceDeposit(buyer: nat, seller: nat, product: nat, deposit: int, final: int)
    | StartGroup(leader: nat, seller: nat, product: nat, target: nat, price: nat)
    | JoinGroup(gid: nat, user: nat, seller: nat, expired: bool)
    | SucceedGroup(gid: nat)
    | DissolveGroup(gid: nat, to: GroupStatus)
    | ReplayExpired(gid: nat)
    | OnOrder(id: nat, e: Event)
    | ReadForReject(id: nat)
    | EditStock(product: nat, delta: int)
    | Elsewhere(first: Account, dir: Direction, second: Account, amount: nat, ref: nat, biz: Biz)

  predicate Fresh(o: Order) {
    o.typ == WaitPay && o.stage == NoPreorder && o.refundFrom == None && o.refundCount == 0 && !o.restocked
  }

  /** Accounts that other parts of the program move money between: they leave the escrows of orders and groups alone. */
  predicate Outside(a: Account) {
    a.Wallet? || a.RedPacketEscrow?
  }

  predicate Enabled(s: State, step: Step) {
    match step
    case PlaceOrder(o) => Fresh(o)
    case OnOrder(id, e) =>
      && !e.GroupSell? && !e.GroupClose? && !e.GroupRepay?
      && (e.Reject? ==> (id, e.seen) in s.decisions)
    case ReadForReject(id) => id < |s.deals| && s.deals[id].order.typ == Refunding
    case EditStock(product, delta) =>
      delta >= 0 || (product in s.stock && s.stock[product] + delta >= 0)
    case Elsewhere(first, _, second, _, _, biz) => !OrderBiz(biz) && Outside(first) && Outside(second)
    case _ => true
  }

  function Edited(stock: map<nat, int>, product: nat, delta: int): map<nat, int> {
    stock[product := (if product in stock then stock[product] else 0) + delta]
  }

  function Outcome(s: State, step: Step): Option<State> {
    match step
    case PlaceOrder(o) => Place(s, o)
    case PlaceDeposit(buyer, seller, product, deposit, final) => PayDeposit(s, buyer, seller, product, deposit, final)
    case StartGroup(leader, seller, product, target, price) => OpenGroup(s, leader, seller, product, target, price)
    case JoinGroup(gid, user, seller, expired) => Join(s, gid, user, seller, expired)
    case SucceedGroup(gid) => MarkSuccess(s, gid)
    case DissolveGroup(gid, to) => Dissolve(s, gid, to)
    case ReplayExpired(gid) => SettleExpired(s, gid)
    case OnOrder(id, e) => Act(s, id, e)
    case ReadForReject(id) =>
      if id >= |s.deals| then None
      else Some(s.(decisions := s.decisions + {(id, RestoreType(s.deals[id].order.refundFrom))}))
    case EditStock(product, delta) =>
      Some(s.(stock := Edited(s.stock, product, delta), supply := Edited(s.supply, product, delta)))
    case Elsewhere(first, dir, second, amount, ref, biz) =>
      match Move(s.books, first, dir, second, amount, ref, biz)
      case Failure(_) => None
      case Success(b) => Some(s.(books := b))
  }

  /** A step that is not enabled, or whose transaction is refused, changes nothing. */
  function Apply(s: State, step: Step): State {
    if !Enabled(s, step) then s
    else
      match Outcome(s, step)
      case None => s
      case Some(t) => t
  }

  function After(s: State, steps: seq<Step>): State {
    if steps == [] then s else Apply(After(s, steps[..|steps| - 1]), steps[|steps| - 1])
  }
}

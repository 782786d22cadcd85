/** One order with its clearing row: every transaction that touches it, as the checks it makes, the rows it writes, the
    one movement of money it posts and the stock it takes or gives back. */
module Orders {
  import opened Results
  import opened Ledger

  datatype Type = WaitPay | WaitShip | Closed | WaitReceive | Completed | Refunding | Refunded | WaitGroup

  datatype Stage = NoPreorder | DepositPaid | FinalPaid | Forfeited

  datatype Order = Order(buyer: nat, seller: nat, product: nat, num: int, money: int, promoRule: nat, coupon: nat,
                         final: int, typ: Type, refundFrom: Option<Type>, refundCount: nat, restocked: bool,
                         stage: Stage)

  datatype Channel = WalletPay | Stripe | Web3 | Xcash

  datatype ClearStatus = Cleared | Settled | Repaid

  /** `settledAt`: the settlement time is set. */
  datatype Clearing = Clearing(buyer: nat, seller: nat, channel: Channel, ref: string, gross: int, fee: int, net: int,
                               status: ClearStatus, settledAt: bool)

  /** The order, its clearing row, and what its ledger rows say about payments that no column keeps: whether it paid
      into a group, and the preorder amounts paid in, paid back on cancelling, and paid back after a refund. */
  datatype Deal = Deal(order: Order, clearing: Option<Clearing>, grouped: bool,
                       deposit: nat, last: nat, cancelled: nat, back: Option<nat>)

  // ---- Transition table and amounts ----

  function Edges(from: Type): set<Type> {
    match from
    case WaitPay => {WaitShip, Closed}
    case WaitShip => {WaitReceive, Refunding}
    case WaitReceive => {Completed, Refunding}
    case Completed => {Refunding}
    case Refunding => {Refunded, WaitShip, WaitReceive, Completed}
    case WaitGroup => {WaitShip, Closed}
    case Closed => {}
    case Refunded => {}
  }

  predicate CanTransition(from: Type, to: Type) {
    to in Edges(from)
  }

  function Payable(o: Order): int {
    if o.promoRule != 0 || o.coupon != 0 then o.final else o.money * o.num
  }

  const MAX_REFUND_REQUESTS := 3

  const REFUNDABLE := {WaitShip, WaitReceive, Completed}

  // ---- Transactions ----

  datatype Movement = Movement(first: Account, dir: Direction, second: Account, amount: nat, biz: Biz)

  datatype Effect = Effect(deal: Deal, money: Option<Movement>, stock: int)

  datatype Refusal = WrongState | Forbidden | TooLate | TooMany | BadInput | AlreadyCleared | Mismatch | NotCompleted
                   | FeeUnsupported | NoBuyer

  datatype Event =
    | PayWallet
    | PayExternal(channel: Channel, ref: string)
    | CloseUnpaid
    | Ship(boss: nat)
    | Receive
    | AskRefund(afterSalesOver: bool)
    | Approve(boss: nat)
    | Reject(seen: Type, boss: nat)
    | SettleCompleted
    | SettleRefund
    | ConfirmReturn(boss: nat)
    | PayFinal(amount: int)
    | CancelPreorder(amount: int)
    | Forfeit
    | GroupSell
    | GroupClose
    | GroupRepay

  /** What a transaction reads outside its own order and clearing row. */
  datatype Env = Env(buyerKnown: bool, escrowRepaid: bool, sellerRepaid: bool, groupRepaid: bool)

  function Unchanged(d: Deal): Effect {
    Effect(d, None, 0)
  }

  function Retype(d: Deal, typ: Type): Deal {
    d.(order := d.order.(typ := typ))
  }

  predicate Owns(boss: nat, o: Order) {
    boss == 0 || o.seller == boss
  }

  /** RecordClearedTx and RecordClearedFromSystemTx: the clearing row, and the whole payable into the merchant
      escrow. */
  function Clear(d: Deal, payer: Account, channel: Channel, ref: string, biz: Biz): Result<(Deal, Movement), Refusal> {
    var o, gross := d.order, Payable(d.order);
    if o.buyer == 0 || o.seller == 0 || o.num <= 0 || gross < 0 then Failure(BadInput)
    else if d.clearing.Some? then Failure(AlreadyCleared)
    else Success((d.(clearing := Some(Clearing(o.buyer, o.seller, channel, ref, gross, 0, gross, Cleared, false))),
                  Movement(payer, Debit, MerchantEscrow, gross, biz)))
  }

  /** Clearing, then stock, then the conditional WaitPay to WaitShip. */
  function Pay(d: Deal, payer: Account, channel: Channel, ref: string): Result<Effect, Refusal> {
    if d.order.typ != WaitPay || d.order.stage != NoPreorder then Failure(WrongState)
    else
      var (cleared, m) :- Clear(d, payer, channel, ref, OrderClear);
      Success(Effect(Retype(cleared, WaitShip), Some(m), -d.order.num))
  }

  function Ask(d: Deal, afterSalesOver: bool): Result<Effect, Refusal> {
    var o := d.order;
    if o.typ !in REFUNDABLE || !CanTransition(o.typ, Refunding) then Failure(WrongState)
    else if o.typ == Completed && afterSalesOver then Failure(TooLate)
    else if o.refundCount >= MAX_REFUND_REQUESTS then Failure(TooMany)
    else Success(Unchanged(d.(order :=
      o.(typ := Refunding, refundFrom := Some(o.typ), refundCount := o.refundCount + 1))))
  }

  /** The state a rejection goes back to, computed from the row as it was read before the transaction. */
  function RestoreType(refundFrom: Option<Type>): Type {
    if refundFrom.Some? && refundFrom.value in REFUNDABLE then refundFrom.value else Completed
  }

  function SettleDone(d: Deal): Result<Effect, Refusal> {
    if d.clearing.None? || !d.clearing.value.status.Cleared? then Success(Unchanged(d))
    else if d.order.typ == Refunding || d.order.typ == Refunded then Success(Unchanged(d))
    else if d.order.typ != Completed then Failure(NotCompleted)
    else
      var c := d.clearing.value;
      if c.buyer != d.order.buyer || c.seller != d.order.seller || c.net < 0 then Failure(Mismatch)
      else Success(Effect(d.(clearing := Some(c.(status := Settled, settledAt := true))),
                          Some(Movement(MerchantEscrow, Debit, Wallet(c.seller), c.net, OrderSettle)), 0))
  }

  /** MarkRestocked: a refund before shipping restocks when it is settled, one after shipping when the return
      arrives. */
  predicate Restockable(o: Order, fromWaitShip: bool) {
    o.typ == Refunded && !o.restocked && (fromWaitShip <==> o.refundFrom == Some(WaitShip))
  }

  function RefundAmount(d: Deal): Result<nat, Refusal> {
    var amount := Payable(d.order);
    if d.clearing.Some? && (d.clearing.value.fee != 0
      || d.clearing.value.gross != d.clearing.value.net) then Failure(FeeUnsupported)
    else if d.clearing.Some? && amount != d.clearing.value.gross then Failure(Mismatch)
    else if amount < 0 then Failure(BadInput)
    else Success(amount)
  }

  function SettleBack(d: Deal, env: Env): Result<Effect, Refusal> {
    var fromEscrow := d.clearing.Some? && d.clearing.value.status.Cleared?;
    if d.order.typ != Refunded then Success(Unchanged(d))
    else if d.clearing.Some? && d.clearing.value.status.Repaid? then Success(Unchanged(d))
    else if (if fromEscrow then env.escrowRepaid else env.sellerRepaid) then Success(Unchanged(d))
    else
      var amount :- RefundAmount(d);
      var m := if fromEscrow then Movement(Wallet(d.order.buyer), Credit, MerchantEscrow, amount, EscrowRefund)
               else Movement(Wallet(d.order.buyer), Credit, Wallet(d.order.seller), amount, Refund);
      var restock := Restockable(d.order, true);
      var paid := if d.clearing.None? then d.(back := Some(amount))
                  else d.(clearing := Some(d.clearing.value.(status := Repaid)));
      Success(Effect(paid.(order := d.order.(restocked := d.order.restocked || restock)), Some(m),
        if restock then d.order.num else 0))
  }

  function Positive(m: Movement, amount: int): Option<Movement> {
    if amount > 0 then Some(m) else None
  }

  function Natural(amount: int): nat {
    if amount > 0 then amount else 0
  }

  function Transact(d: Deal, e: Event, env: Env): Result<Effect, Refusal> {
    var o := d.order;
    match e
    case PayWallet => Pay(d, Wallet(o.buyer), WalletPay, "")
    case PayExternal(channel, ref) =>
      if channel == WalletPay then Failure(BadInput)
      else if !env.buyerKnown then Failure(NoBuyer)
      else Pay(d, ExternalClearing, channel, ref)
    case CloseUnpaid =>
      if o.typ == WaitPay && o.stage == NoPreorder then Success(Unchanged(Retype(d, Closed))) else Success(Unchanged(d))
    case Ship(boss) =>
      if !Owns(boss, o) then Failure(Forbidden)
      else if o.typ != WaitShip then Failure(WrongState)
      else Success(Unchanged(Retype(d, WaitReceive)))
    case Receive => if o.typ == WaitReceive then Success(Unchanged(Retype(d, Completed))) else Failure(WrongState)
    case AskRefund(afterSalesOver) => Ask(d, afterSalesOver)
    case Approve(boss) =>
      if !Owns(boss, o) then Failure(Forbidden)
      else if o.typ != Refunding then Failure(WrongState)
      else Success(Unchanged(Retype(d, Refunded)))
    case Reject(seen, boss) =>
      if !Owns(boss, o) then Failure(Forbidden)
      else if o.typ != Refunding || !CanTransition(Refunding, seen) || seen !in REFUNDABLE then Failure(WrongState)
      else Success(Unchanged(Retype(d, seen)))
    case SettleCompleted => SettleDone(d)
    case SettleRefund => SettleBack(d, env)
    case ConfirmReturn(boss) =>
      if !Owns(boss, o) then Failure(Forbidden)
      else if !Restockable(o, false) then Failure(WrongState)
      else Success(Effect(d.(order := o.(restocked := true)), None, o.num))
    case PayFinal(amount) =>
      if o.stage != DepositPaid || o.typ != WaitPay then Failure(WrongState)
      else Success(Effect(d.(order := o.(typ := WaitShip, stage := FinalPaid), last := Natural(amount)),
                          Positive(Movement(Wallet(o.buyer), Debit, Wallet(o.seller), Natural(amount),
                            PreorderFinal), amount), -o.num))
    case CancelPreorder(amount) =>
      if o.stage != DepositPaid || o.typ != WaitPay then Failure(WrongState)
      else Success(Effect(d.(order := o.(typ := Closed, stage := NoPreorder), cancelled := Natural(amount)),
                          Positive(Movement(Wallet(o.seller), Debit, Wallet(o.buyer), Natural(amount),
                            PreorderRefund), amount), 0))
    case Forfeit =>
      if o.stage != DepositPaid || o.typ != WaitPay then Success(Unchanged(d))
      else Success(Unchanged(d.(order := o.(typ := Closed, stage := Forfeited))))
    case GroupSell =>
      if o.typ != WaitGroup then Failure(WrongState)
      else
        var (cleared, m) :- Clear(d, GroupbuyEscrow, WalletPay, "", GroupbuySettle);
        Success(Effect(Retype(cleared, WaitShip), Some(m), -o.num))
    case GroupClose =>
      if o.typ != WaitGroup then Success(Unchanged(d)) else Success(GiveBack(Retype(d, Closed), env))
    case GroupRepay => Success(GiveBack(d, env))
  }

  /** refundFromEscrow of a group member's order. */
  function GiveBack(d: Deal, env: Env): Effect {
    if d.order.money <= 0 || env.groupRepaid then Unchanged(d)
    else Effect(d, Some(Movement(GroupbuyEscrow, Debit, Wallet(d.order.buyer), d.order.money, GroupbuyRefund)), 0)
  }

  // ---- What the ledger must hold for an order ----

  predicate OrderBiz(biz: Biz) {
    biz != RedPacketSend && biz != RedPacketClaim && biz != RedPacketRefund
  }

  predicate Written(d: Deal, biz: Biz) {
    match biz
    case OrderClear => d.clearing.Some? && !d.grouped
    case GroupbuySettle => d.clearing.Some? && d.grouped
    case OrderSettle => d.clearing.Some? && d.clearing.value.settledAt
    case EscrowRefund => d.clearing.Some? && d.clearing.value.status.Repaid? && !d.clearing.value.settledAt
    case Refund => (d.clearing.Some? && d.clearing.value.status.Repaid? && d.clearing.value.settledAt) || d.back.Some?
    case PreorderDeposit => d.deposit > 0
    case PreorderFinal => d.last > 0
    case PreorderRefund => d.cancelled > 0
    case GroupbuyPay => d.grouped
    case GroupbuyRefund => d.grouped && d.order.typ == Closed
    case _ => false
  }

  function Gross(d: Deal): int {
    if d.clearing.Some? then d.clearing.value.gross else 0
  }

  function Flow(written: bool, first: Account, dir: Direction, second: Account, amount: int, a: Account): int {
    if written && amount >= 0 then Moved(first, dir, second, amount, a) else 0
  }

  function Payer(d: Deal): Account {
    if d.clearing.Some? && d.clearing.value.channel != WalletPay then ExternalClearing else Wallet(d.order.buyer)
  }

  /** What the order's rows have put into an account, movement by movement. */
  function Owed(d: Deal, a: Account): int {
    var buyer, seller := Wallet(d.order.buyer), Wallet(d.order.seller);
    Flow(Written(d, OrderClear), Payer(d), Debit, MerchantEscrow, Gross(d), a)
    + Flow(Written(d, GroupbuyPay), buyer, Debit, GroupbuyEscrow, d.order.money, a)
    + Flow(Written(d, GroupbuySettle), GroupbuyEscrow, Debit, MerchantEscrow, Gross(d), a)
    + Flow(Written(d, GroupbuyRefund), GroupbuyEscrow, Debit, buyer, d.order.money, a)
    + Flow(Written(d, OrderSettle), MerchantEscrow, Debit, seller, Gross(d), a)
    + Flow(Written(d, EscrowRefund), buyer, Credit, MerchantEscrow, Gross(d), a)
    + Flow(Written(d, Refund), buyer, Credit, seller, if d.back.Some? then d.back.value else Gross(d), a)
    + Flow(Written(d, PreorderDeposit), buyer, Debit, seller, d.deposit, a)
    + Flow(Written(d, PreorderFinal), buyer, Debit, seller, d.last, a)
    + Flow(Written(d, PreorderRefund), seller, Debit, buyer, d.cancelled, a)
  }

  // ---- What every transaction keeps ----

  predicate Paid(typ: Type) {
    typ == WaitShip || typ == WaitReceive || typ == Completed || typ == Refunding || typ == Refunded
  }

  predicate ClearingOk(d: Deal) {
    d.clearing.Some? ==>
      var c := d.clearing.value;
      && c.buyer == d.order.buyer && c.seller == d.order.seller && c.fee == 0 && c.gross == c.net == Payable(d.order)
          && c.gross >= 0
      && d.order.stage == NoPreorder && Paid(d.order.typ)
      && (c.status.Cleared? ==> !c.settledAt) && (c.status.Settled? ==> c.settledAt)
      && (c.status.Repaid? ==> d.order.typ == Refunded)
      && (d.grouped ==> c.channel == WalletPay)
  }

  predicate PreorderOk(d: Deal) {
    && (d.order.stage == DepositPaid ==> d.order.typ == WaitPay)
    && (d.order.stage == Forfeited ==> d.order.typ == Closed)
    && (d.order.stage == FinalPaid ==> Paid(d.order.typ))
    && (d.order.stage == NoPreorder && d.order.typ != Closed ==> d.deposit == 0)
    && (d.last > 0 ==> d.order.stage == FinalPaid)
    && (d.cancelled > 0 ==> d.order.typ == Closed && d.order.stage == NoPreorder)
    && (d.back.Some? ==> d.order.typ == Refunded && d.order.stage == FinalPaid && d.back.value == Payable(d.order))
  }

  predicate GroupOk(d: Deal) {
    && (d.order.typ == WaitGroup ==> d.grouped)
    && (d.grouped ==>
          d.order.typ != WaitPay && d.order.stage == NoPreorder && d.order.num == 1 && d.order.money > 0
          && d.order.promoRule == 0 && d.order.coupon == 0)
  }

  predicate RefundOk(d: Deal) {
    && (d.order.restocked ==> d.order.typ == Refunded)
    && d.order.refundCount <= MAX_REFUND_REQUESTS
    && (d.order.refundFrom.Some? ==> d.order.refundFrom.value in REFUNDABLE)
    && (d.order.typ == Refunding || d.order.typ == Refunded ==> d.order.refundFrom.Some?)
  }

  /** An order is paid exactly when it has a clearing row, or both preorder payments. */
  predicate DealInv(d: Deal) {
    && ClearingOk(d) && PreorderOk(d) && GroupOk(d) && RefundOk(d)
    && (Paid(d.order.typ) <==> d.clearing.Some? || d.order.stage == FinalPaid)
    && (Paid(d.order.typ) || d.order.stage != NoPreorder ==> d.order.num > 0)
  }

  predicate EnvOk(d: Deal, env: Env) {
    && env.escrowRepaid == Written(d, EscrowRefund)
    && env.sellerRepaid == Written(d, Refund)
    && env.groupRepaid == Written(d, GroupbuyRefund)
  }

  /** Items of the order that are out of the product's stock. */
  function Taken(d: Deal): int {
    if Paid(d.order.typ) && !d.order.restocked then d.order.num else 0
  }

  predicate SameTerms(o: Order, p: Order) {
    && p.buyer == o.buyer && p.seller == o.seller && p.product == o.product && p.num == o.num && p.money == o.money
    && p.promoRule == o.promoRule && p.coupon == o.coupon && p.final == o.final
  }

  /** The movement is the one new row pair, and the order's balances move by it. */
  ghost predicate MoneyMatches(d: Deal, eff: Effect) {
    match eff.money
    case None => (forall biz :: Written(eff.deal, biz) == Written(d, biz))
      && forall a :: Owed(eff.deal, a) == Owed(d, a)
    case Some(m) =>
      && OrderBiz(m.biz) && !Written(d, m.biz)
      && (forall biz :: Written(eff.deal, biz) == (Written(d, biz) || biz == m.biz))
      && forall a :: Owed(eff.deal, a) == Owed(d, a) + Moved(m.first, m.dir, m.second, m.amount, a)
  }

  ghost predicate Sound(d: Deal, eff: Effect) {
    && DealInv(eff.deal) && SameTerms(d.order, eff.deal.order)
    && (eff.deal.order.typ != d.order.typ ==> CanTransition(d.order.typ, eff.deal.order.typ))
    && Taken(eff.deal) == Taken(d) - eff.stock
    && eff.deal.grouped == d.grouped
  }

  lemma PaymentIsSound(d: Deal, payer: Account, channel: Channel, ref: string)
    requires DealInv(d) && Pay(d, payer, channel, ref).Success?
    ensures Sound(d, Pay(d, payer, channel, ref).value)
  {
  }

  lemma PaymentMatches(d: Deal, payer: Account, channel: Channel, ref: string)
    requires DealInv(d) && Pay(d, payer, channel, ref).Success?
    requires payer == if channel == WalletPay then Wallet(d.order.buyer) else ExternalClearing
    ensures MoneyMatches(d, Pay(d, payer, channel, ref).value)
  {
  }

  lemma SettlementIsSound(d: Deal)
    requires DealInv(d) && SettleDone(d).Success?
    ensures Sound(d, SettleDone(d).value)
  {
  }

  lemma SettlementMatches(d: Deal)
    requires DealInv(d) && SettleDone(d).Success?
    ensures MoneyMatches(d, SettleDone(d).value)
  {
  }

  lemma RefundIsSound(d: Deal, env: Env)
    requires DealInv(d) && EnvOk(d, env) && SettleBack(d, env).Success?
    ensures Sound(d, SettleBack(d, env).value)
  {
  }

  lemma RefundMatches(d: Deal, env: Env)
    requires DealInv(d) && EnvOk(d, env) && SettleBack(d, env).Success?
    ensures MoneyMatches(d, SettleBack(d, env).value)
  {
  }

  predicate MovesMoney(e: Event) {
    e.PayWallet? || e.PayExternal? || e.SettleCompleted? || e.SettleRefund? || e.PayFinal? || e.CancelPreorder?
    || e.GroupSell? || e.GroupClose? || e.GroupRepay?
  }

  /** The events that only write the order row. */
  lemma StatusEventIsSound(d: Deal, e: Event, env: Env)
    requires DealInv(d) && !MovesMoney(e) && Transact(d, e, env).Success?
    ensures Sound(d, Transact(d, e, env).value)
  {
  }

  lemma StatusEventMatches(d: Deal, e: Event, env: Env)
    requires DealInv(d) && !MovesMoney(e) && Transact(d, e, env).Success?
    ensures MoneyMatches(d, Transact(d, e, env).value)
  {
    var d1 := Transact(d, e, env).value.deal;
    assert d1 == d.(order := d1.order) && SameTerms(d.order, d1.order);
    assert d.grouped ==> (d1.order.typ == Closed <==> d.order.typ == Closed);
    assert forall biz :: Written(d1, biz) == Written(d, biz);
  }

  lemma PreorderEventIsSound(d: Deal, e: Event, env: Env)
    requires DealInv(d) && (e.PayFinal? || e.CancelPreorder?) && Transact(d, e, env).Success?
    ensures Sound(d, Transact(d, e, env).value)
  {
  }

  lemma PreorderEventMatches(d: Deal, e: Event, env: Env)
    requires DealInv(d) && (e.PayFinal? || e.CancelPreorder?) && Transact(d, e, env).Success?
    ensures MoneyMatches(d, Transact(d, e, env).value)
  {
  }

  /** A group member's order is sold or closed once, and repaid only after it was closed. */
  predicate GroupEvent(d: Deal, e: Event) {
    e.GroupSell? || e.GroupClose? || (e.GroupRepay? && d.grouped && d.order.typ == Closed)
  }

  lemma GroupEventIsSound(d: Deal, e: Event, env: Env)
    requires DealInv(d) && EnvOk(d, env) && GroupEvent(d, e) && Transact(d, e, env).Success?
    ensures Sound(d, Transact(d, e, env).value)
  {
  }

  lemma GroupEventMatches(d: Deal, e: Event, env: Env)
    requires DealInv(d) && EnvOk(d, env) && GroupEvent(d, e) && Transact(d, e, env).Success?
    ensures MoneyMatches(d, Transact(d, e, env).value)
  {
  }

  /** Every committed transaction keeps the order's books, moves only along the transition table, and moves the stock by
      what the order takes or gives back. */
  lemma TransactionIsSound(d: Deal, e: Event, env: Env)
    requires DealInv(d) && EnvOk(d, env) && Transact(d, e, env).Success?
    requires e.GroupRepay? ==> d.grouped && d.order.typ == Closed
    ensures Sound(d, Transact(d, e, env).value) && MoneyMatches(d, Transact(d, e, env).value)
  {
    match e
    case PayWallet =>
      PaymentIsSound(d, Wallet(d.order.buyer), WalletPay, "");
      PaymentMatches(d, Wallet(d.order.buyer), WalletPay, "");
    case PayExternal(channel, ref) =>
      PaymentIsSound(d, ExternalClearing, channel, ref);
      PaymentMatches(d, ExternalClearing, channel, ref);
    case SettleCompleted =>
      SettlementIsSound(d);
      SettlementMatches(d);
    case SettleRefund =>
      RefundIsSound(d, env);
      RefundMatches(d, env);
    case PayFinal(_) =>
      PreorderEventIsSound(d, e, env);
      PreorderEventMatches(d, e, env);
    case CancelPreorder(_) =>
      PreorderEventIsSound(d, e, env);
      PreorderEventMatches(d, e, env);
    case GroupSell =>
      GroupEventIsSound(d, e, env);
      GroupEventMatches(d, e, env);
    case GroupClose =>
      GroupEventIsSound(d, e, env);
      GroupEventMatches(d, e, env);
    case GroupRepay =>
      GroupEventIsSound(d, e, env);
      GroupEventMatches(d, e, env);
    case _ =>
      StatusEventIsSound(d, e, env);
      StatusEventMatches(d, e, env);
  }

  // ---- What that means for the money of one order ----

  /** The merchant escrow holds the order's net amount exactly while its clearing row is `cleared`. */
  lemma EscrowHoldsIffCleared(d: Deal)
    requires DealInv(d)
    ensures Owed(d, MerchantEscrow) ==
      if d.clearing.Some? && d.clearing.value.status.Cleared? then d.clearing.value.net else 0
  {
  }

  lemma GroupEscrowHoldsIffWaiting(d: Deal)
    requires DealInv(d)
    ensures Owed(d, GroupbuyEscrow) == if d.order.typ == WaitGroup then d.order.money else 0
  {
  }

  /** Once its clearing row is refunded the order has left nothing with the escrow or the seller, and the buyer is where
      he started, or has the money in the wallet that came in from outside. */
  lemma RefundedNetsZero(d: Deal)
    requires DealInv(d) && d.clearing.Some? && d.clearing.value.status.Repaid?
    ensures Owed(d, MerchantEscrow) == 0 && Owed(d, Wallet(d.order.buyer)) == 0 - Owed(d, ExternalClearing)
    ensures d.order.seller != d.order.buyer ==> Owed(d, Wallet(d.order.seller)) == 0
  {
    EscrowHoldsIffCleared(d);
    if d.order.seller != d.order.buyer {
      SettledPaysTheSeller(d);
      BuyerAfterRefund(d);
    } else {
      OwnOrderBalance(d);
      FromOutside(d);
    }
  }

  lemma FromOutside(d: Deal)
    requires DealInv(d) && d.clearing.Some?
    ensures Owed(d, ExternalClearing) == if d.clearing.value.channel == WalletPay then 0 else 0 - d.clearing.value.gross
  {
  }

  lemma BuyerAfterRefund(d: Deal)
    requires DealInv(d) && d.clearing.Some? && d.clearing.value.status.Repaid? && d.order.buyer != d.order.seller
    ensures Owed(d, Wallet(d.order.buyer)) == 0 - Owed(d, ExternalClearing)
  {
    FromOutside(d);
  }

  /** Who buys from himself has paid, if from the wallet, and got back what has left the escrow. */
  lemma OwnOrderBalance(d: Deal)
    requires DealInv(d) && d.clearing.Some? && d.order.buyer == d.order.seller
    ensures var c := d.clearing.value;
      Owed(d, Wallet(d.order.buyer)) ==
        (if c.status.Cleared? then 0 else c.net) - if c.channel == WalletPay then c.gross else 0
  {
  }

  /** A settled order has put its net amount into the seller's wallet and nothing else. */
  lemma SettledPaysTheSeller(d: Deal)
    requires DealInv(d) && d.clearing.Some? && d.order.buyer != d.order.seller
    ensures Owed(d, Wallet(d.order.seller)) == if d.clearing.value.status.Settled? then d.clearing.value.net else 0
  {
  }

  lemma RestockEvents(d: Deal, e: Event, env: Env)
    requires DealInv(d) && EnvOk(d, env) && Transact(d, e, env).Success? && !e.GroupSell? && !e.GroupClose?
    requires !e.GroupRepay?
    ensures var eff := Transact(d, e, env).value;
      && (eff.stock > 0 ==>
            !d.order.restocked && eff.deal.order.restocked && eff.stock == d.order.num && d.order.typ == Refunded)
      && (d.order.restocked ==> eff.deal.order.restocked)
  {
    TransactionIsSound(d, e, env);
  }

  lemma CancelledBalance(d: Deal, amount: int, env: Env)
    requires DealInv(d) && Transact(d, CancelPreorder(amount), env).Success?
    ensures Owed(Transact(d, CancelPreorder(amount), env).value.deal, Wallet(d.order.buyer))
      == if d.order.buyer == d.order.seller then 0 else Natural(amount) - d.deposit
  {
  }

  lemma RepaidBalance(d: Deal)
    requires DealInv(d) && d.back.Some?
    ensures Owed(d, Wallet(d.order.buyer)) ==
      if d.order.buyer == d.order.seller then 0 else Payable(d.order) - d.deposit - d.last
  {
  }

  // ---- What no transaction takes back ----

  /** Terms and payments in stay; every new refund request is counted; a preorder paid in full stays so. */
  predicate Follows(d: Deal, t: Deal) {
    && SameTerms(d.order, t.order) && t.deposit == d.deposit
    && t.order.refundCount >= d.order.refundCount
    && (t.order.refundCount == d.order.refundCount ==> t.order.refundFrom == d.order.refundFrom)
    && (d.order.stage == FinalPaid ==> t.order.stage == FinalPaid && t.last == d.last)
  }

  lemma TransactFollows(d: Deal, e: Event, env: Env)
    requires Transact(d, e, env).Success?
    ensures Follows(d, Transact(d, e, env).value.deal)
  {
  }
}

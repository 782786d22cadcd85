/** Preorders and refund requests over runs: when a repayment returns what was paid, when a rejection restores the state
    before the request, and the runs in which they do not. */
module MallRefunds {
  import opened Results
  import opened Ledger
  import opened Orders
  import opened Mall
  import opened MallBooks
  import opened MallRuns
  import opened MallTheorems

  // ---- Runs go on ----

  lemma ReachStep(s: State, step: Step, opening: map<nat, int>)
    requires Reachable(s, opening)
    ensures Reachable(Apply(s, step), opening)
  {
    var start, steps :| Opening(start, opening) && After(start, steps) == s;
    assert (steps + [step])[..|steps|] == steps;
    assert After(start, steps + [step]) == Apply(s, step);
  }

  lemma {:induction false} ReachSteps(s: State, steps: seq<Step>, opening: map<nat, int>)
    requires Reachable(s, opening)
    ensures Reachable(After(s, steps), opening)
  {
    if steps != [] {
      ReachSteps(s, steps[..|steps| - 1], opening);
      ReachStep(After(s, steps[..|steps| - 1]), steps[|steps| - 1], opening);
    }
  }

  /** All orders of `s` are there in `t`, each following its earlier self. */
  ghost predicate AllFollow(s: State, t: State) {
    |s.deals| <= |t.deals| && forall id :: 0 <= id < |s.deals| ==> Follows(s.deals[id], t.deals[id])
  }

  lemma ActFollows(s: State, id: nat, e: Event)
    requires Act(s, id, e).Some?
    ensures AllFollow(s, Act(s, id, e).value)
  {
    TransactFollows(s.deals[id], e, EnvOf(s, id));
  }

  lemma {:induction false} LoopFollows(s: State, members: seq<Member>, e: Event)
    requires ActAll(s, members, e).Some?
    ensures AllFollow(s, ActAll(s, members, e).value)
  {
    if members != [] {
      LoopFollows(s, members[..|members| - 1], e);
      ActFollows(ActAll(s, members[..|members| - 1], e).value, members[|members| - 1].order, e);
    }
  }

  lemma StepFollows(s: State, step: Step)
    ensures AllFollow(s, Apply(s, step))
  {
    match step
    case OnOrder(id, e) =>
      if Act(s, id, e).Some? {
        ActFollows(s, id, e);
      }
    case SucceedGroup(gid) =>
      if MarkSuccess(s, gid).Some? {
        LoopFollows(s, s.groups[gid].members, GroupSell);
      }
    case DissolveGroup(gid, to) =>
      if Dissolve(s, gid, to).Some? {
        LoopFollows(s, s.groups[gid].members, GroupClose);
      }
    case ReplayExpired(gid) =>
      if SettleExpired(s, gid).Some? {
        LoopFollows(s, s.groups[gid].members, GroupRepay);
      }
    case _ =>
  }

  lemma {:induction false} RunFollows(s: State, steps: seq<Step>)
    ensures AllFollow(s, After(s, steps))
  {
    if steps != [] {
      RunFollows(s, steps[..|steps| - 1]);
      StepFollows(After(s, steps[..|steps| - 1]), steps[|steps| - 1]);
    }
  }

  // ---- What the invariant says about one order ----

  lemma NetIsOwed(s: State, id: nat, a: Account, opening: map<nat, int>)
    requires Reachable(s, opening) && id < |s.deals|
    ensures DealInv(s.deals[id]) && Net(s.books.rows, OrderKeys(id), a) == Owed(s.deals[id], a)
  {
    ReachedIsSound(s, opening);
    assert OrderOk(s.books.rows, id, s.deals[id]);
  }

  lemma NotPosted(s: State, id: nat, biz: Biz, opening: map<nat, int>)
    requires Reachable(s, opening) && OrderBiz(biz) && (id < |s.deals| ==> !Written(s.deals[id], biz))
    ensures !HasRow(s.books.rows, id, Debit, biz) && !HasRow(s.books.rows, id, Credit, biz)
  {
    ReachedIsSound(s, opening);
    if id < |s.deals| {
      assert OrderOk(s.books.rows, id, s.deals[id]);
    }
  }

  // ---- Preorders ----

  lemma ActKeepsOrderOk(s: State, id: nat, e: Event, opening: map<nat, int>)
    requires MallInv(s, opening) && id < |s.deals| && !GroupOnly(e) && Act(s, id, e).Some?
    ensures OrderOk(s.books.rows, id, s.deals[id])
    ensures OrderOk(Act(s, id, e).value.books.rows, id, Act(s, id, e).value.deals[id])
    ensures Transact(s.deals[id], e, EnvOf(s, id)).Success?
    ensures Act(s, id, e).value.deals[id] == Transact(s.deals[id], e, EnvOf(s, id)).value.deal
  {
    ActEffect(s, id, e, opening);
    ActKeepsOrders(s, id, e, opening);
  }

  lemma ActBalance(s: State, id: nat, e: Event, a: Account, opening: map<nat, int>)
    requires MallInv(s, opening) && id < |s.deals| && !GroupOnly(e) && Act(s, id, e).Some?
    ensures DealInv(s.deals[id]) && Transact(s.deals[id], e, EnvOf(s, id)).Success?
    ensures Net(Act(s, id, e).value.books.rows, OrderKeys(id), a) ==
      Owed(Transact(s.deals[id], e, EnvOf(s, id)).value.deal, a)
  {
    ActKeepsOrderOk(s, id, e, opening);
  }

  /** Cancelling in the deposit window pays back the configured deposit, which leaves the buyer where he started exactly
      when he bought from himself, or the configured deposit is still the one he paid. */
  lemma CancelIsExactIff(s: State, id: nat, amount: int, opening: map<nat, int>)
    requires Reachable(s, opening) && id < |s.deals| && Act(s, id, CancelPreorder(amount)).Some?
    ensures var d := s.deals[id];
      Net(Act(s, id, CancelPreorder(amount)).value.books.rows, OrderKeys(id), Wallet(d.order.buyer)) == 0
      <==> d.order.buyer == d.order.seller || Natural(amount) == d.deposit
  {
    ReachedIsSound(s, opening);
    ActBalance(s, id, CancelPreorder(amount), Wallet(s.deals[id].order.buyer), opening);
    CancelledBalance(s.deals[id], amount, EnvOf(s, id));
  }

  /** A preorder is paid in full with the amount configured at that moment, and refunded, at any time after, with
      the sum fixed at the deposit. That leaves the buyer where he started exactly when he bought from himself, or
      the amount of the final payment was the rest of that sum. */
  lemma PreorderRefundIsExactIff(s: State, id: nat, amount: int, steps: seq<Step>, opening: map<nat, int>)
    requires Reachable(s, opening) && id < |s.deals| && Act(s, id, PayFinal(amount)).Some?
    requires id < |After(Act(s, id, PayFinal(amount)).value, steps).deals|
    requires After(Act(s, id, PayFinal(amount)).value, steps).deals[id].back.Some?
    ensures var d := s.deals[id]; var t := After(Act(s, id, PayFinal(amount)).value, steps);
      Net(t.books.rows, OrderKeys(id), Wallet(d.order.buyer)) == 0
      <==> d.order.buyer == d.order.seller || d.deposit + Natural(amount) == Payable(d.order)
  {
    var paid := Act(s, id, PayFinal(amount)).value;
    var t := After(paid, steps);
    PaidInFull(s, id, amount, opening);
    ReachSteps(paid, steps, opening);
    RunFollows(paid, steps);
    assert Follows(paid.deals[id], t.deals[id]);
    NetIsOwed(t, id, Wallet(s.deals[id].order.buyer), opening);
    RepaidBalance(t.deals[id]);
  }

  lemma PaidInFull(s: State, id: nat, amount: int, opening: map<nat, int>)
    requires Reachable(s, opening) && id < |s.deals| && Act(s, id, PayFinal(amount)).Some?
    ensures var t := Act(s, id, PayFinal(amount)).value; var d := s.deals[id];
      && Reachable(t, opening) && id < |t.deals|
      && t.deals[id] == d.(order := d.order.(typ := WaitShip, stage := FinalPaid), last := Natural(amount))
  {
    assert Apply(s, OnOrder(id, PayFinal(amount))) == Act(s, id, PayFinal(amount)).value;
    ReachStep(s, OnOrder(id, PayFinal(amount)), opening);
  }

  // ---- Preorders whose configuration changes ----

  function WithWallets(s: State, from: nat, to: nat, amount: nat): map<nat, int>
    requires from in s.books.wallets && to in s.books.wallets
  {
    s.books.wallets[from := s.books.wallets[from] - amount][to := s.books.wallets[to] + amount]
  }

  lemma PaidBetween(b: Books, from: nat, to: nat, amount: nat, ref: nat, biz: Biz)
    requires from in b.wallets && to in b.wallets && from != to && b.wallets[from] >= amount
    requires !HasRow(b.rows, ref, Debit, biz) && !HasRow(b.rows, ref, Credit, biz)
    ensures var r := Move(b, Wallet(from), Debit, Wallet(to), amount, ref, biz);
      r.Success? && r.value.wallets == b.wallets[from := b.wallets[from] - amount][to := b.wallets[to] + amount]
  {
    PostHas(b, Wallet(from), Debit, amount, ref, biz, ref, Credit, biz);
  }

  /** A buyer pays a deposit, fixing deposit and final payment. */
  lemma DepositStep(s: State, buyer: nat, seller: nat, product: nat, deposit: nat, final: nat, opening: map<nat, int>)
    requires Reachable(s, opening) && buyer != seller && buyer in s.books.wallets && seller in s.books.wallets
    requires 0 < deposit <= s.books.wallets[buyer]
    ensures var t := Apply(s, PlaceDeposit(buyer, seller, product, deposit, final));
      && Reachable(t, opening) && |t.deals| == |s.deals| + 1 && t.stock == s.stock
      && t.deals[|s.deals|] ==
         Deal(NewOrder(buyer, seller, product, 1, deposit + final, 0, 0, 0, WaitPay, DepositPaid), None, false,
           deposit, 0, 0, None)
      && t.books.wallets == WithWallets(s, buyer, seller, deposit)
  {
    NotPosted(s, |s.deals|, PreorderDeposit, opening);
    PaidBetween(s.books, buyer, seller, deposit, |s.deals|, PreorderDeposit);
    DepositPays(s, buyer, seller, product, deposit, final);
    ReachStep(s, PlaceDeposit(buyer, seller, product, deposit, final), opening);
  }

  lemma DepositPays(s: State, buyer: nat, seller: nat, product: nat, deposit: nat, final: nat)
    requires deposit > 0
    requires Move(s.books, Wallet(buyer), Debit, Wallet(seller), deposit, |s.deals|, PreorderDeposit).Success?
    ensures Apply(s, PlaceDeposit(buyer, seller, product, deposit, final)) == s.(
              books := Move(s.books, Wallet(buyer), Debit, Wallet(seller), deposit, |s.deals|, PreorderDeposit).value,
              deals := s.deals +
                [Deal(NewOrder(buyer, seller, product, 1, deposit + final, 0, 0, 0, WaitPay, DepositPaid), None, false,
                   deposit, 0, 0, None)])
  {
  }

  /** The configured deposit is changed between payment and cancellation: from any reachable state the buyer is left
      with the difference. */
  lemma ChangedDepositIsNotReturned(s: State, buyer: nat, seller: nat, product: nat, deposit: nat, final: nat,
                                    amount: nat,
                                    opening: map<nat, int>)
    requires Reachable(s, opening) && buyer != seller && buyer in s.books.wallets && seller in s.books.wallets
    requires 0 < deposit <= s.books.wallets[buyer] && amount != deposit
    requires 0 < amount <= s.books.wallets[seller] + deposit
    ensures var id := |s.deals|; var t := Apply(s, PlaceDeposit(buyer, seller, product, deposit, final));
      var cancelled := Apply(t, OnOrder(id, CancelPreorder(amount)));
      && Reachable(cancelled, opening) && id < |cancelled.deals| && cancelled.deals[id].order.typ == Closed
      && Net(cancelled.books.rows, OrderKeys(id), Wallet(buyer)) == amount - deposit
  {
    var id, t := |s.deals|, Apply(s, PlaceDeposit(buyer, seller, product, deposit, final));
    DepositStep(s, buyer, seller, product, deposit, final, opening);
    NotPosted(t, id, PreorderRefund, opening);
    PaidBetween(t.books, seller, buyer, amount, id, PreorderRefund);
    CancelPays(t, id, amount);
    var cancelled := Apply(t, OnOrder(id, CancelPreorder(amount)));
    ReachStep(t, OnOrder(id, CancelPreorder(amount)), opening);
    NetIsOwed(cancelled, id, Wallet(buyer), opening);
    NetIsOwed(t, id, Wallet(buyer), opening);
    CancelledBalance(t.deals[id], amount, EnvOf(t, id));
  }

  lemma CancelPays(s: State, id: nat, amount: nat)
    requires id < |s.deals| && amount > 0 && s.deals[id].order.stage == DepositPaid && s.deals[id].order.typ == WaitPay
    requires var o := s.deals[id].order;
      Move(s.books, Wallet(o.seller), Debit, Wallet(o.buyer), amount, id, PreorderRefund).Success?
    ensures Transact(s.deals[id], CancelPreorder(amount), EnvOf(s, id)).Success?
    ensures var t := Apply(s, OnOrder(id, CancelPreorder(amount)));
      && |t.deals| == |s.deals| && t.deals[id] == Transact(s.deals[id], CancelPreorder(amount), EnvOf(s, id)).value.deal
      && t.deals[id].order.typ == Closed
  {
  }

  lemma FinalStep(s: State, id: nat, amount: nat, opening: map<nat, int>)
    requires Reachable(s, opening) && id < |s.deals| && amount > 0
    requires var o := s.deals[id].order;
      && o.stage == DepositPaid && o.typ == WaitPay && o.num == 1 && o.buyer != o.seller
          && o.buyer in s.books.wallets && o.seller in s.books.wallets
      && amount <= s.books.wallets[o.buyer] && o.product in s.stock && s.stock[o.product] >= 1
    ensures var d := s.deals[id]; var t := Apply(s, OnOrder(id, PayFinal(amount)));
      && Reachable(t, opening) && id < |t.deals| && d.order.product in t.stock
      && t.deals[id] == d.(order := d.order.(typ := WaitShip, stage := FinalPaid), last := amount)
      && t.books.wallets == WithWallets(s, d.order.buyer, d.order.seller, amount)
  {
    var o := s.deals[id].order;
    FinalNotPosted(s, id, opening);
    PaidBetween(s.books, o.buyer, o.seller, amount, id, PreorderFinal);
    FinalPays(s, id, amount);
    ReachStep(s, OnOrder(id, PayFinal(amount)), opening);
  }

  lemma FinalNotPosted(s: State, id: nat, opening: map<nat, int>)
    requires Reachable(s, opening) && id < |s.deals| && s.deals[id].order.stage == DepositPaid
    ensures !HasRow(s.books.rows, id, Debit, PreorderFinal) && !HasRow(s.books.rows, id, Credit, PreorderFinal)
  {
    NetIsOwed(s, id, MerchantEscrow, opening);
    NotPosted(s, id, PreorderFinal, opening);
  }

  lemma FinalPays(s: State, id: nat, amount: nat)
    requires id < |s.deals| && amount > 0
    requires var o := s.deals[id].order;
      && o.stage == DepositPaid && o.typ == WaitPay && o.num == 1 && o.product in s.stock && s.stock[o.product] >= 1
      && Move(s.books, Wallet(o.buyer), Debit, Wallet(o.seller), amount, id, PreorderFinal).Success?
    ensures var d := s.deals[id]; var o := d.order; var t := Apply(s, OnOrder(id, PayFinal(amount)));
      && t == s.(deals := s.deals[id := d.(order := o.(typ := WaitShip, stage := FinalPaid), last := amount)],
                 books := Move(s.books, Wallet(o.buyer), Debit, Wallet(o.seller), amount, id, PreorderFinal).value,
                 stock := s.stock[o.product := s.stock[o.product] - 1])
  {
  }

  lemma ApproveStep(s: State, id: nat)
    requires id < |s.deals| && s.deals[id].order.typ == Refunding
    ensures Apply(s, OnOrder(id, Approve(0))) == WithOrder(s, id, s.deals[id].order.(typ := Refunded))
  {
  }

  /** The refund of an approved preorder that had not shipped, from the seller's wallet. */
  lemma RepayStep(s: State, id: nat, opening: map<nat, int>)
    requires Reachable(s, opening) && id < |s.deals|
    requires var d := s.deals[id];
      && d.order.typ == Refunded && d.clearing.None? && d.back.None? && d.order.refundFrom == Some(WaitShip)
          && !d.order.restocked
      && d.order.buyer in s.books.wallets && d.order.seller in s.books.wallets && d.order.buyer != d.order.seller
      && 0 <= Payable(d.order) <= s.books.wallets[d.order.seller] && d.order.product in s.stock && d.order.num >= 0
    ensures var t := Apply(s, OnOrder(id, SettleRefund));
      && Reachable(t, opening) && id < |t.deals|
      && t.deals[id].back == Some(Payable(s.deals[id].order))
  {
    var d := s.deals[id];
    NotPosted(s, id, Refund, opening);
    MoveGoesThroughIff(s.books, Wallet(d.order.buyer), Credit, Wallet(d.order.seller), Payable(d.order), id, Refund);
    RepayPays(s, id);
    ReachStep(s, OnOrder(id, SettleRefund), opening);
  }

  lemma RepayPays(s: State, id: nat)
    requires id < |s.deals| && !HasRow(s.books.rows, id, Credit, Refund)
    requires var d := s.deals[id]; var o := d.order;
      && o.typ == Refunded && d.clearing.None? && d.back.None? && o.refundFrom == Some(WaitShip) && !o.restocked
      && o.product in s.stock && Payable(o) >= 0
      && o.num >= 0
      && Move(s.books, Wallet(o.buyer), Credit, Wallet(o.seller), Payable(o), id, Refund).Success?
    ensures var t := Apply(s, OnOrder(id, SettleRefund));
      id < |t.deals| && t.deals[id].back == Some(Payable(s.deals[id].order))
  {
  }

  function Refunded3(s: State, id: nat): State {
    Apply(Apply(Apply(s, OnOrder(id, AskRefund(false))), OnOrder(id, Approve(0))), OnOrder(id, SettleRefund))
  }

  lemma RefundSteps(s: State, id: nat, opening: map<nat, int>)
    requires Reachable(s, opening) && id < |s.deals|
    requires var d := s.deals[id];
      && d.order.typ == WaitShip && d.order.stage == FinalPaid && d.order.refundCount == 0 && d.clearing.None?
          && d.back.None?
      && !d.order.restocked && d.order.buyer in s.books.wallets && d.order.seller in s.books.wallets
      && d.order.buyer != d.order.seller && 0 <= Payable(d.order) <= s.books.wallets[d.order.seller]
          && d.order.product in s.stock
      && d.order.num >= 0
    ensures Reachable(Refunded3(s, id), opening) && id < |Refunded3(s, id).deals|
    ensures Refunded3(s, id).deals[id].back.Some?
  {
    AskStep(s, id);
    ReachStep(s, OnOrder(id, AskRefund(false)), opening);
    var asked := Apply(s, OnOrder(id, AskRefund(false)));
    ApproveStep(asked, id);
    ReachStep(asked, OnOrder(id, Approve(0)), opening);
    RepayStep(Apply(asked, OnOrder(id, Approve(0))), id, opening);
  }

  /** The configured final payment is changed between deposit and final payment: from any reachable state the refund
      leaves the buyer with the difference. */
  lemma ChangedFinalIsNotReturned(s: State, buyer: nat, seller: nat, product: nat, deposit: nat, final: nat,
                                  amount: nat,
                                  opening: map<nat, int>)
    requires Reachable(s, opening) && buyer != seller && buyer in s.books.wallets && seller in s.books.wallets
    requires 0 < deposit && 0 < amount != final && deposit + amount <= s.books.wallets[buyer]
    requires s.books.wallets[seller] + amount >= final && product in s.stock && s.stock[product] >= 1
    ensures var id := |s.deals|;
      var paid := Apply(Apply(s, PlaceDeposit(buyer, seller, product, deposit, final)), OnOrder(id, PayFinal(amount)));
      var t := Refunded3(paid, id);
      && Reachable(t, opening) && id < |t.deals| && t.deals[id].back.Some?
      && Net(t.books.rows, OrderKeys(id), Wallet(buyer)) == final - amount
  {
    var id, ordered := |s.deals|, Apply(s, PlaceDeposit(buyer, seller, product, deposit, final));
    DepositStep(s, buyer, seller, product, deposit, final, opening);
    FinalStep(ordered, id, amount, opening);
    var paid := Apply(ordered, OnOrder(id, PayFinal(amount)));
    RefundSteps(paid, id, opening);
    var t := Refunded3(paid, id);
    var steps := [OnOrder(id, AskRefund(false)), OnOrder(id, Approve(0)), OnOrder(id, SettleRefund)];
    ThreeSteps(paid, steps[0], steps[1], steps[2]);
    RunFollows(paid, steps);
    assert Follows(paid.deals[id], t.deals[id]);
    NetIsOwed(t, id, Wallet(buyer), opening);
    RepaidBalance(t.deals[id]);
  }

  lemma ThreeSteps(s: State, x: Step, y: Step, z: Step)
    ensures After(s, [x, y, z]) == Apply(Apply(Apply(s, x), y), z)
  {
    assert [x, y, z][..2] == [x, y] && [x, y][..1] == [x] && [x][..0] == [];
    assert After(s, [x]) == Apply(s, x);
    assert After(s, [x, y]) == Apply(Apply(s, x), y);
  }

  // ---- Rejected refunds ----

  /** A rejection is decided on a refunding order as it was read, and committed after any steps. It restores the
      state before the request exactly when the order is then on a request made from the same state as the one read;
      in particular when no further request came in between. */
  lemma RejectRestoresIff(s: State, steps: seq<Step>, id: nat, boss: nat, opening: map<nat, int>)
    requires Reachable(s, opening) && id < |s.deals| && s.deals[id].order.typ == Refunding
    requires Act(After(s, steps), id, Reject(RestoreType(s.deals[id].order.refundFrom), boss)).Some?
    ensures id < |After(s, steps).deals|
    ensures var before, now := s.deals[id].order, After(s, steps).deals[id].order;
      var rejected := Act(After(s, steps), id, Reject(RestoreType(before.refundFrom), boss)).value.deals[id].order;
      && now.refundFrom.Some?
      && (rejected.typ == now.refundFrom.value <==> now.refundFrom == before.refundFrom)
      && (now.refundCount == before.refundCount ==> rejected.typ == now.refundFrom.value)
  {
    var t, before := After(s, steps), s.deals[id];
    NetIsOwed(s, id, MerchantEscrow, opening);
    ReachSteps(s, steps, opening);
    RunFollows(s, steps);
    assert Follows(before, t.deals[id]);
    NetIsOwed(t, id, MerchantEscrow, opening);
    RejectWrites(t, id, RestoreType(before.order.refundFrom), boss);
  }

  lemma RejectWrites(s: State, id: nat, seen: Type, boss: nat)
    requires Act(s, id, Reject(seen, boss)).Some?
    ensures s.deals[id].order.typ == Refunding
    ensures Act(s, id, Reject(seen, boss)).value == WithOrder(s, id, s.deals[id].order.(typ := seen))
  {
  }

  function WithOrder(s: State, id: nat, o: Order): State
    requires id < |s.deals|
  {
    s.(deals := s.deals[id := s.deals[id].(order := o)])
  }

  lemma AskStep(s: State, id: nat)
    requires id < |s.deals| && s.deals[id].order.typ in REFUNDABLE
    requires s.deals[id].order.refundCount < MAX_REFUND_REQUESTS
    ensures var o := s.deals[id].order;
      Apply(s, OnOrder(id, AskRefund(false)))
      == WithOrder(s, id, o.(typ := Refunding, refundFrom := Some(o.typ), refundCount := o.refundCount + 1))
  {
  }

  lemma RejectStep(s: State, id: nat, seen: Type, boss: nat)
    requires id < |s.deals| && s.deals[id].order.typ == Refunding && Owns(boss, s.deals[id].order)
    requires seen in REFUNDABLE && (id, seen) in s.decisions
    ensures Apply(s, OnOrder(id, Reject(seen, boss))) == WithOrder(s, id, s.deals[id].order.(typ := seen))
  {
  }

  lemma DeliverSteps(s: State, id: nat, boss: nat)
    requires id < |s.deals| && s.deals[id].order.typ == WaitShip && Owns(boss, s.deals[id].order)
    ensures Apply(Apply(s, OnOrder(id, Ship(boss))), OnOrder(id, Receive)) ==
      WithOrder(s, id, s.deals[id].order.(typ := Completed))
  {
    var shipped := Apply(s, OnOrder(id, Ship(boss)));
    assert shipped == WithOrder(s, id, s.deals[id].order.(typ := WaitReceive));
    assert Apply(shipped, OnOrder(id, Receive)) == WithOrder(shipped, id, s.deals[id].order.(typ := Completed));
  }

  /** The decision on the request of an order that had not shipped is read, another rejection restores the order, and it
      is delivered. */
  function Delivered(s: State, id: nat, boss: nat): State {
    var asked := Apply(Apply(s, OnOrder(id, AskRefund(false))), ReadForReject(id));
    var shipped := Apply(Apply(asked, OnOrder(id, Reject(WaitShip, boss))), OnOrder(id, Ship(boss)));
    Apply(shipped, OnOrder(id, Receive))
  }

  lemma DeliveryAfterRequest(s: State, id: nat, boss: nat)
    requires id < |s.deals|
    requires var o := s.deals[id].order; o.typ == WaitShip && o.refundCount < MAX_REFUND_REQUESTS && Owns(boss, o)
    ensures var o := s.deals[id].order; var t := Delivered(s, id, boss);
      && id < |t.deals| && (id, WaitShip) in t.decisions
      && t.deals[id].order == o.(typ := Completed, refundFrom := Some(WaitShip), refundCount := o.refundCount + 1)
  {
    AskStep(s, id);
    var asked := Apply(Apply(s, OnOrder(id, AskRefund(false))), ReadForReject(id));
    assert (id, WaitShip) in asked.decisions;
    RejectStep(asked, id, WaitShip, boss);
    DeliverSteps(Apply(asked, OnOrder(id, Reject(WaitShip, boss))), id, boss);
  }

  /** It need not be: the same decision, run after the delivery and a second request, takes the completed order back to
      waiting for shipment. */
  lemma StaleRejectUndoesDelivery(s: State, id: nat, boss: nat)
    requires id < |s.deals|
    requires var o := s.deals[id].order; o.typ == WaitShip && o.refundCount + 2 <= MAX_REFUND_REQUESTS && Owns(boss, o)
    ensures var again := Apply(Delivered(s, id, boss), OnOrder(id, AskRefund(false)));
      && id < |again.deals| && again.deals[id].order.refundFrom == Some(Completed)
      && id < |Apply(again, OnOrder(id, Reject(WaitShip, boss))).deals|
      && Apply(again, OnOrder(id, Reject(WaitShip, boss))).deals[id].order.typ == WaitShip
  {
    DeliveryAfterRequest(s, id, boss);
    var delivered := Delivered(s, id, boss);
    AskStep(delivered, id);
    RejectStep(Apply(delivered, OnOrder(id, AskRefund(false))), id, WaitShip, boss);
  }
}

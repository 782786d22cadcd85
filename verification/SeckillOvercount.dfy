/** Runs with data loss and re-heating, before any repair: Redis only ever has too much stock and too little user
    quota, and the abort rules shrink exactly that. */
module SeckillOvercount {
  import opened Results
  import opened Seckill
  import opened SeckillRuns

  /** Sold-out rejections whose ticket Redis still holds. */
  ghost function SoldOutHeld(s: Sys): set<Member> {
    s.soldOut * s.redis.inflight
  }

  ghost function LimitedHeldBy(s: Sys, u: nat): set<Member> {
    set m | m in s.limited && m in s.redis.inflight && m.user == u
  }

  ghost predicate Over(s: Sys) {
    && InBounds(s.redis, s.db.limit)
    && (s.redis.stock.Some? ==>
         && StockDrift(s.redis, s.db) >= |SoldOutHeld(s)|
         && forall u :: UserDrift(s.redis, s.db, u) <= 0 - |LimitedHeldBy(s, u)|)
  }

  /** Every outstanding rejection is an unsettled ticket in flight. */
  lemma RejectionsArePending(s: Sys, u: nat)
    requires TaskInv(s)
    ensures |SoldOutHeld(s)| <= |Pending(s.redis.inflight, Tickets(s.db))|
    ensures |LimitedHeldBy(s, u)| <= |PendingOf(s.redis.inflight, Tickets(s.db), u)|
  {
    Subset(SoldOutHeld(s), Pending(s.redis.inflight, Tickets(s.db)));
    Subset(LimitedHeldBy(s, u), PendingOf(s.redis.inflight, Tickets(s.db), u));
  }

  lemma Subset<T>(a: set<T>, b: set<T>)
    requires a <= b
    ensures |a| <= |b|
  {
    assert b == a + (b - a);
  }

  /** A user without a field is already under-counted by everything held. */
  lemma EmptyFieldIsUnder(s: Sys, u: nat)
    requires TaskInv(s) && Count(s.redis.users, u) == 0
    ensures UserDrift(s.redis, s.db, u) <= 0 - |LimitedHeldBy(s, u)|
  {
    RejectionsArePending(s, u);
  }

  lemma RejectKeepsOver(s: Sys, m: Member, id: nat)
    requires TaskInv(s) && Over(s) && m in s.live && id !in s.db.orders && Commit(s.db, m, id).Failure?
    ensures Over(AfterCommit(s, m, id))
  {
    var s' := AfterCommit(s, m, id);
    CommitKeepsTaskInv(s, m, id);
    if s.redis.stock.Some? {
      RejectionsArePending(s', m.user);
      forall u ensures UserDrift(s'.redis, s'.db, u) <= 0 - |LimitedHeldBy(s', u)| {
        assert UserDrift(s.redis, s.db, u) <= 0 - |LimitedHeldBy(s, u)|;
        if u != m.user || Commit(s.db, m, id).error.SoldOut? {
          assert LimitedHeldBy(s', u) == LimitedHeldBy(s, u);
        }
      }
      if Commit(s.db, m, id).error.LimitExceeded? {
        assert SoldOutHeld(s') == SoldOutHeld(s);
      }
    }
  }

  lemma CommitKeepsOver(s: Sys, m: Member, id: nat)
    requires TaskInv(s) && Over(s) && m in s.live && id !in s.db.orders && Commit(s.db, m, id).Success?
    ensures Over(AfterCommit(s, m, id))
  {
    var s' := AfterCommit(s, m, id);
    if s.redis.stock.Some? {
      OneOwner(s.owner, s.redis.inflight, m);
      CommitMovesDrift(s.redis, s.db, m, id);
      forall u ensures UserDrift(s'.redis, s'.db, u) <= 0 - |LimitedHeldBy(s', u)| {
        assert UserDrift(s.redis, s.db, u) <= 0 - |LimitedHeldBy(s, u)|;
        assert LimitedHeldBy(s', u) == LimitedHeldBy(s, u);
      }
    }
  }

  /** Releasing m (with or without giving the stock back) when it leaves the rejections at the same time. */
  lemma ReleaseKeepsOver(s: Sys, s': Sys, m: Member, giveStock: bool, giveUser: bool)
    requires TaskInv(s) && TaskInv(s') && Over(s) && m.ticket !in Tickets(s.db)
    requires s' == s.(redis := Release(s.redis, m, giveStock, giveUser), soldOut := s'.soldOut, limited := s'.limited)
    requires s'.soldOut == s.soldOut || s'.soldOut == s.soldOut - {m}
    requires s'.limited == s.limited || s'.limited == s.limited - {m}
    requires giveStock || m in s.soldOut
    requires giveUser || m in s.limited
    requires InBounds(s'.redis, s.db.limit)
    ensures Over(s')
  {
    if s.redis.stock.Some? {
      ReleaseKeepsStock(s, s', m, giveStock, giveUser);
      forall u ensures UserDrift(s'.redis, s'.db, u) <= 0 - |LimitedHeldBy(s', u)| {
        ReleaseKeepsUser(s, s', m, giveStock, giveUser, u);
      }
    }
  }

  lemma ReleaseKeepsStock(s: Sys, s': Sys, m: Member, giveStock: bool, giveUser: bool)
    requires TaskInv(s) && Over(s) && m.ticket !in Tickets(s.db) && s.redis.stock.Some?
    requires s'.redis == Release(s.redis, m, giveStock, giveUser) && s'.db == s.db
    requires s'.soldOut == s.soldOut || s'.soldOut == s.soldOut - {m}
    requires giveStock || m in s.soldOut
    ensures s'.redis.stock.Some? && StockDrift(s'.redis, s'.db) >= |SoldOutHeld(s')|
  {
    assert SoldOutHeld(s') == SoldOutHeld(s) - {m};
    if m in s.redis.inflight {
      ReleaseMovesDrift(s.redis, s.db, m, giveStock, giveUser);
    }
  }

  lemma ReleaseKeepsUser(s: Sys, s': Sys, m: Member, giveStock: bool, giveUser: bool, u: nat)
    requires TaskInv(s) && TaskInv(s') && Over(s) && m.ticket !in Tickets(s.db) && s.redis.stock.Some?
    requires s'.redis == Release(s.redis, m, giveStock, giveUser) && s'.db == s.db
    requires s'.limited == s.limited || s'.limited == s.limited - {m}
    requires giveUser || m in s.limited
    ensures UserDrift(s'.redis, s'.db, u) <= 0 - |LimitedHeldBy(s', u)|
  {
    assert UserDrift(s.redis, s.db, u) <= 0 - |LimitedHeldBy(s, u)|;
    assert LimitedHeldBy(s', u) == LimitedHeldBy(s, u) - {m};
    if m in s.redis.inflight {
      ReleaseMovesDrift(s.redis, s.db, m, giveStock, giveUser);
      DecrCount(s.redis.users, m.user);
      if u == m.user && giveUser && Count(s.redis.users, u) == 0 {
        EmptyFieldIsUnder(s', u);
      }
    }
  }

  lemma ReturnKeepsOver(s: Sys, id: nat)
    requires TaskInv(s) && Over(s) && id in ClosedIds(s.db)
    requires var r := Return(s.redis, s.db.orders[id].user, id); InBounds(r, s.db.limit) && TaskInv(s.(redis := r))
    ensures Over(s.(redis := Return(s.redis, s.db.orders[id].user, id)))
  {
    var v := s.db.orders[id].user;
    var s' := s.(redis := Return(s.redis, v, id));
    if s.redis.stock.Some? && id !in s.redis.returned {
      ReturnMovesDrift(s.redis, s.db, id);
      assert SoldOutHeld(s') == SoldOutHeld(s);
      forall u ensures UserDrift(s'.redis, s'.db, u) <= 0 - |LimitedHeldBy(s', u)| {
        assert UserDrift(s.redis, s.db, u) <= 0 - |LimitedHeldBy(s, u)|;
        assert LimitedHeldBy(s', u) == LimitedHeldBy(s, u);
        if u == v && Count(s.redis.users, u) == 0 {
          EmptyFieldIsUnder(s', u);
        }
      }
    }
  }

  ghost function IdsOf(d: Db, u: nat): set<nat> {
    set id | id in d.orders && d.orders[id].user == u
  }

  lemma Split(d: Db, u: nat)
    ensures |d.orders.Keys| == |OpenIds(d)| + |ClosedIds(d)|
    ensures |IdsOf(d, u)| == |OpenIdsOf(d, u)| + |UnreturnedOf(d, {}, u)|
  {
    assert d.orders.Keys == OpenIds(d) + ClosedIds(d);
    assert IdsOf(d, u) == OpenIdsOf(d, u) + UnreturnedOf(d, {}, u);
  }

  /** Re-heating from an earlier database view leaves Redis over by exactly the orders committed since the view. */
  lemma PreheatStockDrift(d: Db, now: Db)
    requires Past(d, now) && DbInv(now)
    ensures StockDrift(Preheat(EMPTY_REDIS, d), now) == |now.orders.Keys - d.orders.Keys|
  {
    Split(d, 0);
    Split(now, 0);
    assert Pending({}, Tickets(now)) == {};
    assert Unreturned(now, ClosedIds(d)) == ClosedIds(now) - ClosedIds(d);
  }

  lemma PreheatUserDrift(d: Db, now: Db, u: nat)
    requires Past(d, now) && DbInv(now)
    ensures UserDrift(Preheat(EMPTY_REDIS, d), now, u) == 0 - |IdsOf(now, u) - IdsOf(d, u)|
  {
    Split(d, u);
    Split(now, u);
    assert BoughtOk(d, u) && BoughtOk(now, u);
    assert PendingOf({}, Tickets(now), u) == {};
    UnreturnedSince(d, now, u);
    assert IdsOf(d, u) <= IdsOf(now, u);
    assert Count(Preheat(EMPTY_REDIS, d).users, u) == Bought(d, u);
  }

  lemma UnreturnedSince(d: Db, now: Db, u: nat)
    requires Past(d, now)
    ensures |UnreturnedOf(now, ClosedIds(d), u)| == |UnreturnedOf(now, {}, u)| - |UnreturnedOf(d, {}, u)|
  {
    assert UnreturnedOf(now, ClosedIds(d), u) == UnreturnedOf(now, {}, u) - UnreturnedOf(d, {}, u);
    assert UnreturnedOf(d, {}, u) <= UnreturnedOf(now, {}, u) by {
      forall id | id in UnreturnedOf(d, {}, u) ensures id in UnreturnedOf(now, {}, u) {
        assert id in ClosedIds(d);
      }
    }
  }

  lemma PreheatKeepsOver(s: Sys, d: Db)
    requires TaskInv(s) && Over(s) && Past(d, s.db) && InBounds(Preheat(s.redis, d), s.db.limit)
    ensures Over(s.(redis := Preheat(s.redis, d)))
  {
    var s' := s.(redis := Preheat(s.redis, d));
    if s.redis.stock.None? {
      assert SoldOutHeld(s') == {};
      forall u ensures UserDrift(s'.redis, s'.db, u) <= 0 - |LimitedHeldBy(s', u)| {
        PreheatUserDrift(d, s.db, u);
        assert LimitedHeldBy(s', u) == {};
      }
      PreheatStockDrift(d, s.db);
    }
  }

  lemma SameHeldKeepsOver(s: Sys, s': Sys)
    requires Over(s) && s'.soldOut == s.soldOut && s'.limited == s.limited && InBounds(s'.redis, s'.db.limit)
    requires s'.redis.stock.Some? ==> s.redis.stock.Some?
    requires s'.redis.stock.Some? ==>
      && StockDrift(s'.redis, s'.db) == StockDrift(s.redis, s.db)
      && forall u :: UserDrift(s'.redis, s'.db, u) == UserDrift(s.redis, s.db, u)
    requires forall m :: m in s.soldOut + s.limited ==> (m in s'.redis.inflight <==> m in s.redis.inflight)
    ensures Over(s')
  {
    assert SoldOutHeld(s') == SoldOutHeld(s);
    forall u ensures LimitedHeldBy(s', u) == LimitedHeldBy(s, u) {}
    if s'.redis.stock.Some? {
      forall u ensures UserDrift(s'.redis, s'.db, u) <= 0 - |LimitedHeldBy(s', u)| {
        assert UserDrift(s.redis, s.db, u) <= 0 - |LimitedHeldBy(s, u)|;
      }
    }
  }

  lemma ReleaseBuiltKeepsOver(s: Sys, m: Member)
    requires TaskInv(s) && Over(s) && m.ticket in Tickets(s.db)
    requires InBounds(Release(s.redis, m, true, true), s.db.limit)
    ensures Over(s.(redis := Release(s.redis, m, true, true), soldOut := s.soldOut - {m}, limited := s.limited - {m}))
  {
    var t := s.(redis := Release(s.redis, m, true, true), soldOut := s.soldOut - {m}, limited := s.limited - {m});
    if s.redis.stock.Some? && m in s.redis.inflight {
      ReleaseBuiltMovesDrift(s.redis, s.db, m);
    }
    assert SoldOutHeld(t) == SoldOutHeld(s);
    forall u ensures LimitedHeldBy(t, u) == LimitedHeldBy(s, u) {}
    if s.redis.stock.Some? {
      forall u ensures UserDrift(t.redis, t.db, u) <= 0 - |LimitedHeldBy(t, u)| {
        assert UserDrift(s.redis, s.db, u) <= 0 - |LimitedHeldBy(s, u)|;
      }
    }
  }

  lemma FewerRejectionsKeepOver(s: Sys, t: Sys)
    requires Over(s) && t.redis == s.redis && t.db == s.db && t.soldOut <= s.soldOut && t.limited <= s.limited
    ensures Over(t)
  {
    Subset(SoldOutHeld(t), SoldOutHeld(s));
    if s.redis.stock.Some? {
      forall u ensures UserDrift(t.redis, t.db, u) <= 0 - |LimitedHeldBy(t, u)| {
        Subset(LimitedHeldBy(t, u), LimitedHeldBy(s, u));
        assert UserDrift(s.redis, s.db, u) <= 0 - |LimitedHeldBy(s, u)|;
      }
    }
  }

  lemma StepKeepsOver(s: Sys, step: Step)
    requires TaskInv(s) && PastInv(s) && Over(s) && !step.RunFix?
    ensures Over(Apply(s, step))
  {
    StepKeepsBounds(s, step);
    StepKeepsTaskInv(s, step);
    if Enabled(s, step) {
      var s' := Apply(s, step);
      match step
      case CommitTask(m, id) =>
        if Commit(s.db, m, id).Success? {
          CommitKeepsOver(s, m, id);
        } else {
          RejectKeepsOver(s, m, id);
        }
      case AbortSoldOut(m) => ReleaseKeepsOver(s, s', m, false, true);
      case AbortLimited(m) => ReleaseKeepsOver(s, s', m, true, false);
      case GiveBack(m) =>
        if m.ticket in Tickets(s.db) {
          ReleaseBuiltKeepsOver(s, m);
        } else {
          ReleaseKeepsOver(s, s', m, true, true);
        }
      case Redeliver(m) => FewerRejectionsKeepOver(s, s');
      case ReturnOrder(id) => ReturnKeepsOver(s, id);
      case RunPreheat(d) => PreheatKeepsOver(s, d);
      case GrabQuota(m) =>
        if Grab(s.redis, m, s.db.limit).1 == 1 {
          GrabKeepsDrift(s.redis, s.db, m);
          SameHeldKeepsOver(s, s');
        }
      case SettleTicket(m) =>
        if s.redis.stock.Some? {
          SettleKeepsDrift(s.redis, s.db, m);
        }
        SameHeldKeepsOver(s, s');
      case CloseOrder(id) =>
        if s.redis.stock.Some? {
          CloseKeepsDrift(s.redis, s.db, id);
        }
        SameHeldKeepsOver(s, s');
      case LoseRedis =>
      case _ => SameHeldKeepsOver(s, s');
    }
  }

  lemma {:induction false} RunIsOver(num: nat, limit: nat, steps: seq<Step>)
    requires BeforeRepair(steps)
    ensures Over(After(Init(num, limit), steps))
  {
    if steps == [] {
      InitBooks(num, limit);
      assert Init(num, limit).redis.users == map[];
    } else {
      var n := |steps| - 1;
      RunIsOver(num, limit, steps[..n]);
      RunKeepsBooks(num, limit, steps[..n]);
      StepKeepsOver(After(Init(num, limit), steps[..n]), steps[n]);
    }
  }

  ghost predicate BeforeRepair(steps: seq<Step>) {
    forall i :: 0 <= i < |steps| ==> !steps[i].RunFix?
  }

  /** Main result on sold-out aborts: in any run before a repair, data loss allowed, the abort takes exactly one item
      off a stock drift that is still positive, however many other aborts are outstanding. */
  lemma SoldOutAbortShrinks(num: nat, limit: nat, steps: seq<Step>, m: Member)
    requires BeforeRepair(steps)
    requires var s := After(Init(num, limit), steps); m in s.redis.inflight && m in s.soldOut
    ensures var s := After(Init(num, limit), steps); var s' := Apply(s, AbortSoldOut(m));
      && s.redis.stock.Some? && s'.redis.stock.Some?
      && StockDrift(s.redis, s.db) >= 1
      && StockDrift(s'.redis, s'.db) == StockDrift(s.redis, s.db) - 1
  {
    RunIsOver(num, limit, steps);
    RunKeepsBooks(num, limit, steps);
    var s := After(Init(num, limit), steps);
    assert m in SoldOutHeld(s);
    ReleaseMovesDrift(s.redis, s.db, m, false, true);
  }

  /** Main result on limit aborts: the abort adds exactly one to a drift of that user that is still negative. */
  lemma LimitAbortShrinks(num: nat, limit: nat, steps: seq<Step>, m: Member)
    requires BeforeRepair(steps)
    requires var s := After(Init(num, limit), steps); m in s.redis.inflight && m in s.limited
    ensures var s := After(Init(num, limit), steps); var s' := Apply(s, AbortLimited(m));
      && UserDrift(s.redis, s.db, m.user) <= -1
      && UserDrift(s'.redis, s'.db, m.user) == UserDrift(s.redis, s.db, m.user) + 1
  {
    RunIsOver(num, limit, steps);
    RunKeepsBooks(num, limit, steps);
    LimitedAbort(After(Init(num, limit), steps), m);
  }

  lemma LimitedAbort(s: Sys, m: Member)
    requires TaskInv(s) && Over(s) && m in s.redis.inflight && m in s.limited
    ensures var s' := Apply(s, AbortLimited(m));
      && UserDrift(s.redis, s.db, m.user) <= -1
      && UserDrift(s'.redis, s'.db, m.user) == UserDrift(s.redis, s.db, m.user) + 1
  {
    LimitedIsUnder(s, m);
    ReleaseMovesDrift(s.redis, s.db, m, true, false);
  }

  lemma LimitedIsUnder(s: Sys, m: Member)
    requires TaskInv(s) && Over(s) && m in s.redis.inflight && m in s.limited
    ensures s.redis.stock.Some? && UserDrift(s.redis, s.db, m.user) <= -1
  {
    assert m in LimitedHeldBy(s, m.user);
    assert UserDrift(s.redis, s.db, m.user) <= 0 - |LimitedHeldBy(s, m.user)|;
  }
}

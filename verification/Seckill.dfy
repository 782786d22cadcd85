/** Seckill quota: the Redis quota keys, the database rows behind them, and the numbers that tie the two together.
    One Lua script or one SQL transaction is one function here. */
module Seckill {
  import opened Results

  /** A member of the in-flight sorted set: the grabbing user and the ticket of the queued order task. */
  datatype Member = Member(user: nat, ticket: nat)

  /** The five keys of one event. `stock` is None when the stock key does not exist. */
  datatype Redis = Redis(stock: Option<int>, users: map<nat, int>, inflight: set<Member>, returned: set<nat>, ver: nat)

  const EMPTY_REDIS := Redis(None, map[], {}, {}, 0)

  /** An order row of the event; seckill orders always have one item. */
  datatype Row = Row(user: nat, ticket: nat, open: bool)

  /** The event row, the per-user rows and the event's orders by order id. */
  datatype Db = Db(num: nat, limit: nat, sold: nat, bought: map<nat, nat>, orders: map<nat, Row>)

  datatype Reject = SoldOut | LimitExceeded

  // ---- Redis scripts ----

  function Count(users: map<nat, int>, u: nat): int {
    if u in users then users[u] else 0
  }

  function DecrUser(users: map<nat, int>, u: nat): map<nat, int> {
    var n := Count(users, u) - 1;
    if n <= 0 then users - {u} else users[u := n]
  }

  function Grab(r: Redis, m: Member, limit: nat): (Redis, int) {
    if r.stock.None? then (r, -3)
    else if Count(r.users, m.user) >= limit then (r, -2)
    else if r.stock.value <= 0 then (r, -1)
    else (Redis(Some(r.stock.value - 1), r.users[m.user := Count(r.users, m.user) + 1],
                r.inflight + {m}, r.returned, r.ver + 1), 1)
  }

  function Release(r: Redis, m: Member, giveStock: bool, giveUser: bool): Redis {
    if m !in r.inflight then r
    else Redis(if giveStock && r.stock.Some? then Some(r.stock.value + 1) else r.stock,
               if giveUser then DecrUser(r.users, m.user) else r.users,
               r.inflight - {m}, r.returned, r.ver + 1)
  }

  function Settle(r: Redis, m: Member): Redis {
    if m !in r.inflight then r else r.(inflight := r.inflight - {m}, ver := r.ver + 1)
  }

  function Return(r: Redis, u: nat, id: nat): Redis {
    if r.stock.None? || id in r.returned then r
    else Redis(Some(r.stock.value + 1), DecrUser(r.users, u), r.inflight, r.returned + {id}, r.ver + 1)
  }

  /** Rebuild from a database view `d`; only when the stock key is missing. */
  function Preheat(r: Redis, d: Db): Redis {
    if r.stock.Some? then r
    else Redis(Some(d.num - d.sold), map u | u in d.bought && d.bought[u] > 0 :: d.bought[u],
               {}, ClosedIds(d), r.ver + 1)
  }

  /** Values to store; a value that is not positive deletes the field. */
  function Overwrite(users: map<nat, int>, writes: map<nat, int>): map<nat, int> {
    map u | u in users.Keys + writes.Keys && (u in writes ==> writes[u] > 0)
      :: if u in writes then writes[u] else users[u]
  }

  function Fix(r: Redis, ver: nat, delta: int, writes: map<nat, int>): Redis {
    if r.ver != ver || r.stock.None? then r
    else r.(stock := Some(r.stock.value + delta), users := Overwrite(r.users, writes), ver := r.ver + 1)
  }

  // ---- Database transactions ----

  function Bought(d: Db, u: nat): nat {
    if u in d.bought then d.bought[u] else 0
  }

  ghost function Tickets(d: Db): set<nat> {
    set id | id in d.orders :: d.orders[id].ticket
  }

  function ClosedIds(d: Db): set<nat> {
    set id | id in d.orders && !d.orders[id].open
  }

  function OpenIds(d: Db): set<nat> {
    set id | id in d.orders && d.orders[id].open
  }

  function OpenIdsOf(d: Db, u: nat): set<nat> {
    set id | id in d.orders && d.orders[id].open && d.orders[id].user == u
  }

  /** Build the order and occupy the quota, or roll everything back. */
  function Commit(d: Db, m: Member, id: nat): Result<Db, Reject> {
    if d.sold + 1 > d.num then Failure(SoldOut)
    else if Bought(d, m.user) + 1 > d.limit then Failure(LimitExceeded)
    else Success(d.(sold := d.sold + 1, bought := d.bought[m.user := Bought(d, m.user) + 1],
                    orders := d.orders[id := Row(m.user, m.ticket, true)]))
  }

  /** Close an unpaid order and give the quota back in the database; anything but an open order is a no-op. */
  function Close(d: Db, id: nat): Db {
    if id !in d.orders || !d.orders[id].open then d
    else
      var u := d.orders[id].user;
      d.(sold := if d.sold >= 1 then d.sold - 1 else d.sold,
         bought := if Bought(d, u) >= 1 then d.bought[u := Bought(d, u) - 1] else d.bought,
         orders := d.orders[id := d.orders[id].(open := false)])
  }

  // ---- The cross-store numbers ----

  /** In-flight members whose ticket has no order yet. */
  ghost function Pending(inflight: set<Member>, settled: set<nat>): set<Member> {
    set m | m in inflight && m.ticket !in settled
  }

  ghost function PendingOf(inflight: set<Member>, settled: set<nat>, u: nat): set<Member> {
    set m | m in inflight && m.ticket !in settled && m.user == u
  }

  /** Closed orders whose quota has not come back to Redis. */
  ghost function Unreturned(d: Db, returned: set<nat>): set<nat> {
    set id | id in d.orders && !d.orders[id].open && id !in returned
  }

  ghost function UnreturnedOf(d: Db, returned: set<nat>, u: nat): set<nat> {
    set id | id in d.orders && !d.orders[id].open && id !in returned && d.orders[id].user == u
  }

  ghost function Held(r: Redis, d: Db): nat {
    |Pending(r.inflight, Tickets(d))| + |Unreturned(d, r.returned)|
  }

  ghost function HeldBy(r: Redis, d: Db, u: nat): nat {
    |PendingOf(r.inflight, Tickets(d), u)| + |UnreturnedOf(d, r.returned, u)|
  }

  /** How far the stock key is above `num - sold - unsettled in-flight - closed unreturned`. */
  ghost function StockDrift(r: Redis, d: Db): int
    requires r.stock.Some?
  {
    r.stock.value - (d.num - d.sold - Held(r, d))
  }

  /** How far u's field is above `bought + u's unsettled in-flight + u's closed unreturned`. */
  ghost function UserDrift(r: Redis, d: Db, u: nat): int {
    Count(r.users, u) - (Bought(d, u) + HeldBy(r, d, u))
  }

  /** What the database rows agree on by themselves. */
  ghost predicate DbInv(d: Db) {
    && d.sold == |OpenIds(d)| && d.sold <= d.num
    && (forall u :: BoughtOk(d, u))
    && UniqueTickets(d.orders)
  }

  ghost predicate BoughtOk(d: Db, u: nat) {
    Bought(d, u) == |OpenIdsOf(d, u)| && Bought(d, u) <= d.limit
  }

  /** The unique index on the order's ticket. */
  ghost predicate UniqueTickets(orders: map<nat, Row>) {
    forall i, j :: i in orders && j in orders && orders[i].ticket == orders[j].ticket ==> i == j
  }

  // ---- Counting lemmas ----

  lemma PendingPlus(inflight: set<Member>, settled: set<nat>, m: Member)
    requires m !in inflight && m.ticket !in settled
    ensures |Pending(inflight + {m}, settled)| == |Pending(inflight, settled)| + 1
    ensures forall u ::
      |PendingOf(inflight + {m}, settled, u)| == |PendingOf(inflight, settled, u)| + if u == m.user then 1 else 0
  {
    assert Pending(inflight + {m}, settled) == Pending(inflight, settled) + {m};
    forall u
      ensures |PendingOf(inflight + {m}, settled, u)| ==
        |PendingOf(inflight, settled, u)| + if u == m.user then 1 else 0
    {
      assert PendingOf(inflight + {m}, settled, u) == PendingOf(inflight, settled, u) + if u == m.user then {m} else {};
    }
  }

  lemma PendingMinus(inflight: set<Member>, settled: set<nat>, m: Member)
    requires m in inflight && m.ticket !in settled
    ensures |Pending(inflight - {m}, settled)| == |Pending(inflight, settled)| - 1
    ensures forall u ::
      |PendingOf(inflight - {m}, settled, u)| == |PendingOf(inflight, settled, u)| - if u == m.user then 1 else 0
  {
    assert inflight - {m} + {m} == inflight;
    PendingPlus(inflight - {m}, settled, m);
  }

  /** An order for m's ticket appears: m leaves the pending members if it was one. */
  lemma PendingSettled(inflight: set<Member>, settled: set<nat>, m: Member)
    requires m.ticket !in settled
    requires forall x :: x in inflight && x.ticket == m.ticket ==> x == m
    ensures var k := if m in inflight then 1 else 0;
      && |Pending(inflight, settled + {m.ticket})| == |Pending(inflight, settled)| - k
      && forall u :: |PendingOf(inflight, settled + {m.ticket}, u)| == |PendingOf(inflight, settled, u)|
          - if u == m.user then k else 0
  {
    var gone := if m in inflight then {m} else {};
    assert Pending(inflight, settled + {m.ticket}) == Pending(inflight, settled) - gone;
    forall u
      ensures |PendingOf(inflight, settled + {m.ticket}, u)| ==
        |PendingOf(inflight, settled, u)| - if u == m.user then |gone| else 0
    {
      assert PendingOf(inflight, settled + {m.ticket}, u) ==
        PendingOf(inflight, settled, u) - if u == m.user then gone else {};
    }
  }

  lemma PendingAlreadySettled(inflight: set<Member>, settled: set<nat>, m: Member)
    requires m.ticket in settled
    ensures Pending(inflight - {m}, settled) == Pending(inflight, settled)
    ensures forall u :: PendingOf(inflight - {m}, settled, u) == PendingOf(inflight, settled, u)
  {
  }

  lemma UnreturnedMinus(d: Db, returned: set<nat>, id: nat)
    requires id in ClosedIds(d) && id !in returned
    ensures |Unreturned(d, returned + {id})| == |Unreturned(d, returned)| - 1
    ensures forall u ::
      |UnreturnedOf(d, returned + {id}, u)| == |UnreturnedOf(d, returned, u)| - if u == d.orders[id].user then 1 else 0
  {
    assert Unreturned(d, returned + {id}) == Unreturned(d, returned) - {id};
    forall u
      ensures |UnreturnedOf(d, returned + {id}, u)| ==
        |UnreturnedOf(d, returned, u)| - if u == d.orders[id].user then 1 else 0
    {
      assert UnreturnedOf(d, returned + {id}, u) ==
        UnreturnedOf(d, returned, u) - if u == d.orders[id].user then {id} else {};
    }
  }

  lemma CommitSets(d: Db, m: Member, id: nat, returned: set<nat>)
    requires Commit(d, m, id).Success? && id !in d.orders
    ensures var d' := Commit(d, m, id).value;
      && Tickets(d') == Tickets(d) + {m.ticket}
      && ClosedIds(d') == ClosedIds(d)
      && Unreturned(d', returned) == Unreturned(d, returned)
      && forall u :: UnreturnedOf(d', returned, u) == UnreturnedOf(d, returned, u)
  {
    var d' := Commit(d, m, id).value;
    assert d'.orders[id].ticket in Tickets(d');
    forall t | t in Tickets(d) ensures t in Tickets(d') {
      var i :| i in d.orders && d.orders[i].ticket == t;
      assert i in d'.orders && d'.orders[i].ticket == t;
    }
  }

  lemma CloseTickets(d: Db, id: nat)
    ensures Tickets(Close(d, id)) == Tickets(d)
  {
    var d' := Close(d, id);
    assert d'.orders.Keys == d.orders.Keys;
    assert forall i :: i in d.orders ==> d'.orders[i].ticket == d.orders[i].ticket;
  }

  lemma CloseUnreturned(d: Db, id: nat, returned: set<nat>)
    requires id in OpenIds(d) && id !in returned
    ensures |Unreturned(Close(d, id), returned)| == |Unreturned(d, returned)| + 1
  {
    assert Unreturned(Close(d, id), returned) == Unreturned(d, returned) + {id};
  }

  lemma CloseUnreturnedOf(d: Db, id: nat, returned: set<nat>, u: nat)
    requires id in OpenIds(d) && id !in returned
    ensures |UnreturnedOf(Close(d, id), returned, u)| ==
      |UnreturnedOf(d, returned, u)| + if u == d.orders[id].user then 1 else 0
  {
    if u == d.orders[id].user {
      assert UnreturnedOf(Close(d, id), returned, u) == UnreturnedOf(d, returned, u) + {id};
    } else {
      assert UnreturnedOf(Close(d, id), returned, u) == UnreturnedOf(d, returned, u);
    }
  }

  // ---- How each script or transaction moves the two drifts ----

  lemma GrabKeepsDrift(r: Redis, d: Db, m: Member)
    requires m !in r.inflight && m.ticket !in Tickets(d) && Grab(r, m, d.limit).1 == 1
    ensures var r' := Grab(r, m, d.limit).0;
      && StockDrift(r', d) == StockDrift(r, d)
      && forall u :: UserDrift(r', d, u) == UserDrift(r, d, u)
  {
    PendingPlus(r.inflight, Tickets(d), m);
  }

  /** Taking an unsettled ticket out of the set: the stock drift falls by one when the stock is not given back,
      and the user's drift rises by one when the field is kept or was already below one. */
  lemma ReleaseMovesDrift(r: Redis, d: Db, m: Member, giveStock: bool, giveUser: bool)
    requires m in r.inflight && m.ticket !in Tickets(d) && r.stock.Some?
    requires Count(r.users, m.user) >= 0
    ensures var r' := Release(r, m, giveStock, giveUser);
      && StockDrift(r', d) == StockDrift(r, d) - (if giveStock then 0 else 1)
      && (forall u :: u != m.user ==> UserDrift(r', d, u) == UserDrift(r, d, u))
      && UserDrift(r', d, m.user) ==
         UserDrift(r, d, m.user) + (if giveUser && Count(r.users, m.user) >= 1 then 0 else 1)
  {
    PendingMinus(r.inflight, Tickets(d), m);
  }

  /** Giving back for a ticket that is in flight although its order exists: one item too many, one slot too few. */
  lemma ReleaseBuiltMovesDrift(r: Redis, d: Db, m: Member)
    requires m in r.inflight && m.ticket in Tickets(d) && r.stock.Some?
    requires Count(r.users, m.user) >= 0
    ensures var r' := Release(r, m, true, true);
      && StockDrift(r', d) == StockDrift(r, d) + 1
      && (forall u :: u != m.user ==> UserDrift(r', d, u) == UserDrift(r, d, u))
      && UserDrift(r', d, m.user) == UserDrift(r, d, m.user) - if Count(r.users, m.user) >= 1 then 1 else 0
  {
    PendingAlreadySettled(r.inflight, Tickets(d), m);
  }

  lemma SettleKeepsDrift(r: Redis, d: Db, m: Member)
    requires m.ticket in Tickets(d) && r.stock.Some?
    ensures var r' := Settle(r, m);
      && StockDrift(r', d) == StockDrift(r, d)
      && forall u :: UserDrift(r', d, u) == UserDrift(r, d, u)
  {
    PendingAlreadySettled(r.inflight, Tickets(d), m);
  }

  lemma ReturnMovesDrift(r: Redis, d: Db, id: nat)
    requires id in ClosedIds(d) && r.stock.Some?
    requires Count(r.users, d.orders[id].user) >= 0
    ensures var v := d.orders[id].user; var r' := Return(r, v, id);
      && StockDrift(r', d) == StockDrift(r, d)
      && (forall u :: u != v ==> UserDrift(r', d, u) == UserDrift(r, d, u))
      && UserDrift(r', d, v) == UserDrift(r, d, v) + (if id in r.returned || Count(r.users, v) >= 1 then 0 else 1)
  {
    if id !in r.returned {
      UnreturnedMinus(d, r.returned, id);
    }
  }

  /** A commit is neutral for a Redis state that still has the ticket in flight, and one item over (one under for
      the user) for a Redis state that does not. */
  lemma CommitMovesDrift(r: Redis, d: Db, m: Member, id: nat)
    requires r.stock.Some? && Commit(d, m, id).Success?
    requires id !in d.orders && m.ticket !in Tickets(d)
    requires forall x :: x in r.inflight && x.ticket == m.ticket ==> x == m
    ensures var d' := Commit(d, m, id).value; var over := if m in r.inflight then 0 else 1;
      && StockDrift(r, d') == StockDrift(r, d) + over
      && (forall u :: u != m.user ==> UserDrift(r, d', u) == UserDrift(r, d, u))
      && UserDrift(r, d', m.user) == UserDrift(r, d, m.user) - over
  {
    CommitSets(d, m, id, r.returned);
    PendingSettled(r.inflight, Tickets(d), m);
  }

  lemma OpenIsCounted(d: Db, id: nat)
    requires DbInv(d) && id in OpenIds(d)
    ensures d.sold >= 1 && Bought(d, d.orders[id].user) >= 1
  {
    assert id in OpenIdsOf(d, d.orders[id].user);
    assert BoughtOk(d, d.orders[id].user);
  }

  lemma CloseKeepsDrift(r: Redis, d: Db, id: nat)
    requires r.stock.Some? && DbInv(d) && r.returned <= ClosedIds(d)
    ensures var d' := Close(d, id);
      && StockDrift(r, d') == StockDrift(r, d)
      && forall u :: UserDrift(r, d', u) == UserDrift(r, d, u)
  {
    if id in OpenIds(d) {
      OpenIsCounted(d, id);
      CloseTickets(d, id);
      CloseUnreturned(d, id, r.returned);
      forall u ensures UserDrift(r, Close(d, id), u) == UserDrift(r, d, u) {
        CloseUnreturnedOf(d, id, r.returned, u);
      }
    }
  }

  lemma CommitCounts(d: Db, m: Member, id: nat)
    requires Commit(d, m, id).Success? && id !in d.orders
    ensures |OpenIds(Commit(d, m, id).value)| == |OpenIds(d)| + 1
  {
    assert OpenIds(Commit(d, m, id).value) == OpenIds(d) + {id};
  }

  lemma CommitCountsOf(d: Db, m: Member, id: nat, u: nat)
    requires Commit(d, m, id).Success? && id !in d.orders
    ensures |OpenIdsOf(Commit(d, m, id).value, u)| == |OpenIdsOf(d, u)| + if u == m.user then 1 else 0
  {
    if u == m.user {
      assert OpenIdsOf(Commit(d, m, id).value, u) == OpenIdsOf(d, u) + {id};
    } else {
      assert OpenIdsOf(Commit(d, m, id).value, u) == OpenIdsOf(d, u);
    }
  }

  lemma CommitKeepsDbInv(d: Db, m: Member, id: nat)
    requires DbInv(d) && Commit(d, m, id).Success? && id !in d.orders && m.ticket !in Tickets(d)
    ensures DbInv(Commit(d, m, id).value)
  {
    var d' := Commit(d, m, id).value;
    CommitCounts(d, m, id);
    CommitKeepsUniqueTickets(d, m, id);
    forall u ensures BoughtOk(d', u) {
      assert BoughtOk(d, u);
      CommitCountsOf(d, m, id, u);
    }
  }

  lemma CommitKeepsUniqueTickets(d: Db, m: Member, id: nat)
    requires UniqueTickets(d.orders) && id !in d.orders && m.ticket !in Tickets(d)
    ensures UniqueTickets(d.orders[id := Row(m.user, m.ticket, true)])
  {
    assert forall i :: i in d.orders ==> d.orders[i].ticket in Tickets(d);
  }

  lemma CloseKeepsDbInv(d: Db, id: nat)
    requires DbInv(d)
    ensures DbInv(Close(d, id))
  {
    var d' := Close(d, id);
    if id in OpenIds(d) {
      var u0 := d.orders[id].user;
      OpenIsCounted(d, id);
      assert OpenIds(d') == OpenIds(d) - {id};
      forall u ensures BoughtOk(d', u) {
        assert BoughtOk(d, u);
        assert OpenIdsOf(d', u) == OpenIdsOf(d, u) - if u == u0 then {id} else {};
      }
    }
  }
}

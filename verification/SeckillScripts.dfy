/** The Lua scripts, the database transactions and the reconciler's own loops as the code runs them, each proved
    against the functions the runs are made of. */
module SeckillScripts {
  import opened Results
  import opened Seckill
  import opened SeckillRuns

  /** One off a user's field, which is dropped when nothing is left. */
  function OneLess(users: map<nat, int>, u: nat): map<nat, int> {
    if Count(users, u) > 1 then users[u := users[u] - 1] else users - {u}
  }

  /** The keys of one event; `stock` is meaningful only while the key exists. */
  class QuotaKeys {
    var present: bool
    var stock: int
    var users: map<nat, int>
    var inflight: set<Member>
    var returned: set<nat>
    var ver: nat

    ghost function State(): Redis
      reads this
    {
      Redis(if present then Some(stock) else None, users, inflight, returned, ver)
    }

    constructor ()
      ensures State() == EMPTY_REDIS
    {
      present, stock, users, inflight, returned, ver := false, 0, map[], {}, {}, 0;
    }

    method DecrementUser(u: nat)
      modifies this`users
      ensures users == DecrUser(old(users), u) == OneLess(old(users), u)
    {
      var n := (if u in users then users[u] else 0) - 1;
      users := users[u := n];
      if n <= 0 {
        users := users - {u};
      }
      assert users - {u} == old(users) - {u};
    }

    method GrabScript(m: Member, limit: nat) returns (code: int)
      modifies this
      ensures (State(), code) == Grab(old(State()), m, limit)
      ensures code == 1 <==> old(present) && old(stock) > 0 && old(Count(users, m.user)) < limit
      ensures code == -3 <==> !old(present)
      ensures code == -2 <==> old(present) && old(Count(users, m.user)) >= limit
      ensures code == -1 <==> old(present) && old(Count(users, m.user)) < limit && old(stock) <= 0
      ensures code != 1 ==> State() == old(State())
      ensures code == 1 ==>
        && present && stock == old(stock) - 1 && users == old(users)[m.user := old(Count(users, m.user)) + 1]
        && inflight == old(inflight) + {m} && returned == old(returned) && ver == old(ver) + 1
    {
      if !present {
        return -3;
      }
      var have := if m.user in users then users[m.user] else 0;
      if have >= limit {
        return -2;
      }
      if stock <= 0 {
        return -1;
      }
      stock := stock - 1;
      users := users[m.user := have + 1];
      inflight := inflight + {m};
      ver := ver + 1;
      code := 1;
    }

    method ReleaseScript(m: Member, giveStock: bool, giveUser: bool) returns (code: int)
      modifies this
      ensures State() == Release(old(State()), m, giveStock, giveUser)
      ensures code == if m in old(inflight) then 1 else 0
      ensures m !in old(inflight) ==> State() == old(State())
      ensures m in old(inflight) ==>
        && inflight == old(inflight) - {m} && ver == old(ver) + 1
        && present == old(present) && returned == old(returned)
        && stock == old(stock) + (if giveStock && present then 1 else 0)
        && users == if giveUser then old(OneLess(users, m.user)) else old(users)
    {
      if m !in inflight {
        return 0;
      }
      inflight := inflight - {m};
      if giveUser {
        DecrementUser(m.user);
      }
      if giveStock && present {
        stock := stock + 1;
      }
      ver := ver + 1;
      code := 1;
    }

    method SettleScript(m: Member)
      modifies this
      ensures State() == Settle(old(State()), m)
      ensures inflight == old(inflight) - {m} && ver == old(ver) + (if m in old(inflight) then 1 else 0)
      ensures stock == old(stock) && users == old(users) && returned == old(returned)
    {
      if m in inflight {
        inflight := inflight - {m};
        ver := ver + 1;
      }
    }

    method ReturnScript(u: nat, id: nat) returns (code: int)
      modifies this
      ensures State() == Return(old(State()), u, id)
      ensures code == if old(present) && id !in old(returned) then 1 else 0
      ensures code == 0 ==> State() == old(State())
      ensures code == 1 ==>
        && returned == old(returned) + {id} && ver == old(ver) + 1 && present && inflight == old(inflight)
        && stock == old(stock) + 1 && users == old(OneLess(users, u))
    {
      if !present || id in returned {
        return 0;
      }
      returned := returned + {id};
      stock := stock + 1;
      DecrementUser(u);
      ver := ver + 1;
      code := 1;
    }

    /** ARGV of the script: the remaining stock, the users with their counts, and the closed order ids. */
    method PreheatScript(remaining: int, counts: seq<(nat, nat)>, closed: seq<nat>, ghost d: Db) returns (code: int)
      requires remaining == d.num - d.sold
      requires forall u :: u in d.bought && d.bought[u] > 0 <==> exists i :: 0 <= i < |counts| && counts[i].0 == u
      requires forall i :: 0 <= i < |counts| ==> counts[i].0 in d.bought && d.bought[counts[i].0] == counts[i].1
      requires forall id :: id in ClosedIds(d) <==> id in closed
      requires !present ==> State() == EMPTY_REDIS
      modifies this
      ensures State() == Preheat(old(State()), d)
      ensures old(present) ==> State() == old(State())
      ensures !old(present) ==>
        && present && stock == d.num - d.sold && inflight == {} && ver == old(ver) + 1
        && (forall u :: Count(users, u) == Bought(d, u))
        && forall id :: id in returned <==> id in d.orders && !d.orders[id].open
    {
      if present {
        return 0;
      }
      users, inflight, returned := map[], {}, {};
      var i := 0;
      while i < |counts|
        modifies this`users
        invariant 0 <= i <= |counts|
        invariant forall u :: u in users <==> exists k :: 0 <= k < i && counts[k].0 == u
        invariant forall u :: u in users ==> u in d.bought && users[u] == d.bought[u]
      {
        users := users[counts[i].0 := counts[i].1];
        i := i + 1;
      }
      var j := 0;
      while j < |closed|
        modifies this`returned
        invariant 0 <= j <= |closed|
        invariant forall id :: id in returned <==> id in closed[..j]
      {
        returned := returned + {closed[j]};
        j := j + 1;
      }
      assert closed[..j] == closed;
      present, stock := true, remaining;
      ver := ver + 1;
      code := 1;
    }

    method FixScript(snapVer: nat, delta: int, writes: map<nat, int>) returns (code: int)
      modifies this
      ensures State() == Fix(old(State()), snapVer, delta, writes)
      ensures code == if old(ver) == snapVer && old(present) then 1 else 0
      ensures code == 0 ==> State() == old(State())
      ensures code == 1 ==>
        && present && stock == old(stock) + delta && inflight == old(inflight) && returned == old(returned)
        && ver == old(ver) + 1
        && forall u ::
             Count(users, u) == if u !in writes then Count(old(users), u) else if writes[u] > 0 then writes[u] else 0
    {
      if ver != snapVer || !present {
        return 0;
      }
      stock := stock + delta;
      var todo := writes.Keys;
      while todo != {}
        modifies this`users
        invariant todo <= writes.Keys
        invariant users == Overwrite(old(users), writes - todo)
        decreases todo
      {
        var u :| u in todo;
        OverwriteOne(old(users), writes, todo, u);
        if writes[u] <= 0 {
          users := users - {u};
        } else {
          users := users[u := writes[u]];
        }
        todo := todo - {u};
      }
      assert writes - todo == writes;
      ver := ver + 1;
      code := 1;
    }
  }

  /** The event row, its per-user rows and its orders; a failing transaction puts them back. */
  class EventRows {
    const num: nat
    const limit: nat
    var sold: nat
    var bought: map<nat, nat>
    var orders: map<nat, Row>

    ghost function State(): Db
      reads this
    {
      Db(num, limit, sold, bought, orders)
    }

    constructor (num: nat, limit: nat)
      ensures State() == Db(num, limit, 0, map[], map[])
    {
      this.num, this.limit := num, limit;
      sold, bought, orders := 0, map[], map[];
    }

    /** The two conditional updates, with the per-user row inserted first when it is missing. */
    method Occupy(u: nat) returns (err: Option<Reject>)
      modifies this`sold, this`bought
      ensures err == if old(sold) >= num then Some(SoldOut)
                     else if old(if u in bought then bought[u] else 0) >= limit then Some(LimitExceeded)
                     else None
      ensures err.None? ==>
        sold == old(sold) + 1 && bought == old(bought)[u := old(if u in bought then bought[u] else 0) + 1]
    {
      if sold + 1 > num {
        return Some(SoldOut);
      }
      sold := sold + 1;
      if u !in bought {
        bought := bought[u := 0];
      }
      if bought[u] + 1 > limit {
        return Some(LimitExceeded);
      }
      bought := bought[u := bought[u] + 1];
      err := None;
    }

    method CommitTx(m: Member, id: nat) returns (err: Option<Reject>)
      requires id !in orders
      modifies this
      ensures match Commit(old(State()), m, id)
              case Success(d) => err == None && State() == d
              case Failure(e) => err == Some(e) && State() == old(State())
      ensures err.None? <==> old(sold) < num && old(Bought(State(), m.user)) < limit
      ensures err.None? ==>
        && sold == old(sold) + 1 && bought == old(bought)[m.user := old(Bought(State(), m.user)) + 1]
        && orders == old(orders)[id := Row(m.user, m.ticket, true)]
      ensures err == Some(SoldOut) <==> old(sold) >= num
    {
      var sold0, bought0, orders0 := sold, bought, orders;
      orders := orders[id := Row(m.user, m.ticket, true)];
      err := Occupy(m.user);
      if err.Some? {
        sold, bought, orders := sold0, bought0, orders0;
      }
    }

    method CloseTx(id: nat)
      modifies this
      ensures State() == Close(old(State()), id)
      ensures id !in old(orders) || !old(orders)[id].open ==> State() == old(State())
      ensures id in old(orders) && old(orders)[id].open ==>
        && var u := old(orders)[id].user;
        && orders == old(orders)[id := Row(u, old(orders)[id].ticket, false)]
        && sold == (if old(sold) > 0 then old(sold) - 1 else 0)
        && forall v ::
             Bought(State(), v) == old(Bought(State(), v)) - if v == u && old(Bought(State(), v)) > 0 then 1 else 0
    {
      if id in orders && orders[id].open {
        var u := orders[id].user;
        orders := orders[id := orders[id].(open := false)];
        if sold >= 1 {
          sold := sold - 1;
        }
        if u in bought && bought[u] >= 1 {
          bought := bought[u := bought[u] - 1];
        }
      }
    }
  }

  lemma OverwriteOne(users: map<nat, int>, writes: map<nat, int>, todo: set<nat>, u: nat)
    requires u in todo && todo <= writes.Keys
    ensures var before := Overwrite(users, writes - todo);
      Overwrite(users, writes - (todo - {u})) == if writes[u] <= 0 then before - {u} else before[u := writes[u]]
  {
    assert writes - (todo - {u}) == (writes - todo)[u := writes[u]];
  }

  // ---- fixDrift ----

  /** What loadDBView returns: positive per-user counts, the asked tickets that have orders, the closed orders. */
  datatype View = View(num: nat, sold: nat, bought: map<nat, nat>, settled: set<nat>, closed: seq<(nat, nat)>)

  ghost predicate Distinct<T>(s: seq<T>) {
    forall i, j :: 0 <= i < j < |s| ==> s[i] != s[j]
  }

  ghost function Elems<T>(s: seq<T>): set<T> {
    set x | x in s
  }

  ghost predicate ViewOf(v: View, d: Db, inflight: seq<Member>) {
    && v.num == d.num && v.sold == d.sold
    && (forall u :: (if u in v.bought then v.bought[u] else 0) == Bought(d, u))
    && (forall m :: m in inflight ==> (m.ticket in v.settled <==> m.ticket in Tickets(d)))
    && Distinct(v.closed)
    && (forall o: (nat, nat) :: o in v.closed <==> o.0 in ClosedIds(d) && d.orders[o.0].user == o.1)
  }

  function AddOne(want: map<nat, int>, u: nat): map<nat, int> {
    want[u := Count(want, u) + 1]
  }

  /** The wanted count of every user and the number of items held, from the slices fixDrift walks. */
  method CountHeld(v: View, inflight: seq<Member>, returned: set<nat>, ghost d: Db)
    returns (want: map<nat, int>, held: nat)
    requires ViewOf(v, d, inflight) && Distinct(inflight)
    ensures held == |Pending(Elems(inflight), Tickets(d))| + |Unreturned(d, returned)|
    ensures forall u ::
      Count(want, u) == Bought(d, u) + |PendingOf(Elems(inflight), Tickets(d), u)| + |UnreturnedOf(d, returned, u)|
  {
    want, held := v.bought, 0;
    ghost var settled := Tickets(d);
    var i := 0;
    assert Elems(inflight[..0]) == {} && Pending({}, settled) == {};
    assert forall u :: PendingOf({}, settled, u) == {};
    while i < |inflight|
      invariant 0 <= i <= |inflight|
      invariant held == |Pending(Elems(inflight[..i]), settled)|
      invariant forall u :: Count(want, u) == Bought(d, u) + |PendingOf(Elems(inflight[..i]), settled, u)|
    {
      var m := inflight[i];
      PendOne(inflight, settled, i);
      if m.ticket !in v.settled {
        want := AddOne(want, m.user);
        held := held + 1;
      }
      i := i + 1;
    }
    assert inflight[..i] == inflight;
    ghost var inTotal, want0 := held, want;
    var j := 0;
    while j < |v.closed|
      invariant 0 <= j <= |v.closed|
      invariant held == inTotal + |Walked(v.closed[..j], returned)|
      invariant forall u :: Count(want, u) == Count(want0, u) + |WalkedOf(v.closed[..j], returned, u)|
    {
      var (id, u) := v.closed[j];
      WalkOne(v.closed, returned, j);
      if id !in returned {
        want := AddOne(want, u);
        held := held + 1;
      }
      j := j + 1;
    }
    assert v.closed[..j] == v.closed;
    WalkedAll(v.closed, d, returned);
  }

  lemma PendOne(inflight: seq<Member>, settled: set<nat>, i: nat)
    requires i < |inflight| && Distinct(inflight)
    ensures var m := inflight[i]; var k := if m.ticket in settled then 0 else 1;
      var before := Elems(inflight[..i]); var after := Elems(inflight[..i + 1]);
      && |Pending(after, settled)| == |Pending(before, settled)| + k
      && forall u :: |PendingOf(after, settled, u)| == |PendingOf(before, settled, u)| + if u == m.user then k else 0
  {
    var m := inflight[i];
    var before := Elems(inflight[..i]);
    assert Elems(inflight[..i + 1]) == before + {m};
    if m.ticket in settled {
      assert Pending(before + {m}, settled) == Pending(before, settled);
      assert forall u :: PendingOf(before + {m}, settled, u) == PendingOf(before, settled, u);
    } else {
      PendingPlus(before, settled, m);
    }
  }

  ghost function Walked(closed: seq<(nat, nat)>, returned: set<nat>): set<(nat, nat)> {
    set o | o in closed && o.0 !in returned
  }

  ghost function WalkedOf(closed: seq<(nat, nat)>, returned: set<nat>, u: nat): set<(nat, nat)> {
    set o | o in closed && o.0 !in returned && o.1 == u
  }

  lemma WalkOne(closed: seq<(nat, nat)>, returned: set<nat>, j: nat)
    requires j < |closed| && Distinct(closed)
    ensures var k := if closed[j].0 in returned then 0 else 1;
      && |Walked(closed[..j + 1], returned)| == |Walked(closed[..j], returned)| + k
      && forall u :: |WalkedOf(closed[..j + 1], returned, u)| == |WalkedOf(closed[..j], returned, u)|
          + if u == closed[j].1 then k else 0
  {
    var o := closed[j];
    assert closed[..j + 1] == closed[..j] + [o];
    WalkAppend(closed[..j], o, returned);
  }

  lemma WalkAppend(done: seq<(nat, nat)>, o: (nat, nat), returned: set<nat>)
    requires o !in done
    ensures var k := if o.0 in returned then 0 else 1;
      && |Walked(done + [o], returned)| == |Walked(done, returned)| + k
      && forall u :: |WalkedOf(done + [o], returned, u)| == |WalkedOf(done, returned, u)| + if u == o.1 then k else 0
  {
    assert Walked(done + [o], returned) == Walked(done, returned) + if o.0 in returned then {} else {o};
    forall u
      ensures |WalkedOf(done + [o], returned, u)| == |WalkedOf(done, returned, u)|
        + if u == o.1 && o.0 !in returned then 1 else 0
    {
      WalkAppendOf(done, o, returned, u);
    }
  }

  lemma WalkAppendOf(done: seq<(nat, nat)>, o: (nat, nat), returned: set<nat>, u: nat)
    requires o !in done
    ensures |WalkedOf(done + [o], returned, u)| == |WalkedOf(done, returned, u)|
      + if u == o.1 && o.0 !in returned then 1 else 0
  {
    if u == o.1 && o.0 !in returned {
      assert WalkedOf(done + [o], returned, u) == WalkedOf(done, returned, u) + {o};
    } else {
      assert WalkedOf(done + [o], returned, u) == WalkedOf(done, returned, u);
    }
  }

  /** The closed rows with their users count the same as the closed ids. */
  lemma WalkedAll(closed: seq<(nat, nat)>, d: Db, returned: set<nat>)
    requires forall o: (nat, nat) :: o in closed <==> o.0 in ClosedIds(d) && d.orders[o.0].user == o.1
    ensures |Walked(closed, returned)| == |Unreturned(d, returned)|
    ensures forall u :: |WalkedOf(closed, returned, u)| == |UnreturnedOf(d, returned, u)|
  {
    PairCard(Unreturned(d, returned), Walked(closed, returned), d);
    forall u ensures |WalkedOf(closed, returned, u)| == |UnreturnedOf(d, returned, u)| {
      PairCard(UnreturnedOf(d, returned, u), WalkedOf(closed, returned, u), d);
    }
  }

  lemma {:induction false} PairCard(ids: set<nat>, pairs: set<(nat, nat)>, d: Db)
    requires ids <= d.orders.Keys
    requires forall p: (nat, nat) :: p in pairs <==> p.0 in ids && d.orders[p.0].user == p.1
    ensures |pairs| == |ids|
  {
    if ids == {} {
      assert pairs == {};
    } else {
      var id :| id in ids;
      var p := (id, d.orders[id].user);
      assert p in pairs;
      PairCard(ids - {id}, pairs - {p}, d);
    }
  }

  /** The arguments of the repair script, or nothing to do. */
  method FixDrift(snap: Redis, inflight: seq<Member>, v: View, ghost d: Db)
    returns (delta: int, writes: map<nat, int>, skip: bool)
    requires snap.stock.Some? && Distinct(inflight) && Elems(inflight) == snap.inflight && ViewOf(v, d, inflight)
    ensures FixArgs(snap, d, delta, writes)
    ensures skip <==> delta == 0 && writes == map[]
    ensures skip ==> NoDrift(snap, d)
  {
    var want, held := CountHeld(v, inflight, snap.returned, d);
    delta := v.num - v.sold - held - snap.stock.value;
    writes := map[];
    var todo := want.Keys;
    while todo != {}
      invariant todo <= want.Keys
      invariant forall u :: u in writes ==> u in want && writes[u] == want[u]
      invariant forall u :: u in want && u !in todo && u !in writes ==> Count(snap.users, u) == want[u]
      decreases todo
    {
      var u :| u in todo;
      if Count(snap.users, u) != want[u] {
        writes := writes[u := want[u]];
      }
      todo := todo - {u};
    }
    todo := snap.users.Keys;
    while todo != {}
      invariant todo <= snap.users.Keys
      invariant forall u :: u in writes ==> writes[u] == Count(want, u)
      invariant forall u :: u in want && u !in writes ==> Count(snap.users, u) == want[u]
      invariant forall u :: u in snap.users && u !in want && u !in todo ==> u in writes
      decreases todo
    {
      var u :| u in todo;
      if u !in want {
        writes := writes[u := 0];
      }
      todo := todo - {u};
    }
    skip := delta == 0 && |writes| == 0;
    forall u
      ensures (if u in writes then writes[u] else Count(snap.users, u)) == Bought(d, u) + HeldBy(snap, d, u)
    {
      assert Count(want, u) == Bought(d, u) + HeldBy(snap, d, u);
    }
    if skip {
      forall u ensures UserDrift(snap, d, u) == 0 {
        assert Count(snap.users, u) == Bought(d, u) + HeldBy(snap, d, u);
      }
    }
  }

  // ---- The per-ticket pass ----

  datatype TicketState = Absent(aged: bool) | Queued | Built | Failed

  /** Tickets the pass leaves in flight: no order yet, and neither failed nor abandoned. */
  ghost predicate Stays(m: Member, settled: set<nat>, states: map<nat, TicketState>)
    requires m.ticket in states
  {
    m.ticket !in settled && !states[m.ticket].Failed? && states[m.ticket] != Absent(true)
  }

  /** Quota was only given back and tickets were only settled since `r0`: the stock is as far off as it was, and every
      field is lower by what its user holds less, but not below zero. */
  ghost predicate Trimmed(r0: Redis, r: Redis, d: Db) {
    && r0.stock.Some? && r.stock.Some? && StockDrift(r, d) == StockDrift(r0, d)
    && forall u ::
         var left := Count(r0.users, u) - (HeldBy(r0, d, u) - HeldBy(r, d, u));
         Count(r.users, u) == if left < 0 then 0 else left
  }

  /** One pass over the tickets and the closed orders of the snapshot while nobody else writes: settled tickets are
      dropped, dead ones give stock and user quota back, closed orders not yet returned are returned. It starts from
      any Redis, whatever its drift. */
  method ReconcilePass(keys: QuotaKeys, inflight: seq<Member>, settled: set<nat>, states: map<nat, TicketState>,
                       closed: seq<(nat, nat)>, ghost d: Db)
    requires keys.present && Distinct(inflight) && Elems(inflight) == keys.inflight
    requires forall m :: m in inflight ==> (m.ticket in settled <==> m.ticket in Tickets(d)) && m.ticket in states
    requires forall o: (nat, nat) :: o in closed <==> o.0 in ClosedIds(d) && d.orders[o.0].user == o.1
    requires forall u :: Count(keys.users, u) >= 0
    modifies keys
    ensures Trimmed(old(keys.State()), keys.State(), d)
    ensures old(NoDrift(keys.State(), d)) ==> NoDrift(keys.State(), d)
    ensures Unreturned(d, keys.returned) == {}
    ensures keys.inflight == set m | m in inflight && Stays(m, settled, states)
  {
    ghost var r0 := keys.State();
    var i := 0;
    while i < |inflight|
      invariant 0 <= i <= |inflight|
      invariant keys.returned == old(keys.returned) && Trimmed(r0, keys.State(), d)
      invariant forall m :: m in keys.inflight <==>
        m in inflight[i..] || (m in inflight[..i] && Stays(m, settled, states))
    {
      var m := inflight[i];
      assert inflight[i..] == [m] + inflight[i + 1..];
      assert inflight[..i + 1] == inflight[..i] + [m];
      assert m !in inflight[..i] && m !in inflight[i + 1..];
      if m.ticket in settled {
        SettleTrims(r0, keys.State(), d, m);
        keys.SettleScript(m);
      } else if states[m.ticket].Failed? || states[m.ticket] == Absent(true) {
        ReleaseTrims(r0, keys.State(), d, m);
        var _ := keys.ReleaseScript(m, true, true);
      }
      i := i + 1;
    }
    var j := 0;
    while j < |closed|
      invariant 0 <= j <= |closed|
      invariant Trimmed(r0, keys.State(), d)
      invariant forall k :: 0 <= k < j ==> closed[k].0 in keys.returned
      invariant forall m :: m in keys.inflight <==> m in inflight && Stays(m, settled, states)
    {
      var (id, u) := closed[j];
      assert (id, u) in closed;
      ReturnTrims(r0, keys.State(), d, id);
      if id !in keys.returned {
        var _ := keys.ReturnScript(u, id);
      }
      j := j + 1;
    }
    forall id | id in ClosedIds(d) ensures id in keys.returned {
      assert (id, d.orders[id].user) in closed;
    }
    if NoDrift(r0, d) {
      TrimmedExact(r0, keys.State(), d);
    }
  }

  lemma SettleTrims(r0: Redis, r: Redis, d: Db, m: Member)
    requires Trimmed(r0, r, d) && m.ticket in Tickets(d)
    ensures Trimmed(r0, Settle(r, m), d)
  {
    SettleKeepsDrift(r, d, m);
    forall u ensures HeldBy(Settle(r, m), d, u) == HeldBy(r, d, u) {
      assert UserDrift(Settle(r, m), d, u) == UserDrift(r, d, u);
    }
  }

  lemma ReleaseTrims(r0: Redis, r: Redis, d: Db, m: Member)
    requires Trimmed(r0, r, d) && m in Pending(r.inflight, Tickets(d))
    ensures Trimmed(r0, Release(r, m, true, true), d)
  {
    var r' := Release(r, m, true, true);
    ReleaseMovesDrift(r, d, m, true, true);
    DecrCount(r.users, m.user);
    forall u ensures HeldBy(r', d, u) == HeldBy(r, d, u) - if u == m.user then 1 else 0 {
      assert u != m.user ==> UserDrift(r', d, u) == UserDrift(r, d, u);
    }
  }

  lemma ReturnTrims(r0: Redis, r: Redis, d: Db, id: nat)
    requires Trimmed(r0, r, d) && id in ClosedIds(d)
    ensures Trimmed(r0, Return(r, d.orders[id].user, id), d)
  {
    var v := d.orders[id].user;
    var r' := Return(r, v, id);
    if id !in r.returned {
      ReturnMovesDrift(r, d, id);
      DecrCount(r.users, v);
      forall u ensures HeldBy(r', d, u) == HeldBy(r, d, u) - if u == v then 1 else 0 {
        assert u != v ==> UserDrift(r', d, u) == UserDrift(r, d, u);
      }
    }
  }

  lemma TrimmedExact(r0: Redis, r: Redis, d: Db)
    requires Trimmed(r0, r, d) && NoDrift(r0, d) && forall u :: Count(r0.users, u) >= 0
    ensures NoDrift(r, d)
  {
    forall u ensures UserDrift(r, d, u) == 0 {
      assert UserDrift(r0, d, u) == 0;
    }
  }
}

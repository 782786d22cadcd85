/** The bucket scripts, the commit after a payment with its retries, the repair of pending commits, and the sampling
    loop of the available reconciliation, as they run. */
module InventoryTasks {
  import opened Results
  import opened Inventory
  import opened InventoryCommits

  const COMMIT_RETRIES := 3

  function Plus(t: Tried, runs: nat): Tried {
    t.(runs := t.runs + runs)
  }

  /** A counter key; a missing one reads as 0. */
  function Counted(key: Option<int>): int {
    if key.Some? then key.value else 0
  }

  class Warehouse {
    var available: Option<int>
    var reserved: Option<int>
    var num: int
    var holds: seq<Hold>
    ghost var transit: int

    ghost function State(): Stock
      reads this
    {
      Stock(Buckets(available, reserved), num, holds, transit)
    }

    /** What the bucket offers; a missing one is built from the product row less what is reserved. */
    function OnOffer(): int
      reads this
    {
      if available.Some? then available.value else num - Counted(reserved)
    }

    constructor (s: Stock)
      ensures State() == s
    {
      available, reserved, num, holds, transit := s.b.available, s.b.reserved, s.num, s.holds, s.transit;
    }

    method ReserveScript(n: int) returns (code: int)
      modifies this`available, this`reserved
      ensures (State().b, code) == Reserve(old(State()).b, n)
      ensures code == 1 <==> old(available).Some? && old(available).value >= n
      ensures code == -1 <==> old(available).Some? && old(available).value < n
      ensures code == -2 <==> old(available).None?
      ensures code != 1 ==> available == old(available) && reserved == old(reserved)
      ensures code == 1 ==>
        available == Some(old(available).value - n) && reserved == Some(old(Counted(reserved)) + n)
    {
      if available.None? {
        return -2;
      }
      if available.value < n {
        return -1;
      }
      available := Some(available.value - n);
      reserved := Some((if reserved.Some? then reserved.value else 0) + n);
      code := 1;
    }

    method CommitScript(n: int) returns (code: int)
      modifies this`reserved
      ensures (State().b, code) == Commit(old(State()).b, n)
      ensures code == 1 <==> old(reserved).Some? && old(reserved).value >= n
      ensures code == 1 || code == -1
      ensures reserved == if code == 1 then Some(old(reserved).value - n) else old(reserved)
    {
      if reserved.None? || reserved.value < n {
        return -1;
      }
      reserved := Some(reserved.value - n);
      code := 1;
    }

    method ReleaseScript(n: int) returns (code: int)
      modifies this`available, this`reserved
      ensures (State().b, code) == Release(old(State()).b, n)
      ensures code == 1 <==> old(reserved).Some? && old(reserved).value >= n
      ensures code == -1 <==> code != 1
      ensures code != 1 ==> available == old(available) && reserved == old(reserved)
      ensures code == 1 ==>
        available == Some(old(Counted(available)) + n) && reserved == Some(old(reserved).value - n)
    {
      if reserved.None? || reserved.value < n {
        return -1;
      }
      reserved := Some(reserved.value - n);
      available := Some((if available.Some? then available.value else 0) + n);
      code := 1;
    }

    method InitScript(dbNum: int) returns (code: int)
      modifies this`available
      ensures State().b == InitIfAbsent(old(State()).b, dbNum)
      ensures available == if old(available).Some? then old(available) else Some(dbNum - Counted(reserved))
    {
      if available.Some? {
        return 0;
      }
      available := Some(dbNum - (if reserved.Some? then reserved.value else 0));
      code := 1;
    }

    method RestockScript(n: int)
      modifies this`available
      ensures State().b == Restock(old(State()).b, n)
      ensures available == if old(available).Some? then Some(old(available).value + n) else None
    {
      if available.Some? {
        available := Some(available.value + n);
      }
    }

    /** Reserve, and once more after building a missing bucket from the database. */
    method ReserveStock(n: int) returns (code: int)
      modifies this`available, this`reserved
      ensures (State().b, code) == Reserve(InitIfAbsent(old(State()).b, num), n)
      ensures code == 1 <==> old(OnOffer()) >= n
      ensures code == -1 <==> old(OnOffer()) < n
      ensures available == Some(old(OnOffer()) - if code == 1 then n else 0)
      ensures Counted(reserved) == old(Counted(reserved)) + if code == 1 then n else 0
    {
      code := ReserveScript(n);
      if code == -2 {
        var _ := InitScript(num);
        code := ReserveScript(n);
      }
    }

    /** Conditional flip of the pending flag. */
    method SetStockCommitPending(i: nat, pending: bool, reply: Reply) returns (flipped: bool)
      requires i < |holds|
      modifies this`holds
      ensures flipped <==> reply.Answered? && old(holds)[i].flagged != pending
      ensures holds == if reply.Unreachable? then old(holds) else old(holds)[i := old(holds)[i].(flagged := pending)]
    {
      if reply.Unreachable? {
        return false;
      }
      flipped := reply.Answered? && holds[i].flagged != pending;
      holds := holds[i := holds[i].(flagged := pending)];
    }

    /** One attempt of the commit script on the reservation of hold `i`. `ran`: it took the items out of the bucket. */
    method Attempt(i: nat, reply: Reply) returns (code: Option<int>, ran: bool)
      requires i < |holds| && holds[i].num > 0
      modifies this`reserved
      ensures ran <==> !reply.Unreachable? && Reserved(old(State()).b) >= holds[i].num
      ensures code == if reply.Answered? then Some(if ran then 1 else -1) else None
      ensures State().b == if ran then Taken(old(State()).b, holds[i].num) else old(State()).b
    {
      if reply.Unreachable? {
        return None, false;
      }
      var result := CommitScript(holds[i].num);
      ran := result == 1;
      code := if reply.Answered? then Some(result) else None;
    }

    /** The retry loop, up to the first answer. */
    method TryCommit(i: nat, replies: seq<Reply>) returns (t: Tried)
      requires i < |holds| && holds[i].num > 0
      modifies this`reserved
      ensures t == Try(Reserved(old(State()).b), holds[i].num, replies)
      ensures State().b == Taken(old(State()).b, t.runs * holds[i].num)
    {
      ghost var start, n, all := State().b, holds[i].num, Try(Reserved(State().b), holds[i].num, replies);
      assert replies[0..] == replies;
      t := Tried(0, false, false);
      var k := 0;
      while k < |replies|
        invariant 0 <= k <= |replies| && !t.answered && !t.short
        invariant State().b == Taken(start, t.runs * n)
        invariant all == Plus(Try(Reserved(State().b), n, replies[k..]), t.runs)
      {
        assert replies[k..][1..] == replies[k + 1..];
        var code, ran := Attempt(i, replies[k]);
        if ran {
          assert (t.runs + 1) * n == t.runs * n + n;
          t := t.(runs := t.runs + 1);
        }
        if code.Some? {
          t := t.(answered := true, short := code.value == -1);
          return;
        }
        k := k + 1;
      }
    }

    /** Up to three attempts; a short bucket drops the reservation, three failures leave the pending flag. */
    method CommitStockReservation(i: nat, replies: seq<Reply>, mark: Reply)
      requires i < |holds| && holds[i].num > 0 && |replies| == COMMIT_RETRIES
      modifies this`reserved, this`holds
      ensures State() == CommitPaid(old(State()), i, replies, !mark.Unreachable?)
    {
      var t := TryCommit(i, replies);
      holds := holds[i := holds[i].(owing := holds[i].owing && t.runs == 0 && !t.short)];
      if !t.answered {
        var _ := SetStockCommitPending(i, true, mark);
      }
    }

    /** Repair of one pending commit: the flag is taken first, and given back when Redis does not answer. */
    method RetryPendingCommit(i: nat, claim: Reply, reply: Reply, restore: Reply)
      requires i < |holds| && holds[i].num > 0
      modifies this`reserved, this`holds
      ensures State() == Retry(old(State()), i, claim, reply, !restore.Unreachable?)
    {
      ghost var h := holds[i];
      var claimed := SetStockCommitPending(i, false, claim);
      assert !h.flagged ==> holds == old(holds);
      if !claimed {
        return;
      }
      var code, ran := Attempt(i, reply);
      holds := holds[i := holds[i].(owing := holds[i].owing && !ran && code.None?)];
      if code.None? {
        var _ := SetStockCommitPending(i, true, restore);
      }
    }
  }

  // ---- Sampling all products ----

  datatype Row = Row(id: nat, num: int)

  ghost predicate ById(rows: seq<Row>) {
    forall i, j :: 0 <= i < j < |rows| ==> rows[i].id < rows[j].id
  }

  /** availableDrift of one product; zero when it has no bucket. */
  function SampleDrift(r: Row, buckets: map<nat, Buckets>, lo: map<nat, int>, hi: map<nat, int>): int {
    if r.id !in buckets || buckets[r.id].available.None? then 0
    else
      var b := buckets[r.id];
      PickDrift(r.num - Reserved(b) - b.available.value,
        if r.id in lo then lo[r.id] else 0, if r.id in hi then hi[r.id] else 0)
  }

  /** The sampled drift is the one that the correction computes, and zero without a bucket or where the sums do not tell
      its sign. */
  lemma SampledLikeTheCorrection(r: Row, buckets: map<nat, Buckets>, lo: map<nat, int>, hi: map<nat, int>)
    ensures var drift := SampleDrift(r, buckets, lo, hi);
      if r.id !in buckets || buckets[r.id].available.None? then drift == 0
      else
        && drift == Sampled(buckets[r.id], r.num,
                            if r.id in lo then lo[r.id] else 0, if r.id in hi then hi[r.id] else 0)
        && (r.id !in lo && r.id !in hi ==>
              drift == r.num - Counted(buckets[r.id].reserved) - buckets[r.id].available.value)
  {
  }

  /** Exactly the rows before position `n` are at or before the cursor. */
  ghost predicate CutAt(rows: seq<Row>, n: nat, after: nat, started: bool) {
    forall i :: 0 <= i < |rows| ==> (i < n <==> started && rows[i].id <= after)
  }

  lemma CutNotBelow(rows: seq<Row>, x: nat, y: nat, after: nat, started: bool)
    requires x <= |rows| && y <= |rows| && CutAt(rows, x, after, started) && CutAt(rows, y, after, started)
    ensures y <= x
  {
    if x < |rows| {
      var id := rows[x].id;
      assert x < x <==> started && id <= after;
      assert x < y <==> started && id <= after;
    }
  }

  lemma SameCut(rows: seq<Row>, x: nat, y: nat, after: nat, started: bool)
    requires x <= |rows| && y <= |rows| && CutAt(rows, x, after, started) && CutAt(rows, y, after, started)
    ensures x == y
  {
    CutNotBelow(rows, x, y, after, started);
    CutNotBelow(rows, y, x, after, started);
  }

  /** The rows with a larger id than the cursor, up to a page, in the order of their ids. */
  method Page(rows: seq<Row>, after: nat, started: bool, size: nat) returns (start: nat, end: nat)
    requires ById(rows) && size > 0
    ensures start <= end <= |rows|
    ensures CutAt(rows, start, after, started)
    ensures start == end <==> start == |rows|
    ensures end - start <= size
  {
    start := 0;
    while start < |rows| && started && rows[start].id <= after
      invariant 0 <= start <= |rows|
      invariant forall i :: 0 <= i < start ==> started && rows[i].id <= after
    {
      start := start + 1;
    }
    end := if |rows| - start > size then start + size else |rows|;
  }

  /** The first sample of ReconcileAvailable: pages by id cursor until an empty page, and collects every non-zero
      drift. */
  method SampleDrifts(rows: seq<Row>, batchSize: int, buckets: map<nat, Buckets>, lo: map<nat, int>, hi: map<nat, int>)
    returns (drifts: map<nat, int>)
    requires ById(rows)
    ensures forall id :: id in drifts <==>
      exists i :: 0 <= i < |rows| && rows[i].id == id && SampleDrift(rows[i], buckets, lo, hi) != 0
    ensures forall i :: 0 <= i < |rows| && rows[i].id in drifts ==>
      drifts[rows[i].id] == SampleDrift(rows[i], buckets, lo, hi)
  {
    var size: nat := if batchSize <= 0 then 500 else batchSize;
    drifts := map[];
    var lastId, started, done := 0, false, 0;
    while true
      invariant 0 <= done <= |rows|
      invariant CutAt(rows, done, lastId, started)
      invariant Collected(rows, done, buckets, lo, hi, drifts)
      decreases |rows| - done
    {
      var start, end := Page(rows, lastId, started, size);
      SameCut(rows, start, done, lastId, started);
      if start == end {
        break;
      }
      var i := start;
      while i < end
        invariant start <= i <= end
        invariant Collected(rows, i, buckets, lo, hi, drifts)
      {
        var drift := SampleDrift(rows[i], buckets, lo, hi);
        CollectRow(rows, i, buckets, lo, hi, drifts);
        if drift != 0 {
          drifts := drifts[rows[i].id := drift];
        }
        i := i + 1;
      }
      lastId, started, done := rows[end - 1].id, true, end;
    }
  }

  lemma CollectRow(rows: seq<Row>, n: nat, buckets: map<nat, Buckets>, lo: map<nat, int>, hi: map<nat, int>,
                   drifts: map<nat, int>)
    requires ById(rows) && n < |rows| && Collected(rows, n, buckets, lo, hi, drifts)
    ensures var drift := SampleDrift(rows[n], buckets, lo, hi);
      Collected(rows, n + 1, buckets, lo, hi, if drift != 0 then drifts[rows[n].id := drift] else drifts)
  {
  }

  ghost predicate Collected(rows: seq<Row>, n: nat, buckets: map<nat, Buckets>, lo: map<nat, int>, hi: map<nat, int>,
                            drifts: map<nat, int>) {
    && n <= |rows|
    && (forall id :: id in drifts <==>
        exists i :: 0 <= i < n && rows[i].id == id && SampleDrift(rows[i], buckets, lo, hi) != 0)
    && forall i :: 0 <= i < n && rows[i].id in drifts ==> drifts[rows[i].id] == SampleDrift(rows[i], buckets, lo, hi)
  }
}

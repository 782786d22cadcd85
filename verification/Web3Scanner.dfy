/** The block scanner behind on-chain payments: chunked catch-up below the confirmation depth, a persisted
    watermark, and a handler that claims an event in Redis before it writes it, so that a claim left behind hides
    its event. */
module Web3Scanner {
  import opened Results

  /** `key`: transaction hash and log index. `wellFormed`: address, topics and data decode. */
  datatype Log = Log(block: nat, key: nat, removed: bool, wellFormed: bool)

  datatype HandleError = Malformed | InsertFailed

  const MAX_BLOCK_RANGE := 2000

  /** What the node answers to a range query, as logs in any order, or an error. */
  type Client = (nat, nat) -> Option<seq<Log>>

  ghost predicate Faithful(client: Client, chain: set<Log>) {
    forall from: nat, to: nat, log ::
      client(from, to).Some? ==> (log in client(from, to).value <==> log in chain && from <= log.block <= to)
  }

  ghost predicate DistinctKeys(chain: set<Log>) {
    forall x, y :: x in chain && y in chain && x.key == y.key ==> x == y
  }

  /** A call to Redis or the database: done and answered, not done, or done with an error reply. */
  datatype Reply = Answered | NotDone | ReplyLost

  datatype Luck = Luck(claim: Reply, insert: Reply, release: Reply, save: Reply)

  // ---- The handler, as a function ----

  datatype Marks = Marks(claims: set<nat>, outbox: set<Log>)

  /** SETNX, the outbox row, and DEL after a failed row if SETNX answered that the key is ours. */
  function Handle(m: Marks, log: Log, l: Luck): (Marks, Result<(), HandleError>) {
    if !log.wellFormed then (m, Failure(Malformed))
    else if l.claim.Answered? && log.key in m.claims then (m, Success(()))
    else
      var claims := if l.claim.NotDone? then m.claims else m.claims + {log.key};
      var outbox := if l.insert.NotDone? then m.outbox else m.outbox + {log};
      if l.insert.Answered? then (Marks(claims, outbox), Success(()))
      else if l.claim.Answered? && !l.release.NotDone? then (Marks(claims - {log.key}, outbox), Failure(InsertFailed))
      else (Marks(claims, outbox), Failure(InsertFailed))
  }

  /** The key is claimed and no event with it was written: every later round takes the event for handled. */
  ghost predicate Hides(m: Marks, key: nat) {
    key in m.claims && forall log :: log in m.outbox ==> log.key != key
  }

  /** The row was not written, and the claim stays: its reply was lost, or DEL failed. */
  predicate Strands(l: Luck) {
    l.insert.NotDone? && (l.claim.ReplyLost? || (l.claim.Answered? && l.release.NotDone?))
  }

  /** A call leaves its event hidden exactly if it strands a new claim, or finds a hidden one and does not write
      past it. */
  lemma HidesIff(m: Marks, log: Log, l: Luck, chain: set<Log>)
    requires DistinctKeys(chain) && m.outbox <= chain && log in chain && log.wellFormed
    ensures Hides(Handle(m, log, l).0, log.key) <==>
      log !in m.outbox && if log.key in m.claims then l.claim.Answered? || l.insert.NotDone? else Strands(l)
    ensures forall key :: key != log.key ==> (Hides(Handle(m, log, l).0, key) <==> Hides(m, key))
  {
    var t := Handle(m, log, l).0;
    assert forall x :: x in m.outbox ==> (x.key == log.key <==> x == log);
    forall key | key != log.key ensures Hides(t, key) <==> Hides(m, key) {
      assert forall x :: x in t.outbox && x.key == key ==> x in m.outbox;
    }
  }

  /** Why a hidden event is lost: the first call leaves the claim behind, and each later one that Redis answers reports
      success without writing anything. */
  lemma HiddenEventIsSkipped(m: Marks, log: Log, first: Luck, later: Luck)
    requires log.wellFormed && log.key !in m.claims && log !in m.outbox && Strands(first) && later.claim.Answered?
    ensures var t := Handle(m, log, first);
      && t.1 == Failure(InsertFailed) && log !in t.0.outbox
      && Handle(t.0, log, later) == (t.0, Success(()))
  {
  }

  // ---- Covered blocks ----

  ghost predicate Done(log: Log, m: Marks) {
    log.removed || !log.wellFormed || log in m.outbox || Hides(m, log.key)
  }

  /** Every log in the blocks after `base`, up to and including `upTo`, is written, malformed, removed or hidden. */
  ghost predicate Covered(chain: set<Log>, m: Marks, base: nat, upTo: nat) {
    forall log :: log in chain && base < log.block <= upTo ==> Done(log, m)
  }

  /** What is done stays done: an event stops being hidden only by being written. */
  ghost predicate Keeps(m: Marks, t: Marks, chain: set<Log>) {
    m.outbox <= t.outbox && forall log :: log in chain && Done(log, m) ==> Done(log, t)
  }

  lemma HandleKeeps(m: Marks, log: Log, l: Luck, chain: set<Log>)
    requires DistinctKeys(chain) && m.outbox <= chain && log in chain
    ensures var (t, r) := Handle(m, log, l); Keeps(m, t, chain) && t.outbox <= chain && (r.Success? ==> Done(log, t))
  {
    if log.wellFormed {
      HidesIff(m, log, l, chain);
      var t := Handle(m, log, l).0;
      forall x | x in chain && Done(x, m) ensures Done(x, t) {
        assert x.key == log.key ==> x == log;
      }
    }
  }

  /** Blocks first to last, each chunk at most the maximal range, none skipped and none twice. */
  ghost predicate Tiles(chunks: seq<(nat, nat)>, from: nat, next: nat) {
    && (chunks == [] ==> next == from)
    && (chunks != [] ==> chunks[0].0 == from && chunks[|chunks| - 1].1 + 1 == next)
    && (forall i :: 0 <= i < |chunks| ==> chunks[i].0 <= chunks[i].1 < chunks[i].0 + MAX_BLOCK_RANGE)
    && forall i :: 0 < i < |chunks| ==> chunks[i].0 == chunks[i - 1].1 + 1
  }

  lemma TilesGrow(chunks: seq<(nat, nat)>, first: nat, from: nat, to: nat)
    requires Tiles(chunks, first, from) && from <= to < from + MAX_BLOCK_RANGE
    ensures Tiles(chunks + [(from, to)], first, to + 1)
  {
  }

  // ---- Which outcomes a stretch of calls met ----

  ghost predicate AllInserted(luck: nat -> Luck, from: nat, to: nat) {
    forall n :: from <= n < to ==> luck(n).insert.Answered?
  }

  ghost predicate AllSaved(luck: nat -> Luck, from: nat, to: nat) {
    forall n :: from <= n < to ==> !luck(n).save.NotDone?
  }

  ghost predicate NoneStrand(luck: nat -> Luck, from: nat, to: nat) {
    forall n :: from <= n < to ==> !Strands(luck(n))
  }

  ghost predicate AllClaimsAnswered(luck: nat -> Luck, from: nat, to: nat) {
    forall n :: from <= n < to ==> luck(n).claim.Answered?
  }

  ghost predicate AllQueried(client: Client) {
    forall from: nat, to: nat :: client(from, to).Some?
  }

  /** A stretch of calls undoes nothing; nothing new is hidden unless a call strands its claim, and nothing hidden
      comes to light while Redis answers. */
  ghost predicate Follows(m: Marks, t: Marks, chain: set<Log>, luck: nat -> Luck, from: nat, to: nat) {
    && from <= to && Keeps(m, t, chain)
    && (NoneStrand(luck, from, to) ==> forall key :: Hides(t, key) ==> Hides(m, key))
    && (AllClaimsAnswered(luck, from, to) ==> forall key :: Hides(m, key) ==> Hides(t, key))
  }

  lemma HandleFollows(m: Marks, log: Log, luck: nat -> Luck, n: nat, chain: set<Log>)
    requires DistinctKeys(chain) && m.outbox <= chain && log in chain && log.wellFormed
    ensures Follows(m, Handle(m, log, luck(n)).0, chain, luck, n, n + 1)
  {
    HidesIff(m, log, luck(n), chain);
    HandleKeeps(m, log, luck(n), chain);
  }

  lemma FollowsOn(m: Marks, t: Marks, u: Marks, chain: set<Log>, luck: nat -> Luck, x: nat, y: nat, z: nat)
    requires Follows(m, t, chain, luck, x, y) && Follows(t, u, chain, luck, y, z)
    ensures Follows(m, u, chain, luck, x, z)
  {
  }

  class Listener {
    const chain: set<Log>
    const confirmDepth: nat
    const luck: nat -> Luck
    /** The watermark in Redis; 0 when there is none. */
    var lastBlock: nat
    var claims: set<nat>
    var outbox: set<Log>
    var calls: nat
    ghost var base: nat

    ghost function State(): Marks
      reads this
    {
      Marks(claims, outbox)
    }

    ghost predicate Valid()
      reads this
    {
      DistinctKeys(chain) && outbox <= chain && Covered(chain, State(), base, lastBlock)
    }

    constructor (chain: set<Log>, confirmDepth: nat, lastBlock: nat, luck: nat -> Luck)
      requires DistinctKeys(chain)
      ensures Valid() && this.lastBlock == base == lastBlock && this.chain == chain && this.confirmDepth == confirmDepth
      ensures this.luck == luck && calls == 0 && State() == Marks({}, {})
    {
      this.chain, this.confirmDepth, this.luck := chain, confirmDepth, luck;
      this.lastBlock, base, claims, outbox, calls := lastBlock, lastBlock, {}, {}, 0;
    }

    method NextLuck() returns (l: Luck)
      modifies this`calls
      ensures l == luck(old(calls)) && calls == old(calls) + 1
    {
      l := luck(calls);
      calls := calls + 1;
    }

    /** Decode, claim, write; a failed write gives the claim back if it was answered. */
    method HandleLog(log: Log) returns (r: Result<(), HandleError>)
      requires Valid() && log in chain
      modifies this`claims, this`outbox, this`calls
      ensures (State(), r) == Handle(old(State()), log, luck(old(calls)))
      ensures calls == if log.wellFormed then old(calls) + 1 else old(calls)
      ensures Valid() && Follows(old(State()), State(), chain, luck, old(calls), calls)
      ensures (r.Success? ==> Done(log, State()))
    {
      HandleKeeps(State(), log, luck(calls), chain);
      if !log.wellFormed {
        return Failure(Malformed);
      }
      HandleFollows(State(), log, luck, calls, chain);
      var l := NextLuck();
      var claimed := false;
      match l.claim {
        case Answered =>
          if log.key in claims {
            return Success(());
          }
          claims := claims + {log.key};
          claimed := true;
        case ReplyLost =>
          claims := claims + {log.key};
        case NotDone =>
      }
      if !l.insert.NotDone? {
        outbox := outbox + {log};
      }
      if !l.insert.Answered? {
        if claimed && !l.release.NotDone? {
          claims := claims - {log.key};
        }
        return Failure(InsertFailed);
      }
      r := Success(());
    }

    method SaveLastBlock(block: nat)
      requires Valid() && Covered(chain, State(), base, block)
      modifies this`lastBlock, this`calls
      ensures Valid() && calls == old(calls) + 1
      ensures lastBlock == if luck(old(calls)).save.NotDone? then old(lastBlock) else block
    {
      var l := NextLuck();
      if !l.save.NotDone? {
        lastBlock := block;
      }
    }

    /** All logs of one chunk. `failedFrom` is the lowest block with a log whose write was reported failed, and
        every log below it is done, whatever the order the node lists them in; 0 means that none failed, as long as
        block 0, whose failure reads like none, is not among them. */
    method HandleChunk(logs: seq<Log>) returns (failedFrom: nat)
      requires Valid() && forall i :: 0 <= i < |logs| ==> logs[i] in chain
      modifies this`claims, this`outbox, this`calls
      ensures Valid() && Follows(old(State()), State(), chain, luck, old(calls), calls)
      ensures OffGenesis(logs) ==> HandledBelow(logs, |logs|, failedFrom, State())
      ensures failedFrom != 0 ==> FailedAt(logs, |logs|, failedFrom) && !AllInserted(luck, old(calls), calls)
      ensures AllInserted(luck, old(calls), calls) ==> failedFrom == 0
      ensures (forall i :: 0 <= i < |logs| ==> logs[i].block == 0) ==> failedFrom == 0
    {
      failedFrom := 0;
      var i := 0;
      while i < |logs|
        invariant 0 <= i <= |logs|
        invariant Valid() && Follows(old(State()), State(), chain, luck, old(calls), calls)
        invariant OffGenesis(logs) ==> HandledBelow(logs, i, failedFrom, State())
        invariant failedFrom != 0 ==> FailedAt(logs, i, failedFrom) && !AllInserted(luck, old(calls), calls)
        invariant (forall k :: 0 <= k < |logs| ==> logs[k].block == 0) ==> failedFrom == 0
      {
        var log := logs[i];
        ghost var before, n, lowest := State(), calls, failedFrom;
        if !log.removed && !(failedFrom != 0 && log.block >= failedFrom) {
          var r := HandleLog(log);
          FollowsOn(old(State()), before, State(), chain, luck, old(calls), n, calls);
          if r.Failure? && r.error.InsertFailed? {
            assert !luck(n).insert.Answered?;
            if failedFrom == 0 || log.block < failedFrom {
              failedFrom := log.block;
            }
          }
          StillFailed(luck, old(calls), n, calls);
        }
        StepBelow(logs, i, lowest, failedFrom, before, State(), chain);
        i := i + 1;
      }
    }

    /** One chunk: query, handle, and move the watermark to its end, or to the block before the first failure. */
    method ScanChunk(from: nat, to: nat, client: Client) returns (done: bool, ok: bool, ghost failedFrom: nat)
      requires Valid() && Faithful(client, chain) && lastBlock <= from <= to
      requires if from > 0 then Covered(chain, State(), base, from - 1) else to == 0
      modifies this`lastBlock, this`claims, this`outbox, this`calls
      ensures Valid() && Follows(old(State()), State(), chain, luck, old(calls), calls)
      ensures ok <==> client(from, to).Some?
      ensures done <==> ok && failedFrom == 0
      ensures from > 0 ==> Covered(chain, State(), base, from - 1)
      ensures done ==> Covered(chain, State(), base, to) && calls > old(calls)
      ensures done ==> lastBlock == if luck(calls - 1).save.NotDone? then old(lastBlock) else to
      ensures ok && !done ==> from <= failedFrom <= to && !AllInserted(luck, old(calls), calls)
      ensures ok && !done ==>
        lastBlock ==
          if failedFrom > from && calls > old(calls) && !luck(calls - 1).save.NotDone? then failedFrom - 1
          else old(lastBlock)
      ensures !ok ==> lastBlock == old(lastBlock) && State() == old(State()) && calls == old(calls)
    {
      failedFrom := 0;
      var answer := client(from, to);
      if answer.None? {
        return false, false, 0;
      }
      var first := HandleChunk(answer.value);
      ghost var handled := calls;
      failedFrom := first;
      if from > 0 {
        CoveredStays(chain, old(State()), State(), base, from - 1);
      }
      ChunkCovers(chain, State(), base, from, to, answer.value, first);
      if first != 0 {
        if first > from {
          SaveLastBlock(first - 1);
          StillFailed(luck, old(calls), handled, calls);
          LongerFollows(old(State()), State(), chain, luck, old(calls), handled, calls);
        }
        return false, true, first;
      }
      SaveLastBlock(to);
      LongerFollows(old(State()), State(), chain, luck, old(calls), handled, calls);
      return true, true, 0;
    }

    /** The loop over the chunks from the first unscanned block to the safe head. */
    method CatchUp(first: nat, safeHead: nat, client: Client) returns (ok: bool, ghost chunks: seq<(nat, nat)>,
                   ghost next: nat)
      requires Valid() && Faithful(client, chain) && lastBlock <= first <= safeHead + 1 && lastBlock <= safeHead
      requires if first > 0 then Covered(chain, State(), base, first - 1) else safeHead == 0
      requires first == lastBlock + 1 || first == safeHead
      modifies this`lastBlock, this`claims, this`outbox, this`calls
      ensures Valid() && Follows(old(State()), State(), chain, luck, old(calls), calls)
      ensures old(lastBlock) <= lastBlock <= safeHead
      ensures Tiles(chunks, first, next) && next <= safeHead + 1
      ensures (next > 0 ==> Covered(chain, State(), base, next - 1))
      ensures !ok ==> exists to :: next <= to <= safeHead && client(next, to).None?
      ensures ok && next <= safeHead ==> !AllInserted(luck, old(calls), calls)
      ensures ok && next > safeHead && AllSaved(luck, old(calls), calls) ==> lastBlock == safeHead
    {
      var from := first;
      chunks, next := [], from;
      while from <= safeHead
        invariant first <= from <= safeHead + 1
        invariant Valid() && Follows(old(State()), State(), chain, luck, old(calls), calls)
        invariant old(lastBlock) <= lastBlock <= from && lastBlock <= safeHead
        invariant AllSaved(luck, old(calls), calls) && from > safeHead ==> lastBlock == safeHead
        invariant if from > 0 then Covered(chain, State(), base, from - 1) else safeHead == 0
        invariant next == from && Tiles(chunks, first, next)
        decreases safeHead + 1 - from
      {
        var to := if from + MAX_BLOCK_RANGE - 1 < safeHead then from + MAX_BLOCK_RANGE - 1 else safeHead;
        ghost var before, n := State(), calls;
        var done;
        ghost var failed;
        done, ok, failed := ScanChunk(from, to, client);
        FollowsOn(old(State()), before, State(), chain, luck, old(calls), n, calls);
        if !done {
          LaterFailed(luck, old(calls), n, calls);
          return ok, chunks, next;
        }
        assert AllSaved(luck, old(calls), calls) ==> !luck(calls - 1).save.NotDone?;
        TilesGrow(chunks, first, from, to);
        chunks, next := chunks + [(from, to)], to + 1;
        from := to + 1;
      }
      ok := true;
    }

    /** One scan. Without a watermark it starts at the safe head instead of replaying the chain. It reaches the safe
        head unless a query or a write fails. The watermark never goes back and never passes the safe head, and the
        logs of the blocks from the start to it are written, malformed, removed or hidden. */
    method ScanConfirmed(head: nat, client: Client) returns (ok: bool, ghost chunks: seq<(nat, nat)>, ghost next: nat)
      requires Valid() && Faithful(client, chain)
      modifies this`lastBlock, this`claims, this`outbox, this`calls, this`base
      ensures Valid() && Follows(old(State()), State(), chain, luck, old(calls), calls)
      ensures old(lastBlock) <= lastBlock && (lastBlock > old(lastBlock) ==> lastBlock + confirmDepth <= head)
      ensures old(lastBlock) > 0 ==> base == old(base)
      ensures head < confirmDepth + old(lastBlock) ==> ok && lastBlock == old(lastBlock) && State() == old(State())
      ensures head >= confirmDepth + old(lastBlock) ==>
        && Tiles(chunks, StartOf(old(lastBlock), head - confirmDepth), next) && next <= head - confirmDepth + 1
        && (next > 0 ==> Covered(chain, State(), base, next - 1))
        && (!ok ==> exists to :: next <= to <= head - confirmDepth && client(next, to).None?)
        && (ok && next <= head - confirmDepth ==> !AllInserted(luck, old(calls), calls))
        && (AllQueried(client) && AllInserted(luck, old(calls), calls) ==> ok && next == head - confirmDepth + 1)
        && (AllQueried(client) && AllInserted(luck, old(calls), calls) && AllSaved(luck, old(calls), calls) ==>
              lastBlock == head - confirmDepth)
    {
      chunks, next := [], lastBlock + 1;
      if head < confirmDepth {
        return true, chunks, next;
      }
      var safeHead := head - confirmDepth;
      var last := lastBlock;
      if last > safeHead {
        return true, chunks, next;
      }
      var from := last + 1;
      if last == 0 {
        from := safeHead;
        base := if from > 0 then from - 1 else 0;
      }
      ok, chunks, next := CatchUp(from, safeHead, client);
    }

    /** Any number of rounds, each with its head and its answers: one unbroken range once a watermark is stored. A
        log of that range is missing exactly if its claim hides it; if nothing was hidden before and no call
        stranded its claim, none is missing; and after any round whose calls all succeed the watermark is at that
        round's safe head or above, however the rounds before went. `marks` are the calls made before each round. */
    method Rounds(heads: seq<nat>, clients: nat -> Client) returns (ghost marks: seq<nat>)
      requires Valid() && forall i :: Faithful(clients(i), chain)
      modifies this`lastBlock, this`claims, this`outbox, this`calls, this`base
      ensures Valid() && old(lastBlock) <= lastBlock && Follows(old(State()), State(), chain, luck, old(calls), calls)
      ensures old(lastBlock) > 0 ==> base == old(base)
      ensures forall log :: log in chain && base < log.block <= lastBlock && log.wellFormed && !log.removed ==>
        (log !in outbox <==> Hides(State(), log.key))
      ensures (forall key :: !Hides(old(State()), key)) && NoneStrand(luck, old(calls), calls) ==>
        forall log :: log in chain && base < log.block <= lastBlock && log.wellFormed && !log.removed ==> log in outbox
      ensures |marks| == |heads| + 1
      ensures forall i :: 0 <= i < |heads| && RoundSucceeds(luck, clients(i), marks[i], marks[i + 1]) ==>
        heads[i] <= lastBlock + confirmDepth
    {
      marks := [calls];
      var i := 0;
      while i < |heads|
        invariant 0 <= i <= |heads| && |marks| == i + 1 && marks[i] == calls
        invariant Valid() && old(lastBlock) <= lastBlock
        invariant Follows(old(State()), State(), chain, luck, old(calls), calls)
        invariant old(lastBlock) > 0 ==> base == old(base)
        invariant forall k :: 0 <= k < i && RoundSucceeds(luck, clients(k), marks[k], marks[k + 1]) ==>
          heads[k] <= lastBlock + confirmDepth
      {
        ghost var before, n := State(), calls;
        var _, _, _ := ScanConfirmed(heads[i], clients(i));
        FollowsOn(old(State()), before, State(), chain, luck, old(calls), n, calls);
        marks := marks + [calls];
        i := i + 1;
      }
    }
  }

  ghost predicate RoundSucceeds(luck: nat -> Luck, client: Client, from: nat, to: nat) {
    AllQueried(client) && AllInserted(luck, from, to) && AllSaved(luck, from, to)
  }

  /** The run in which an event is lost: its claim is taken with a lost reply and its row fails; the next scan,
      which meets no failure at all, moves the watermark past it. */
  method LoseEvent(log: Log, luck: nat -> Luck, client: Client) returns (l: Listener)
    requires log.block > 1 && log.wellFormed && !log.removed && Faithful(client, {log}) && AllQueried(client)
    requires luck(0).claim.ReplyLost? && luck(0).insert.NotDone?
    requires forall n :: n > 0 ==> luck(n) == Luck(Answered, Answered, Answered, Answered)
    ensures log in l.chain && l.base < log.block <= l.lastBlock && log !in l.outbox
  {
    l := new Listener({log}, 0, log.block - 1, luck);
    var r := l.HandleLog(log);
    assert Hides(l.State(), log.key);
    var ok, _, _ := l.ScanConfirmed(log.block, client);
    assert AllClaimsAnswered(luck, 1, l.calls) && AllInserted(luck, 1, l.calls) && AllSaved(luck, 1, l.calls);
  }

  function StartOf(last: nat, safeHead: nat): nat {
    if last == 0 then safeHead else last + 1
  }

  ghost predicate OffGenesis(logs: seq<Log>) {
    forall i :: 0 <= i < |logs| ==> logs[i].block > 0
  }

  ghost predicate HandledBelow(logs: seq<Log>, n: nat, failedFrom: nat, m: Marks)
    requires n <= |logs|
  {
    forall i :: 0 <= i < n && (failedFrom == 0 || logs[i].block < failedFrom) ==> Done(logs[i], m)
  }

  ghost predicate FailedAt(logs: seq<Log>, n: nat, failedFrom: nat)
    requires n <= |logs|
  {
    exists i :: 0 <= i < n && logs[i].block == failedFrom && logs[i].wellFormed && !logs[i].removed
  }

  lemma StillFailed(luck: nat -> Luck, from: nat, middle: nat, to: nat)
    requires from <= middle <= to
    ensures !AllInserted(luck, from, middle) ==> !AllInserted(luck, from, to)
  {
  }

  lemma LaterFailed(luck: nat -> Luck, from: nat, middle: nat, to: nat)
    requires from <= middle <= to
    ensures !AllInserted(luck, middle, to) ==> !AllInserted(luck, from, to)
  {
  }

  lemma LongerFollows(m: Marks, t: Marks, chain: set<Log>, luck: nat -> Luck, from: nat, middle: nat, to: nat)
    requires middle <= to && Follows(m, t, chain, luck, from, middle)
    ensures Follows(m, t, chain, luck, from, to)
  {
  }

  lemma StepBelow(logs: seq<Log>, i: nat, lowest: nat, failedFrom: nat, m: Marks, t: Marks, chain: set<Log>)
    requires i < |logs| && Keeps(m, t, chain) && forall k :: 0 <= k < |logs| ==> logs[k] in chain
    requires failedFrom == lowest || (failedFrom == logs[i].block && (lowest == 0 || failedFrom < lowest))
    requires failedFrom == lowest && logs[i].block > 0 && (failedFrom == 0 || logs[i].block < failedFrom) ==>
      Done(logs[i], t)
    ensures OffGenesis(logs) && HandledBelow(logs, i, lowest, m) ==> HandledBelow(logs, i + 1, failedFrom, t)
  {
  }

  lemma CoveredStays(chain: set<Log>, m: Marks, t: Marks, base: nat, upTo: nat)
    requires Covered(chain, m, base, upTo) && Keeps(m, t, chain)
    ensures Covered(chain, t, base, upTo)
  {
  }

  /** A handled chunk extends the covered range: to its end, or to the block before the first failure. */
  lemma ChunkCovers(chain: set<Log>, m: Marks, base: nat, from: nat, to: nat, logs: seq<Log>, failedFrom: nat)
    requires from <= to && if from > 0 then Covered(chain, m, base, from - 1) else to == 0
    requires forall log :: log in logs <==> log in chain && from <= log.block <= to
    requires OffGenesis(logs) ==> HandledBelow(logs, |logs|, failedFrom, m)
    requires failedFrom != 0 ==> FailedAt(logs, |logs|, failedFrom)
    ensures failedFrom == 0 ==> Covered(chain, m, base, to)
    ensures failedFrom != 0 ==> from <= failedFrom <= to && Covered(chain, m, base, failedFrom - 1)
  {
    if failedFrom != 0 {
      var i :| 0 <= i < |logs| && logs[i].block == failedFrom;
      assert logs[i] in logs;
    }
    forall log | log in chain && base < log.block <= (if failedFrom == 0 then to else failedFrom - 1)
      ensures Done(log, m)
    {
      if log.block >= from {
        assert log in logs;
        forall i | 0 <= i < |logs| ensures logs[i].block > 0 {
          assert logs[i] in logs;
        }
      }
    }
  }
}

/** One red packet: its Redis list of shares and hash of claim marks, its database rows and ledger, and every step that
    the claim saga, the reconciler, the refund and the settlement consumer can take in any order. */
module RedPacket {
  import opened Results
  import opened Sums
  import opened Ledger

  /** A field of the claimed hash: amount, time of the claim, and the ":r" suffix of a repair under way. */
  datatype Mark = Mark(amount: nat, at: nat, repairing: bool)

  /** The two Redis keys of the packet. */
  datatype Keys = Keys(pool: seq<nat>, marks: map<nat, Mark>)

  datatype Status = Active | Finished | Refunded

  datatype Header = Header(id: nat, sender: nat, total: nat, count: nat, remaining: int, status: Status)

  datatype Claim = Claim(id: nat, user: nat, amount: nat)

  /** The packet's row, its claim rows in the order of their ids, the next auto-increment claim id, and the books. */
  datatype Db = Db(packet: Header, claims: seq<Claim>, nextId: nat, books: Books)

  datatype ClaimFault = Duplicate | Closed | Money

  // ---- Redis scripts ----

  /** Code of the claim script: the amount, -1 when the pool is empty, -2 when the user has a mark. */
  function Grab(k: Keys, user: nat, at: nat): (Keys, int) {
    if user in k.marks then (k, -2)
    else if k.pool == [] then (k, -1)
    else (Keys(k.pool[1..], k.marks[user := Mark(k.pool[0], at, false)]), k.pool[0] as int)
  }

  /** Code of the rollback script: 1 put back, 0 no mark, -1 taken over by a repair. */
  function Rollback(k: Keys, user: nat, amount: nat): (Keys, int) {
    if user !in k.marks then (k, 0)
    else if k.marks[user].repairing then (k, -1)
    else (Keys([amount] + k.pool, k.marks - {user}), 1)
  }

  function LockMark(k: Keys, user: nat, raw: Mark): (Keys, bool) {
    if user !in k.marks || k.marks[user] != raw then (k, false)
    else (k.(marks := k.marks[user := raw.(repairing := true)]), true)
  }

  // ---- Database transactions ----

  predicate Recorded(claims: seq<Claim>, user: nat) {
    exists i :: 0 <= i < |claims| && claims[i].user == user
  }

  function FindClaim(claims: seq<Claim>, user: nat): (r: Option<Claim>)
    ensures r.Some? <==> Recorded(claims, user)
    ensures r.Some? ==> r.value in claims && r.value.user == user
  {
    if claims == [] then None
    else if claims[0].user == user then Some(claims[0])
    else
      var r := FindClaim(claims[1..], user);
      assert r.None? ==> forall i :: 1 <= i < |claims| ==> claims[i] == claims[1..][i - 1];
      r
  }

  function Amounts(claims: seq<Claim>): seq<nat> {
    seq(|claims|, i requires 0 <= i < |claims| => claims[i].amount)
  }

  function Claimed(claims: seq<Claim>): int {
    Sum(Amounts(claims))
  }

  function TakeShare(p: Header): Header {
    p.(remaining := p.remaining - 1, status := if p.remaining - 1 == 0 then Finished else p.status)
  }

  /** claimTx: claim row, conditional decrement, finished when drained, money; all or nothing. */
  function ClaimTx(d: Db, user: nat, amount: nat): Result<Db, ClaimFault> {
    if FindClaim(d.claims, user).Some? then Failure(Duplicate)
    else if !(d.packet.remaining > 0 && d.packet.status.Active?) then Failure(Closed)
    else
      match EscrowMove(d.books, user, Credit, amount, d.nextId, RedPacketClaim)
      case Failure(_) => Failure(Money)
      case Success(b) => Success(Db(TakeShare(d.packet), d.claims + [Claim(d.nextId, user, amount)], d.nextId + 1, b))
  }

  function Left(d: Db): int {
    d.packet.total - Claimed(d.claims)
  }

  /** refundRedPacketLeft's transaction: a finished or refunded packet is left alone. */
  function RefundTx(d: Db): Result<Db, Fault> {
    if !d.packet.status.Active? then Success(d)
    else if Left(d) <= 0 then Success(d.(packet := d.packet.(status := Refunded)))
    else
      var b :- EscrowMove(d.books, d.packet.sender, Credit, Left(d), d.packet.id, RedPacketRefund);
      Success(d.(packet := d.packet.(status := Refunded), books := b))
  }

  /** What has gone back to the sender. */
  function Returned(d: Db): int {
    if d.packet.status.Refunded? && Left(d) > 0 then Left(d) else 0
  }

  // ---- The settlement events written with the transactions above ----

  datatype Event = CreatedEvent | ClaimedEvent(user: nat) | ExpiredEvent

  predicate Written(d: Db, e: Event) {
    match e
    case CreatedEvent => true
    case ClaimedEvent(user) => Recorded(d.claims, user)
    case ExpiredEvent => d.packet.status.Refunded? && Left(d) > 0
  }

  /** The consumer settles the event's movement again, relying on the rows that are already there. */
  function Settle(d: Db, e: Event): Result<Books, Fault> {
    match e
    case CreatedEvent => EscrowMove(d.books, d.packet.sender, Debit, d.packet.total, d.packet.id, RedPacketSend)
    case ClaimedEvent(user) =>
      (match FindClaim(d.claims, user)
       case None => Failure(Refused)
       case Some(c) => EscrowMove(d.books, user, Credit, c.amount, c.id, RedPacketClaim))
    case ExpiredEvent =>
      if Left(d) <= 0 then Success(d.books)
      else EscrowMove(d.books, d.packet.sender, Credit, Left(d), d.packet.id, RedPacketRefund)
  }

  // ---- Runs ----

  /** Where a claim request is after its script took a share: before its transaction, after a failure it was told of
      (`closed` if the packet had ended), or about to put the share back. */
  datatype Phase = Popped | Failed(closed: bool) | Undoing

  datatype Session = Session(amount: nat, phase: Phase)

  /** `unsent`: shares not yet written to Redis. `gone`: shares deleted or lost from the pool. `repairs`: user and
      amount of every mark that a reconciler has locked; it may try to record such a mark at any later time, more
      than once. */
  datatype Sys = Sys(keys: Keys, db: Db, unsent: seq<nat>, gone: multiset<nat>, sessions: map<nat, Session>,
                     repairs: set<(nat, nat)>)

  /** How a transaction's client sees it: the true outcome, an error though it committed, or an outside failure. */
  datatype Reply = Told | LostReply | Broken

  datatype Step =
    | Prepare
    | GrabShare(user: nat, at: nat)
    | RunClaim(user: nat, reply: Reply)
    | CheckClaim(user: nat, readable: bool)
    | UndoClaim(user: nat)
    | DropSession(user: nat)
    | LockRepair(user: nat, raw: Mark)
    | RunRepair(user: nat, amount: nat, reply: Reply)
    | RunRefund
    | DropPool
    | LosePool
    | Replay(e: Event)
    | Elsewhere(first: Account, dir: Direction, second: Account, amount: nat, ref: nat, biz: Biz)

  /** A movement of another part of the program: it does not use this packet's references. */
  predicate Foreign(d: Db, ref: nat, biz: Biz) {
    && (biz == RedPacketClaim ==> ref == d.nextId)
    && (biz == RedPacketSend || biz == RedPacketRefund ==> ref != d.packet.id)
  }

  predicate Enabled(s: Sys, step: Step) {
    match step
    case Prepare => s.unsent != []
    case GrabShare(_, _) => true
    case RunClaim(u, _) => u in s.sessions && s.sessions[u].phase.Popped?
    case CheckClaim(u, _) => u in s.sessions && s.sessions[u].phase.Failed?
    case UndoClaim(u) => u in s.sessions && s.sessions[u].phase.Undoing?
    case DropSession(u) => u in s.sessions
    case LockRepair(_, _) => true
    case RunRepair(u, amount, _) => (u, amount) in s.repairs
    case RunRefund => true
    case DropPool => !s.db.packet.status.Active?
    case LosePool => true
    case Replay(e) => Written(s.db, e)
    case Elsewhere(_, _, _, _, ref, biz) => Foreign(s.db, ref, biz)
  }

  function Apply(s: Sys, step: Step): Sys {
    if !Enabled(s, step) then s else
    match step
    case Prepare => s.(keys := s.keys.(pool := s.keys.pool + s.unsent), unsent := [])
    case GrabShare(u, at) =>
      var (k, code) := Grab(s.keys, u, at);
      if code > 0 then s.(keys := k, sessions := s.sessions[u := Session(code, Popped)]) else s.(keys := k)
    case RunClaim(u, reply) => AfterClaim(s, u, reply)
    case CheckClaim(u, readable) =>
      if !readable || Recorded(s.db.claims, u) || s.sessions[u].phase.closed then s.(sessions := s.sessions - {u})
      else s.(sessions := s.sessions[u := s.sessions[u].(phase := Undoing)])
    case UndoClaim(u) =>
      s.(keys := Rollback(s.keys, u, s.sessions[u].amount).0, sessions := s.sessions - {u})
    case DropSession(u) => s.(sessions := s.sessions - {u})
    case LockRepair(u, raw) =>
      var (k, locked) := LockMark(s.keys, u, raw);
      if locked then s.(keys := k, repairs := s.repairs + {(u, raw.amount)}) else s
    case RunRepair(u, amount, reply) =>
      var r := ClaimTx(s.db, u, amount);
      if reply.Broken? || r.Failure? then s else s.(db := r.value)
    case RunRefund => if RefundTx(s.db).Success? then s.(db := RefundTx(s.db).value) else s
    case DropPool => EmptyPool(s)
    case LosePool => EmptyPool(s)
    case Replay(e) => if Settle(s.db, e).Success? then s.(db := s.db.(books := Settle(s.db, e).value)) else s
    case Elsewhere(first, dir, second, amount, ref, biz) =>
      var r := Move(s.db.books, first, dir, second, amount, ref, biz);
      if r.Failure? then s
      else s.(db := s.db.(books := r.value, nextId := if biz == RedPacketClaim then s.db.nextId + 1 else s.db.nextId))
  }

  function EmptyPool(s: Sys): Sys {
    s.(keys := s.keys.(pool := []), gone := s.gone + multiset(s.keys.pool))
  }

  function AfterClaim(s: Sys, u: nat, reply: Reply): Sys
    requires u in s.sessions
  {
    var failed := c => s.sessions[u := s.sessions[u].(phase := Failed(c))];
    if reply.Broken? then s.(sessions := failed(false)) else
    match ClaimTx(s.db, u, s.sessions[u].amount)
    case Success(d) => s.(db := d, sessions := if reply.Told? then s.sessions - {u} else failed(false))
    case Failure(f) => s.(sessions := failed(f.Closed? && reply.Told?))
  }

  function After(s: Sys, steps: seq<Step>): Sys {
    if steps == [] then s else Apply(After(s, steps[..|steps| - 1]), steps[|steps| - 1])
  }

  // ---- Creation ----

  /** What the split promises about the shares. */
  ghost predicate Shares(shares: seq<nat>, total: nat, count: nat) {
    |shares| == count && Sum(shares) == total && count >= 1 && forall i :: 0 <= i < |shares| ==> shares[i] >= 1
  }

  ghost predicate FreshIds(b: Books, id: nat, nextId: nat) {
    && (forall dir :: !HasRow(b.rows, id, dir, RedPacketSend) && !HasRow(b.rows, id, dir, RedPacketRefund))
    && (forall ref, dir :: ref >= nextId ==> !HasRow(b.rows, ref, dir, RedPacketClaim))
  }

  /** The committed creation: row and money are there, the shares are not in Redis yet. */
  function Created(b: Books, id: nat, nextId: nat, sender: nat, shares: seq<nat>, total: nat): Result<Sys, Fault> {
    var b1 :- EscrowMove(b, sender, Debit, total, id, RedPacketSend);
    Success(Sys(Keys([], map[]), Db(Header(id, sender, total, |shares|, |shares|, Active), [], nextId, b1),
                shares, multiset{}, map[], {}))
  }
}

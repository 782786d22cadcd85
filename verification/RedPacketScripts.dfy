/** The scripts and transactions of the red packet on the state they update, proved against the functions that the runs
    are made of. */
module RedPacketScripts {
  import opened Results
  import opened Sums
  import opened Ledger
  import opened RedPacket
  import opened RedPacketRuns
  import opened RedPacketMoney

  class PacketKeys {
    var amounts: seq<nat>
    var claimed: map<nat, Mark>

    ghost function State(): Keys
      reads this
    {
      Keys(amounts, claimed)
    }

    constructor ()
      ensures State() == Keys([], map[])
    {
      amounts, claimed := [], map[];
    }

    /** RPUSH share by share. */
    method PrepareScript(shares: seq<nat>) returns (n: nat)
      modifies this`amounts
      ensures State() == old(State()).(pool := old(amounts) + shares)
      ensures n == |shares|
    {
      n := 0;
      while n < |shares|
        invariant 0 <= n <= |shares|
        invariant amounts == old(amounts) + shares[..n]
      {
        amounts := amounts + [shares[n]];
        n := n + 1;
      }
    }

    method ClaimScript(user: nat, at: nat) returns (code: int)
      modifies this
      ensures (State(), code) == Grab(old(State()), user, at)
      ensures code == -2 <==> user in old(claimed)
      ensures code == -1 <==> user !in old(claimed) && old(amounts) == []
      ensures code < 0 ==> State() == old(State())
      ensures code >= 0 ==>
        && old(amounts) == [code] + amounts
        && claimed == old(claimed)[user := Mark(code, at, false)]
    {
      if user in claimed {
        return -2;
      }
      if amounts == [] {
        return -1;
      }
      var amt := amounts[0];
      amounts := amounts[1..];
      claimed := claimed[user := Mark(amt, at, false)];
      code := amt;
    }

    method RollbackScript(user: nat, amount: nat) returns (code: int)
      modifies this
      ensures (State(), code) == Rollback(old(State()), user, amount)
      ensures code == 0 <==> user !in old(claimed)
      ensures code == -1 <==> user in old(claimed) && old(claimed)[user].repairing
      ensures code != 1 ==> State() == old(State())
      ensures code == 1 ==> amounts == [amount] + old(amounts) && claimed == old(claimed) - {user}
    {
      if user !in claimed {
        return 0;
      }
      if claimed[user].repairing {
        return -1;
      }
      amounts := [amount] + amounts;
      claimed := claimed - {user};
      code := 1;
    }

    method LockScript(user: nat, raw: Mark) returns (locked: bool)
      modifies this`claimed
      ensures (State(), locked) == LockMark(old(State()), user, raw)
      ensures locked <==> user in old(claimed) && old(claimed)[user] == raw
      ensures claimed == if locked then old(claimed)[user := Mark(raw.amount, raw.at, true)] else old(claimed)
    {
      if user !in claimed || claimed[user] != raw {
        return false;
      }
      if !claimed[user].repairing {
        claimed := claimed[user := raw.(repairing := true)];
      }
      assert old(claimed)[user].repairing ==> old(claimed)[user := raw.(repairing := true)] == old(claimed);
      locked := true;
    }

    /** Pops until the list is empty and adds up what it popped. */
    method ReleaseScript() returns (sum: int)
      modifies this`amounts
      ensures State() == old(State()).(pool := [])
      ensures sum == Sum(old(amounts))
    {
      sum := 0;
      ghost var popped: seq<int> := [];
      while amounts != []
        invariant old(amounts) == popped + amounts
        invariant sum == Sum(popped)
        decreases |amounts|
      {
        var amt := amounts[0];
        assert popped + amounts == popped + [amt] + amounts[1..];
        SumAppend(popped, amt);
        popped := popped + [amt];
        amounts := amounts[1..];
        sum := sum + amt;
      }
      assert popped == old(amounts);
    }
  }

  /** The packet's row, the claim table and the ledger of one database. */
  class PacketRows {
    var packet: Header
    var claims: seq<Claim>
    var nextId: nat
    const desk: Desk

    ghost function State(): Db
      reads this, desk
    {
      Db(packet, claims, nextId, desk.State())
    }

    constructor (packet: Header, nextId: nat, desk: Desk)
      ensures State() == Db(packet, [], nextId, desk.State()) && this.desk == desk
    {
      this.packet, claims, this.nextId, this.desk := packet, [], nextId, desk;
    }

    /** UPDATE ... SET remaining = remaining - 1 WHERE remaining > 0 AND status = active. */
    method DecrRemaining() returns (n: nat)
      modifies this`packet
      ensures n == if old(packet).remaining > 0 && old(packet).status.Active? then 1 else 0
      ensures packet == if n == 1 then old(packet).(remaining := old(packet).remaining - 1) else old(packet)
    {
      n := 0;
      if packet.remaining > 0 && packet.status.Active? {
        packet := packet.(remaining := packet.remaining - 1);
        n := 1;
      }
    }

    method MarkFinishedIfDrained()
      modifies this`packet
      ensures packet ==
        if old(packet).status.Active? && old(packet).remaining == 0 then old(packet).(status := Finished)
                        else old(packet)
    {
      if packet.status.Active? && packet.remaining == 0 {
        packet := packet.(status := Finished);
      }
    }

    method CreateClaim(user: nat, amount: nat) returns (ok: bool)
      modifies this`claims, this`nextId
      ensures ok <==> !Recorded(old(claims), user)
      ensures claims == if ok then old(claims) + [Claim(old(nextId), user, amount)] else old(claims)
      ensures nextId == if ok then old(nextId) + 1 else old(nextId)
    {
      ok := FindClaim(claims, user).None?;
      if ok {
        claims := claims + [Claim(nextId, user, amount)];
        nextId := nextId + 1;
      }
    }

    method RollbackTx(packet0: Header, claims0: seq<Claim>, nextId0: nat)
      modifies this
      ensures packet == packet0 && claims == claims0 && nextId == nextId0
    {
      packet, claims, nextId := packet0, claims0, nextId0;
    }

    /** The claim transaction; `fault` names the statement that rolled it back. */
    method RunClaimTx(user: nat, amount: nat) returns (fault: Option<ClaimFault>)
      requires Paired(desk.rows)
      modifies this, desk
      ensures match ClaimTx(old(State()), user, amount)
              case Success(d) => fault == None && State() == d
              case Failure(f) => fault == Some(f) && State() == old(State())
      ensures fault == Some(Duplicate) <==> Recorded(old(claims), user)
      ensures fault == Some(Closed) <==>
        !Recorded(old(claims), user) && !(old(packet).remaining > 0 && old(packet).status.Active?)
      ensures fault == Some(Money) <==>
        && !Recorded(old(claims), user) && old(packet).remaining > 0 && old(packet).status.Active?
        && !(amount > 0 && (HasRow(old(desk.rows), old(nextId), Credit, RedPacketClaim)
                            || CanMove(old(desk.State()), Wallet(user), Credit, RedPacketEscrow, amount, old(nextId),
                                       RedPacketClaim)))
      ensures fault == None ==>
        && claims == old(claims) + [Claim(old(nextId), user, amount)] && nextId == old(nextId) + 1
        && packet == old(packet).(remaining := old(packet).remaining - 1,
                                  status := if old(packet).remaining == 1 then Finished else Active)
    {
      var packet0, claims0, nextId0 := packet, claims, nextId;
      var ok := CreateClaim(user, amount);
      if !ok {
        return Some(Duplicate);
      }
      var n := DecrRemaining();
      if n == 0 {
        RollbackTx(packet0, claims0, nextId0);
        return Some(Closed);
      }
      MarkFinishedIfDrained();
      ok := desk.SettlePacket(user, nextId0, amount, RedPacketClaim);
      if !ok {
        RollbackTx(packet0, claims0, nextId0);
        return Some(Money);
      }
      fault := None;
    }

    /** Reads the row under its lock before summing the claims, so no claim can commit in between. */
    method RunRefundTx() returns (ok: bool, left: int)
      requires Paired(desk.rows)
      modifies this, desk
      ensures ok <==> RefundTx(old(State())).Success?
      ensures State() == if ok then RefundTx(old(State())).value else old(State())
      ensures ok ==> left == if old(packet).status.Active? then Left(old(State())) else 0
      ensures !old(packet).status.Active? ==> ok && State() == old(State())
      ensures old(packet).status.Active? ==>
        && (ok <==> left <= 0 || HasRow(old(desk.rows), packet.id, Credit, RedPacketRefund)
                    || CanMove(old(desk.State()), Wallet(packet.sender), Credit, RedPacketEscrow, left, packet.id,
                               RedPacketRefund))
        && (ok ==> packet == old(packet).(status := Refunded) && claims == old(claims) && nextId == old(nextId))
        && left == old(packet).total - Sum(Amounts(old(claims)))
    {
      left := 0;
      if packet.status.Refunded? || packet.status.Finished? {
        return true, 0;
      }
      var packet0 := packet;
      left := packet.total - Claimed(claims);
      packet := packet.(status := Refunded);
      if left <= 0 {
        return true, left;
      }
      ok := desk.SettlePacket(packet.sender, packet.id, left, RedPacketRefund);
      if !ok {
        packet := packet0;
      }
    }
  }
}

/** One seckill ticket as a queued order task and as a member of the quota protocol: which deliveries of its message
    make the committed order oversell. */
module SeckillTasks {
  import opened Results
  import opened Seckill
  import opened SeckillRuns
  import opened SeckillExact
  import A = AsyncOrder

  /** The step of the quota protocol that an effect of the task is. */
  function StepOf(e: A.Effect, m: Member, id: nat): Option<Step> {
    match e
    case Persist => Some(CommitTask(m, id))
    case SettleQuota => Some(SettleTicket(m))
    case AbortQuota => Some(GiveBack(m))
    case _ => None
  }

  ghost function Act(s: Sys, e: A.Effect, m: Member, id: nat): Sys {
    match StepOf(e, m, id)
    case Some(step) => Apply(s, step)
    case None => s
  }

  /** The task's own record says where the ticket is. */
  ghost predicate Mirrors(t: A.Ticket, s: Sys, m: Member) {
    && t.seckill && Issued(s, m) && !t.quota.NoQuota?
    && (t.quota.InFlight? <==> m in s.redis.inflight)
    && (t.orders > 0 <==> m.ticket in Tickets(s.db))
    && (t.quota.Settled? ==> t.orders > 0)
  }

  /** A task that was just enqueued, with the quota given back if the message was taken for unsent. */
  lemma EnqueueMirrors(publish: A.Publish, itemsBack: bool, quotaBack: bool, s: Sys, m: Member)
    requires Issued(s, m) && m in s.redis.inflight && m.ticket !in Tickets(s.db)
    ensures Mirrors(A.Enqueue(true, true, publish, itemsBack, quotaBack),
                    if publish != A.Sent && quotaBack then Apply(s, GiveBack(m)) else s, m)
  {
  }

  /** An order can be built for the ticket now. */
  ghost predicate CanCommit(s: Sys, m: Member, id: nat) {
    Enabled(s, CommitTask(m, id)) && Commit(s.db, m, id).Success?
  }

  /** A task that is delivered again can commit as long as the counters have room, wherever its quota is by then. */
  lemma RedeliveredCanCommit(s: Sys, m: Member, id: nat)
    requires Issued(s, m) && m.ticket !in Tickets(s.db) && id !in s.db.orders
    requires s.db.sold < s.db.num && Bought(s.db, m.user) < s.db.limit
    ensures CanCommit(Apply(s, Redeliver(m)), m, id) && Apply(s, Redeliver(m)).redis == s.redis
  {
  }

  /** Every effect of the task keeps the two in step, and oversells exactly if it builds the order of a quota given
      back, or gives back the quota of an order built. */
  lemma EffectMirrors(t: A.Ticket, s: Sys, m: Member, id: nat, e: A.Effect)
    requires TaskInv(s) && Mirrors(t, s, m)
    requires e == A.Persist ==> t.orders == 0 && CanCommit(s, m, id)
    requires e == A.SettleQuota ==> t.orders > 0
    ensures Mirrors(A.Apply(t, e), Act(s, e, m, id), m)
    ensures (StepOf(e, m, id).Some? && Oversells(s, StepOf(e, m, id).value)) <==>
      (e == A.Persist && t.quota.GivenBack?) || (e == A.AbortQuota && t.quota.InFlight? && t.orders > 0)
  {
    if e == A.Persist {
      CommitSets(s.db, m, id, {});
    }
  }

  /** A step for another ticket, or for none. */
  ghost predicate Foreign(step: Step, m: Member) {
    match step
    case GrabQuota(x) => x.ticket != m.ticket
    case DropTask(x) => x.ticket != m.ticket
    case CommitTask(x, _) => x.ticket != m.ticket
    case SettleTicket(x) => x.ticket != m.ticket
    case AbortSoldOut(x) => x.ticket != m.ticket
    case AbortLimited(x) => x.ticket != m.ticket
    case GiveBack(x) => x.ticket != m.ticket
    case Redeliver(x) => x.ticket != m.ticket
    case LoseRedis => false
    case _ => true
  }

  /** Without data loss the steps of others keep them in step too. */
  lemma OthersMirror(t: A.Ticket, s: Sys, m: Member, step: Step)
    requires TaskInv(s) && s.redis.stock.Some? && Mirrors(t, s, m) && Foreign(step, m)
    ensures Mirrors(t, Apply(s, step), m)
  {
    if Enabled(s, step) {
      match step
      case CommitTask(x, id) =>
        if Commit(s.db, x, id).Success? {
          CommitSets(s.db, x, id, {});
        }
      case CloseOrder(id) => CloseTickets(s.db, id);
      case _ =>
    }
  }

  /** The order that a delivery commits after others have not oversells exactly if the message was taken for unsent
      and the quota given back, or an earlier delivery was too old, could not be settled, or was rolled back and
      looked up again, and got as far as giving the quota back. */
  lemma CommitOversellsIff(written: bool, publish: A.Publish, itemsBack: bool, quotaBack: bool, ds: seq<A.Delivery>,
                           s: Sys, m: Member, id: nat)
    requires A.Enqueue(true, written, publish, itemsBack, quotaBack).queued && !A.SomeCommits(ds)
    requires Mirrors(A.DeliverAll(A.Enqueue(true, written, publish, itemsBack, quotaBack), ds), s, m)
    requires CanCommit(s, m, id)
    ensures Oversells(s, CommitTask(m, id)) <==>
      (publish != A.Sent && quotaBack) || exists i :: 0 <= i < |ds| && A.FailsQuota(ds[i])
  {
    var t := A.Enqueue(true, written, publish, itemsBack, quotaBack);
    A.Outcome(t, ds);
    if publish != A.Sent && quotaBack {
      A.GivenBackAllAlong(t, ds);
    } else {
      A.QuotaOutcome(t, ds);
      NoneCommitsBefore(ds);
    }
  }

  lemma NoneCommitsBefore(ds: seq<A.Delivery>)
    requires !A.SomeCommits(ds)
    ensures A.SomeFailsQuotaFirst(ds) <==> exists i :: 0 <= i < |ds| && A.FailsQuota(ds[i])
  {
    forall i | 0 <= i < |ds| ensures !A.SomeCommits(ds[..i]) {
      assert forall k :: 0 <= k < i ==> ds[..i][k] == ds[k];
    }
  }
}

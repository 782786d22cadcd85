/** Committing a paid order's reservation over a Redis that may not answer, repairing pending commits, and what both
    do to the drift and to the flags the correction relies on. */
module InventoryCommits {
  import opened Results
  import opened Inventory

  /** How a call ends for its caller: answered, not done, or done with the reply lost. */
  datatype Reply = Answered | Unreachable | ReplyLost

  // ---- The attempts after a payment ----

  /** `runs`: how often the script took the items. `short`: the answer was that the bucket does not hold them. */
  datatype Tried = Tried(runs: nat, answered: bool, short: bool)

  function Try(reserved: int, num: int, replies: seq<Reply>): Tried
    decreases |replies|
  {
    if replies == [] then Tried(0, false, false)
    else
      match replies[0]
      case Unreachable => Try(reserved, num, replies[1..])
      case Answered => if reserved >= num then Tried(1, true, false) else Tried(0, true, true)
      case ReplyLost =>
        if reserved < num then Try(reserved, num, replies[1..])
        else
          var t := Try(reserved - num, num, replies[1..]);
          t.(runs := t.runs + 1)
  }

  function Taken(b: Buckets, n: int): Buckets {
    if b.reserved.None? then b else b.(reserved := Some(b.reserved.value - n))
  }

  /** CommitStockReservation. `marked`: the pending flag could be written. A short bucket drops the reservation. */
  function CommitPaid(s: Stock, i: nat, replies: seq<Reply>, marked: bool): Stock
    requires i < |s.holds|
  {
    var h, t := s.holds[i], Try(Reserved(s.b), s.holds[i].num, replies);
    s.(b := Taken(s.b, t.runs * h.num),
       holds := s.holds[i :=
         h.(owing := h.owing && t.runs == 0 && !t.short, flagged := h.flagged || (!t.answered && marked))])
  }

  predicate SomeAnswer(replies: seq<Reply>) {
    exists k :: 0 <= k < |replies| && replies[k].Answered?
  }

  /** Attempts that get to the script: all up to the first answer that are not unreachable. */
  function Reached(replies: seq<Reply>): nat {
    if replies == [] then 0
    else if replies[0].Answered? then 1
    else Reached(replies[1..]) + if replies[0].ReplyLost? then 1 else 0
  }

  lemma AnswerFirstOrLater(replies: seq<Reply>)
    requires replies != []
    ensures SomeAnswer(replies) <==> replies[0].Answered? || SomeAnswer(replies[1..])
  {
    if SomeAnswer(replies[1..]) {
      var k :| 0 <= k < |replies[1..]| && replies[1..][k].Answered?;
      assert replies[k + 1].Answered?;
    }
    if SomeAnswer(replies) && !replies[0].Answered? {
      var k :| 0 <= k < |replies| && replies[k].Answered?;
      assert replies[1..][k - 1].Answered?;
    }
  }

  /** Whether the script takes the items at all, and whether twice; the answer is short exactly if it is the first
      attempt to get through and the bucket does not hold the items, or comes after the bucket has run out. */
  lemma {:induction false} TriedExactly(reserved: int, num: int, replies: seq<Reply>)
    requires num > 0
    ensures var t := Try(reserved, num, replies);
      && t.answered == SomeAnswer(replies)
      && (reserved < num ==> t.runs == 0 && t.short == SomeAnswer(replies))
      && (reserved >= num ==> (t.runs == 0 <==> Reached(replies) == 0) && (t.runs == 0 ==> !t.short))
      && (reserved >= num ==> (t.runs >= 2 <==> Reached(replies) >= 2 && reserved >= 2 * num))
      && (SomeAnswer(replies) ==> Reached(replies) > 0)
    decreases |replies|
  {
    if replies != [] {
      AnswerFirstOrLater(replies);
      if replies[0].ReplyLost? && reserved >= num {
        TriedExactly(reserved - num, num, replies[1..]);
      } else {
        TriedExactly(reserved, num, replies[1..]);
      }
    }
  }

  /** With room for all of them every attempt that gets through takes the items. */
  lemma {:induction false} TriedWithRoom(reserved: int, num: int, replies: seq<Reply>)
    requires num > 0 && reserved >= Reached(replies) * num
    ensures Try(reserved, num, replies).runs == Reached(replies)
    decreases |replies|
  {
    if replies != [] {
      var rest := Reached(replies[1..]);
      assert rest * num >= 0;
      if replies[0].ReplyLost? {
        assert (rest + 1) * num == rest * num + num;
        TriedWithRoom(reserved - num, num, replies[1..]);
      } else if replies[0].Unreachable? {
        TriedWithRoom(reserved, num, replies[1..]);
      }
    }
  }

  lemma Multiple(runs: nat, n: int)
    requires n > 0
    ensures runs == 0 ==> runs * n == 0
    ensures runs == 1 ==> runs * n == n
    ensures runs >= 2 ==> runs * n > n
    ensures runs * n - n == (runs - 1) * n
  {
    if runs >= 2 {
      assert runs * n == n + (runs - 1) * n;
    }
  }

  lemma CommitMovesDrift(s: Stock, i: nat, replies: seq<Reply>, marked: bool)
    requires i < |s.holds| && s.holds[i].num > 0 && s.holds[i].owing && s.b.available.Some?
    ensures var t, r := Try(Reserved(s.b), s.holds[i].num, replies), CommitPaid(s, i, replies, marked);
      && r.b.available == s.b.available
      && Drift(r) == Drift(s) + t.runs * s.holds[i].num - if t.runs == 0 && !t.short then 0 else s.holds[i].num
  {
    TriedExactly(Reserved(s.b), s.holds[i].num, replies);
    Multiple(Try(Reserved(s.b), s.holds[i].num, replies).runs, s.holds[i].num);
    SumUpdate(s.holds, i, CommitPaid(s, i, replies, marked).holds[i], OWING);
  }

  /** The drift stays as it is unless an answer comes although the bucket does not hold the items, which lowers it,
      or two attempts get to a bucket that holds them twice, which raises it. */
  lemma CommitIsExactIff(s: Stock, i: nat, replies: seq<Reply>, marked: bool)
    requires i < |s.holds| && s.holds[i].num > 0 && s.holds[i].owing && s.b.available.Some?
    ensures var n, r := s.holds[i].num, CommitPaid(s, i, replies, marked);
      && (Drift(r) < Drift(s) <==> Reserved(s.b) < n && SomeAnswer(replies))
      && (Drift(r) > Drift(s) <==> Reserved(s.b) >= 2 * n && Reached(replies) >= 2)
      && (Drift(r) < Drift(s) ==> Drift(r) == Drift(s) - n)
      && (Reserved(s.b) >= Reached(replies) * n && Reached(replies) > 0 ==>
          Drift(r) == Drift(s) + (Reached(replies) - 1) * n)
  {
    var n, t := s.holds[i].num, Try(Reserved(s.b), s.holds[i].num, replies);
    CommitMovesDrift(s, i, replies, marked);
    TriedExactly(Reserved(s.b), n, replies);
    Multiple(t.runs, n);
    if Reserved(s.b) >= Reached(replies) * n && Reached(replies) > 0 {
      TriedWithRoom(Reserved(s.b), n, replies);
    }
  }

  /** A run that breaks it: the reply of a commit is lost, and so is that of the second, with other reservations in the
      bucket. */
  lemma LostRepliesCommitTwice(s: Stock, i: nat, marked: bool)
    requires i < |s.holds| && s.holds[i].num > 0 && s.holds[i].owing && s.b.available.Some?
    requires Reserved(s.b) >= 2 * s.holds[i].num
    ensures Try(Reserved(s.b), s.holds[i].num, [ReplyLost, ReplyLost, Unreachable]).runs == 2
    ensures Drift(CommitPaid(s, i, [ReplyLost, ReplyLost, Unreachable], marked)) == Drift(s) + s.holds[i].num
    ensures Drift(CommitPaid(s, i, [ReplyLost, Answered, Answered], marked)) == Drift(s) + s.holds[i].num
  {
    var last, two, rest := [Unreachable], [ReplyLost, Unreachable], [Answered, Answered];
    assert [ReplyLost, ReplyLost, Unreachable][1..] == two && two[1..] == last && last[1..] == [];
    assert [ReplyLost, Answered, Answered][1..] == rest;
    var n := s.holds[i].num;
    assert Try(Reserved(s.b) - 2 * n, n, last) == Tried(0, false, false);
    assert Try(Reserved(s.b) - n, n, two) == Tried(1, false, false);
    assert Try(Reserved(s.b) - n, n, rest) == Tried(1, true, false);
    CommitMovesDrift(s, i, [ReplyLost, ReplyLost, Unreachable], marked);
    CommitMovesDrift(s, i, [ReplyLost, Answered, Answered], marked);
  }

  // ---- The repair of pending commits ----

  /** The flag is taken first; a commit that is not answered gives it back. `claim`, `restore`: how the two updates
      of the flag end. A claim that is not answered is skipped. */
  function Retry(s: Stock, i: nat, claim: Reply, reply: Reply, restore: bool): Stock
    requires i < |s.holds|
  {
    var h := s.holds[i];
    var fits := Reserved(s.b) >= h.num && s.b.reserved.Some?;
    if !h.flagged || claim.Unreachable? then s
    else if claim.ReplyLost? then s.(holds := s.holds[i := h.(flagged := false)])
    else
      match reply
      case Unreachable => s.(holds := s.holds[i := h.(flagged := restore)])
      case Answered =>
        s.(b := if fits then Taken(s.b, h.num) else s.b, holds := s.holds[i := h.(owing := false, flagged := false)])
      case ReplyLost =>
        s.(b := if fits then Taken(s.b, h.num) else s.b,
           holds := s.holds[i := h.(owing := h.owing && !fits, flagged := restore)])
  }

  predicate Runs(s: Stock, i: nat, claim: Reply, reply: Reply)
    requires i < |s.holds|
  {
    s.holds[i].flagged && claim.Answered? && !reply.Unreachable?
  }

  /** A repair leaves the drift as it is exactly if the script is not run, or it finds the items of a reservation
      still owed, or it does not find them and they are not owed or the reply is lost. It raises the drift when the
      reservation was gone already and the bucket holds as many items of others. */
  lemma RetryIsExactIff(s: Stock, i: nat, claim: Reply, reply: Reply, restore: bool)
    requires i < |s.holds| && s.holds[i].num > 0 && s.b.available.Some?
    ensures var h, r := s.holds[i], Retry(s, i, claim, reply, restore);
      && r.b.available == s.b.available
      && Drift(r) == Drift(s)
           + (if Runs(s, i, claim, reply) && Reserved(s.b) >= h.num && !h.owing then h.num else 0)
           - (if Runs(s, i, claim, reply) && Reserved(s.b) < h.num && h.owing && reply.Answered? then h.num else 0)
  {
    SumUpdate(s.holds, i, Retry(s, i, claim, reply, restore).holds[i], OWING);
  }

  /** Two rounds on one order whose first reply is lost: the second takes the same items again. */
  lemma RepairedTwice(s: Stock, i: nat)
    requires i < |s.holds| && s.holds[i].num > 0 && s.holds[i].flagged && s.holds[i].owing && s.b.available.Some?
    requires Reserved(s.b) >= 2 * s.holds[i].num
    ensures var once := Retry(s, i, Answered, ReplyLost, true); var twice := Retry(once, i, Answered, Answered, true);
      && Drift(once) == Drift(s) && once.holds[i].flagged && !once.holds[i].owing
      && Drift(twice) == Drift(s) + s.holds[i].num
  {
    RetryIsExactIff(s, i, Answered, ReplyLost, true);
    RetryIsExactIff(Retry(s, i, Answered, ReplyLost, true), i, Answered, Answered, true);
  }

  // ---- Whether the flags stay true ----

  lemma MarkedUpdate(holds: seq<Hold>, i: nat, h: Hold)
    requires i < |holds| && Marked(holds) && h.num == holds[i].num
    ensures Marked(holds[i := h]) <==> (h.flagged ==> h.owing) && (h.owing ==> UNCERTAIN(h))
  {
    assert holds[i := h][i] == h;
    if (h.flagged ==> h.owing) && (h.owing ==> UNCERTAIN(h)) {
      var t := holds[i := h];
      forall k | 0 <= k < |t| ensures t[k].num >= 0 && (t[k].flagged ==> t[k].owing) && (t[k].owing ==> UNCERTAIN(t[k]))
      {
        assert k != i ==> holds[i := h][k] == holds[k];
      }
    }
  }

  /** The commit of a fresh payment keeps the flags true unless all attempts fail, one of them having taken the
      items with its reply lost, and the order is then flagged. */
  lemma CommitKeepsFlagsIff(s: Stock, i: nat, replies: seq<Reply>, marked: bool)
    requires Marked(s.holds) && i < |s.holds| && s.holds[i].num > 0
    requires s.holds[i].owing && s.holds[i].recent && !s.holds[i].flagged
    ensures Marked(CommitPaid(s, i, replies, marked).holds) <==>
      !(marked && !SomeAnswer(replies) && Reached(replies) > 0 && Reserved(s.b) >= s.holds[i].num)
  {
    TriedExactly(Reserved(s.b), s.holds[i].num, replies);
    MarkedUpdate(s.holds, i, CommitPaid(s, i, replies, marked).holds[i]);
  }

  /** A repair keeps them true exactly if the script is answered, or the flag comes back with the items still owed,
      or it does not come back and the items are taken or the payment is recent. */
  lemma RetryKeepsFlagsIff(s: Stock, i: nat, claim: Reply, reply: Reply, restore: bool)
    requires Marked(s.holds) && i < |s.holds| && s.holds[i].num > 0 && s.holds[i].flagged
    ensures Marked(Retry(s, i, claim, reply, restore).holds) <==>
      || claim.Unreachable? || (claim.ReplyLost? && s.holds[i].recent)
      || (claim.Answered? && reply.Answered?)
      || (claim.Answered? && !reply.Answered? && (if reply.ReplyLost? && Reserved(s.b) >= s.holds[i].num then !restore
                                                   else restore || s.holds[i].recent))
  {
    MarkedUpdate(s.holds, i, Retry(s, i, claim, reply, restore).holds[i]);
    assert s.holds[i := s.holds[i]] == s.holds;
  }

  /** What an untrue flag does: after the lost reply the drift is still right, and the correction with the two database
      sums takes it for one that lacks the order's items. */
  lemma UntrueFlagMisleadsCorrection(s: Stock, n: int)
    requires n > 0 && s.holds == [Hold(n, true, true, false)] && s.b.available.Some? && Reserved(s.b) >= n
    requires Drift(s) == 0
    ensures var t := Retry(s, 0, Answered, ReplyLost, true);
      && Drift(t) == 0
      && Drift(Apply(t, Correct(t.num, Sum(t.holds, FLAGGED), Sum(t.holds, UNCERTAIN)))) == -n
  {
    RetryIsExactIff(s, 0, Answered, ReplyLost, true);
    var t := Retry(s, 0, Answered, ReplyLost, true);
    assert t.holds == [Hold(n, false, true, false)];
    assert [] + [Hold(n, false, true, false)] == t.holds;
    SumAppend([], Hold(n, false, true, false), FLAGGED);
    SumAppend([], Hold(n, false, true, false), UNCERTAIN);
    SumAppend([], Hold(n, false, true, false), OWING);
    assert Sum(t.holds, FLAGGED) == n && Sum(t.holds, UNCERTAIN) == n && Sum(t.holds, OWING) == 0;
  }
}

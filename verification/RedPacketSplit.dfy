/** Splitting a red packet into random shares by the double-average rule. */
module RedPacketSplit {
  import opened Results
  import opened Sums

  datatype SplitFault = InvalidSplit

  /** The random source: any number below the bound. It panics on a bound below one. */
  method Int63n(n: int) returns (x: int)
    requires n >= 1
    ensures 0 <= x < n
  {
    x :| 0 <= x < n;
  }

  /** The upper end of one draw as the code computes it, with its three clamps. */
  function DrawBound(remain: int, left: int): int
    requires left >= 1
  {
    var avg0 := remain / left * 2;
    var avg := if avg0 < 2 then 2 else avg0;
    var max0 := remain - (left - 1);
    var maxThisRound := if max0 < 1 then 1 else max0;
    var hi := if avg - 1 > maxThisRound then maxThisRound else avg - 1;
    if hi < 1 then 1 else hi
  }

  lemma QuotientBound(q: int, left: int, rest: int)
    requires left >= 2 && 0 <= rest < left && q * left + rest >= left
    ensures q >= 1
    ensures 2 * q - 1 <= q * left + rest - (left - 1)
  {
    assert q <= 0 ==> q * left <= 0;
    assert (q - 1) * (left - 2) >= 0;
    assert (q - 1) * (left - 2) == q * left - 2 * q - left + 2;
  }

  lemma ShareOfLeft(remain: int, left: int)
    requires left >= 2 && remain >= left
    ensures 1 <= remain / left
    ensures 2 * (remain / left) - 1 <= remain - (left - 1)
  {
    var q := remain / left;
    assert remain == q * left + remain % left;
    QuotientBound(q, left, remain % left);
  }

  /** While every remaining share can still get a cent, no clamp changes the draw: it is twice the average less one,
      it leaves a cent for each later share, and it is at least one. */
  lemma ClampsAreDead(remain: int, left: int)
    requires left >= 2 && remain >= left
    ensures DrawBound(remain, left) == 2 * (remain / left) - 1
    ensures 1 <= DrawBound(remain, left) <= remain - (left - 1)
  {
    ShareOfLeft(remain, left);
  }

  /** One round: twice the average, clamped so that each later share keeps a cent, then a random draw. */
  method DrawShare(remain: int, left: int) returns (amt: int)
    requires left >= 2 && remain >= left
    ensures 1 <= amt <= remain - (left - 1)
    ensures amt <= 2 * (remain / left) - 1
  {
    ClampsAreDead(remain, left);
    var avg := remain / left * 2;
    if avg < 2 {
      avg := 2;
    }
    var maxThisRound := remain - (left - 1);
    if maxThisRound < 1 {
      maxThisRound := 1;
    }
    var hi := avg - 1;
    if hi > maxThisRound {
      hi := maxThisRound;
    }
    if hi < 1 {
      hi := 1;
    }
    var draw := Int63n(hi);
    amt := draw + 1;
  }

  /** Fails exactly on a count below one or a total below the count; otherwise the shares are `count` many, at least one
      cent each, and sum to the total. The random bound is a precondition of the source, so it is never below one. */
  method SplitRedPacket(total: int, count: int) returns (r: Result<seq<int>, SplitFault>)
    ensures r.Success? <==> count >= 1 && total >= count
    ensures r.Success? ==> |r.value| == count && Sum(r.value) == total
    ensures r.Success? ==> forall i :: 0 <= i < count ==> 1 <= r.value[i] <= total - (count - 1)
  {
    if count <= 0 || total < count {
      return Failure(InvalidSplit);
    }
    var out := new int[count];
    var remain := total;
    var i := 0;
    while i < count - 1
      invariant 0 <= i <= count - 1
      invariant remain >= count - i
      invariant Sum(out[..i]) + remain == total
      invariant remain <= total - i
      invariant forall k :: 0 <= k < i ==> 1 <= out[k] <= total - (count - 1)
    {
      var amt := DrawShare(remain, count - i);
      ghost var before := out[..i];
      out[i] := amt;
      assert out[..i + 1] == before + [amt];
      SumAppend(before, amt);
      remain := remain - amt;
      i := i + 1;
    }
    ghost var before := out[..count - 1];
    out[count - 1] := remain;
    SumAppend(before, remain);
    ghost var drawn := out[..];
    assert drawn == before + [remain];
    Shuffle(out);
    PermutedShares(drawn, out[..], total - (count - 1));
    r := Success(out[..]);
  }

  lemma PermutedShares(drawn: seq<int>, shuffled: seq<int>, most: int)
    requires multiset(drawn) == multiset(shuffled)
    requires forall i :: 0 <= i < |drawn| ==> 1 <= drawn[i] <= most
    ensures Sum(shuffled) == Sum(drawn) && |shuffled| == |drawn|
    ensures forall i :: 0 <= i < |shuffled| ==> 1 <= shuffled[i] <= most
  {
    forall i | 0 <= i < |shuffled| ensures 1 <= shuffled[i] <= most {
      assert shuffled[i] in multiset(shuffled);
      assert shuffled[i] in multiset(drawn);
    }
    SubBagSum(drawn, shuffled);
    SubBagSum(shuffled, drawn);
  }

  /** Swaps each position from the last with a random one at or before it: a permutation of what was there. */
  method Shuffle(out: array<int>)
    modifies out
    ensures multiset(out[..]) == multiset(old(out[..]))
  {
    var i := out.Length - 1;
    while i > 0
      invariant i < out.Length
      invariant multiset(out[..]) == multiset(old(out[..]))
    {
      var j := Int63n(i + 1);
      out[i], out[j] := out[j], out[i];
      i := i - 1;
    }
  }
}

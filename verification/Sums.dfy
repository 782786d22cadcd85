/** Sums of amounts, and that a sum depends only on the bag of its terms. */
module Sums {
  function Sum(s: seq<int>): int {
    if s == [] then 0 else Sum(s[..|s| - 1]) + s[|s| - 1]
  }

  lemma SumAppend(s: seq<int>, x: int)
    ensures Sum(s + [x]) == Sum(s) + x
  {
    assert (s + [x])[..|s|] == s;
  }

  lemma {:induction false} SumConcat(s: seq<int>, t: seq<int>)
    ensures Sum(s + t) == Sum(s) + Sum(t)
  {
    if t == [] {
      assert s + t == s;
    } else {
      assert (s + t)[..|s + t| - 1] == s + t[..|t| - 1];
      SumConcat(s, t[..|t| - 1]);
    }
  }

  /** Taking out the term at position `i`. */
  function Without(s: seq<int>, i: nat): seq<int>
    requires i < |s|
  {
    s[..i] + s[i + 1..]
  }

  lemma SplitAt(s: seq<int>, i: nat)
    requires i < |s|
    ensures s == s[..i] + [s[i]] + s[i + 1..]
  {
  }

  lemma SumRemove(s: seq<int>, i: nat)
    requires i < |s|
    ensures Sum(s) == Sum(Without(s, i)) + s[i]
  {
    SplitAt(s, i);
    SumConcat(s[..i] + [s[i]], s[i + 1..]);
    SumAppend(s[..i], s[i]);
    SumConcat(s[..i], s[i + 1..]);
  }

  lemma BagRemove(s: seq<int>, i: nat)
    requires i < |s|
    ensures multiset(s) == multiset(Without(s, i)) + multiset{s[i]}
  {
    SplitAt(s, i);
    assert multiset(s) == multiset(s[..i] + [s[i]] + s[i + 1..]);
  }

  lemma Cancel(a: multiset<int>, b: multiset<int>, x: int)
    requires a + multiset{x} <= b + multiset{x}
    ensures a <= b
  {
    forall y ensures a[y] <= b[y] {
      assert (a + multiset{x})[y] <= (b + multiset{x})[y];
    }
  }

  ghost predicate NonNegative(s: seq<int>) {
    forall i :: 0 <= i < |s| ==> s[i] >= 0
  }

  /** A bag of amounts inside another one sums to no more, and to the same if nothing is missing. */
  lemma {:induction false} SubBagSum(s: seq<int>, t: seq<int>)
    requires multiset(s) <= multiset(t)
    requires NonNegative(t)
    ensures Sum(s) <= Sum(t)
    ensures |s| <= |t|
    ensures |s| == |t| ==> Sum(s) == Sum(t)
    decreases |s|
  {
    if s == [] {
      NonNegativeSum(t);
    } else {
      var last := |s| - 1;
      BagRemove(s, last);
      assert Without(s, last) == s[..last];
      assert s[last] in multiset(s);
      assert s[last] in multiset(t);
      var i :| 0 <= i < |t| && t[i] == s[last];
      BagRemove(t, i);
      SumRemove(t, i);
      Cancel(multiset(s[..last]), multiset(Without(t, i)), s[last]);
      SubBagSum(s[..last], Without(t, i));
    }
  }

  lemma {:induction false} NonNegativeSum(s: seq<int>)
    requires NonNegative(s)
    ensures Sum(s) >= 0
  {
    if s != [] {
      NonNegativeSum(s[..|s| - 1]);
    }
  }
}

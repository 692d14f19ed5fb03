/** Weighted sums over a sequence, used to count workers by what they are doing. */
module Counting {
  function Sum<T>(s: seq<T>, weight: T -> nat): nat {
    if s == [] then 0 else Sum(s[..|s| - 1], weight) + weight(s[|s| - 1])
  }

  lemma {:induction false} SumUpdate<T>(s: seq<T>, i: nat, x: T, weight: T -> nat)
    requires i < |s|
    ensures Sum(s[i := x], weight) == Sum(s, weight) - weight(s[i]) + weight(x)
  {
    var n := |s| - 1;
    if i < n {
      SumUpdate(s[..n], i, x, weight);
      assert s[i := x][..n] == s[..n][i := x];
    } else {
      assert s[i := x][..n] == s[..n];
    }
  }

  lemma {:induction false} SumAtMost<T>(s: seq<T>, t: seq<T>, lighter: T -> nat, heavier: T -> nat)
    requires |s| == |t| && forall i | 0 <= i < |s| :: lighter(s[i]) <= heavier(t[i])
    ensures Sum(s, lighter) <= Sum(t, heavier)
  {
    if s != [] {
      SumAtMost(s[..|s| - 1], t[..|t| - 1], lighter, heavier);
    }
  }

  lemma {:induction false} SumZero<T>(s: seq<T>, weight: T -> nat)
    requires forall i | 0 <= i < |s| :: weight(s[i]) == 0
    ensures Sum(s, weight) == 0
  {
    if s != [] {
      SumZero(s[..|s| - 1], weight);
    }
  }

  lemma {:induction false} SumHasPart<T>(s: seq<T>, i: nat, weight: T -> nat)
    requires i < |s|
    ensures weight(s[i]) <= Sum(s, weight)
  {
    if i < |s| - 1 {
      SumHasPart(s[..|s| - 1], i, weight);
    }
  }

  lemma {:induction false} SumHasParts<T>(s: seq<T>, i: nat, j: nat, weight: T -> nat)
    requires i < j < |s|
    ensures weight(s[i]) + weight(s[j]) <= Sum(s, weight)
  {
    if j < |s| - 1 {
      SumHasParts(s[..|s| - 1], i, j, weight);
    } else {
      SumHasPart(s[..j], i, weight);
    }
  }
}

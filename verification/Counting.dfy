/** Sums of a weight over a sequence: the one counting device that every protocol model here uses. */
module Counting {

  function Sum<T>(weight: T -> nat, s: seq<T>): (total: nat) {
    if s == [] then 0 else weight(s[0]) + Sum(weight, s[1..])
  }

  lemma {:induction false} SumConcat<T>(weight: T -> nat, a: seq<T>, b: seq<T>)
    ensures Sum(weight, a + b) == Sum(weight, a) + Sum(weight, b)
  {
    if a == [] {
      assert a + b == b;
    } else {
      assert (a + b)[1..] == a[1..] + b;
      SumConcat(weight, a[1..], b);
    }
  }

  lemma SumAppend<T>(weight: T -> nat, s: seq<T>, x: T)
    ensures Sum(weight, s + [x]) == Sum(weight, s) + weight(x)
  {
    SumConcat(weight, s, [x]);
    assert [x][1..] == [];
  }

  lemma {:induction false} SumUpdate<T>(weight: T -> nat, s: seq<T>, i: nat, x: T)
    requires i < |s|
    ensures Sum(weight, s[i := x]) + weight(s[i]) == Sum(weight, s) + weight(x)
  {
    if i == 0 {
      assert s[0 := x][1..] == s[1..];
    } else {
      assert s[i := x][1..] == s[1..][i - 1 := x];
      SumUpdate(weight, s[1..], i - 1, x);
    }
  }

  lemma {:induction false} SumAtLeast<T>(weight: T -> nat, s: seq<T>, i: nat)
    requires i < |s|
    ensures weight(s[i]) <= Sum(weight, s)
  {
    if i > 0 {
      SumAtLeast(weight, s[1..], i - 1);
    }
  }

  lemma {:induction false} SumAtLeastTwo<T>(weight: T -> nat, s: seq<T>, i: nat, j: nat)
    requires i < j < |s|
    ensures weight(s[i]) + weight(s[j]) <= Sum(weight, s)
  {
    if i == 0 {
      SumAtLeast(weight, s[1..], j - 1);
    } else {
      SumAtLeastTwo(weight, s[1..], i - 1, j - 1);
    }
  }

  /** A positive sum has a positive member. */
  lemma {:induction false} SumPositive<T>(weight: T -> nat, s: seq<T>) returns (i: nat)
    requires Sum(weight, s) > 0
    ensures i < |s| && weight(s[i]) > 0
  {
    if weight(s[0]) > 0 {
      i := 0;
    } else {
      var j := SumPositive(weight, s[1..]);
      i := j + 1;
    }
  }

  lemma {:induction false} SumZero<T>(weight: T -> nat, s: seq<T>)
    requires forall i :: 0 <= i < |s| ==> weight(s[i]) == 0
    ensures Sum(weight, s) == 0
  {
    if s != [] {
      SumZero(weight, s[1..]);
    }
  }

  lemma {:induction false} SumBelow<T>(w: T -> nat, v: T -> nat, s: seq<T>)
    requires forall i :: 0 <= i < |s| ==> w(s[i]) <= v(s[i])
    ensures Sum(w, s) <= Sum(v, s)
  {
    if s != [] {
      SumBelow(w, v, s[1..]);
    }
  }
}

/** Totals over sequences and the iterator search the program uses on its fixed arrays. */
module Sequences {
  import opened Numbers

  /** The sum of `f` over `s`. */
  ghost function Sum<T>(s: seq<T>, f: T -> int): int {
    if s == [] then 0 else Sum(s[..|s| - 1], f) + f(s[|s| - 1])
  }

  lemma {:induction false} SumUpdate<T>(s: seq<T>, i: nat, v: T, f: T -> int)
    requires i < |s|
    ensures Sum(s[i := v], f) == Sum(s, f) - f(s[i]) + f(v)
  {
    var n := |s| - 1;
    if i == n {
      assert s[i := v][..n] == s[..n];
    } else {
      assert s[i := v][..n] == s[..n][i := v];
      SumUpdate(s[..n], i, v, f);
    }
  }

  lemma {:induction false} SumAppend<T>(s: seq<T>, v: T, f: T -> int)
    ensures Sum(s + [v], f) == Sum(s, f) + f(v)
  {
    assert (s + [v])[..|s|] == s;
  }

  lemma {:induction false} SumConcat<T>(s: seq<T>, t: seq<T>, f: T -> int)
    ensures Sum(s + t, f) == Sum(s, f) + Sum(t, f)
  {
    if t == [] {
      assert s + t == s;
    } else {
      var n := |t| - 1;
      assert s + t == (s + t[..n]) + [t[n]];
      SumAppend(s + t[..n], t[n], f);
      SumConcat(s, t[..n], f);
    }
  }

  /** A total does not depend on the order of the elements. */
  lemma {:induction false} SumPermutation<T>(s: seq<T>, t: seq<T>, f: T -> int)
    requires multiset(s) == multiset(t)
    ensures Sum(s, f) == Sum(t, f)
    decreases |s|
  {
    if s == [] {
      assert |multiset(t)| == 0;
    } else {
      var n := |s| - 1;
      var v := s[n];
      assert s == s[..n] + [v];
      assert v in multiset(s);
      var j :| 0 <= j < |t| && t[j] == v;
      var rest := t[..j] + t[j + 1..];
      assert t == t[..j] + ([v] + t[j + 1..]);
      assert multiset(rest) == multiset(t) - multiset{v};
      assert multiset(s[..n]) == multiset(s) - multiset{v};
      SumPermutation(s[..n], rest, f);
      SumConcat(t[..j], [v] + t[j + 1..], f);
      SumConcat([v], t[j + 1..], f);
      SumConcat(t[..j], t[j + 1..], f);
      assert Sum([v], f) == f(v) by { SumAppend([], v, f); assert [] + [v] == [v]; }
    }
  }

  /** Totals agree when the function agrees position by position. */
  lemma {:induction false} SameSum<T>(s: seq<T>, t: seq<T>, f: T -> int)
    requires |s| == |t| && forall i :: 0 <= i < |s| ==> f(s[i]) == f(t[i])
    ensures Sum(s, f) == Sum(t, f)
  {
    if s == [] {
    } else {
      SameSum(s[..|s| - 1], t[..|t| - 1], f);
    }
  }

  lemma {:induction false} ZeroSum<T>(s: seq<T>, f: T -> int)
    requires forall i :: 0 <= i < |s| ==> f(s[i]) == 0
    ensures Sum(s, f) == 0
  {
    if s == [] {
    } else {
      ZeroSum(s[..|s| - 1], f);
    }
  }

  /** A total with a single term that is not zero is that term. */
  lemma {:induction false} OnlyTerm<T>(s: seq<T>, i: nat, f: T -> int)
    requires i < |s| && forall j :: 0 <= j < |s| && j != i ==> f(s[j]) == 0
    ensures Sum(s, f) == f(s[i])
  {
    var before, after := s[..i], s[i + 1..];
    assert s == (before + [s[i]]) + after;
    SumConcat(before + [s[i]], after, f);
    SumAppend(before, s[i], f);
    ZeroSum(before, f);
    ZeroSum(after, f);
  }

  /** A total of terms of at least zero is at least every term. */
  lemma {:induction false} SumBound<T>(s: seq<T>, i: nat, f: T -> int)
    requires i < |s|
    requires forall j :: 0 <= j < |s| ==> f(s[j]) >= 0
    ensures Sum(s, f) >= f(s[i])
  {
    var n := |s| - 1;
    if n == 0 {
      assert Sum(s[..0], f) == 0;
    } else {
      SumBound(s[..n], if i < n then i else 0, f);
    }
  }

  /** A total of terms of at most zero is at most every term. */
  lemma {:induction false} NegatedBound<T>(s: seq<T>, i: nat, f: T -> int)
    requires i < |s|
    requires forall j :: 0 <= j < |s| ==> f(s[j]) <= 0
    ensures Sum(s, f) <= f(s[i])
  {
    var n := |s| - 1;
    if n == 0 {
      assert Sum(s[..0], f) == 0;
    } else {
      NegatedBound(s[..n], if i < n then i else 0, f);
    }
  }

  /** Index of the first element satisfying `p`. */
  function Position<T>(s: seq<T>, p: T -> bool): (r: Option<nat>)
    ensures r.Some? ==> r.value < |s| && p(s[r.value]) && forall j :: 0 <= j < r.value ==> !p(s[j])
    ensures r.None? ==> forall j :: 0 <= j < |s| ==> !p(s[j])
  {
    PositionFrom(s, p, 0)
  }

  function PositionFrom<T>(s: seq<T>, p: T -> bool, from: nat): (r: Option<nat>)
    requires from <= |s|
    ensures r.Some? ==> from <= r.value < |s| && p(s[r.value]) && forall j :: from <= j < r.value ==> !p(s[j])
    ensures r.None? ==> forall j :: from <= j < |s| ==> !p(s[j])
    decreases |s| - from
  {
    if from == |s| then None
    else if p(s[from]) then Some(from)
    else PositionFrom(s, p, from + 1)
  }

  function Repeat<T>(v: T, n: nat): (r: seq<T>)
    ensures |r| == n && forall i :: 0 <= i < n ==> r[i] == v
  {
    seq(n, _ => v)
  }
}

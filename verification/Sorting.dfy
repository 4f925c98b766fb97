/** Sorting by an integer key: what `Array.sort` leaves, with ties in any order. */
module Sorting {
  import opened Sequences

  ghost predicate SortedBy<T>(s: seq<T>, key: T -> int) {
    forall a, b :: 0 <= a < b < |s| ==> key(s[a]) <= key(s[b])
  }

  function InsertBy<T(==)>(s: seq<T>, v: T, key: T -> int): (r: seq<T>)
    ensures multiset(r) == multiset(s) + multiset{v}
    ensures SortedBy(s, key) ==> SortedBy(r, key)
  {
    if s == [] then [v]
    else
      var n := |s| - 1;
      assert s == s[..n] + [s[n]];
      if key(s[n]) <= key(v) then s + [v]
      else
        var r := InsertBy(s[..n], v, key);
        InsertedBelow(r, s[..n], v, s[n], key);
        r + [s[n]]
  }

  lemma InsertedBelow<T>(r: seq<T>, s: seq<T>, v: T, top: T, key: T -> int)
    requires multiset(r) == multiset(s) + multiset{v}
    requires key(v) <= key(top)
    ensures (forall a :: 0 <= a < |s| ==> key(s[a]) <= key(top)) ==> forall a :: 0 <= a < |r| ==> key(r[a]) <= key(top)
  {
    if forall a :: 0 <= a < |s| ==> key(s[a]) <= key(top) {
      forall a | 0 <= a < |r|
        ensures key(r[a]) <= key(top)
      {
        assert r[a] in multiset(r);
        if r[a] != v { assert r[a] in s; }
      }
    }
  }

  /** A sorted permutation of `s`. */
  function SortBy<T(==)>(s: seq<T>, key: T -> int): (r: seq<T>)
    ensures multiset(r) == multiset(s)
    ensures SortedBy(r, key)
  {
    if s == [] then []
    else
      var n := |s| - 1;
      assert s == s[..n] + [s[n]];
      InsertBy(SortBy(s[..n], key), s[n], key)
  }
}

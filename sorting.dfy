/**
 * The `std::sort` calls of src/ind/support_resistance.cpp that order
 * values by one real-valued key (zones by `lo`, zones by descending
 * confidence), written as an insertion sort on sequences. `std::sort`
 * leaves the order of equal keys unspecified; this sort keeps their
 * input order, which is one of the orders it may produce.
 */
module Sorting {

  predicate SortedBy<T>(s: seq<T>, key: T -> real)
  {
    forall i, j :: 0 <= i < j < |s| ==> key(s[i]) <= key(s[j])
  }

  /** Places `x` before the first element of `s` whose key is not smaller. */
  function InsertBy<T>(x: T, s: seq<T>, key: T -> real): (r: seq<T>)
    ensures multiset(r) == multiset(s) + multiset{x}
    ensures |r| == |s| + 1
  {
    if s == [] then [x]
    else if key(x) <= key(s[0]) then [x] + s
    else
      assert s == [s[0]] + s[1..];
      [s[0]] + InsertBy(x, s[1..], key)
  }

  /** Inserting into a sorted sequence keeps it sorted. */
  lemma {:induction false} InsertSorted<T>(x: T, s: seq<T>, key: T -> real)
    requires SortedBy(s, key)
    ensures SortedBy(InsertBy(x, s, key), key)
    decreases |s|
  {
    if s != [] && key(s[0]) < key(x) {
      var rest := InsertBy(x, s[1..], key);
      InsertSorted(x, s[1..], key);
      forall k | 0 <= k < |rest|
        ensures key(s[0]) <= key(rest[k])
      {
        assert rest[k] in multiset(rest);
        if rest[k] != x {
          assert rest[k] in multiset(s[1..]);
          var j :| 0 <= j < |s[1..]| && s[1..][j] == rest[k];
          assert s[1 + j] == rest[k];
        }
      }
    }
  }

  /** A sorted permutation of `s`. */
  function SortBy<T>(s: seq<T>, key: T -> real): (r: seq<T>)
    ensures SortedBy(r, key)
    ensures multiset(r) == multiset(s)
    ensures |r| == |s|
  {
    if s == [] then []
    else
      assert s == [s[0]] + s[1..];
      InsertSorted(s[0], SortBy(s[1..], key), key);
      InsertBy(s[0], SortBy(s[1..], key), key)
  }

  /** Sorting keeps exactly the elements it was given. */
  lemma SortBySameElements<T>(s: seq<T>, key: T -> real, x: T)
    ensures x in SortBy(s, key) <==> x in s
  {
    var r := SortBy(s, key);
    assert x in r <==> x in multiset(r);
    assert x in s <==> x in multiset(s);
  }
}

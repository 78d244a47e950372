/** Ordering by a descending integer key, the `ORDER BY <column> DESC` the
    transaction listing ends with. SQLite leaves the order of rows with equal
    keys unspecified; this model fixes one (the stable one). */
module Sorting {

  /** Keys never increase from left to right. */
  ghost predicate SortedDesc<T>(key: T -> int, s: seq<T>) {
    forall i, j :: 0 <= i < j < |s| ==> key(s[i]) >= key(s[j])
  }

  /** Places `x` into the descending sequence `s` ahead of every element
      whose key is not larger than its own. */
  function InsertDesc<T>(key: T -> int, x: T, s: seq<T>): (r: seq<T>)
    requires SortedDesc(key, s)
    ensures |r| == |s| + 1
    ensures multiset(r) == multiset(s) + multiset{x}
    ensures SortedDesc(key, r)
    ensures r[0] == x || (|s| > 0 && r[0] == s[0])
  {
    if |s| == 0 then [x]
    else if key(x) >= key(s[0]) then [x] + s
    else
      var tail := InsertDesc(key, x, s[1..]);
      assert s == [s[0]] + s[1..];
      assert key(s[0]) >= key(tail[0]);
      [s[0]] + tail
  }

  /** Insertion sort by descending key: a permutation of `s` whose keys
      never increase. */
  function SortDesc<T>(key: T -> int, s: seq<T>): (r: seq<T>)
    ensures |r| == |s|
    ensures multiset(r) == multiset(s)
    ensures SortedDesc(key, r)
  {
    if |s| == 0 then []
    else
      assert s == [s[0]] + s[1..];
      InsertDesc(key, s[0], SortDesc(key, s[1..]))
  }

  /** Sorting keeps exactly the same elements. */
  lemma SortKeepsMembers<T>(key: T -> int, s: seq<T>)
    ensures forall x :: x in SortDesc(key, s) <==> x in s
  {
    var r := SortDesc(key, s);
    forall x
      ensures x in r <==> x in s
    {
      assert x in r <==> x in multiset(r);
      assert x in s <==> x in multiset(s);
    }
  }
}

/** Generic sequence operations with the meaning of the JavaScript array
    methods the source uses: `filter`, `find`, `map` with a conditional
    replacement, and a numeric `reduce`. */
module Seqs {
  import opened Wrappers

  /** The elements of `s` that satisfy `p`, in their original order. */
  function Filter<T>(p: T -> bool, s: seq<T>): (r: seq<T>)
    ensures |r| <= |s|
    ensures forall x :: x in r ==> x in s && p(x)
    ensures forall x :: x in s && p(x) ==> x in r
  {
    if |s| == 0 then []
    else if p(s[0]) then [s[0]] + Filter(p, s[1..])
    else Filter(p, s[1..])
  }

  /** The elements of `s` at the positions where `keep` is true. */
  function Select<T>(keep: seq<bool>, s: seq<T>): seq<T>
    requires |keep| == |s|
  {
    if |s| == 0 then []
    else if keep[0] then [s[0]] + Select(keep[1..], s[1..])
    else Select(keep[1..], s[1..])
  }

  /** `a` is obtained from `b` by deleting elements, keeping the order. */
  ghost predicate IsSubsequence<T>(a: seq<T>, b: seq<T>) {
    exists keep: seq<bool> :: |keep| == |b| && Select(keep, b) == a
  }

  /** The mask of positions `Filter(p, s)` keeps. */
  function Mask<T>(p: T -> bool, s: seq<T>): (m: seq<bool>)
    ensures |m| == |s|
    ensures forall i :: 0 <= i < |s| ==> m[i] == p(s[i])
  {
    if |s| == 0 then [] else [p(s[0])] + Mask(p, s[1..])
  }

  lemma {:induction false} FilterSelectsMask<T>(p: T -> bool, s: seq<T>)
    ensures Select(Mask(p, s), s) == Filter(p, s)
  {
    if |s| > 0 {
      FilterSelectsMask(p, s[1..]);
      assert Mask(p, s)[1..] == Mask(p, s[1..]);
    }
  }

  /** `r` is what `filter(p)` leaves of `s`: the elements of `s` at exactly
      the positions where `p` holds, every copy of them, in their order. */
  ghost predicate KeptExactly<T>(r: seq<T>, s: seq<T>, p: T -> bool) {
    exists keep: seq<bool> ::
      && |keep| == |s|
      && (forall i :: 0 <= i < |s| ==> keep[i] == p(s[i]))
      && Select(keep, s) == r
  }

  /** `Filter` keeps exactly the passing positions. */
  lemma FilterKeptExactly<T>(p: T -> bool, s: seq<T>)
    ensures KeptExactly(Filter(p, s), s, p)
  {
    FilterSelectsMask(p, s);
  }

  /** `KeptExactly` pins its result down: only `Filter` meets it. */
  lemma KeptExactlyIsFilter<T>(r: seq<T>, s: seq<T>, p: T -> bool)
    requires KeptExactly(r, s, p)
    ensures r == Filter(p, s)
  {
    var keep :| && |keep| == |s|
                && (forall i :: 0 <= i < |s| ==> keep[i] == p(s[i]))
                && Select(keep, s) == r;
    assert keep == Mask(p, s);
    FilterSelectsMask(p, s);
  }

  /** A filter never reorders or duplicates: its result is a subsequence. */
  lemma FilterIsSubsequence<T>(p: T -> bool, s: seq<T>)
    ensures IsSubsequence(Filter(p, s), s)
  {
    FilterSelectsMask(p, s);
  }

  /** A filter that every element passes is the identity. */
  lemma {:induction false} FilterAllKept<T>(p: T -> bool, s: seq<T>)
    requires forall i :: 0 <= i < |s| ==> p(s[i])
    ensures Filter(p, s) == s
  {
    if |s| > 0 {
      FilterAllKept(p, s[1..]);
      assert [s[0]] + s[1..] == s;
    }
  }

  /** A filter that no element passes is empty. */
  lemma FilterNoneKept<T>(p: T -> bool, s: seq<T>)
    requires forall x :: x in s ==> !p(x)
    ensures Filter(p, s) == []
  {
  }

  /** Two tests that agree on every element of `s` filter it alike. */
  lemma {:induction false} FilterSameOn<T>(p: T -> bool, q: T -> bool, s: seq<T>)
    requires forall i :: 0 <= i < |s| ==> p(s[i]) == q(s[i])
    ensures Filter(p, s) == Filter(q, s)
  {
    if |s| > 0 {
      FilterSameOn(p, q, s[1..]);
    }
  }

  /** Filtering distributes over concatenation. */
  lemma {:induction false} FilterAppend<T>(p: T -> bool, a: seq<T>, b: seq<T>)
    ensures Filter(p, a + b) == Filter(p, a) + Filter(p, b)
  {
    if |a| > 0 {
      FilterAppend(p, a[1..], b);
      assert (a + b)[1..] == a[1..] + b;
    } else {
      assert a + b == b;
    }
  }

  /** Sum of `f` over the elements of `s` (a `reduce` from 0). */
  function Sum<T>(f: T -> int, s: seq<T>): int {
    if |s| == 0 then 0 else f(s[0]) + Sum(f, s[1..])
  }

  lemma {:induction false} SumAppend<T>(f: T -> int, a: seq<T>, b: seq<T>)
    ensures Sum(f, a + b) == Sum(f, a) + Sum(f, b)
  {
    if |a| > 0 {
      SumAppend(f, a[1..], b);
      assert (a + b)[1..] == a[1..] + b;
    } else {
      assert a + b == b;
    }
  }

  /** When `p` and `q` split the elements into two classes, the two partial
      sums add up to the whole sum. */
  lemma {:induction false} SumPartition<T>(f: T -> int, p: T -> bool, q: T -> bool, s: seq<T>)
    requires forall x :: x in s ==> (p(x) <==> !q(x))
    ensures Sum(f, Filter(p, s)) + Sum(f, Filter(q, s)) == Sum(f, s)
  {
    if |s| > 0 {
      SumPartition(f, p, q, s[1..]);
      assert s[0] in s;
    }
  }

  /** The first element of `s` satisfying `p` (JavaScript's `find`). */
  function FindFirst<T>(p: T -> bool, s: seq<T>): (r: Option<T>)
    ensures r.None? <==> forall i :: 0 <= i < |s| ==> !p(s[i])
    ensures r.Some? ==> exists i :: 0 <= i < |s| && s[i] == r.value && p(s[i]) &&
                                    forall j :: 0 <= j < i ==> !p(s[j])
  {
    if |s| == 0 then None
    else if p(s[0]) then Some(s[0])
    else
      var r := FindFirst(p, s[1..]);
      assert r.Some? ==> exists i :: 0 <= i < |s[1..]| && s[1..][i] == r.value && p(s[1..][i]) &&
                                    forall j :: 0 <= j < i ==> !p(s[1..][j]);
      r
  }

  /** `s` with every element satisfying `p` replaced by `v`
      (`s.map(x => p(x) ? v : x)`). */
  function ReplaceWhere<T>(p: T -> bool, v: T, s: seq<T>): (r: seq<T>)
    ensures |r| == |s|
    ensures forall i :: 0 <= i < |s| ==> r[i] == if p(s[i]) then v else s[i]
  {
    if |s| == 0 then [] else [if p(s[0]) then v else s[0]] + ReplaceWhere(p, v, s[1..])
  }

  function SameIdFn<T>(idOf: T -> int, id: int): T -> bool {
    (x: T) => idOf(x) == id
  }

  function OtherIdFn<T>(idOf: T -> int, id: int): T -> bool {
    (x: T) => idOf(x) != id
  }

  /** The edit handlers' `map(x => x.id === updated.id ? updated : x)`:
      every element carrying `updated`'s id becomes `updated`, every other
      one stays in place. */
  function ReplaceById<T>(s: seq<T>, idOf: T -> int, updated: T): (r: seq<T>)
    ensures |r| == |s|
    ensures forall i :: 0 <= i < |r| ==>
              if idOf(s[i]) == idOf(updated) then r[i] == updated else r[i] == s[i]
  {
    ReplaceWhere(SameIdFn(idOf, idOf(updated)), updated, s)
  }

  /** The delete handlers' `filter(x => x.id !== id)`: the elements not
      carrying `id`, in their original order. */
  function RemoveById<T>(s: seq<T>, idOf: T -> int, id: int): (r: seq<T>)
    ensures IsSubsequence(r, s)
    ensures KeptExactly(r, s, OtherIdFn(idOf, id))
    ensures forall x :: x in r ==> x in s && idOf(x) != id
    ensures forall x :: x in s && idOf(x) != id ==> x in r
  {
    FilterIsSubsequence(OtherIdFn(idOf, id), s);
    FilterKeptExactly(OtherIdFn(idOf, id), s);
    Filter(OtherIdFn(idOf, id), s)
  }

  /** Deleting right after appending an element with a fresh id gives the
      list back. */
  lemma {:induction false} RemoveUndoesAppend<T>(s: seq<T>, idOf: T -> int, x: T)
    requires forall i :: 0 <= i < |s| ==> idOf(s[i]) != idOf(x)
    ensures RemoveById(s + [x], idOf, idOf(x)) == s
  {
    FilterAppend(OtherIdFn(idOf, idOf(x)), s, [x]);
    FilterAllKept(OtherIdFn(idOf, idOf(x)), s);
  }

  /** Replacing an element whose id no other element carries by itself
      changes nothing. */
  lemma ReplaceWithSelf<T>(s: seq<T>, idOf: T -> int, i: int)
    requires 0 <= i < |s|
    requires forall j :: 0 <= j < |s| && idOf(s[j]) == idOf(s[i]) ==> j == i
    ensures ReplaceById(s, idOf, s[i]) == s
  {
  }
}

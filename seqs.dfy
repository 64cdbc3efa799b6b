/**
 * Array `filter` as the pages use it, with the facts the rest of the model
 * leans on: the result is a subsequence, membership and multiplicity are
 * exactly those of the kept elements, and counts split over a predicate.
 */
module Seqs {
  import opened Wrappers

  /** `sub` can be obtained from `s` by deleting elements (greedy matching is complete). */
  predicate SubsequenceOf<T(==)>(sub: seq<T>, s: seq<T>) {
    if sub == [] then true
    else if s == [] then false
    else if sub[0] == s[0] then SubsequenceOf(sub[1..], s[1..])
    else SubsequenceOf(sub, s[1..])
  }

  /** The elements of `s` satisfying `p`, in their order in `s`. */
  function Filter<T(==,!new)>(s: seq<T>, p: T -> bool): (r: seq<T>)
    ensures |r| <= |s|
    ensures SubsequenceOf(r, s)
    ensures forall k :: 0 <= k < |r| ==> p(r[k])
    ensures forall x :: x in r <==> x in s && p(x)
    ensures forall x :: multiset(r)[x] == if p(x) then multiset(s)[x] else 0
  {
    if s == [] then []
    else
      var rest := Filter(s[1..], p);
      assert s == [s[0]] + s[1..];
      if p(s[0]) then [s[0]] + rest else rest
  }

  /** The index of the first element satisfying `p` (`findIndex`, with `None` for -1). */
  function FirstIndex<T(!new)>(s: seq<T>, p: T -> bool): (r: Option<nat>)
    ensures r.Some? ==> r.value < |s| && p(s[r.value])
    ensures r.Some? ==> forall j :: 0 <= j < r.value ==> !p(s[j])
    ensures r.None? <==> forall j :: 0 <= j < |s| ==> !p(s[j])
  {
    if s == [] then None
    else if p(s[0]) then Some(0)
    else match FirstIndex(s[1..], p)
      case None => None
      case Some(i) => Some(i + 1)
  }

  /** `map(f).filter(Boolean)`, for a mapping `f` that yields `null` to drop an element: the present values, in order. */
  function MapSomes<A(!new), B(!new)>(s: seq<A>, f: A -> Option<B>): (r: seq<B>)
    ensures |r| <= |s|
    ensures forall y :: y in r <==> exists i :: 0 <= i < |s| && f(s[i]) == Some(y)
  {
    if s == [] then []
    else
      var rest := MapSomes(s[1..], f);
      assert forall i :: 0 < i < |s| ==> s[i] == s[1..][i - 1];
      (match f(s[0]) case Some(y) => [y] case None => []) + rest
  }

  lemma {:induction false} MapSomesAppend<A(!new), B(!new)>(a: seq<A>, b: seq<A>, f: A -> Option<B>)
    ensures MapSomes(a + b, f) == MapSomes(a, f) + MapSomes(b, f)
  {
    if a == [] {
      assert a + b == b;
    } else {
      assert (a + b)[0] == a[0];
      assert (a + b)[1..] == a[1..] + b;
      MapSomesAppend(a[1..], b, f);
    }
  }

  /** How many elements of `s` satisfy `p` (`filter(p).length`). */
  function Count<T(==,!new)>(s: seq<T>, p: T -> bool): nat {
    |Filter(s, p)|
  }

  /** One step of the filter. */
  lemma FilterCons<T(!new)>(s: seq<T>, p: T -> bool)
    requires s != []
    ensures Filter(s, p) == (if p(s[0]) then [s[0]] else []) + Filter(s[1..], p)
    ensures Count(s, p) == (if p(s[0]) then 1 else 0) + Count(s[1..], p)
  {
  }

  /** Filtering with an always-true predicate keeps everything. */
  lemma {:induction false} FilterAll<T(!new)>(s: seq<T>, p: T -> bool)
    requires forall x :: x in s ==> p(x)
    ensures Filter(s, p) == s
  {
    if s != [] {
      FilterAll(s[1..], p);
      assert s == [s[0]] + s[1..];
    }
  }
}

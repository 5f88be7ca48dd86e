/**
 * Ordered sub-lists: the meaning of JavaScript's `Array.prototype.filter`, and
 * the delete-by-key built on it.
 */
module Seqs {

  /** `r` is obtained from `s` by deleting some elements, keeping the order of the rest. */
  predicate Subsequence<T(==,!new)>(r: seq<T>, s: seq<T>)
    decreases |s|
  {
    if r == [] then true
    else if s == [] then false
    else (r[0] == s[0] && Subsequence(r[1..], s[1..])) || Subsequence(r, s[1..])
  }

  /** `s.filter(p)`: the elements of `s` that satisfy `p`, in their original order. */
  function Filter<T(==,!new)>(p: T -> bool, s: seq<T>): (r: seq<T>)
    ensures Subsequence(r, s)
    ensures forall i :: 0 <= i < |r| ==> p(r[i])
    ensures forall x :: multiset(r)[x] == if p(x) then multiset(s)[x] else 0
    ensures forall x :: x in r <==> x in s && p(x)
    decreases |s|
  {
    if s == [] then []
    else
      var rest := Filter(p, s[1..]);
      assert s == [s[0]] + s[1..];
      if p(s[0]) then [s[0]] + rest else rest
  }

  /** A predicate that holds everywhere keeps everything. */
  lemma {:induction false} FilterKeepsAll<T(!new)>(p: T -> bool, s: seq<T>)
    requires forall i :: 0 <= i < |s| ==> p(s[i])
    ensures Filter(p, s) == s
    decreases |s|
  {
    if s != [] {
      FilterKeepsAll(p, s[1..]);
    }
  }

  /** Filtering by `p` and then by `q` is filtering once by their conjunction `pq`. */
  lemma {:induction false} FilterFilter<T(!new)>(p: T -> bool, q: T -> bool, pq: T -> bool, s: seq<T>)
    requires forall x :: pq(x) == (p(x) && q(x))
    ensures Filter(q, Filter(p, s)) == Filter(pq, s)
    decreases |s|
  {
    if s != [] {
      FilterFilter(p, q, pq, s[1..]);
    }
  }

  /** `s.filter(x => key(x) !== k)`: the delete-by-id of the dashboard's lists. */
  function RemoveKey<T(==,!new)>(key: T -> int, k: int, s: seq<T>): (r: seq<T>)
    ensures Subsequence(r, s)
    ensures forall i :: 0 <= i < |r| ==> key(r[i]) != k
    ensures forall x :: key(x) != k ==> multiset(r)[x] == multiset(s)[x]
  {
    Filter(x => key(x) != k, s)
  }

  /** Removing a key that no element has keeps the list as it is. */
  lemma RemoveAbsentKey<T(!new)>(key: T -> int, k: int, s: seq<T>)
    requires forall i :: 0 <= i < |s| ==> key(s[i]) != k
    ensures RemoveKey(key, k, s) == s
  {
    FilterKeepsAll(x => key(x) != k, s);
  }

  /** Deleting the same key twice is deleting it once. */
  lemma RemoveKeyIdempotent<T(!new)>(key: T -> int, k: int, s: seq<T>)
    ensures RemoveKey(key, k, RemoveKey(key, k, s)) == RemoveKey(key, k, s)
  {
    RemoveAbsentKey(key, k, RemoveKey(key, k, s));
  }
}

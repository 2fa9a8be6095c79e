/** Sequence helpers standing for the JavaScript array operations the
    stores and the recommendation rules use: `filter`, `find`, `flatMap`. */
module Seqs {

  /** A value that may be missing: `null` or `undefined` in the source. */
  datatype Option<+T> = None | Some(value: T)

  /** `sub` is `s` with some elements left out and the rest kept in order. */
  predicate IsSubsequence<T(==)>(sub: seq<T>, s: seq<T>)
  {
    if sub == [] then true
    else if s == [] then false
    else if sub[0] == s[0] then IsSubsequence(sub[1..], s[1..])
    else IsSubsequence(sub, s[1..])
  }

  /** The index of the first element of `s` that satisfies `p`, or `|s|`
      when there is none. */
  function FirstIndex<T>(s: seq<T>, p: T -> bool): (j: nat)
    ensures j <= |s|
    ensures j < |s| ==> p(s[j])
    ensures forall k :: 0 <= k < j ==> !p(s[k])
  {
    if s == [] then 0
    else if p(s[0]) then 0
    else 1 + FirstIndex(s[1..], p)
  }

  /** `Array.prototype.find`: the first element satisfying `p`. */
  function FindFirst<T>(s: seq<T>, p: T -> bool): (r: Option<T>)
    ensures r.None? <==> forall k :: 0 <= k < |s| ==> !p(s[k])
    ensures r.Some? ==> p(r.value) && r.value in s
    ensures r.Some? ==> r.value == s[FirstIndex(s, p)]
  {
    var j := FirstIndex(s, p);
    if j < |s| then Some(s[j]) else None
  }

  /** `Array.prototype.filter`: the elements satisfying `p`, in their order. */
  function Filter<T(==,!new)>(s: seq<T>, p: T -> bool): (r: seq<T>)
    ensures |r| <= |s|
    ensures forall x :: x in r <==> x in s && p(x)
    ensures r == [] <==> forall k :: 0 <= k < |s| ==> !p(s[k])
    ensures r != [] ==> r[0] == s[FirstIndex(s, p)]
  {
    if s == [] then []
    else
      assert s == [s[0]] + s[1..];
      if p(s[0]) then [s[0]] + Filter(s[1..], p) else Filter(s[1..], p)
  }

  /** Filtering keeps the order of the elements it keeps. */
  lemma {:induction false} FilterIsSubsequence<T(!new)>(s: seq<T>, p: T -> bool)
    ensures IsSubsequence(Filter(s, p), s)
  {
    if s != [] {
      FilterIsSubsequence(s[1..], p);
      var r := Filter(s[1..], p);
      if !p(s[0]) && r != [] {
        assert r[0] in r;
      }
    }
  }

  /** Filtering keeps every element satisfying `p` as often as it occurs
      and drops every other element. */
  lemma {:induction false} FilterCounts<T(!new)>(s: seq<T>, p: T -> bool)
    ensures forall x :: multiset(Filter(s, p))[x] == if p(x) then multiset(s)[x] else 0
  {
    if s != [] {
      FilterCounts(s[1..], p);
      assert s == [s[0]] + s[1..];
    }
  }
}

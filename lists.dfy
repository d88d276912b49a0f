/**
 * The JavaScript array operations the application builds on (`findIndex`,
 * `find`, `some`, `filter`), written once over sequences so that every
 * store and hook below shares the same definitions and lemmas.
 */
module Lists {

  /** `undefined`/`null` versus a value, as returned by `find`. */
  datatype Option<T> = None | Some(value: T)

  /** `Array.prototype.findIndex`: the index of the first element that satisfies `p`, or -1. */
  function FindIndex<T>(s: seq<T>, p: T -> bool): (i: int)
    ensures -1 <= i < |s|
    ensures i == -1 <==> forall k :: 0 <= k < |s| ==> !p(s[k])
    ensures 0 <= i ==> p(s[i]) && forall k :: 0 <= k < i ==> !p(s[k])
  {
    if |s| == 0 then -1
    else if p(s[0]) then 0
    else
      var j := FindIndex(s[1..], p);
      if j == -1 then -1 else j + 1
  }

  /** `Array.prototype.find`: the first element that satisfies `p`, if any. */
  function Find<T>(s: seq<T>, p: T -> bool): (r: Option<T>)
    ensures r.None? <==> forall k :: 0 <= k < |s| ==> !p(s[k])
    ensures r.Some? ==> exists i :: 0 <= i < |s| && s[i] == r.value && p(s[i]) && forall k :: 0 <= k < i ==> !p(s[k])
  {
    var i := FindIndex(s, p);
    if i == -1 then None else Some(s[i])
  }

  /** `find` stops at a first element that passes and skips one that does not. */
  lemma FindStep<T>(s: seq<T>, p: T -> bool)
    requires s != []
    ensures p(s[0]) ==> Find(s, p) == Some(s[0])
    ensures !p(s[0]) ==> Find(s, p) == Find(s[1..], p)
  {
  }

  /** `Array.prototype.some`: whether any element satisfies `p`. */
  function AnyMatch<T>(s: seq<T>, p: T -> bool): (b: bool)
    ensures b <==> exists k :: 0 <= k < |s| && p(s[k])
  {
    FindIndex(s, p) != -1
  }

  /** `Array.prototype.filter`: the elements that satisfy `p`, in their original order. */
  function Filter<T(!new)>(s: seq<T>, p: T -> bool): (r: seq<T>)
    ensures |r| <= |s|
    ensures forall k :: 0 <= k < |r| ==> r[k] in s && p(r[k])
    ensures forall k :: 0 <= k < |s| && p(s[k]) ==> s[k] in r
  {
    if |s| == 0 then []
    else if p(s[0]) then [s[0]] + Filter(s[1..], p)
    else Filter(s[1..], p)
  }

  /** `filter` keeps every passing element as many times as it occurs, and no other. */
  lemma {:induction false} FilterCounts<T(!new)>(s: seq<T>, p: T -> bool)
    ensures forall x :: multiset(Filter(s, p))[x] == if p(x) then multiset(s)[x] else 0
  {
    if |s| > 0 {
      assert s == [s[0]] + s[1..];
      FilterCounts(s[1..], p);
    }
  }

  /** The positions from `from` on whose element satisfies `p`, in increasing order. */
  function Kept<T>(s: seq<T>, p: T -> bool, from: nat): (idx: seq<nat>)
    requires from <= |s|
    ensures forall k :: 0 <= k < |idx| ==> from <= idx[k] < |s| && p(s[idx[k]])
    ensures forall a, b :: 0 <= a < b < |idx| ==> idx[a] < idx[b]
    ensures forall i :: from <= i < |s| && p(s[i]) ==> i in idx
    decreases |s| - from
  {
    if from == |s| then []
    else if p(s[from]) then [from] + Kept(s, p, from + 1)
    else Kept(s, p, from + 1)
  }

  /** `r` is `s` read at the positions `idx`, one element per position. */
  ghost predicate PicksAt<T>(r: seq<T>, s: seq<T>, idx: seq<nat>) {
    |r| == |idx| && forall k :: 0 <= k < |idx| ==> idx[k] < |s| && r[k] == s[idx[k]]
  }

  /** Reading one more position in front adds its element in front. */
  lemma PicksAtCons<T>(r: seq<T>, s: seq<T>, i: nat, idx: seq<nat>)
    requires PicksAt(r, s, idx) && i < |s|
    ensures PicksAt([s[i]] + r, s, [i] + idx)
  {
    forall k | 0 < k <= |idx| ensures ([s[i]] + r)[k] == s[([i] + idx)[k]] {
      assert ([s[i]] + r)[k] == r[k - 1];
    }
  }

  /**
   * `filter` keeps the order: its result is the input read at the passing
   * positions, in increasing order, so each kept element stays where it was
   * relative to the others.
   */
  lemma {:induction false} FilterPicksKept<T(!new)>(s: seq<T>, p: T -> bool, from: nat)
    requires from <= |s|
    ensures PicksAt(Filter(s[from..], p), s, Kept(s, p, from))
    decreases |s| - from
  {
    if from < |s| {
      var t := s[from..];
      assert t[0] == s[from] && t[1..] == s[from + 1..];
      FilterPicksKept(s, p, from + 1);
      var rest := Filter(s[from + 1..], p);
      var later := Kept(s, p, from + 1);
      if p(s[from]) {
        assert Filter(t, p) == [s[from]] + rest;
        assert Kept(s, p, from) == [from] + later;
        PicksAtCons(rest, s, from, later);
      } else {
        assert Filter(t, p) == rest;
      }
    }
  }

  /** Filtering distributes over concatenation, so the kept elements keep their relative order. */
  lemma {:induction false} FilterAppend<T(!new)>(a: seq<T>, b: seq<T>, p: T -> bool)
    ensures Filter(a + b, p) == Filter(a, p) + Filter(b, p)
  {
    if |a| == 0 {
      assert a + b == b;
    } else {
      assert (a + b)[1..] == a[1..] + b;
      FilterAppend(a[1..], b, p);
    }
  }

  /** Filtering with a test every element passes returns the sequence unchanged. */
  lemma {:induction false} FilterKeepsAll<T(!new)>(s: seq<T>, p: T -> bool)
    requires forall k :: 0 <= k < |s| ==> p(s[k])
    ensures Filter(s, p) == s
  {
    if |s| > 0 {
      FilterKeepsAll(s[1..], p);
    }
  }
}

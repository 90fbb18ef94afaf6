/** `Array.prototype.filter` over immutable sequences, with the facts the
    editor's removal relies on: what survives, and in which order. */
module Seqs {

  /** The elements of `s` that `keep` accepts, left to right. */
  function Filter<T>(s: seq<T>, keep: T -> bool): (r: seq<T>)
    ensures |r| <= |s|
    ensures forall i :: 0 <= i < |r| ==> r[i] in s && keep(r[i])
    ensures forall i :: 0 <= i < |s| && keep(s[i]) ==> s[i] in r
    decreases |s|
  {
    if |s| == 0 then []
    else (if keep(s[0]) then [s[0]] else []) + Filter(s[1..], keep)
  }

  /** How often `x` occurs after filtering: as often as before when `keep`
      accepts it, never when it rejects it. */
  lemma {:induction false} FilterCount<T>(s: seq<T>, keep: T -> bool, x: T)
    ensures multiset(Filter(s, keep))[x] == if keep(x) then multiset(s)[x] else 0
    decreases |s|
  {
    if |s| > 0 {
      FilterCount(s[1..], keep, x);
      assert s == [s[0]] + s[1..];
    }
  }

  /** Filtering keeps every occurrence of an accepted element and nothing
      else, stated for the elements of `s` and for the whole multiset. */
  lemma FilterCounts<T>(s: seq<T>, keep: T -> bool)
    ensures multiset(Filter(s, keep)) <= multiset(s)
    ensures forall i :: 0 <= i < |s| && keep(s[i]) ==>
      multiset(Filter(s, keep))[s[i]] == multiset(s)[s[i]]
    ensures forall i :: 0 <= i < |s| && !keep(s[i]) ==> multiset(Filter(s, keep))[s[i]] == 0
  {
    forall x | true
      ensures multiset(Filter(s, keep))[x] == if keep(x) then multiset(s)[x] else 0
    {
      FilterCount(s, keep, x);
    }
  }

  /** `idx` maps each position of `a` to a position of `b` holding the same
      element, strictly increasing: `a` is `b` with some elements deleted. */
  ghost predicate EmbedsVia<T>(a: seq<T>, b: seq<T>, idx: seq<nat>)
  {
    && |idx| == |a|
    && (forall k :: 0 <= k < |idx| ==> idx[k] < |b| && a[k] == b[idx[k]])
    && (forall k, l :: 0 <= k < l < |idx| ==> idx[k] < idx[l])
  }

  ghost predicate IsSubsequence<T>(a: seq<T>, b: seq<T>)
  {
    exists idx :: EmbedsVia(a, b, idx)
  }

  /** Every index moved one place right (proof helper). */
  ghost function Shift(idx: seq<nat>): (r: seq<nat>)
    ensures |r| == |idx|
    ensures forall k :: 0 <= k < |idx| ==> r[k] == idx[k] + 1
  {
    seq(|idx|, k requires 0 <= k < |idx| => idx[k] + 1)
  }

  /** An embedding into the tail of `b` is one into `b` shifted by one, and
      it extends to `b`'s head placed in front. */
  lemma EmbedsIntoTail<T>(a: seq<T>, b: seq<T>, idx: seq<nat>)
    requires |b| > 0 && EmbedsVia(a, b[1..], idx)
    ensures EmbedsVia(a, b, Shift(idx))
    ensures EmbedsVia([b[0]] + a, b, [0] + Shift(idx))
  {
    var sh := Shift(idx);
    assert forall k :: 0 <= k < |sh| ==> a[k] == b[1..][idx[k]] == b[sh[k]];
    var a' := [b[0]] + a;
    var sh' := [0] + sh;
    assert forall k :: 1 <= k < |sh'| ==> a'[k] == a[k - 1] && sh'[k] == sh[k - 1];
  }

  /** Filtering deletes elements but never reorders the survivors. */
  lemma {:induction false} FilterIsSubsequence<T>(s: seq<T>, keep: T -> bool)
    ensures IsSubsequence(Filter(s, keep), s)
    decreases |s|
  {
    if |s| == 0 {
      assert EmbedsVia(Filter(s, keep), s, []);
    } else {
      FilterIsSubsequence(s[1..], keep);
      var tail := Filter(s[1..], keep);
      var idx :| EmbedsVia(tail, s[1..], idx);
      EmbedsIntoTail(tail, s, idx);
      if keep(s[0]) {
        assert Filter(s, keep) == [s[0]] + tail;
      } else {
        assert Filter(s, keep) == tail;
      }
    }
  }

  /** Filtering a concatenation filters each part. Together with the
      one-element case this pins `Filter` down uniquely. */
  lemma {:induction false} FilterConcat<T>(a: seq<T>, b: seq<T>, keep: T -> bool)
    ensures Filter(a + b, keep) == Filter(a, keep) + Filter(b, keep)
    decreases |a|
  {
    if |a| == 0 {
      assert a + b == b;
    } else {
      assert (a + b)[1..] == a[1..] + b;
      FilterConcat(a[1..], b, keep);
    }
  }

  /** A sequence all of whose elements are kept is unchanged. */
  lemma {:induction false} FilterKeepsAll<T>(s: seq<T>, keep: T -> bool)
    requires forall i :: 0 <= i < |s| ==> keep(s[i])
    ensures Filter(s, keep) == s
    decreases |s|
  {
    if |s| > 0 {
      assert forall i :: 0 <= i < |s| - 1 ==> s[1..][i] == s[i + 1];
      FilterKeepsAll(s[1..], keep);
    }
  }

  /** Filtering twice with the same test is filtering once. */
  lemma FilterIdempotent<T>(s: seq<T>, keep: T -> bool)
    ensures Filter(Filter(s, keep), keep) == Filter(s, keep)
  {
    FilterKeepsAll(Filter(s, keep), keep);
  }
}

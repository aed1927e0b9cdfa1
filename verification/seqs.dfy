/** `Array.prototype.filter`, with the facts the modelled rules rely on. */
module Seqs {

  /** The elements of `s` that satisfy `p`, in their original order. */
  function Filter<T(!new)>(s: seq<T>, p: T -> bool): (r: seq<T>)
    ensures |r| <= |s|
  {
    if |s| == 0 then []
    else Filter(s[..|s| - 1], p) + (if p(s[|s| - 1]) then [s[|s| - 1]] else [])
  }

  /** The positions of `s` whose element satisfies `p`. */
  function Positions<T(!new)>(s: seq<T>, p: T -> bool): set<nat>
  {
    set i: nat | i < |s| && p(s[i])
  }

  /** The positions `Filter` keeps, in increasing order. */
  function FilterIndices<T>(s: seq<T>, p: T -> bool): seq<nat>
  {
    if |s| == 0 then []
    else FilterIndices(s[..|s| - 1], p) + (if p(s[|s| - 1]) then [|s| - 1] else [])
  }

  /**
   * The filter is the subsequence of `s` at the positions `FilterIndices`
   * picks, and those positions increase.
   */
  lemma {:induction false} FilterIsSubsequence<T(!new)>(s: seq<T>, p: T -> bool)
    ensures |FilterIndices(s, p)| == |Filter(s, p)|
    ensures forall k :: 0 <= k < |FilterIndices(s, p)| ==>
      FilterIndices(s, p)[k] < |s| && Filter(s, p)[k] == s[FilterIndices(s, p)[k]]
    ensures forall k, l :: 0 <= k < l < |FilterIndices(s, p)| ==> FilterIndices(s, p)[k] < FilterIndices(s, p)[l]
  {
    if |s| > 0 {
      var n := |s| - 1;
      var t := s[..n];
      FilterIsSubsequence(t, p);
      var prev, fprev := FilterIndices(t, p), Filter(t, p);
      var ix, r := FilterIndices(s, p), Filter(s, p);
      assert ix == prev + (if p(s[n]) then [n] else []);
      assert r == fprev + (if p(s[n]) then [s[n]] else []);
      forall k | 0 <= k < |prev|
        ensures ix[k] == prev[k] < n && r[k] == s[ix[k]]
      {
        assert t[prev[k]] == s[prev[k]];
      }
    }
  }

  /** A position is picked iff its element satisfies `p`. */
  lemma {:induction false} FilterIndicesExact<T>(s: seq<T>, p: T -> bool)
    ensures forall i :: 0 <= i < |FilterIndices(s, p)| ==> FilterIndices(s, p)[i] < |s|
    ensures forall i :: 0 <= i < |s| ==> (i in FilterIndices(s, p) <==> p(s[i]))
  {
    if |s| > 0 {
      var n := |s| - 1;
      var t := s[..n];
      FilterIndicesExact(t, p);
      var prev, ix := FilterIndices(t, p), FilterIndices(s, p);
      assert ix == prev + (if p(s[n]) then [n] else []);
      forall i | 0 <= i < |s|
        ensures i in ix <==> p(s[i])
      {
        if i < n {
          assert t[i] == s[i];
          assert i in ix <==> i in prev;
        }
      }
    }
  }

  /** Filtering a concatenation filters each part. */
  lemma {:induction false} FilterAppend<T(!new)>(a: seq<T>, b: seq<T>, p: T -> bool)
    ensures Filter(a + b, p) == Filter(a, p) + Filter(b, p)
  {
    if |b| == 0 {
      assert a + b == a;
    } else {
      var n := |b| - 1;
      assert (a + b)[..|a + b| - 1] == a + b[..n];
      FilterAppend(a, b[..n], p);
    }
  }

  /** The length of a filter is the number of positions that satisfy the predicate. */
  lemma {:induction false} FilterLength<T(!new)>(s: seq<T>, p: T -> bool)
    ensures |Filter(s, p)| == |Positions(s, p)|
  {
    if |s| == 0 {
      assert Positions(s, p) == {};
    } else {
      var n := |s| - 1;
      FilterLength(s[..n], p);
      var before := Positions(s[..n], p);
      if p(s[n]) {
        assert Positions(s, p) == before + {n};
        assert n !in before;
      } else {
        assert Positions(s, p) == before;
      }
    }
  }

  /** An element is kept iff it occurs in `s` and satisfies `p`. */
  lemma {:induction false} FilterMembership<T(!new)>(s: seq<T>, p: T -> bool)
    ensures forall x :: x in Filter(s, p) <==> x in s && p(x)
  {
    if |s| > 0 {
      var n := |s| - 1;
      FilterMembership(s[..n], p);
      assert s == s[..n] + [s[n]];
    }
  }

  /** A filter with no satisfying element is empty. */
  lemma FilterNone<T(!new)>(s: seq<T>, p: T -> bool)
    requires forall x :: x in s ==> !p(x)
    ensures Filter(s, p) == []
  {
    FilterMembership(s, p);
  }

  /** A filter that every position satisfies keeps everything. */
  lemma {:induction false} FilterAllPositions<T(!new)>(s: seq<T>, p: T -> bool)
    requires forall i :: 0 <= i < |s| ==> p(s[i])
    ensures Filter(s, p) == s
  {
    if |s| > 0 {
      var n := |s| - 1;
      assert forall i :: 0 <= i < n ==> s[..n][i] == s[i];
      FilterAllPositions(s[..n], p);
      assert s == s[..n] + [s[n]];
    }
  }

  /** A filter that every element satisfies keeps everything. */
  lemma {:induction false} FilterAll<T(!new)>(s: seq<T>, p: T -> bool)
    requires forall x :: x in s ==> p(x)
    ensures Filter(s, p) == s
  {
    assert forall i :: 0 <= i < |s| ==> s[i] in s;
    FilterAllPositions(s, p);
  }

  /** Filtering keeps exactly the middle part when only its elements satisfy the predicate. */
  lemma {:induction false} FilterMiddle<T(!new)>(front: seq<T>, middle: seq<T>, back: seq<T>, p: T -> bool)
    requires forall x :: x in front ==> !p(x)
    requires forall x :: x in middle ==> p(x)
    requires forall x :: x in back ==> !p(x)
    ensures Filter(front + middle + back, p) == middle
  {
    FilterNone(front, p);
    FilterAll(middle, p);
    FilterNone(back, p);
    FilterAppend(front, middle, p);
    assert Filter(front + middle, p) == [] + middle == middle;
    FilterAppend(front + middle, back, p);
    assert Filter(front + middle + back, p) == middle + [];
  }

  /** Filtering an element followed by a sequence. */
  lemma {:induction false} FilterCons<T(!new)>(h: T, t: seq<T>, p: T -> bool)
    ensures Filter([h] + t, p) == (if p(h) then [h] else []) + Filter(t, p)
  {
    var ph := if p(h) then [h] else [];
    assert [h][..0] == [];
    assert Filter([h], p) == ph;
    FilterAppend([h], t, p);
  }

  /** `Array.prototype.map`. */
  function Map<T, U>(s: seq<T>, f: T -> U): seq<U>
  {
    seq(|s|, k requires 0 <= k < |s| => f(s[k]))
  }

  lemma {:induction false} MapAppend<T, U>(a: seq<T>, b: seq<T>, f: T -> U)
    ensures Map(a + b, f) == Map(a, f) + Map(b, f)
  {
  }

  /** Putting the same element in front of two sequences keeps a relation between their filters. */
  lemma {:induction false} FilterConsExtends<T(!new)>(h: T, t: seq<T>, t': seq<T>, p: T -> bool, ext: seq<T>)
    requires Filter(t', p) == Filter(t, p) + ext
    ensures Filter([h] + t', p) == Filter([h] + t, p) + ext
  {
    var ph := if p(h) then [h] else [];
    FilterCons(h, t, p);
    FilterCons(h, t', p);
    var a := Filter([h] + t, p);
    assert a == ph + Filter(t, p);
  }

  /** Mapping a two-element sequence. */
  lemma {:induction false} MapPair<T, U>(a: T, b: T, f: T -> U)
    ensures Map([a, b], f) == [f(a), f(b)]
  {
  }

  /** Filtering one more element, then mapping, appends at most that element's image. */
  lemma {:induction false} MapFilterStep<T(!new), U>(s: seq<T>, i: nat, p: T -> bool, f: T -> U)
    requires i < |s|
    ensures Map(Filter(s[..i + 1], p), f) == Map(Filter(s[..i], p), f) + (if p(s[i]) then [f(s[i])] else [])
  {
    assert s[..i + 1][..i] == s[..i];
    MapAppend(Filter(s[..i], p), if p(s[i]) then [s[i]] else [], f);
  }

  /** Sequences with equal filters and the same first element have equal filters after it. */
  lemma {:induction false} FilterSameTail<T(!new)>(a: seq<T>, b: seq<T>, p: T -> bool)
    requires a != [] && b != [] && a[0] == b[0]
    requires Filter(a, p) == Filter(b, p)
    ensures Filter(a[1..], p) == Filter(b[1..], p)
  {
    var h := a[0];
    var pre := if p(h) then [h] else [];
    var ta, tb := Filter(a[1..], p), Filter(b[1..], p);
    assert a == [h] + a[1..];
    assert b == [h] + b[1..];
    FilterCons(h, a[1..], p);
    FilterCons(h, b[1..], p);
    assert pre + ta == pre + tb;
    assert (pre + ta)[|pre|..] == ta;
    assert (pre + tb)[|pre|..] == tb;
  }
}

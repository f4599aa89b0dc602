/**
 * `Array.prototype.filter` and the laws the search pages rely on: the result
 * is an order-preserving subsequence of the input, and it holds exactly the
 * elements that pass the predicate.
 */
module Lists {

  /** `s.filter(p)`. */
  function Filter<T(==)>(s: seq<T>, p: T -> bool): (r: seq<T>)
    ensures |r| <= |s|
    ensures forall i :: 0 <= i < |r| ==> r[i] in s && p(r[i])
    ensures forall i :: 0 <= i < |s| && p(s[i]) ==> s[i] in r
  {
    if s == [] then []
    else (if p(s[0]) then [s[0]] else []) + Filter(s[1..], p)
  }

  /** `idx` picks the elements of `a` out of `b`, at strictly increasing positions. */
  predicate IsEmbedding<T(==)>(idx: seq<nat>, a: seq<T>, b: seq<T>) {
    && |idx| == |a|
    && (forall i :: 0 <= i < |idx| ==> idx[i] < |b| && a[i] == b[idx[i]])
    && (forall i, j :: 0 <= i < j < |idx| ==> idx[i] < idx[j])
  }

  /** `a` is `b` with some elements dropped and the rest kept in order. */
  ghost predicate IsSubsequence<T>(a: seq<T>, b: seq<T>) {
    exists idx :: IsEmbedding(idx, a, b)
  }

  /** Every position moved one step right. */
  function Shifted(idx: seq<nat>): (r: seq<nat>)
    ensures |r| == |idx| && forall i :: 0 <= i < |idx| ==> r[i] == idx[i] + 1
  {
    seq(|idx|, i requires 0 <= i < |idx| => idx[i] + 1)
  }

  /** An embedding into the tail of `b` shifts to one into `b`, and may take `b[0]` in front. */
  lemma ShiftedEmbedding<T>(idx: seq<nat>, a: seq<T>, b: seq<T>)
    requires b != [] && IsEmbedding(idx, a, b[1..])
    ensures IsEmbedding(Shifted(idx), a, b)
    ensures IsEmbedding([0] + Shifted(idx), [b[0]] + a, b)
  {
    var sh := Shifted(idx);
    forall i | 0 <= i < |sh|
      ensures sh[i] < |b| && a[i] == b[sh[i]]
    {
      assert b[1..][idx[i]] == b[idx[i] + 1];
    }
  }

  /** The positions of `s` that `Filter` keeps. */
  lemma {:induction false} FilterEmbedding<T>(s: seq<T>, p: T -> bool) returns (idx: seq<nat>)
    ensures IsEmbedding(idx, Filter(s, p), s)
  {
    if s == [] {
      idx := [];
    } else {
      var rest := FilterEmbedding(s[1..], p);
      ShiftedEmbedding(rest, Filter(s[1..], p), s);
      if p(s[0]) {
        assert Filter(s, p) == [s[0]] + Filter(s[1..], p);
        idx := [0] + Shifted(rest);
      } else {
        assert Filter(s, p) == Filter(s[1..], p);
        idx := Shifted(rest);
      }
    }
  }

  /** A filtered list is an order-preserving subsequence of its input. */
  lemma FilterIsSubsequence<T>(s: seq<T>, p: T -> bool)
    ensures IsSubsequence(Filter(s, p), s)
  {
    var idx := FilterEmbedding(s, p);
  }

  /** When every element passes, `filter` returns its input unchanged. */
  lemma {:induction false} FilterKeepsAll<T>(s: seq<T>, p: T -> bool)
    requires forall i :: 0 <= i < |s| ==> p(s[i])
    ensures Filter(s, p) == s
  {
    if s != [] {
      FilterKeepsAll(s[1..], p);
    }
  }

  /** No element occurs twice. */
  predicate Distinct<T(==)>(s: seq<T>) {
    forall i, j :: 0 <= i < j < |s| ==> s[i] != s[j]
  }

  /** Filtering a list extended by one element extends the filtered list by that element when it passes. */
  lemma {:induction false} FilterSnoc<T>(s: seq<T>, x: T, p: T -> bool)
    ensures Filter(s + [x], p) == Filter(s, p) + (if p(x) then [x] else [])
  {
    if s != [] {
      assert (s + [x])[1..] == s[1..] + [x];
      FilterSnoc(s[1..], x, p);
    }
  }

  /**
   * `[...new Set(s)]` when `seen` is empty: the elements of `s` not in
   * `seen`, each once, in order of first occurrence.
   */
  function DedupFrom<T(==)>(s: seq<T>, seen: set<T>): (r: seq<T>)
    ensures Distinct(r)
    ensures forall i :: 0 <= i < |r| ==> r[i] in s && r[i] !in seen
    ensures forall i :: 0 <= i < |s| && s[i] !in seen ==> s[i] in r
  {
    if s == [] then []
    else if s[0] in seen then DedupFrom(s[1..], seen)
    else [s[0]] + DedupFrom(s[1..], seen + {s[0]})
  }

  function Dedup<T(==)>(s: seq<T>): (r: seq<T>)
    ensures Distinct(r)
    ensures forall i :: 0 <= i < |r| ==> r[i] in s
    ensures forall i :: 0 <= i < |s| ==> s[i] in r
  {
    DedupFrom(s, {})
  }

  /** The position of the first occurrence of `x` in `s`. */
  function FirstIndex<T(==)>(s: seq<T>, x: T): (i: nat)
    requires x in s
    ensures i < |s| && s[i] == x && x !in s[..i]
  {
    if s[0] == x then 0
    else
      var i := FirstIndex(s[1..], x);
      assert s[..i + 1] == [s[0]] + s[1..][..i];
      i + 1
  }

  /** Past a different head, the first occurrence is one step further than in the tail. */
  lemma FirstIndexPastHead<T>(s: seq<T>, x: T)
    requires x in s && x != s[0]
    ensures x in s[1..] && FirstIndex(s, x) == 1 + FirstIndex(s[1..], x)
  {
    var k :| 0 <= k < |s| && s[k] == x;
    assert k > 0 && s[1..][k - 1] == x;
  }

  /** Deduplication lists the elements in the order of their first occurrences. */
  lemma {:induction false} DedupFromKeepsFirstOccurrenceOrder<T>(s: seq<T>, seen: set<T>)
    ensures forall i, j :: 0 <= i < j < |DedupFrom(s, seen)| ==>
      FirstIndex(s, DedupFrom(s, seen)[i]) < FirstIndex(s, DedupFrom(s, seen)[j])
  {
    if s != [] {
      if s[0] in seen {
        var r := DedupFrom(s[1..], seen);
        DedupFromKeepsFirstOccurrenceOrder(s[1..], seen);
        SkippedHeadKeepsOrder(s, r);
      } else {
        var r := DedupFrom(s[1..], seen + {s[0]});
        DedupFromKeepsFirstOccurrenceOrder(s[1..], seen + {s[0]});
        KeptHeadKeepsOrder(s, r);
        assert DedupFrom(s, seen) == [s[0]] + r;
      }
    }
  }

  /** The step of `DedupFromKeepsFirstOccurrenceOrder` where the head was already seen. */
  lemma SkippedHeadKeepsOrder<T>(s: seq<T>, r: seq<T>)
    requires s != []
    requires forall k :: 0 <= k < |r| ==> r[k] in s[1..] && r[k] != s[0]
    requires forall i, j :: 0 <= i < j < |r| ==> FirstIndex(s[1..], r[i]) < FirstIndex(s[1..], r[j])
    ensures forall i, j :: 0 <= i < j < |r| ==> FirstIndex(s, r[i]) < FirstIndex(s, r[j])
  {
    forall k | 0 <= k < |r| ensures FirstIndex(s, r[k]) == 1 + FirstIndex(s[1..], r[k]) {
      FirstIndexPastHead(s, r[k]);
    }
  }

  /** The step of `DedupFromKeepsFirstOccurrenceOrder` where the head is new and comes first. */
  lemma KeptHeadKeepsOrder<T>(s: seq<T>, r: seq<T>)
    requires s != []
    requires forall k :: 0 <= k < |r| ==> r[k] in s[1..] && r[k] != s[0]
    requires forall i, j :: 0 <= i < j < |r| ==> FirstIndex(s[1..], r[i]) < FirstIndex(s[1..], r[j])
    ensures forall i, j :: 0 <= i < j < |[s[0]] + r| ==> FirstIndex(s, ([s[0]] + r)[i]) < FirstIndex(s, ([s[0]] + r)[j])
  {
    SkippedHeadKeepsOrder(s, r);
    var r2 := [s[0]] + r;
    forall i, j | 0 <= i < j < |r2| ensures FirstIndex(s, r2[i]) < FirstIndex(s, r2[j]) {
      assert r2[j] == r[j - 1];
      if i > 0 {
        assert r2[i] == r[i - 1];
      }
    }
  }

  lemma DedupKeepsFirstOccurrenceOrder<T>(s: seq<T>)
    ensures forall i, j :: 0 <= i < j < |Dedup(s)| ==> FirstIndex(s, Dedup(s)[i]) < FirstIndex(s, Dedup(s)[j])
  {
    DedupFromKeepsFirstOccurrenceOrder(s, {});
  }
}

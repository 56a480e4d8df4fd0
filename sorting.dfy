/** Stable sorting by a JavaScript comparator.

    `xs.sort(cmp)` places `a` after `b` exactly when `cmp(a, b) > 0`; here that
    relation is `gt`. Since `Array.prototype.sort` is stable (ECMA-262, 2019
    edition onward), its result is the unique stable ordering of the input under
    `gt`, and the insertion sort below computes that ordering. */
module Sorting {
  import opened Seqs

  /** The comparators the source uses are consistent: `gt` is a strict weak
      order (asymmetric, and "not greater" is transitive). */
  ghost predicate StrictWeakOrder<T(!new)>(gt: (T, T) -> bool) {
    (forall a, b :: gt(a, b) ==> !gt(b, a)) &&
    (forall a, b, c :: !gt(a, b) && !gt(b, c) ==> !gt(a, c))
  }

  /** Neither element is placed after the other: they compare as 0. */
  predicate Tied<T>(gt: (T, T) -> bool, a: T, b: T) {
    !gt(a, b) && !gt(b, a)
  }

  /** No element is placed after a later one. */
  predicate Sorted<T>(s: seq<T>, gt: (T, T) -> bool) {
    forall i, j :: 0 <= i < j < |s| ==> !gt(s[i], s[j])
  }

  /** Insert `x` into `t` from the right, stepping over every element greater
      than `x`, so that `x` lands after the elements tied with it. */
  function InsertLast<T>(t: seq<T>, x: T, gt: (T, T) -> bool): (r: seq<T>)
    ensures |r| == |t| + 1
  {
    if t == [] || !gt(t[|t| - 1], x) then t + [x]
    else InsertLast(t[..|t| - 1], x, gt) + [t[|t| - 1]]
  }

  /** Insertion sort: sort all but the last element, then insert the last. */
  function SortSeq<T>(s: seq<T>, gt: (T, T) -> bool): (r: seq<T>)
    ensures |r| == |s|
  {
    if s == [] then [] else InsertLast(SortSeq(s[..|s| - 1], gt), s[|s| - 1], gt)
  }

  /** Inserting adds exactly `x` to the elements. */
  lemma {:induction false} InsertLastPermutes<T>(t: seq<T>, x: T, gt: (T, T) -> bool)
    ensures multiset(InsertLast(t, x, gt)) == multiset(t) + multiset{x}
  {
    if t != [] && gt(t[|t| - 1], x) {
      InsertLastPermutes(t[..|t| - 1], x, gt);
      assert t == t[..|t| - 1] + [t[|t| - 1]];
    }
  }

  /** The sorted output is a permutation of the input. */
  lemma {:induction false} SortSeqPermutes<T>(s: seq<T>, gt: (T, T) -> bool)
    ensures multiset(SortSeq(s, gt)) == multiset(s)
  {
    if s != [] {
      SortSeqPermutes(s[..|s| - 1], gt);
      InsertLastPermutes(SortSeq(s[..|s| - 1], gt), s[|s| - 1], gt);
      assert s == s[..|s| - 1] + [s[|s| - 1]];
    }
  }

  lemma {:induction false} InsertLastSorted<T(!new)>(t: seq<T>, x: T, gt: (T, T) -> bool)
    requires StrictWeakOrder(gt)
    requires Sorted(t, gt)
    ensures Sorted(InsertLast(t, x, gt), gt)
  {
    if t == [] || !gt(t[|t| - 1], x) {
      var r := t + [x];
      forall i, j | 0 <= i < j < |r| ensures !gt(r[i], r[j]) {
        if j == |t| && i < |t| - 1 {
          assert !gt(t[i], t[|t| - 1]);
        }
      }
    } else {
      var y := t[|t| - 1];
      var init := t[..|t| - 1];
      InsertLastSorted(init, x, gt);
      InsertLastPermutes(init, x, gt);
      var u := InsertLast(init, x, gt);
      var r := u + [y];
      assert !gt(x, y);
      forall e | e in multiset(u) ensures !gt(e, y) {
        assert e in multiset(init) + multiset{x};
        if e in multiset(init) {
          var k :| 0 <= k < |init| && init[k] == e;
        }
      }
      forall i, j | 0 <= i < j < |r| ensures !gt(r[i], r[j]) {
        if j == |u| {
          assert r[i] in multiset(u);
        }
      }
    }
  }

  /** The insertion sort orders its input. */
  lemma {:induction false} SortSeqSorted<T(!new)>(s: seq<T>, gt: (T, T) -> bool)
    requires StrictWeakOrder(gt)
    ensures Sorted(SortSeq(s, gt), gt)
  {
    if s != [] {
      SortSeqSorted(s[..|s| - 1], gt);
      InsertLastSorted(SortSeq(s[..|s| - 1], gt), s[|s| - 1], gt);
    }
  }

  /** Sorting a sequence that is already ordered leaves it as it is. */
  lemma {:induction false} SortSeqOfSorted<T>(s: seq<T>, gt: (T, T) -> bool)
    requires Sorted(s, gt)
    ensures SortSeq(s, gt) == s
  {
    if s != [] {
      var init := s[..|s| - 1];
      assert Sorted(init, gt);
      SortSeqOfSorted(init, gt);
      if |s| > 1 {
        assert !gt(init[|init| - 1], s[|s| - 1]);
      }
      assert init + [s[|s| - 1]] == s;
    }
  }

  /** Inserting `x` keeps the relative order of the elements that a predicate
      selects, provided `x` is never stepped over by a selected element it is
      tied with. */
  lemma {:induction false} InsertLastStable<T>(t: seq<T>, x: T, gt: (T, T) -> bool, e: T -> bool)
    requires forall y :: e(x) && e(y) ==> !gt(y, x)
    ensures Filter(InsertLast(t, x, gt), e) == Filter(t, e) + Filter([x], e)
  {
    if t == [] || !gt(t[|t| - 1], x) {
      FilterAppend(t, [x], e);
    } else {
      var y := t[|t| - 1];
      var init := t[..|t| - 1];
      assert init + [y] == t;
      var inserted := InsertLast(init, x, gt);
      assert InsertLast(t, x, gt) == inserted + [y];
      var fx := Filter([x], e);
      var fy := Filter([y], e);
      var fi := Filter(init, e);
      InsertLastStable(init, x, gt, e);
      assert Filter(inserted, e) == fi + fx;
      FilterAppend(inserted, [y], e);
      assert Filter(InsertLast(t, x, gt), e) == fi + fx + fy;
      FilterAppend(init, [y], e);
      assert Filter(t, e) == fi + fy;
      FilterSingle(x, e);
      FilterSingle(y, e);
      assert fx == [] || fy == [];
      assert fi + fx + fy == fi + fy + fx;
    }
  }

  lemma TiedTransitive<T(!new)>(gt: (T, T) -> bool, a: T, b: T, c: T)
    requires StrictWeakOrder(gt)
    requires Tied(gt, a, b) && Tied(gt, b, c)
    ensures Tied(gt, a, c)
  {
  }

  /** Sorting keeps the relative order of the elements a predicate selects,
      when no selected element is placed after another selected one. */
  lemma {:induction false} SortSeqKeepsOrder<T>(s: seq<T>, gt: (T, T) -> bool, e: T -> bool)
    requires forall x, y :: e(x) && e(y) ==> !gt(y, x)
    ensures Filter(SortSeq(s, gt), e) == Filter(s, e)
  {
    if s != [] {
      var init := s[..|s| - 1];
      var x := s[|s| - 1];
      assert init + [x] == s;
      SortSeqKeepsOrder(init, gt, e);
      InsertLastStable(SortSeq(init, gt), x, gt, e);
      FilterAppend(init, [x], e);
      calc {
        Filter(SortSeq(s, gt), e);
        Filter(InsertLast(SortSeq(init, gt), x, gt), e);
        Filter(SortSeq(init, gt), e) + Filter([x], e);
        Filter(init, e) + Filter([x], e);
        Filter(s, e);
      }
    }
  }

  /** Stability: the elements tied with any `v` appear in the sorted output in
      the same relative order as in the input. */
  lemma SortSeqStable<T(!new)>(s: seq<T>, gt: (T, T) -> bool, v: T, e: T -> bool)
    requires StrictWeakOrder(gt)
    requires forall x :: e(x) == Tied(gt, x, v)
    ensures Filter(SortSeq(s, gt), e) == Filter(s, e)
  {
    forall x, y | e(x) && e(y) ensures !gt(y, x) {
      TiedTransitive(gt, y, v, x);
    }
    SortSeqKeepsOrder(s, gt, e);
  }

  /** Sorting a prefix one element longer inserts that element. */
  lemma SortSeqSnoc<T>(s: seq<T>, gt: (T, T) -> bool, i: nat)
    requires i < |s|
    ensures SortSeq(s[..i + 1], gt) == InsertLast(SortSeq(s[..i], gt), s[i], gt)
  {
    assert s[..i + 1][..i] == s[..i];
  }

  /** Where the right-to-left scan stops, `x` is simply appended. */
  lemma InsertLastStops<T>(t: seq<T>, x: T, gt: (T, T) -> bool, j: nat)
    requires j <= |t|
    requires j == 0 || !gt(t[j - 1], x)
    ensures InsertLast(t[..j], x, gt) == t[..j] + [x]
  {
  }

  /** One step of the right-to-left scan over an element greater than `x`. */
  lemma InsertLastStep<T>(t: seq<T>, x: T, gt: (T, T) -> bool, j: nat)
    requires 0 < j <= |t|
    requires gt(t[j - 1], x)
    ensures InsertLast(t[..j], x, gt) + t[j..] == InsertLast(t[..j - 1], x, gt) + t[j - 1..]
  {
    assert t[..j][..j - 1] == t[..j - 1];
    assert t[j - 1..] == [t[j - 1]] + t[j..];
  }

  /** After the scan stopped at `j`, the first `|sorted| + 1` cells of `b`
      hold `sorted` with `x` put in at position `j`. */
  lemma Placed<T>(b: seq<T>, sorted: seq<T>, x: T, j: nat)
    requires j <= |sorted| < |b|
    requires forall k {:trigger b[k]} :: 0 <= k < j ==> b[k] == sorted[k]
    requires b[j] == x
    requires forall k {:trigger b[k]} :: j < k <= |sorted| ==> b[k] == sorted[k - 1]
    ensures b[..|sorted| + 1] == sorted[..j] + [x] + sorted[j..]
  {
    var n := |sorted|;
    assert b[..j] == sorted[..j];
    assert b[j + 1..n + 1] == sorted[j..] by {
      forall k | 0 <= k < n - j ensures b[j + 1..n + 1][k] == sorted[j..][k] {
        assert b[j + 1 + k] == sorted[j + k];
      }
    }
    assert b[..n + 1] == b[..j] + [x] + b[j + 1..n + 1];
  }

  /** One pass of insertion sort: `a[i]` moves left past the elements of the
      sorted prefix that must follow it, so `a[..i + 1]` becomes that prefix
      with the element inserted; the rest of the array is untouched. */
  method InsertInPlace<T>(a: array<T>, i: int, gt: (T, T) -> bool)
    requires 0 <= i < a.Length
    modifies a
    ensures a[..i + 1] == InsertLast(old(a[..i]), old(a[i]), gt)
    ensures forall k :: i < k < a.Length ==> a[k] == old(a[k])
  {
    ghost var sorted := a[..i];
    var x := a[i];
    var j := i;
    assert sorted[..j] == sorted && sorted[j..] == [];
    while j > 0 && gt(a[j - 1], x)
      invariant 0 <= j <= i
      invariant forall k {:trigger a[k]} :: 0 <= k < j ==> a[k] == sorted[k]
      invariant forall k {:trigger a[k]} :: j < k <= i ==> a[k] == sorted[k - 1]
      invariant forall k :: i < k < a.Length ==> a[k] == old(a[k])
      invariant InsertLast(sorted, x, gt) == InsertLast(sorted[..j], x, gt) + sorted[j..]
    {
      InsertLastStep(sorted, x, gt, j);
      assert a[j - 1] == sorted[j - 1];
      a[j] := a[j - 1];
      assert forall k {:trigger a[k]} :: j <= k <= i ==> a[k] == sorted[k - 1];
      j := j - 1;
    }
    a[j] := x;
    Placed(a[..], sorted, x, j);
    InsertLastStops(sorted, x, gt, j);
  }

  /** In-place insertion sort of `a` with the comparator `gt`; the array ends up
      holding the stable ordering `SortSeq` of what it held before. */
  method InsertionSort<T>(a: array<T>, gt: (T, T) -> bool)
    modifies a
    ensures a[..] == SortSeq(old(a[..]), gt)
  {
    ghost var input := a[..];
    var i := 0;
    while i < a.Length
      invariant 0 <= i <= a.Length
      invariant a[..i] == SortSeq(input[..i], gt)
      invariant forall k :: i <= k < a.Length ==> a[k] == input[k]
    {
      InsertInPlace(a, i, gt);
      SortSeqSnoc(input, gt, i);
      i := i + 1;
    }
    assert input[..a.Length] == input;
  }
}

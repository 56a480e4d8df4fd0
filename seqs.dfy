/** `Array.prototype.filter` and `slice(0, n)` over sequences, with the facts
    the catalog, search and scoring code relies on. */
module Seqs {
  import opened Wrappers

  /** `s.filter(f)`: the elements of `s` that satisfy `f`, in their order. */
  function Filter<T>(s: seq<T>, f: T -> bool): (r: seq<T>)
    ensures |r| <= |s|
    ensures forall i :: 0 <= i < |r| ==> r[i] in s && f(r[i])
    ensures forall i :: 0 <= i < |s| && f(s[i]) ==> s[i] in r
  {
    if s == [] then []
    else
      assert s == [s[0]] + s[1..];
      (if f(s[0]) then [s[0]] else []) + Filter(s[1..], f)
  }

  /** `idx` lists, in increasing order, exactly the positions of `s` whose
      element satisfies `f`, and `r` holds the elements at those positions. */
  ghost predicate KeptAt<T>(s: seq<T>, f: T -> bool, r: seq<T>, idx: seq<int>) {
    |idx| == |r| &&
    (forall k :: 0 <= k < |idx| ==> 0 <= idx[k] < |s| && s[idx[k]] == r[k]) &&
    (forall k, l :: 0 <= k < l < |idx| ==> idx[k] < idx[l]) &&
    (forall i :: 0 <= i < |s| ==> (f(s[i]) <==> i in idx))
  }

  /** The filter's output, position by position: it holds exactly the
      passing elements, at increasing positions, so it keeps the order and
      the multiplicity of what it keeps. */
  lemma {:induction false} FilterPositions<T>(s: seq<T>, f: T -> bool) returns (idx: seq<int>)
    ensures KeptAt(s, f, Filter(s, f), idx)
  {
    if s == [] {
      idx := [];
    } else {
      var rest := FilterPositions(s[1..], f);
      assert s == [s[0]] + s[1..];
      idx := ConsPositions(s[0], s[1..], f, Filter(s[1..], f), rest);
    }
  }

  /** One more element in front shifts every kept position by one and adds
      position 0 when the element passes. */
  lemma ConsPositions<T>(x: T, t: seq<T>, f: T -> bool, rt: seq<T>, rest: seq<int>) returns (idx: seq<int>)
    requires KeptAt(t, f, rt, rest)
    ensures KeptAt([x] + t, f, (if f(x) then [x] else []) + rt, idx)
  {
    var shifted := seq(|rest|, k requires 0 <= k < |rest| => rest[k] + 1);
    idx := (if f(x) then [0] else []) + shifted;
    ConsElements(x, t, f, rt, rest, idx);
    ConsPassing(x, t, f, rest, idx);
  }

  /** The shifted positions pick the kept elements, in increasing order. */
  lemma ConsElements<T>(x: T, t: seq<T>, f: T -> bool, rt: seq<T>, rest: seq<int>, idx: seq<int>)
    requires |rest| == |rt|
    requires forall k :: 0 <= k < |rest| ==> 0 <= rest[k] < |t| && t[rest[k]] == rt[k]
    requires forall k, l :: 0 <= k < l < |rest| ==> rest[k] < rest[l]
    requires idx == (if f(x) then [0] else []) + seq(|rest|, k requires 0 <= k < |rest| => rest[k] + 1)
    ensures |idx| == |(if f(x) then [x] else []) + rt|
    ensures forall k :: 0 <= k < |idx| ==>
      0 <= idx[k] < |[x] + t| && ([x] + t)[idx[k]] == ((if f(x) then [x] else []) + rt)[k]
    ensures forall k, l :: 0 <= k < l < |idx| ==> idx[k] < idx[l]
  {
    var h := if f(x) then 1 else 0;
    assert forall k :: h <= k < |idx| ==> idx[k] == rest[k - h] + 1;
    forall k | 0 <= k < |idx|
      ensures 0 <= idx[k] < |[x] + t| && ([x] + t)[idx[k]] == ((if f(x) then [x] else []) + rt)[k]
    {
      if k >= h {
        assert ([x] + t)[idx[k]] == t[rest[k - h]];
      }
    }
  }

  /** A position of `[x] + t` is listed exactly when its element passes. */
  lemma ConsPassing<T>(x: T, t: seq<T>, f: T -> bool, rest: seq<int>, idx: seq<int>)
    requires forall k :: 0 <= k < |rest| ==> 0 <= rest[k] < |t|
    requires forall i :: 0 <= i < |t| ==> (f(t[i]) <==> i in rest)
    requires idx == (if f(x) then [0] else []) + seq(|rest|, k requires 0 <= k < |rest| => rest[k] + 1)
    ensures forall i :: 0 <= i < |[x] + t| ==> (f(([x] + t)[i]) <==> i in idx)
  {
    var h := if f(x) then 1 else 0;
    assert forall k :: h <= k < |idx| ==> idx[k] == rest[k - h] + 1;
    forall i | 0 <= i < |[x] + t|
      ensures f(([x] + t)[i]) <==> i in idx
    {
      if i == 0 {
        assert forall k :: 0 <= k < |rest| ==> rest[k] + 1 >= 1;
        assert h == 0 ==> forall k :: 0 <= k < |idx| ==> idx[k] != 0;
      } else {
        assert ([x] + t)[i] == t[i - 1];
        if f(t[i - 1]) {
          var k :| 0 <= k < |rest| && rest[k] == i - 1;
          assert idx[h + k] == i;
        }
        if i in idx {
          var k :| 0 <= k < |idx| && idx[k] == i;
          assert k >= h;
          assert rest[k - h] == i - 1;
        }
      }
    }
  }

  /** Filtering one element keeps it exactly when it passes. */
  lemma FilterSingle<T>(x: T, f: T -> bool)
    ensures Filter([x], f) == if f(x) then [x] else []
  {
    assert [x][1..] == [];
  }

  /** Filtering distributes over concatenation. */
  lemma {:induction false} FilterAppend<T>(a: seq<T>, b: seq<T>, f: T -> bool)
    ensures Filter(a + b, f) == Filter(a, f) + Filter(b, f)
  {
    if a != [] {
      assert (a + b)[0] == a[0];
      assert (a + b)[1..] == a[1..] + b;
      FilterAppend(a[1..], b, f);
    } else {
      assert a + b == b;
    }
  }

  /** Filtering a sequence whose every element passes returns it unchanged. */
  lemma {:induction false} FilterKeepsAll<T>(s: seq<T>, f: T -> bool)
    requires forall x :: x in s ==> f(x)
    ensures Filter(s, f) == s
  {
    if s != [] {
      FilterKeepsAll(s[1..], f);
    }
  }

  /** Two filters in a row are one filter by the conjunction. */
  lemma {:induction false} FilterTwice<T>(s: seq<T>, f: T -> bool, g: T -> bool, h: T -> bool)
    requires forall x :: h(x) == (f(x) && g(x))
    ensures Filter(Filter(s, f), g) == Filter(s, h)
  {
    if s != [] {
      FilterTwice(s[1..], f, g, h);
      var head := if f(s[0]) then [s[0]] else [];
      FilterAppend(head, Filter(s[1..], f), g);
    }
  }

  /** Filters by predicates that agree on every element give the same result. */
  lemma {:induction false} FilterSame<T>(s: seq<T>, f: T -> bool, g: T -> bool)
    requires forall x :: x in s ==> f(x) == g(x)
    ensures Filter(s, f) == Filter(s, g)
  {
    if s != [] {
      FilterSame(s[1..], f, g);
    }
  }

  /** `s.find(f)`: the first element that satisfies `f`, if there is one. */
  function FindFirst<T>(s: seq<T>, f: T -> bool): (r: Option<T>)
    ensures r.None? <==> forall i :: 0 <= i < |s| ==> !f(s[i])
    ensures r.Some? ==> FoundAt(s, f, r.value)
  {
    if s == [] then None
    else if f(s[0]) then
      assert FirstAt(s, f, 0);
      Some(s[0])
    else
      var r := FindFirst(s[1..], f);
      assert r.Some? ==> FoundAt(s, f, r.value) by {
        if r.Some? {
          var i :| FirstAt(s[1..], f, i) && s[1..][i] == r.value;
          assert FirstAt(s, f, i + 1);
        }
      }
      r
  }

  /** `s[i]` is the first element of `s` that satisfies `f`. */
  predicate FirstAt<T>(s: seq<T>, f: T -> bool, i: int) {
    0 <= i < |s| && f(s[i]) && forall j :: 0 <= j < i ==> !f(s[j])
  }

  /** `x` is the first element of `s` that satisfies `f`. */
  ghost predicate FoundAt<T>(s: seq<T>, f: T -> bool, x: T) {
    exists i :: FirstAt(s, f, i) && s[i] == x
  }

  /** `s.slice(0, n)`: the first `n` elements, or all of them when there are fewer. */
  function Take<T>(s: seq<T>, n: nat): (r: seq<T>)
    ensures |r| == if |s| < n then |s| else n
    ensures forall i :: 0 <= i < |r| ==> r[i] == s[i]
  {
    if |s| < n then s else s[..n]
  }
}

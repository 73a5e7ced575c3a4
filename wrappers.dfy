/** Optional values, standing in for Python's None and JavaScript's null/undefined. */
module Wrappers {
  datatype Option<T> = None | Some(value: T) {
    function GetOr(default: T): (r: T)
      ensures Some? ==> r == value
      ensures None? ==> r == default
    {
      match this
      case Some(v) => v
      case None => default
    }
  }

  /** The present values of `xs`, in order: a loop that pushes only what it found. */
  function Somes<T>(xs: seq<Option<T>>): (r: seq<T>)
    ensures |r| <= |xs|
    decreases |xs|
  {
    if xs == [] then [] else Somes(xs[..|xs| - 1]) + (if xs[|xs| - 1].Some? then [xs[|xs| - 1].value] else [])
  }

  lemma SomesStep<T>(xs: seq<Option<T>>, n: nat)
    requires n < |xs|
    ensures Somes(xs[..n + 1]) == Somes(xs[..n]) + (if xs[n].Some? then [xs[n].value] else [])
  {
    assert xs[..n + 1][..n] == xs[..n];
  }

  /** Every kept value is present at some position of the input. */
  lemma SomesFrom<T>(xs: seq<Option<T>>, k: nat)
    requires k < |Somes(xs)|
    ensures exists i :: 0 <= i < |xs| && xs[i] == Some(Somes(xs)[k])
  {
    var i := SomesIndex(xs, k);
  }

  /** A position of the input holding the kept value number `k`. */
  lemma {:induction false} SomesIndex<T>(xs: seq<Option<T>>, k: nat) returns (i: nat)
    requires k < |Somes(xs)|
    ensures i < |xs| && xs[i] == Some(Somes(xs)[k])
    decreases |xs|
  {
    var init := xs[..|xs| - 1];
    if k < |Somes(init)| {
      i := SomesIndex(init, k);
      assert xs[i] == init[i];
    } else {
      i := |xs| - 1;
    }
  }

  /** Every present value is kept. */
  lemma {:induction false} SomesComplete<T>(xs: seq<Option<T>>, i: nat)
    requires i < |xs| && xs[i].Some?
    ensures xs[i].value in Somes(xs)
    decreases |xs|
  {
    var init := xs[..|xs| - 1];
    if i < |init| {
      SomesComplete(init, i);
      assert init[i] == xs[i];
    }
  }

  /** The elements of `s` that satisfy `f`, in order: a loop that pushes only what passes. */
  function Filter<T>(s: seq<T>, f: T -> bool): (r: seq<T>)
    ensures |r| <= |s|
    ensures forall k :: 0 <= k < |r| ==> r[k] in s && f(r[k])
    ensures forall x :: x in s && f(x) ==> x in r
    decreases |s|
  {
    if s == [] then []
    else
      var rest := Filter(s[1..], f);
      assert forall x :: x in s ==> x == s[0] || x in s[1..];
      if f(s[0]) then [s[0]] + rest else rest
  }

  /** The sequences of `ss` joined end to end, in order. */
  function Flatten<T>(ss: seq<seq<T>>): seq<T>
    decreases |ss|
  {
    if ss == [] then [] else ss[0] + Flatten(ss[1..])
  }

  lemma FlattenCons<T>(s: seq<T>, ss: seq<seq<T>>)
    ensures Flatten([s] + ss) == s + Flatten(ss)
  {
    assert ([s] + ss)[1..] == ss;
  }

  /** The positions from `i` on whose elements satisfy `f`, increasing. */
  function FilterIndices<T>(s: seq<T>, f: T -> bool, i: nat): (idx: seq<nat>)
    requires i <= |s|
    ensures forall k :: 0 <= k < |idx| ==> i <= idx[k] < |s| && f(s[idx[k]])
    ensures forall k :: 0 <= k < |idx| - 1 ==> idx[k] < idx[k + 1]
    ensures forall j :: i <= j < |s| && f(s[j]) ==> j in idx
    decreases |s| - i
  {
    if i == |s| then []
    else
      var rest := FilterIndices(s, f, i + 1);
      if f(s[i]) then
        var idx := [i] + rest;
        assert forall k :: 1 <= k < |idx| ==> idx[k] == rest[k - 1];
        idx
      else rest
  }

  /** `r` lists the elements of `s` at the positions `idx`. */
  ghost predicate AtPositions<T>(r: seq<T>, s: seq<T>, idx: seq<nat>) {
    |idx| == |r| && forall k :: 0 <= k < |r| ==> idx[k] < |s| && r[k] == s[idx[k]]
  }

  lemma AtPositionsCons<T>(r: seq<T>, s: seq<T>, idx: seq<nat>, j: nat)
    requires AtPositions(r, s, idx) && j < |s|
    ensures AtPositions([s[j]] + r, s, [j] + idx)
  {
    var r', idx' := [s[j]] + r, [j] + idx;
    forall k | 0 < k < |r'| ensures idx'[k] < |s| && r'[k] == s[idx'[k]] {
      assert r'[k] == r[k - 1] && idx'[k] == idx[k - 1];
    }
  }

  lemma AtPositionsSnoc<T>(r: seq<T>, s: seq<T>, idx: seq<nat>, j: nat)
    requires AtPositions(r, s, idx) && j < |s|
    ensures AtPositions(r + [s[j]], s, idx + [j])
  {
  }

  lemma FilterCons<T>(s: seq<T>, f: T -> bool)
    requires s != []
    ensures Filter(s, f) == (if f(s[0]) then [s[0]] else []) + Filter(s[1..], f)
  {
  }

  lemma FilterIndicesCons<T>(s: seq<T>, f: T -> bool, i: nat)
    requires i < |s|
    ensures FilterIndices(s, f, i) == (if f(s[i]) then [i] else []) + FilterIndices(s, f, i + 1)
  {
  }

  lemma {:induction false} FilterFrom<T>(s: seq<T>, f: T -> bool, i: nat)
    requires i <= |s|
    ensures AtPositions(Filter(s[i..], f), s, FilterIndices(s, f, i))
    decreases |s| - i
  {
    if i < |s| {
      FilterFrom(s, f, i + 1);
      var t := s[i..];
      assert t[1..] == s[i + 1..] && t[0] == s[i];
      FilterCons(t, f);
      FilterIndicesCons(s, f, i);
      if f(s[i]) {
        AtPositionsCons(Filter(s[i + 1..], f), s, FilterIndices(s, f, i + 1), i);
      }
    }
  }

  /**
   * The filter keeps each passing element once and in order: its k-th element is the
   * element at the k-th passing position.
   */
  lemma FilterInOrder<T>(s: seq<T>, f: T -> bool)
    ensures var r := Filter(s, f);
      var idx := FilterIndices(s, f, 0);
      |idx| == |r| && forall k :: 0 <= k < |r| ==> r[k] == s[idx[k]]
  {
    FilterFrom(s, f, 0);
    assert s[0..] == s;
  }

  lemma OnlyElement(s: set<nat>, x: nat)
    requires x in s && s - {x} == {}
    ensures forall z :: z in s ==> z == x
  {
    forall z | z in s ensures z == x {
      assert z == x || z in s - {x};
    }
  }

  /** A non-empty set of naturals has a least element. */
  lemma MinExists(s: set<nat>)
    requires s != {}
    ensures exists m :: m in s && forall z :: z in s ==> m <= z
  {
    var m := LeastOf(s);
  }

  /** The least element of a non-empty set of naturals. */
  lemma {:induction false} LeastOf(s: set<nat>) returns (m: nat)
    requires s != {}
    ensures m in s && forall z :: z in s ==> m <= z
    decreases |s|
  {
    var x :| x in s;
    var r := s - {x};
    if r == {} {
      OnlyElement(s, x);
      m := x;
    } else {
      var y := LeastOf(r);
      m := if x < y then x else y;
      forall z | z in s ensures m <= z {
        if z != x {
          assert z in r;
        }
      }
    }
  }
}

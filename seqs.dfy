/**
 * The two `Array.prototype.filter` shapes the editor uses: dropping one
 * position (`filter((_, i) => i !== index)`) and dropping one value
 * (`filter((s) => s !== serving)`).
 */
module Seqs {

  /** No value occurs twice in `xs`. */
  ghost predicate Distinct(xs: seq<int>)
  {
    forall x :: multiset(xs)[x] <= 1
  }

  lemma DistinctOccursOnce(xs: seq<int>, x: int)
    requires Distinct(xs) && x in xs
    ensures multiset(xs)[x] == 1
  {
    assert x in multiset(xs);
  }

  /** `xs.filter((_, k) => k !== i)` with positions counted from `at`. */
  function FilterIndex<T>(xs: seq<T>, i: int, at: int): seq<T>
    decreases |xs|
  {
    if xs == [] then []
    else (if at == i then [] else [xs[0]]) + FilterIndex(xs[1..], i, at + 1)
  }

  lemma {:induction false} FilterIndexSplits<T>(xs: seq<T>, i: int, at: int)
    ensures at <= i < at + |xs| ==> FilterIndex(xs, i, at) == xs[..i - at] + xs[i - at + 1..]
    ensures !(at <= i < at + |xs|) ==> FilterIndex(xs, i, at) == xs
    decreases |xs|
  {
    if xs != [] {
      FilterIndexSplits(xs[1..], i, at + 1);
      if at == i {
        assert FilterIndex(xs, i, at) == xs[1..];
      } else if at < i < at + |xs| {
        assert FilterIndex(xs, i, at) == [xs[0]] + FilterIndex(xs[1..], i, at + 1);
        assert xs[1..][..i - at - 1] == xs[1..i - at];
        assert xs[1..][i - at..] == xs[i - at + 1..];
        assert [xs[0]] + xs[1..i - at] == xs[..i - at];
      } else {
        assert FilterIndex(xs, i, at) == [xs[0]] + FilterIndex(xs[1..], i, at + 1);
        assert [xs[0]] + xs[1..] == xs;
      }
    }
  }

  /**
   * Removing by position: the element at `i` goes and every other element
   * keeps its order; an index outside the sequence removes nothing.
   */
  function RemoveAt<T>(xs: seq<T>, i: int): (r: seq<T>)
    ensures 0 <= i < |xs| ==> r == xs[..i] + xs[i + 1..] && |r| == |xs| - 1
    ensures !(0 <= i < |xs|) ==> r == xs
  {
    FilterIndexSplits(xs, i, 0);
    FilterIndex(xs, i, 0)
  }

  /** The filter itself, one element at a time, without a contract of its own. */
  function Kept(xs: seq<int>, v: int): seq<int>
  {
    if xs == [] then [] else (if xs[0] == v then [] else [xs[0]]) + Kept(xs[1..], v)
  }

  lemma {:induction false} KeptFacts(xs: seq<int>, v: int)
    ensures forall x :: x in Kept(xs, v) <==> x in xs && x != v
    ensures multiset(Kept(xs, v)) == multiset(xs)[v := 0]
  {
    if xs != [] {
      KeptFacts(xs[1..], v);
      assert xs == [xs[0]] + xs[1..];
    }
  }

  lemma {:induction false} KeptAppend(xs: seq<int>, ys: seq<int>, v: int)
    ensures Kept(xs + ys, v) == Kept(xs, v) + Kept(ys, v)
  {
    if xs != [] {
      assert (xs + ys)[1..] == xs[1..] + ys;
      KeptAppend(xs[1..], ys, v);
    } else {
      assert xs + ys == ys;
    }
  }

  /** `xs.filter((x) => x !== v)`: every occurrence of `v` goes, the rest stay in order. */
  function Without(xs: seq<int>, v: int): (r: seq<int>)
    ensures forall x :: x in r <==> x in xs && x != v
    ensures multiset(r) == multiset(xs)[v := 0]
    ensures xs != [] && xs[0] != v ==> r != [] && r[0] == xs[0]
  {
    KeptFacts(xs, v);
    Kept(xs, v)
  }

  /** Filtering a concatenation filters each part and keeps the parts in order. */
  lemma WithoutAppend(xs: seq<int>, ys: seq<int>, v: int)
    ensures Without(xs + ys, v) == Without(xs, v) + Without(ys, v)
  {
    KeptAppend(xs, ys, v);
  }

  /** On one element, filtering keeps it exactly when it differs from `v`; with WithoutAppend this fixes the order. */
  lemma WithoutSingle(x: int, v: int)
    ensures Without([x], v) == if x == v then [] else [x]
  {
    assert [x][1..] == [];
    assert Kept([x], v) == (if x == v then [] else [x]) + Kept([], v);
  }
}

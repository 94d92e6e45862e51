/** Flattening nested lists: the shape of every build loop, which walks a
    list of items (spaces, pages) and appends each item's records in order.
    `Locate` inverts the flattening: it names the item and the position
    within that item that every output position came from. */
module Flatten {

  /** `[y for x in xs for y in f(x)]` */
  function FlatMap<X, Y>(f: X -> seq<Y>, xs: seq<X>): seq<Y>
    decreases |xs|
  {
    if |xs| == 0 then [] else f(xs[0]) + FlatMap(f, xs[1..])
  }

  /** Sum of a per-item count. */
  function SumOf<X>(count: X -> nat, xs: seq<X>): nat
    decreases |xs|
  {
    if |xs| == 0 then 0 else count(xs[0]) + SumOf(count, xs[1..])
  }

  /** Flattening distributes over concatenation: items keep their order. */
  lemma {:induction false} FlatMapAppend<X, Y>(f: X -> seq<Y>, xs: seq<X>, ys: seq<X>)
    ensures FlatMap(f, xs + ys) == FlatMap(f, xs) + FlatMap(f, ys)
    decreases |xs|
  {
    if |xs| == 0 {
      assert xs + ys == ys;
    } else {
      assert (xs + ys)[1..] == xs[1..] + ys;
      FlatMapAppend(f, xs[1..], ys);
    }
  }

  lemma FlatMapOne<X, Y>(f: X -> seq<Y>, x: X)
    ensures FlatMap(f, [x]) == f(x)
  {
    assert [x][1..] == [];
  }

  /** The flattened length is the sum of the per-item lengths. */
  lemma {:induction false} FlatMapLength<X, Y>(f: X -> seq<Y>, count: X -> nat, xs: seq<X>)
    requires forall k :: 0 <= k < |xs| ==> count(xs[k]) == |f(xs[k])|
    ensures |FlatMap(f, xs)| == SumOf(count, xs)
    decreases |xs|
  {
    if |xs| > 0 {
      assert forall k :: 0 <= k < |xs[1..]| ==> xs[1..][k] == xs[k + 1];
      FlatMapLength(f, count, xs[1..]);
    }
  }

  /** Flattening with functions that agree on every item gives the same list. */
  lemma {:induction false} FlatMapCongruent<X, Y>(f: X -> seq<Y>, g: X -> seq<Y>, xs: seq<X>)
    requires forall k :: 0 <= k < |xs| ==> f(xs[k]) == g(xs[k])
    ensures FlatMap(f, xs) == FlatMap(g, xs)
    decreases |xs|
  {
    if |xs| > 0 {
      assert forall k :: 0 <= k < |xs[1..]| ==> xs[1..][k] == xs[k + 1];
      FlatMapCongruent(f, g, xs[1..]);
    }
  }

  /** Position in the flattened list where item `p`'s records begin. */
  function Offset<X, Y>(f: X -> seq<Y>, xs: seq<X>, p: nat): nat
    requires p <= |xs|
  {
    |FlatMap(f, xs[..p])|
  }

  lemma OffsetStep<X, Y>(f: X -> seq<Y>, xs: seq<X>, p: nat)
    requires p < |xs|
    ensures Offset(f, xs, p + 1) == Offset(f, xs, p) + |f(xs[p])|
  {
    assert xs[..p + 1] == xs[..p] + [xs[p]];
    FlatMapAppend(f, xs[..p], [xs[p]]);
    FlatMapOne(f, xs[p]);
  }

  lemma {:induction false} OffsetMonotone<X, Y>(f: X -> seq<Y>, xs: seq<X>, p: nat, q: nat)
    requires p <= q <= |xs|
    ensures Offset(f, xs, p) <= Offset(f, xs, q)
    decreases q - p
  {
    if p < q {
      OffsetStep(f, xs, p);
      OffsetMonotone(f, xs, p + 1, q);
    }
  }

  /** Record `i` of item `p` sits at position `Offset(p) + i`: nothing is
      dropped and nothing is reordered within an item. */
  lemma ItemPosition<X, Y>(f: X -> seq<Y>, xs: seq<X>, p: nat, i: nat)
    requires p < |xs| && i < |f(xs[p])|
    ensures Offset(f, xs, p) + i < |FlatMap(f, xs)|
    ensures FlatMap(f, xs)[Offset(f, xs, p) + i] == f(xs[p])[i]
  {
    assert xs == xs[..p] + [xs[p]] + xs[p + 1..];
    FlatMapAppend(f, xs[..p] + [xs[p]], xs[p + 1..]);
    FlatMapAppend(f, xs[..p], [xs[p]]);
    FlatMapOne(f, xs[p]);
  }

  /** The item and the index within it that output position `j` comes from. */
  function Locate<X, Y>(f: X -> seq<Y>, xs: seq<X>, j: nat): (loc: (nat, nat))
    requires j < |FlatMap(f, xs)|
    ensures loc.0 < |xs| && loc.1 < |f(xs[loc.0])|
    ensures j == Offset(f, xs, loc.0) + loc.1
    ensures FlatMap(f, xs)[j] == f(xs[loc.0])[loc.1]
    decreases |xs|
  {
    if j < |f(xs[0])| then
      assert xs[..0] == [];
      (0, j)
    else
      var loc := Locate(f, xs[1..], j - |f(xs[0])|);
      assert xs[..loc.0 + 1] == [xs[0]] + xs[1..][..loc.0];
      (loc.0 + 1, loc.1)
  }

  /** Output order is item order, then order within the item. */
  lemma LocateOrdered<X, Y>(f: X -> seq<Y>, xs: seq<X>, j1: nat, j2: nat)
    requires j1 < j2 < |FlatMap(f, xs)|
    ensures var (p1, i1) := Locate(f, xs, j1);
            var (p2, i2) := Locate(f, xs, j2);
            p1 < p2 || (p1 == p2 && i1 < i2)
  {
    var (p1, i1) := Locate(f, xs, j1);
    var (p2, i2) := Locate(f, xs, j2);
    if p1 > p2 {
      OffsetStep(f, xs, p2);
      OffsetMonotone(f, xs, p2 + 1, p1);
      assert false;
    }
  }
}

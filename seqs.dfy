/** `Array.prototype.filter` over sequences, with the facts the components rely on. */
module Seqs {

  /** The smaller of two integers, as `Math.min` and the bound of `slice`. */
  function Min(a: int, b: int): (m: int)
    ensures m <= a && m <= b && (m == a || m == b)
  {
    if a <= b then a else b
  }

  /** The elements of `xs` that satisfy `p`, in their original order. */
  function Filter<T>(xs: seq<T>, p: T -> bool): (r: seq<T>)
    ensures |r| <= |xs|
    ensures forall i :: 0 <= i < |r| ==> r[i] in xs && p(r[i])
  {
    if xs == [] then [] else (if p(xs[0]) then [xs[0]] else []) + Filter(xs[1..], p)
  }

  /** Every element that satisfies `p` is kept. */
  lemma {:induction false} FilterHas<T>(xs: seq<T>, p: T -> bool, i: nat)
    requires i < |xs| && p(xs[i])
    ensures xs[i] in Filter(xs, p)
  {
    if i > 0 {
      assert xs[1..][i - 1] == xs[i];
      FilterHas(xs[1..], p, i - 1);
    }
  }

  /** Filtering commutes with concatenation, so the kept elements stay in their order. */
  lemma {:induction false} FilterAppend<T>(a: seq<T>, b: seq<T>, p: T -> bool)
    ensures Filter(a + b, p) == Filter(a, p) + Filter(b, p)
  {
    if a == [] {
      assert a + b == b;
    } else {
      assert (a + b)[1..] == a[1..] + b;
      FilterAppend(a[1..], b, p);
    }
  }

  /** A filter that every element passes leaves the sequence as it is. */
  lemma {:induction false} FilterKeepsAll<T>(xs: seq<T>, p: T -> bool)
    requires forall i :: 0 <= i < |xs| ==> p(xs[i])
    ensures Filter(xs, p) == xs
  {
    if xs != [] {
      FilterKeepsAll(xs[1..], p);
    }
  }

  /** Filtering twice with the same predicate is filtering once. */
  lemma FilterIdempotent<T>(xs: seq<T>, p: T -> bool)
    ensures Filter(Filter(xs, p), p) == Filter(xs, p)
  {
    FilterKeepsAll(Filter(xs, p), p);
  }

  /** Filtering with a conjunction is filtering with each conjunct in turn. */
  lemma {:induction false} FilterCompose<T>(xs: seq<T>, p: T -> bool, q: T -> bool, pq: T -> bool)
    requires forall x :: pq(x) == (p(x) && q(x))
    ensures Filter(xs, pq) == Filter(Filter(xs, p), q)
  {
    if xs != [] {
      var x, rest := xs[0], xs[1..];
      FilterCompose(rest, p, q, pq);
      if p(x) {
        var kept := Filter(rest, p);
        assert Filter(xs, p) == [x] + kept;
        assert ([x] + kept)[1..] == kept;
        assert Filter([x] + kept, q) == (if q(x) then [x] else []) + Filter(kept, q);
      } else {
        assert Filter(xs, p) == Filter(rest, p);
      }
    }
  }

  /** Two predicates that never hold together keep at most all elements between them,
      and exactly all of them when one of the two always holds. */
  lemma {:induction false} FilterDisjoint<T>(xs: seq<T>, p: T -> bool, q: T -> bool)
    requires forall i :: 0 <= i < |xs| ==> !(p(xs[i]) && q(xs[i]))
    ensures |Filter(xs, p)| + |Filter(xs, q)| <= |xs|
    ensures (forall i :: 0 <= i < |xs| ==> p(xs[i]) || q(xs[i])) ==> |Filter(xs, p)| + |Filter(xs, q)| == |xs|
  {
    if xs != [] {
      FilterDisjoint(xs[1..], p, q);
    }
  }

  /** The kept elements are exactly the elements passing `p`, in their order: they sit at
      strictly increasing positions of `xs`, and every passing position is one of them. */
  lemma {:induction false} FilterPositions<T>(xs: seq<T>, p: T -> bool) returns (idx: seq<nat>)
    ensures Positions(xs, p, Filter(xs, p), idx)
  {
    if xs == [] {
      idx := [];
    } else {
      var rest := FilterPositions(xs[1..], p);
      idx := PositionsStep(xs, p, rest, Filter(xs[1..], p), Filter(xs, p));
    }
  }

  /** `idx` lists, in increasing order, positions of `xs` holding the elements of `ys`,
      and every position whose element passes `p`. */
  ghost predicate Positions<T>(xs: seq<T>, p: T -> bool, ys: seq<T>, idx: seq<nat>)
  {
    && |idx| == |ys|
    && (forall k :: 0 <= k < |idx| ==> idx[k] < |xs| && xs[idx[k]] == ys[k])
    && (forall k, l :: 0 <= k < l < |idx| ==> idx[k] < idx[l])
    && (forall i :: 0 <= i < |xs| && p(xs[i]) ==> i in idx)
  }

  lemma PositionsStep<T>(xs: seq<T>, p: T -> bool, rest: seq<nat>, ys: seq<T>, zs: seq<T>) returns (idx: seq<nat>)
    requires |xs| > 0 && Positions(xs[1..], p, ys, rest)
    requires zs == (if p(xs[0]) then [xs[0]] else []) + ys
    ensures Positions(xs, p, zs, idx)
  {
    var shifted := Shift(rest);
    ShiftPositions(xs, rest, ys);
    ShiftCovers(xs, p, rest);
    if p(xs[0]) {
      idx := [0] + shifted;
      PrependPositions(xs, shifted, ys);
    } else {
      idx := shifted;
    }
  }

  function Shift(idx: seq<nat>): (r: seq<nat>)
    ensures |r| == |idx| && forall k :: 0 <= k < |idx| ==> r[k] == idx[k] + 1
  {
    seq(|idx|, k requires 0 <= k < |idx| => idx[k] + 1)
  }

  /** Passing positions of the tail, shifted, are the passing positions of `xs` after 0. */
  lemma ShiftCovers<T>(xs: seq<T>, p: T -> bool, rest: seq<nat>)
    requires |xs| > 0
    requires forall i :: 0 <= i < |xs| - 1 && p(xs[1..][i]) ==> i in rest
    ensures forall i :: 0 < i < |xs| && p(xs[i]) ==> i in Shift(rest)
  {
    forall i | 0 < i < |xs| && p(xs[i])
      ensures i in Shift(rest)
    {
      assert xs[1..][i - 1] == xs[i];
      var k :| 0 <= k < |rest| && rest[k] == i - 1;
      assert Shift(rest)[k] == i;
    }
  }

  /** Putting position 0 in front of positive, increasing positions of the rest. */
  lemma PrependPositions<T>(xs: seq<T>, shifted: seq<nat>, ys: seq<T>)
    requires |xs| > 0 && |shifted| == |ys|
    requires forall k :: 0 <= k < |shifted| ==> 0 < shifted[k] < |xs| && xs[shifted[k]] == ys[k]
    requires forall k, l :: 0 <= k < l < |shifted| ==> shifted[k] < shifted[l]
    ensures forall k :: 0 <= k < |shifted| + 1 ==> ([0] + shifted)[k] < |xs| && xs[([0] + shifted)[k]] == ([xs[0]] + ys)[k]
    ensures forall k, l :: 0 <= k < l < |shifted| + 1 ==> ([0] + shifted)[k] < ([0] + shifted)[l]
    ensures 0 in [0] + shifted
    ensures forall i :: i in shifted ==> i in [0] + shifted
  {
  }

  /** Positions of `ys` in the tail of `xs` are those positions plus one in `xs`. */
  lemma ShiftPositions<T>(xs: seq<T>, rest: seq<nat>, ys: seq<T>)
    requires |xs| > 0 && |rest| == |ys|
    requires forall k :: 0 <= k < |rest| ==> rest[k] < |xs| - 1 && xs[1..][rest[k]] == ys[k]
    requires forall k, l :: 0 <= k < l < |rest| ==> rest[k] < rest[l]
    ensures forall k :: 0 <= k < |rest| ==> 0 < Shift(rest)[k] < |xs| && xs[Shift(rest)[k]] == ys[k]
    ensures forall k, l :: 0 <= k < l < |rest| ==> Shift(rest)[k] < Shift(rest)[l]
  {
    forall k | 0 <= k < |rest|
      ensures xs[Shift(rest)[k]] == ys[k]
    {
      assert xs[1..][rest[k]] == xs[rest[k] + 1];
    }
  }
}

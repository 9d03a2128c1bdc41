/**
 * Intervals and boxes over exact reals, with the three set operations the
 * integrator's control logic relies on: intersection, subset and superset.
 */
module Intervals {

  /** The closed interval [lo, hi]; it denotes the empty set when lo > hi. */
  datatype Interval = Interval(lo: real, hi: real)

  /** An interval vector. */
  type Box = seq<Interval>

  predicate IsEmpty(x: Interval)
  {
    x.lo > x.hi
  }

  predicate Contains(x: Interval, v: real)
  {
    x.lo <= v <= x.hi
  }

  function Max(a: real, b: real): real
  {
    if a >= b then a else b
  }

  function Min(a: real, b: real): real
  {
    if a <= b then a else b
  }

  /** Intersection `x & y`: exactly the values in both. */
  function Meet(x: Interval, y: Interval): (m: Interval)
    ensures forall v :: Contains(m, v) <==> Contains(x, v) && Contains(y, v)
  {
    Interval(Max(x.lo, y.lo), Min(x.hi, y.hi))
  }

  /** `x.is_subset(y)`: x is empty, or its bounds lie within y's. */
  predicate IsSubset(x: Interval, y: Interval)
  {
    IsEmpty(x) || (y.lo <= x.lo && x.hi <= y.hi)
  }

  /** IsSubset is inclusion of the denoted sets. */
  lemma SubsetIsInclusion(x: Interval, y: Interval)
    ensures IsSubset(x, y) <==> forall v :: Contains(x, v) ==> Contains(y, v)
  {
    if !IsSubset(x, y) {
      assert !IsEmpty(x);
      if x.lo < y.lo {
        assert Contains(x, x.lo) && !Contains(y, x.lo);
      } else {
        assert Contains(x, x.hi) && !Contains(y, x.hi);
      }
    }
  }

  // ---------------------------------------------------------------------------
  // Boxes

  /** A box is empty when one of its components is. */
  predicate BoxIsEmpty(b: Box)
  {
    exists i :: 0 <= i < |b| && IsEmpty(b[i])
  }

  /** A point lies in a box when each coordinate lies in its component. */
  predicate InBox(p: seq<real>, b: Box)
  {
    |p| == |b| && forall i :: 0 <= i < |b| ==> Contains(b[i], p[i])
  }

  /** `a.is_subset(b)` on boxes of one dimension. */
  predicate BoxSubset(a: Box, b: Box)
  {
    |a| == |b| && (BoxIsEmpty(a) || forall i :: 0 <= i < |a| ==> IsSubset(a[i], b[i]))
  }

  /** `a.is_superset(b)` */
  predicate BoxSuperset(a: Box, b: Box)
  {
    BoxSubset(b, a)
  }

  /** BoxSubset is inclusion of the sets of points, empty boxes included. */
  lemma BoxSubsetIsInclusion(a: Box, b: Box)
    requires |a| == |b|
    ensures BoxSubset(a, b) <==> forall p :: InBox(p, a) ==> InBox(p, b)
  {
    if BoxSubset(a, b) {
      forall p | InBox(p, a)
        ensures InBox(p, b)
      {
        if BoxIsEmpty(a) {
          assert false;
        }
        forall i | 0 <= i < |b|
          ensures Contains(b[i], p[i])
        {
          SubsetIsInclusion(a[i], b[i]);
          assert Contains(a[i], p[i]);
        }
      }
    } else {
      var j :| 0 <= j < |a| && !IsSubset(a[j], b[j]);
      SubsetIsInclusion(a[j], b[j]);
      var v :| Contains(a[j], v) && !Contains(b[j], v);
      var p := seq(|a|, i requires 0 <= i < |a| => if i == j then v else a[i].lo);
      forall i | 0 <= i < |a|
        ensures Contains(a[i], p[i])
      {
        if i != j {
          assert !IsEmpty(a[i]);
        }
      }
      assert InBox(p, a) && !Contains(b[j], p[j]);
    }
  }

  /** Componentwise intersection `a & b` of two boxes of one dimension. */
  function BoxMeet(a: Box, b: Box): (m: Box)
    requires |a| == |b|
    ensures |m| == |a|
    ensures BoxSubset(m, a) && BoxSubset(m, b)
  {
    seq(|a|, i requires 0 <= i < |a| => Meet(a[i], b[i]))
  }

  /** The points of `a & b` are exactly those of both boxes. */
  lemma BoxMeetPoints(a: Box, b: Box, p: seq<real>)
    requires |a| == |b|
    ensures InBox(p, BoxMeet(a, b)) <==> InBox(p, a) && InBox(p, b)
  {
    var m := BoxMeet(a, b);
    if InBox(p, a) && InBox(p, b) {
      forall i | 0 <= i < |m|
        ensures Contains(m[i], p[i])
      {
        assert m[i] == Meet(a[i], b[i]);
      }
    }
  }

  /** The box of dimension n whose components are all [0, 0]. */
  function ZeroBox(n: nat): (b: Box)
    ensures |b| == n && InBox(seq(n, _ => 0.0), b)
    ensures forall i :: 0 <= i < n ==> b[i] == Interval(0.0, 0.0)
  {
    seq(n, _ => Interval(0.0, 0.0))
  }

  lemma BoxSubsetReflexive(a: Box)
    ensures BoxSubset(a, a)
  {
  }

  lemma BoxSubsetTransitive(a: Box, b: Box, c: Box)
    requires BoxSubset(a, b) && BoxSubset(b, c)
    ensures BoxSubset(a, c)
  {
  }

  /** Intersecting again with one of the operands changes nothing. */
  lemma BoxMeetAbsorbs(a: Box, b: Box)
    requires |a| == |b|
    ensures BoxMeet(a, BoxMeet(a, b)) == BoxMeet(a, b)
    ensures BoxMeet(BoxMeet(a, b), b) == BoxMeet(a, b)
  {
    var m := BoxMeet(a, b);
    assert forall i :: 0 <= i < |a| ==> BoxMeet(a, m)[i] == m[i];
    assert forall i :: 0 <= i < |a| ==> BoxMeet(m, b)[i] == m[i];
  }
}

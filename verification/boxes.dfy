/**
 * Componentwise box interpolation and the distance between points
 * (math_functions.py, point_in_a_box and distance). Points are lists of
 * reals of any length; like Python's `map` over several lists, every
 * componentwise operation stops at the end of the shortest list.
 */
module Boxes {
  import opened RealArith

  function Min(a: nat, b: nat): (m: nat)
  {
    if a <= b then a else b
  }

  /** x lies between the two bounds, whichever of them is the smaller. */
  predicate Between(x: real, bound1: real, bound2: real)
  {
    (bound1 <= x <= bound2) || (bound2 <= x <= bound1)
  }

  /**
   * point_in_a_box: box_min + (box_max - box_min) * sample, componentwise,
   * as long as all three lists have an entry.
   */
  function PointInABox(boxMin: seq<real>, boxMax: seq<real>, sample: seq<real>): (position: seq<real>)
    ensures |position| == Min(Min(|boxMin|, |boxMax|), |sample|)
  {
    var n := Min(Min(|boxMin|, |boxMax|), |sample|);
    seq(n, i requires 0 <= i < n => boxMin[i] + (boxMax[i] - boxMin[i]) * sample[i])
  }

  /** One coordinate of an interpolation with a parameter in [0, 1] stays between its ends. */
  lemma InterpolationBetween(low: real, high: real, s: real)
    requires 0.0 <= s <= 1.0
    ensures Between(low + (high - low) * s, low, high)
  {
    var delta := high - low;
    if delta >= 0.0 {
      ScaleMonotone(0.0, s, delta);
      ScaleMonotone(s, 1.0, delta);
      assert low <= low + delta * s <= high;
    } else {
      ScaleAntitone(0.0, s, delta);
      ScaleAntitone(s, 1.0, delta);
      assert high <= low + delta * s <= low;
    }
  }

  /**
   * A sample with every coordinate in [0, 1] lands inside the box, in
   * whichever order the bounds come.
   */
  lemma SampleInsideBox(boxMin: seq<real>, boxMax: seq<real>, sample: seq<real>)
    requires forall i :: 0 <= i < |sample| ==> 0.0 <= sample[i] <= 1.0
    ensures var p := PointInABox(boxMin, boxMax, sample);
      forall i :: 0 <= i < |p| ==> Between(p[i], boxMin[i], boxMax[i])
  {
    var p := PointInABox(boxMin, boxMax, sample);
    forall i | 0 <= i < |p|
      ensures Between(p[i], boxMin[i], boxMax[i])
    {
      InterpolationBetween(boxMin[i], boxMax[i], sample[i]);
    }
  }

  /**
   * In any number of dimensions, the all-zero sample gives box_min, the
   * all-one sample box_max and the all-half sample the midpoint.
   */
  lemma BoxCornersAndCentre(boxMin: seq<real>, boxMax: seq<real>)
    requires |boxMin| == |boxMax|
    ensures PointInABox(boxMin, boxMax, seq(|boxMin|, _ => 0.0)) == boxMin
    ensures PointInABox(boxMin, boxMax, seq(|boxMin|, _ => 1.0)) == boxMax
    ensures PointInABox(boxMin, boxMax, seq(|boxMin|, _ => 0.5))
         == seq(|boxMin|, i requires 0 <= i < |boxMin| => (boxMin[i] + boxMax[i]) / 2.0)
  {
  }

  /** The componentwise differences a - b, truncated to the shorter point. */
  function Differences(a: seq<real>, b: seq<real>): (delta: seq<real>)
    ensures |delta| == Min(|a|, |b|)
  {
    seq(Min(|a|, |b|), i requires 0 <= i < Min(|a|, |b|) => a[i] - b[i])
  }

  /** The sum of squares of the entries, added up from the first entry to the last. */
  function SquaredNorm(delta: seq<real>): (sum: real)
    ensures sum >= 0.0
  {
    if |delta| == 0 then 0.0
    else
      SquaredNorm(delta[..|delta| - 1]) + delta[|delta| - 1] * delta[|delta| - 1]
  }

  /**
   * The square of the Euclidean distance. The source returns its square
   * root; since the square root is strictly increasing on non-negative
   * reals, ordering and ties by either are the same.
   */
  function SquaredDistance(a: seq<real>, b: seq<real>): (d: real)
    ensures d >= 0.0
  {
    SquaredNorm(Differences(a, b))
  }

  /** distance: accumulates the squared differences one coordinate at a time. */
  method Distance(pointA: seq<real>, pointB: seq<real>) returns (distanceSqr: real)
    ensures distanceSqr == SquaredDistance(pointA, pointB)
  {
    var delta := Differences(pointA, pointB);
    var deltaSqr := seq(|delta|, i requires 0 <= i < |delta| => delta[i] * delta[i]);
    distanceSqr := 0.0;
    var k := 0;
    while k < |deltaSqr|
      invariant 0 <= k <= |deltaSqr|
      invariant distanceSqr == SquaredNorm(delta[..k])
    {
      assert delta[..k + 1][..k] == delta[..k];
      distanceSqr := distanceSqr + deltaSqr[k];
      k := k + 1;
    }
    assert delta[..k] == delta;
  }

  /** A point is at distance zero from itself. */
  lemma {:induction false} SquaredNormOfZeros(delta: seq<real>)
    requires forall i :: 0 <= i < |delta| ==> delta[i] == 0.0
    ensures SquaredNorm(delta) == 0.0
  {
    if |delta| > 0 {
      SquaredNormOfZeros(delta[..|delta| - 1]);
    }
  }

  lemma DistanceToItself(p: seq<real>)
    ensures SquaredDistance(p, p) == 0.0
  {
    SquaredNormOfZeros(Differences(p, p));
  }

  /** Two lists whose entries agree up to sign have the same sum of squares. */
  lemma {:induction false} SquaredNormOfNegation(d: seq<real>, e: seq<real>)
    requires |d| == |e| && forall i :: 0 <= i < |d| ==> e[i] == -d[i]
    ensures SquaredNorm(d) == SquaredNorm(e)
  {
    if |d| > 0 {
      var n := |d| - 1;
      SquaredNormOfNegation(d[..n], e[..n]);
      assert e[n] * e[n] == d[n] * d[n];
    }
  }

  /** The distance does not depend on the order of its arguments. */
  lemma DistanceSymmetric(a: seq<real>, b: seq<real>)
    ensures SquaredDistance(a, b) == SquaredDistance(b, a)
  {
    SquaredNormOfNegation(Differences(a, b), Differences(b, a));
  }
}

/**
 * Camera positions inside the headbox (math_functions.py,
 * generate_camera_positions): a 3D Hammersley point set, stretched so that
 * its bounding box is the unit cube, mapped into the headbox, stably
 * sorted by distance to the headbox centre, with the closest point then
 * replaced by the centre itself.
 */
module CameraPositions {
  import opened Errors
  import opened RealArith
  import opened RadicalInverse
  import opened Boxes
  import opened StableSort

  const NumCamerasError := ValueError("num_cameras must be positive")

  /** Python's max(a, b) on two floats. */
  function Max(a: real, b: real): (m: real)
    ensures m >= a && m >= b
    ensures m == a || m == b
  {
    if b > a then b else a
  }

  /** Sample i of n: (i / n, radical inverse of i in base 2, radical inverse of i in base 3). */
  function HammersleySample(i: nat, n: nat): (sample: seq<real>)
    requires i < n
    ensures |sample| == 3
    ensures forall d :: 0 <= d < 3 ==> 0.0 <= sample[d] < 1.0
  {
    FractionInUnitInterval(i as real, n as real);
    [i as real / n as real, DigitReversal(i, 2), DigitReversal(i, 3)]
  }

  /** The first count samples of an n-point set, in generation order. */
  function Samples(n: nat, count: nat): (samples: seq<seq<real>>)
    requires count <= n
    ensures |samples| == count
  {
    seq(count, i requires 0 <= i < count => HammersleySample(i, n))
  }

  lemma SamplesStep(n: nat, i: nat)
    requires i < n
    ensures Samples(n, i + 1) == Samples(n, i) + [HammersleySample(i, n)]
  {
  }

  predicate ThreeDimensional(samples: seq<seq<real>>)
  {
    forall j :: 0 <= j < |samples| ==> |samples[j]| == 3
  }

  /**
   * max_sample[d] after the generation loop has seen `samples`: it starts
   * at 0.0 and takes the larger value at every sample.
   */
  function AxisMax(samples: seq<seq<real>>, d: nat): (m: real)
    requires d < 3 && ThreeDimensional(samples)
    ensures m >= 0.0
    ensures forall j :: 0 <= j < |samples| ==> samples[j][d] <= m
    ensures m == 0.0 || exists j :: 0 <= j < |samples| && samples[j][d] == m
  {
    if |samples| == 0 then 0.0
    else
      var front := samples[..|samples| - 1];
      var m := Max(AxisMax(front, d), samples[|samples| - 1][d]);
      assert forall j :: 0 <= j < |front| ==> front[j] == samples[j];
      m
  }

  function MaxSample(samples: seq<seq<real>>): (m: seq<real>)
    requires ThreeDimensional(samples)
    ensures |m| == 3
  {
    [AxisMax(samples, 0), AxisMax(samples, 1), AxisMax(samples, 2)]
  }

  /** The sample divided axis by axis by the largest value on that axis. */
  function Normalised(sample: seq<real>, maxSample: seq<real>): (r: seq<real>)
    requires |sample| == 3 && |maxSample| == 3
    requires forall d :: 0 <= d < 3 ==> maxSample[d] != 0.0
    ensures |r| == 3
    ensures forall d :: 0 <= d < 3 ==> r[d] * maxSample[d] == sample[d]
  {
    DivMulCancel(sample[0], maxSample[0]);
    DivMulCancel(sample[1], maxSample[1]);
    DivMulCancel(sample[2], maxSample[2]);
    seq(3, d requires 0 <= d < 3 => sample[d] / maxSample[d])
  }

  /** For n >= 2 no axis maximum is zero, so the normalisation never divides by zero. */
  lemma MaxSamplePositive(n: nat)
    requires n >= 2
    ensures forall d :: 0 <= d < 3 ==> MaxSample(Samples(n, n))[d] > 0.0
  {
    var samples := Samples(n, n);
    FractionInUnitInterval((n - 1) as real, n as real);
    assert samples[n - 1][0] == (n - 1) as real / n as real;
    assert samples[1][1] == DigitReversal(1, 2);
    assert samples[1][2] == DigitReversal(1, 3);
  }

  /** point_in_a_box(min, max, [0.5, 0.5, 0.5]): the midpoint of the box on every axis it has, up to three. */
  function Centre(boxMin: seq<real>, boxMax: seq<real>): (centre: seq<real>)
    ensures |centre| == Min(Min(|boxMin|, |boxMax|), 3)
    ensures forall i :: 0 <= i < |centre| ==> centre[i] == (boxMin[i] + boxMax[i]) / 2.0
  {
    PointInABox(boxMin, boxMax, [0.5, 0.5, 0.5])
  }

  /** The sort key: (squared) distance to the headbox centre. */
  function DistanceKey(centre: seq<real>): (key: seq<real> -> real)
    ensures forall p :: key(p) >= 0.0
    ensures key(centre) == 0.0
  {
    DistanceToItself(centre);
    p => SquaredDistance(p, centre)
  }

  /** The samples after the normalisation loop, in generation order. */
  function NormalisedSamples(n: nat): (normalised: seq<seq<real>>)
    requires n >= 2
    ensures |normalised| == n
  {
    var samples := Samples(n, n);
    MaxSamplePositive(n);
    seq(n, i requires 0 <= i < n => Normalised(samples[i], MaxSample(samples)))
  }

  /** The normalised Hammersley points mapped into the box, in generation order. */
  function HammersleyPoints(boxMin: seq<real>, boxMax: seq<real>, n: nat): (points: seq<seq<real>>)
    requires n >= 2
    ensures |points| == n
  {
    var normalised := NormalisedSamples(n);
    seq(n, i requires 0 <= i < n => PointInABox(boxMin, boxMax, normalised[i]))
  }

  /** The positions generate_camera_positions returns for n >= 1 cameras. */
  function CameraPositions(boxMin: seq<real>, boxMax: seq<real>, n: nat): (positions: seq<seq<real>>)
    requires n >= 1
    ensures |positions| == n
    ensures positions[0] == Centre(boxMin, boxMax)
  {
    if n == 1 then [Centre(boxMin, boxMax)]
    else
      var points := HammersleyPoints(boxMin, boxMax, n);
      var sorted := SortBy(points, DistanceKey(Centre(boxMin, boxMax)));
      SortByLength(points, DistanceKey(Centre(boxMin, boxMax)));
      sorted[0 := Centre(boxMin, boxMax)]
  }

  /** One more sample raises each axis maximum to the sample's coordinate if that is larger. */
  lemma AxisMaxStep(samples: seq<seq<real>>, sample: seq<real>, d: nat)
    requires d < 3 && ThreeDimensional(samples) && |sample| == 3
    ensures ThreeDimensional(samples + [sample])
    ensures AxisMax(samples + [sample], d) == Max(AxisMax(samples, d), sample[d])
  {
    var next := samples + [sample];
    assert next[..|next| - 1] == samples;
  }

  /** The first loop of generate_camera_positions, one axis of max_sample at a time. */
  method UpdateMaxSample(maxSample: seq<real>, samples: seq<seq<real>>, sample: seq<real>)
    returns (updated: seq<real>)
    requires ThreeDimensional(samples) && |sample| == 3
    requires maxSample == MaxSample(samples)
    ensures updated == MaxSample(samples + [sample])
  {
    AxisMaxStep(samples, sample, 0);
    AxisMaxStep(samples, sample, 1);
    AxisMaxStep(samples, sample, 2);
    updated := maxSample;
    var dim := 0;
    while dim < 3
      invariant 0 <= dim <= 3 && |updated| == 3
      invariant forall e :: 0 <= e < dim ==> updated[e] == Max(maxSample[e], sample[e])
      invariant forall e :: dim <= e < 3 ==> updated[e] == maxSample[e]
    {
      updated := updated[dim := Max(updated[dim], sample[dim])];
      dim := dim + 1;
    }
  }

  /** The Hammersley samples of an n-point set and their per-axis maximum. */
  method GenerateSamples(n: nat) returns (samples: seq<seq<real>>, maxSample: seq<real>)
    requires n >= 1
    ensures samples == Samples(n, n)
    ensures maxSample == MaxSample(samples)
  {
    samples := [];
    maxSample := [0.0, 0.0, 0.0];
    var i := 0;
    while i < n
      invariant 0 <= i <= n
      invariant samples == Samples(n, i)
      invariant maxSample == MaxSample(samples)
    {
      var base2 := RadicalInverse.RadicalInverse(i, 2);
      var base3 := RadicalInverse.RadicalInverse(i, 3);
      var sample := [i as real / n as real, base2, base3];
      assert sample == HammersleySample(i, n);
      SamplesStep(n, i);
      maxSample := UpdateMaxSample(maxSample, samples, sample);
      samples := samples + [sample];
      i := i + 1;
    }
  }

  /** `sample[dim] /= max_sample[dim]` for every axis. */
  method NormaliseInPlace(sample: seq<real>, maxSample: seq<real>) returns (normalised: seq<real>)
    requires |sample| == 3 && |maxSample| == 3
    requires forall d :: 0 <= d < 3 ==> maxSample[d] != 0.0
    ensures normalised == Normalised(sample, maxSample)
  {
    normalised := sample;
    var dim := 0;
    while dim < 3
      invariant 0 <= dim <= 3 && |normalised| == 3
      invariant forall e :: 0 <= e < dim ==> normalised[e] == sample[e] / maxSample[e]
      invariant forall e :: dim <= e < 3 ==> normalised[e] == sample[e]
    {
      normalised := normalised[dim := normalised[dim] / maxSample[dim]];
      dim := dim + 1;
    }
  }

  lemma PrefixSnoc<T>(s: seq<T>, k: nat)
    requires k < |s|
    ensures s[..k + 1] == s[..k] + [s[k]]
  {
  }

  /**
   * The second loop of generate_camera_positions: every sample is
   * normalised in place and mapped into the headbox, in generation order.
   */
  method PlaceSamples(headboxMin: seq<real>, headboxMax: seq<real>, n: nat,
                      samples: seq<seq<real>>, maxSample: seq<real>)
    returns (positions: seq<seq<real>>)
    requires n >= 2 && samples == Samples(n, n) && maxSample == MaxSample(samples)
    ensures positions == HammersleyPoints(headboxMin, headboxMax, n)
  {
    MaxSamplePositive(n);
    ghost var normalised := NormalisedSamples(n);
    ghost var points := HammersleyPoints(headboxMin, headboxMax, n);
    positions := [];
    var k := 0;
    while k < n
      invariant 0 <= k <= n
      invariant positions == points[..k]
    {
      var sample := NormaliseInPlace(samples[k], maxSample);
      assert sample == normalised[k];
      assert points[k] == PointInABox(headboxMin, headboxMax, sample);
      PrefixSnoc(points, k);
      positions := positions + [PointInABox(headboxMin, headboxMax, sample)];
      k := k + 1;
    }
    assert positions == points;
  }

  /**
   * generate_camera_positions: the two loops that build and normalise the
   * samples, the sort, and the overwrite of the first element.
   */
  method GenerateCameraPositions(headboxMin: seq<real>, headboxMax: seq<real>, numCameras: int)
    returns (r: Result<seq<seq<real>>>)
    ensures r.Err? <==> numCameras <= 0
    ensures r.Err? ==> r.error == NumCamerasError
    ensures numCameras == 1 ==> r == Ok([Centre(headboxMin, headboxMax)])
    ensures r.Ok? ==> r.value == CameraPositions(headboxMin, headboxMax, numCameras)
  {
    if numCameras <= 0 {
      return Err(NumCamerasError);
    }
    if numCameras == 1 {
      return Ok([PointInABox(headboxMin, headboxMax, [0.5, 0.5, 0.5])]);
    }
    var n: nat := numCameras;
    var samples, maxSample := GenerateSamples(n);
    var positions := PlaceSamples(headboxMin, headboxMax, n, samples, maxSample);
    var centre := PointInABox(headboxMin, headboxMax, [0.5, 0.5, 0.5]);
    var sortedPositions := SortBy(positions, DistanceKey(centre));
    SortByLength(positions, DistanceKey(centre));
    sortedPositions := sortedPositions[0 := PointInABox(headboxMin, headboxMax, [0.5, 0.5, 0.5])];
    return Ok(sortedPositions);
  }

  /** After normalisation every coordinate of every sample lies in [0, 1]. */
  lemma NormalisedInUnitCube(n: nat, i: nat)
    requires 2 <= n && i < n
    ensures forall d :: 0 <= d < 3 ==> 0.0 <= NormalisedSamples(n)[i][d] <= 1.0
  {
    MaxSamplePositive(n);
    var samples := Samples(n, n);
    var maxSample := MaxSample(samples);
    forall d | 0 <= d < 3
      ensures 0.0 <= NormalisedSamples(n)[i][d] <= 1.0
    {
      assert samples[i][d] <= maxSample[d];
      FractionInClosedUnitInterval(samples[i][d], maxSample[d]);
    }
  }

  /** After normalisation every axis reaches exactly 1 at some sample: the set spans the unit cube. */
  lemma NormalisedAttainsOne(n: nat, d: nat)
    requires 2 <= n && d < 3
    ensures exists i :: 0 <= i < n && NormalisedSamples(n)[i][d] == 1.0
  {
    MaxSamplePositive(n);
    var samples := Samples(n, n);
    var maxSample := MaxSample(samples);
    var i :| 0 <= i < n && samples[i][d] == maxSample[d];
    DivSelf(maxSample[d]);
    assert NormalisedSamples(n)[i][d] == 1.0;
  }

  predicate InBox(p: seq<real>, boxMin: seq<real>, boxMax: seq<real>)
    requires |boxMin| == 3 && |boxMax| == 3
  {
    |p| == 3 && forall d :: 0 <= d < 3 ==> Between(p[d], boxMin[d], boxMax[d])
  }

  lemma HammersleyPointsInBox(boxMin: seq<real>, boxMax: seq<real>, n: nat)
    requires |boxMin| == 3 && |boxMax| == 3 && n >= 2
    ensures forall p :: p in HammersleyPoints(boxMin, boxMax, n) ==> InBox(p, boxMin, boxMax)
  {
    MaxSamplePositive(n);
    var samples := Samples(n, n);
    var points := HammersleyPoints(boxMin, boxMax, n);
    forall p | p in points
      ensures InBox(p, boxMin, boxMax)
    {
      var i :| 0 <= i < n && points[i] == p;
      NormalisedInUnitCube(n, i);
      SampleInsideBox(boxMin, boxMax, NormalisedSamples(n)[i]);
    }
  }

  /** An element of s with entry i overwritten by v is v or an element of s. */
  lemma InUpdated<T>(s: seq<T>, i: nat, v: T, p: T)
    requires i < |s| && p in s[i := v]
    ensures p == v || p in s
  {
    var j :| 0 <= j < |s| && s[i := v][j] == p;
    if j != i {
      assert s[j] == p;
    }
  }

  /** Every generated position lies in the headbox, in whichever order its bounds come. */
  lemma CameraPositionsInBox(boxMin: seq<real>, boxMax: seq<real>, n: nat)
    requires |boxMin| == 3 && |boxMax| == 3 && n >= 1
    ensures forall p :: p in CameraPositions(boxMin, boxMax, n) ==> InBox(p, boxMin, boxMax)
  {
    SampleInsideBox(boxMin, boxMax, [0.5, 0.5, 0.5]);
    var centre := Centre(boxMin, boxMax);
    assert InBox(centre, boxMin, boxMax);
    if n >= 2 {
      var points := HammersleyPoints(boxMin, boxMax, n);
      HammersleyPointsInBox(boxMin, boxMax, n);
      var sorted := SortBy(points, DistanceKey(centre));
      SortByLength(points, DistanceKey(centre));
      assert CameraPositions(boxMin, boxMax, n) == sorted[0 := centre];
      forall p | p in sorted[0 := centre]
        ensures InBox(p, boxMin, boxMax)
      {
        InUpdated(sorted, 0, centre, p);
        if p != centre {
          assert p in multiset(sorted);
          assert p in points;
        }
      }
    }
  }

  /**
   * The positions are in non-decreasing distance from the centre: the
   * sorted points are, and the centre that replaces the first of them is at
   * distance zero.
   */
  lemma CameraPositionsSorted(boxMin: seq<real>, boxMax: seq<real>, n: nat)
    requires n >= 1
    ensures SortedBy(CameraPositions(boxMin, boxMax, n), DistanceKey(Centre(boxMin, boxMax)))
  {
    var centre := Centre(boxMin, boxMax);
    var key := DistanceKey(centre);
    var positions := CameraPositions(boxMin, boxMax, n);
    DistanceToItself(centre);
    assert key(centre) == 0.0;
    if n >= 2 {
      var sorted := SortBy(HammersleyPoints(boxMin, boxMax, n), key);
      forall i, j | 0 <= i < j < |positions|
        ensures key(positions[i]) <= key(positions[j])
      {
        if i > 0 {
          assert positions[i] == sorted[i] && positions[j] == sorted[j];
        }
      }
    }
  }

  /**
   * For n >= 2 the result is any stable sort of the Hammersley points by
   * distance to the centre (sorted, with every distance class in generation
   * order), with its first element replaced by the centre.
   */
  lemma CameraPositionsStablySorted(boxMin: seq<real>, boxMax: seq<real>, n: nat, sorted: seq<seq<real>>)
    requires n >= 2
    requires SortedBy(sorted, DistanceKey(Centre(boxMin, boxMax)))
    requires forall k :: Filter(sorted, DistanceKey(Centre(boxMin, boxMax)), k)
                      == Filter(HammersleyPoints(boxMin, boxMax, n), DistanceKey(Centre(boxMin, boxMax)), k)
    ensures |sorted| == n
    ensures CameraPositions(boxMin, boxMax, n) == sorted[0 := Centre(boxMin, boxMax)]
  {
    var key := DistanceKey(Centre(boxMin, boxMax));
    var points := HammersleyPoints(boxMin, boxMax, n);
    forall k
      ensures Filter(sorted, key, k) == Filter(SortBy(points, key), key, k)
    {
      SortByStable(points, key, k);
    }
    StableSortUnique(sorted, SortBy(points, key), key);
    SortByLength(points, key);
  }

  lemma CornerNorms()
    ensures SquaredNorm([-1.0, -1.0, -1.0]) == 3.0
    ensures SquaredNorm([1.0, 1.0, 1.0]) == 3.0
  {
    assert [-1.0, -1.0, -1.0][..2] == [-1.0, -1.0];
    assert [-1.0, -1.0][..1] == [-1.0];
    assert [1.0, 1.0, 1.0][..2] == [1.0, 1.0];
    assert [1.0, 1.0][..1] == [1.0];
    assert SquaredNorm([-1.0]) == 1.0 && SquaredNorm([1.0]) == 1.0 by {
      assert [-1.0][..0] == [] && [1.0][..0] == [];
    }
  }

  /** The samples (0, 0, 0) and (1, 1, 1) map to the corners of [-1, 1]^3. */
  lemma CubeCorners()
    ensures PointInABox([-1.0, -1.0, -1.0], [1.0, 1.0, 1.0], [0.0, 0.0, 0.0]) == [-1.0, -1.0, -1.0]
    ensures PointInABox([-1.0, -1.0, -1.0], [1.0, 1.0, 1.0], [1.0, 1.0, 1.0]) == [1.0, 1.0, 1.0]
  {
    BoxCornersAndCentre([-1.0, -1.0, -1.0], [1.0, 1.0, 1.0]);
    assert seq(3, _ => 0.0) == [0.0, 0.0, 0.0] && seq(3, _ => 1.0) == [1.0, 1.0, 1.0];
  }

  /**
   * Two cameras in the box [-1, 1]^3: the samples (0, 0, 0) and
   * (1/2, 1/2, 1/3) normalise to the opposite corners, which are equally far
   * from the centre; the stable sort keeps them in generation order and the
   * first is replaced by the centre.
   */
  lemma TwoCamerasExample()
    ensures CameraPositions([-1.0, -1.0, -1.0], [1.0, 1.0, 1.0], 2) == [[0.0, 0.0, 0.0], [1.0, 1.0, 1.0]]
  {
    var boxMin, boxMax := [-1.0, -1.0, -1.0], [1.0, 1.0, 1.0];
    var points := HammersleyPoints(boxMin, boxMax, 2);
    TwoCamerasPoints();
    var centre := Centre(boxMin, boxMax);
    assert centre == [0.0, 0.0, 0.0];
    var key := DistanceKey(centre);
    TwoCamerasKeys();
    assert SortBy([boxMax], key) == [boxMax];
    assert SortBy(points, key) == Insert(boxMin, [boxMax], key);
  }

  /** The two normalised samples land on the corners of [-1, 1]^3, in generation order. */
  lemma TwoCamerasPoints()
    ensures HammersleyPoints([-1.0, -1.0, -1.0], [1.0, 1.0, 1.0], 2) == [[-1.0, -1.0, -1.0], [1.0, 1.0, 1.0]]
  {
    TwoSamplesNormalised();
    CubeCorners();
  }

  /** Both corners of [-1, 1]^3 have squared distance 3 from its centre. */
  lemma TwoCamerasKeys()
    ensures DistanceKey([0.0, 0.0, 0.0])([-1.0, -1.0, -1.0]) == 3.0
    ensures DistanceKey([0.0, 0.0, 0.0])([1.0, 1.0, 1.0]) == 3.0
  {
    var boxMin, boxMax, centre := [-1.0, -1.0, -1.0], [1.0, 1.0, 1.0], [0.0, 0.0, 0.0];
    CornerNorms();
    assert Differences(boxMin, centre) == boxMin;
    assert Differences(boxMax, centre) == boxMax;
  }

  /** For two cameras the normalised samples are the opposite corners of the unit cube. */
  lemma TwoSamplesNormalised()
    ensures NormalisedSamples(2) == [[0.0, 0.0, 0.0], [1.0, 1.0, 1.0]]
  {
    DigitReversalExamples();
    var samples := Samples(2, 2);
    assert samples[0] == [0.0, 0.0, 0.0];
    assert samples[1] == [0.5, 0.5, 1.0 / 3.0];
    assert MaxSample(samples) == [0.5, 0.5, 1.0 / 3.0];
    var normalised := NormalisedSamples(2);
    assert normalised[0] == [0.0, 0.0, 0.0];
    assert normalised[1] == [1.0, 1.0, 1.0];
  }
}

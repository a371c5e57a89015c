/**
 * The radical inverse (math_functions.py, radical_inverse): the digits of an
 * integer in a given base, mirrored behind the radix point. It supplies the
 * second and third coordinates of the Hammersley point set.
 */
module RadicalInverse {
  import opened RealArith

  /** A digit placed in front of the already mirrored higher digits, then shifted one place right. */
  function Shifted(digit: int, higher: real, base: nat): (r: real)
    requires base >= 2
  {
    (digit as real + higher) / base as real
  }

  lemma ShiftedBounds(digit: int, higher: real, base: nat)
    requires base >= 2 && 0 <= digit < base && 0.0 <= higher < 1.0
    ensures 0.0 <= Shifted(digit, higher, base) < 1.0
    ensures Shifted(digit, higher, base) == 0.0 <==> digit == 0 && higher == 0.0
  {
    FractionInUnitInterval(digit as real + higher, base as real);
  }

  /** Undoing the shift: q = (digit + higher) / base gives q * base = digit + higher. */
  lemma ShiftedTimesBase(q: real, digit: int, higher: real, base: nat)
    requires base >= 2 && q == Shifted(digit, higher, base)
    ensures q * (base as real) == digit as real + higher
  {
    DivMulCancel(digit as real + higher, base as real);
  }

  /**
   * The radical inverse with integer digit extraction: for
   * a = d0 + d1 * base + d2 * base^2 + ..., the fraction
   * d0 / base + d1 / base^2 + d2 / base^3 + ...
   * It is zero exactly when a <= 0 (the loop never runs) and always below 1.
   */
  function DigitReversal(a: int, base: nat): (r: real)
    requires base >= 2
    ensures 0.0 <= r < 1.0
    ensures r == 0.0 <==> a <= 0
    decreases if a > 0 then a else 0, 1
  {
    if a <= 0 then 0.0 else LowestDigitFirst(a, base)
  }

  /**
   * The radical inverse of a positive a: its lowest digit first behind the
   * radix point, followed by the radical inverse of the higher digits.
   */
  function LowestDigitFirst(a: int, base: nat): (r: real)
    requires base >= 2 && a > 0
    ensures 0.0 < r < 1.0
    decreases a, 0
  {
    var higher := DigitReversal(a / base, base);
    assert a % base == 0 ==> a / base > 0;
    ShiftedBounds(a % base, higher, base);
    Shifted(a % base, higher, base)
  }

  /** One step of the definition, as an equation between plain values. */
  lemma DigitReversalStep(a: int, base: nat, digit: int, next: int)
    requires base >= 2 && a > 0 && digit == a % base && next == a / base
    ensures DigitReversal(a, base) == Shifted(digit, DigitReversal(next, base), base)
  {
    assert DigitReversal(a, base) == LowestDigitFirst(a, base);
  }

  lemma QuotientDecreases(a: int, base: nat)
    requires a > 0 && base >= 2
    ensures 0 <= a / base < a
  {
  }

  /** The digits of a in the given base, lowest first, as the loop takes them off; none when a <= 0. */
  function Digits(a: int, base: nat): (ds: seq<int>)
    requires base >= 2
    ensures forall i :: 0 <= i < |ds| ==> 0 <= ds[i] < base
    ensures |ds| == 0 <==> a <= 0
    decreases if a > 0 then a else 0
  {
    if a <= 0 then []
    else
      QuotientDecreases(a, base);
      [a % base] + Digits(a / base, base)
  }

  /** The weight of the n-th place behind the radix point: base^-n. */
  function Weight(n: nat, base: nat): (w: real)
    requires base >= 2
    ensures w > 0.0
  {
    if n == 0 then 1.0 else Weight(n - 1, base) / base as real
  }

  /** The digits ds mirrored behind the radix point: ds[0] / base + ds[1] / base^2 + ... */
  function Mirrored(ds: seq<int>, base: nat): (r: real)
    requires base >= 2
  {
    if |ds| == 0 then 0.0
    else Mirrored(ds[..|ds| - 1], base) + Weight(|ds|, base) * ds[|ds| - 1] as real
  }

  /** Placing one more place in front moves every weight one place right (pure real algebra). */
  lemma ShiftedSum(d: real, sum: real, e: real, w: real, b: real)
    requires b > 0.0
    ensures (d + sum) / b + (w / b) * e == (d + (sum + w * e)) / b
  {
    DivMulCancel(d + sum, b);
    DivMulCancel(w, b);
    DivMulCancel(d + (sum + w * e), b);
    assert (w / b) * e * b == w * e by {
      assert (w / b) * e * b == ((w / b) * b) * e;
    }
  }

  /** A digit placed in front of a mirrored digit string: the first place, then everything one place further right. */
  lemma {:induction false} MirroredCons(d: int, ds: seq<int>, base: nat)
    requires base >= 2
    ensures Mirrored([d] + ds, base) == Shifted(d, Mirrored(ds, base), base)
  {
    if |ds| == 0 {
      assert ([d] + ds)[..0] == [];
      DivMulCancel(d as real, base as real);
    } else {
      var n := |ds|;
      MirroredCons(d, ds[..n - 1], base);
      assert ([d] + ds)[..n] == [d] + ds[..n - 1];
      ShiftedSum(d as real, Mirrored(ds[..n - 1], base), ds[n - 1] as real, Weight(n, base), base as real);
    }
  }

  /** The recursive definition and the digit sequence mirrored place by place agree. */
  lemma {:induction false} DigitReversalIsMirroredDigits(a: int, base: nat)
    requires base >= 2
    ensures DigitReversal(a, base) == Mirrored(Digits(a, base), base)
    decreases if a > 0 then a else 0
  {
    if a > 0 {
      QuotientDecreases(a, base);
      DigitReversalStep(a, base, a % base, a / base);
      DigitReversalIsMirroredDigits(a / base, base);
      MirroredCons(a % base, Digits(a / base, base), base);
    }
  }

  /** Multiplying a weight by the radical 1 / base moves it one place right. */
  lemma WeightStep(digit: real, radical: real, n: nat, base: nat)
    requires base >= 2 && digit == Weight(n, base) && radical == 1.0 / base as real
    ensures digit * radical == Weight(n + 1, base)
  {
    var b := base as real;
    DivMulCancel(digit, b);
    DivMulCancel(1.0, b);
    assert digit * (1.0 / b) * b == digit * ((1.0 / b) * b);
  }

  /** Adding the next digit at its place extends the mirrored prefix by that digit. */
  lemma MirroredStep(inverse: real, digit: real, rest: int, ds: seq<int>, k: nat, base: nat)
    requires base >= 2 && k < |ds| && ds[k] == rest % base
    requires inverse == Mirrored(ds[..k], base) && digit == Weight(k + 1, base)
    ensures inverse + digit * (rest % base) as real == Mirrored(ds[..k + 1], base)
  {
    assert ds[..k + 1][..k] == ds[..k];
  }

  /**
   * The invariant of the loop in RadicalInverse after k iterations: `rest`
   * holds the digits of a not yet taken, `inverse` the first k digits
   * mirrored, and `digit` the weight of the next place.
   */
  ghost predicate LoopInvariant(a: int, base: nat, rest: int, inverse: real, digit: real, k: nat)
    requires base >= 2
  {
    var digits := Digits(a, base);
    k <= |digits| && digits[k..] == Digits(rest, base)
    && inverse == Mirrored(digits[..k], base) && digit == Weight(k + 1, base)
  }

  /** One iteration keeps the invariant: the lowest digit of `rest` moves into `inverse` at its place. */
  lemma LoopInvariantStep(a: int, base: nat, rest: int, inverse: real, digit: real, radical: real, k: nat)
    requires base >= 2 && rest > 0 && radical == 1.0 / base as real
    requires LoopInvariant(a, base, rest, inverse, digit, k)
    ensures LoopInvariant(a, base, rest / base, inverse + digit * (rest % base) as real, digit * radical, k + 1)
  {
    var digits := Digits(a, base);
    assert digits[k] == rest % base && digits[k + 1..] == Digits(rest / base, base);
    MirroredStep(inverse, digit, rest, digits, k, base);
    WeightStep(digit, radical, k + 1, base);
  }

  /** When `rest` has no digits left, `inverse` holds all of them mirrored: the radical inverse. */
  lemma LoopInvariantExit(a: int, base: nat, rest: int, inverse: real, digit: real, k: nat)
    requires base >= 2 && rest <= 0
    requires LoopInvariant(a, base, rest, inverse, digit, k)
    ensures inverse == DigitReversal(a, base)
  {
    var digits := Digits(a, base);
    assert digits[..k] == digits;
    DigitReversalIsMirroredDigits(a, base);
  }

  /**
   * The loop of radical_inverse, with `a /= base` taken as integer division:
   * each iteration adds the lowest remaining digit, weighted by the current
   * power of 1 / base.
   */
  method RadicalInverse(a: int, base: nat) returns (inverse: real)
    requires base >= 2
    ensures inverse == DigitReversal(a, base)
    ensures 0.0 <= inverse < 1.0
  {
    var digit := 1.0 / base as real;
    var radical := digit;
    inverse := 0.0;
    var rest := a;
    ghost var k := 0;
    assert Digits(a, base)[0..] == Digits(a, base);
    while rest > 0
      invariant LoopInvariant(a, base, rest, inverse, digit, k)
      decreases rest
    {
      LoopInvariantStep(a, base, rest, inverse, digit, radical, k);
      QuotientDecreases(rest, base);
      inverse := inverse + digit * (rest % base) as real;
      digit := digit * radical;
      rest := rest / base;
      k := k + 1;
    }
    LoopInvariantExit(a, base, rest, inverse, digit, k);
  }

  /** Base 2 reverses the bits: 1 -> 0.5, 2 -> 0.25, 3 -> 0.75; base 3 takes 1 -> 1/3. */
  lemma DigitReversalExamples()
    ensures DigitReversal(0, 2) == 0.0 && DigitReversal(0, 3) == 0.0
    ensures DigitReversal(1, 2) == 0.5 && DigitReversal(2, 2) == 0.25 && DigitReversal(3, 2) == 0.75
    ensures DigitReversal(6, 2) == 0.375 && DigitReversal(7, 2) == 0.875
    ensures DigitReversal(1, 3) == 1.0 / 3.0 && DigitReversal(3, 3) == 1.0 / 9.0
  {
  }

  /** Two shifted digit strings are equal only if their leading digits and their remainders are. */
  lemma ShiftedInjective(d1: int, h1: real, d2: int, h2: real, base: nat)
    requires base >= 2 && 0 <= d1 < base && 0 <= d2 < base
    requires 0.0 <= h1 < 1.0 && 0.0 <= h2 < 1.0
    requires Shifted(d1, h1, base) == Shifted(d2, h2, base)
    ensures d1 == d2 && h1 == h2
  {
    var q := Shifted(d1, h1, base);
    ShiftedTimesBase(q, d1, h1, base);
    ShiftedTimesBase(q, d2, h2, base);
    // Both digits are the integer part of the same number q * base.
    assert -1.0 < (d1 - d2) as real < 1.0;
  }

  /**
   * Distinct non-negative indices have distinct radical inverses, so the
   * Hammersley coordinates of different samples never coincide.
   */
  lemma {:induction false} DigitReversalInjective(a: int, c: int, base: nat)
    requires base >= 2 && 0 <= a && 0 <= c
    requires DigitReversal(a, base) == DigitReversal(c, base)
    ensures a == c
    decreases a
  {
    if a > 0 && c > 0 {
      var da, na, dc, nc := a % base, a / base, c % base, c / base;
      QuotientDecreases(a, base);
      QuotientDecreases(c, base);
      DigitReversalStep(a, base, da, na);
      DigitReversalStep(c, base, dc, nc);
      ShiftedInjective(da, DigitReversal(na, base), dc, DigitReversal(nc, base), base);
      DigitReversalInjective(na, nc, base);
    }
  }

  /** The largest multiple of y not above x is y * floor(x / y). */
  lemma FloorMultipleBounds(x: real, y: real)
    requires y > 0.0
    ensures (x / y).Floor as real * y <= x < (x / y).Floor as real * y + y
  {
    DivMulCancel(x, y);
    var t, q := x / y, (x / y).Floor as real;
    ScaledLowerBound(x, y, t, q);
    ScaledUpperBound(x, y, t, q + 1.0);
  }

  /** Python's `%` on floats for a positive divisor: x - y * floor(x / y). */
  function FloatMod(x: real, y: real): (r: real)
    requires y > 0.0
    ensures 0.0 <= r < y
  {
    FloorMultipleBounds(x, y);
    x - (x / y).Floor as real * y
  }

  /** The variables of the loop in radical_inverse. */
  datatype LoopState = LoopState(a: real, digit: real, inverse: real)

  /**
   * One iteration of the loop as written for Python 3: `a /= base` is true
   * division, so `a` keeps its fractional part and `a % base` is a float
   * remainder. `a` and `digit` both shrink by the base.
   */
  function FloatStep(s: LoopState, base: real): (t: LoopState)
    requires base >= 2.0
    ensures t.a * base == s.a && t.digit * base == s.digit
    ensures s.digit >= 0.0 ==> t.digit >= 0.0 && s.inverse <= t.inverse <= s.inverse + s.digit * base
  {
    var t := LoopState(s.a / base, s.digit * (1.0 / base), s.inverse + s.digit * FloatMod(s.a, base));
    DivMulCancel(s.a, base);
    DivMulCancel(s.digit, base);
    if s.digit < 0.0 then t
    else
      ScaleMonotone(0.0, s.digit, FloatMod(s.a, base));
      ScaleMonotone(FloatMod(s.a, base), base, s.digit);
      ScaleMonotone(0.0, s.digit, 1.0 / base);
      t
  }

  /**
   * The loop as written, run while `a > 0`. In floating point it ends only
   * when `a` underflows to zero; in exact arithmetic it never does, so this
   * runs at most `steps` iterations. Every term the loop adds is
   * non-negative, so more iterations never lower the sum.
   */
  function FloatLoop(s: LoopState, base: real, steps: nat): (inverse: real)
    requires base >= 2.0
    ensures s.digit >= 0.0 ==> inverse >= s.inverse
    ensures s.a <= 0.0 ==> inverse == s.inverse
    decreases steps
  {
    if steps == 0 || s.a <= 0.0 then s.inverse
    else FloatLoop(FloatStep(s, base), base, steps - 1)
  }

  /** radical_inverse(a, base) as written, cut off after `steps` iterations. */
  function RadicalInverseAsWritten(a: int, base: nat, steps: nat): (r: real)
    requires base >= 2
    ensures r >= 0.0
    ensures a <= 0 ==> r == 0.0
  {
    FloatLoop(LoopState(a as real, 1.0 / base as real, 0.0), base as real, steps)
  }

  /**
   * As written, radical_inverse(7, 2) reaches 0.5 + 0.375 + 0.21875 = 1.09375
   * after three iterations and never comes back down: the result leaves the
   * documented range [0, 1), where the integer-digit model gives 0.875.
   */
  lemma RadicalInverseAsWrittenExceedsOne(steps: nat)
    requires steps >= 3
    ensures RadicalInverseAsWritten(7, 2, steps) >= 1.09375 > 1.0
    ensures DigitReversal(7, 2) == 0.875
  {
    FirstThreeStepsOfSeven();
    var s3 := LoopState(0.875, 0.0625, 1.09375);
    assert RadicalInverseAsWritten(7, 2, steps)
        == FloatLoop(LoopState(7.0, 0.5, 0.0), 2.0, steps)
        == FloatLoop(LoopState(3.5, 0.25, 0.5), 2.0, steps - 1)
        == FloatLoop(LoopState(1.75, 0.125, 0.875), 2.0, steps - 2)
        == FloatLoop(s3, 2.0, steps - 3);
    DigitReversalExamples();
  }

  /** The first three iterations of the as-written loop for a = 7 in base 2. */
  lemma FirstThreeStepsOfSeven()
    ensures FloatStep(LoopState(7.0, 0.5, 0.0), 2.0) == LoopState(3.5, 0.25, 0.5)
    ensures FloatStep(LoopState(3.5, 0.25, 0.5), 2.0) == LoopState(1.75, 0.125, 0.875)
    ensures FloatStep(LoopState(1.75, 0.125, 0.875), 2.0) == LoopState(0.875, 0.0625, 1.09375)
  {
    assert FloatMod(7.0, 2.0) == 1.0 by { assert (7.0 / 2.0).Floor == 3; }
    assert FloatMod(3.5, 2.0) == 1.5 by { assert (3.5 / 2.0).Floor == 1; }
    assert FloatMod(1.75, 2.0) == 1.75 by { assert (1.75 / 2.0).Floor == 0; }
  }
}

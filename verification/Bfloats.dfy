/** The 4-bit quantiser with the roundings of the source: differences and quotients in binary64, stored numbers by
    bf16::from_float(static_cast<float>(x)), src/tensor/types.h:60-76 and src/tensor/matrix.cc:81-108. Weights, steps and scales
    are reals in units of the smallest subnormal binary32 number, 2^-149; all conversions round to nearest, ties to even. */
module Bfloats {
  import opened Wrappers
  import Q = Quantization
  import D = Doubles
  import R = Rounding

  const SIGN16 := 0x8000
  const INFINITY16 := 0x7F80

  /** Neither an infinity nor a NaN. */
  predicate IsFinite(h: nat) {
    h < R.HALF && h % SIGN16 < INFINITY16
  }

  function Size(m: nat): real {
    R.Magnitude(m) as real
  }

  /** The value of a bfloat16 pattern. */
  function Value(h: nat): real {
    if h < SIGN16 then Size(h * R.HALF) else -Size((h - SIGN16) * R.HALF)
  }

  // ---------------------------------------------------------------- conversion to binary32

  /** Neighbouring patterns are one unit apart, and the unit is small against a normal magnitude. */
  lemma NextPattern(m: nat)
    ensures R.Magnitude(m + 1) == R.Magnitude(m) + R.Unit(m)
    ensures R.FRACTION <= m ==> R.FRACTION * R.Unit(m) <= R.Magnitude(m)
    ensures 0 < R.Unit(m)
  {
    var e, f := m / R.FRACTION, m % R.FRACTION;
    R.UnitPositive(m);
    if f + 1 < R.FRACTION {
      assert (m + 1) / R.FRACTION == e && (m + 1) % R.FRACTION == f + 1;
      R.Distributes(R.FRACTION + f, 1, R.Unit(m));
    } else {
      assert (m + 1) / R.FRACTION == e + 1 && (m + 1) % R.FRACTION == 0;
      assert e > 0 ==> R.Pow2(e) == 2 * R.Pow2(e - 1);
      R.Distributes(R.FRACTION + f, 1, R.Unit(m));
    }
    R.Distributes(R.FRACTION, f, R.Unit(m));
  }

  lemma {:induction false} PatternsGrow(a: nat, b: nat)
    requires a < b
    ensures R.Magnitude(a) < R.Magnitude(b)
    decreases b
  {
    hide R.Magnitude, R.Unit;
    NextPattern(b - 1);
    if a < b - 1 {
      PatternsGrow(a, b - 1);
    }
  }

  lemma {:induction false} PatternAtMost(m: nat)
    ensures m <= R.Magnitude(m)
  {
    if m > 0 {
      PatternAtMost(m - 1);
      hide R.Magnitude, R.Unit;
      NextPattern(m - 1);
    }
  }

  /** The largest pattern from m downwards that does not exceed x. */
  function Below(x: real, m: nat): (r: nat)
    requires 0.0 <= x
    ensures Size(r) <= x && r <= m
  {
    if m == 0 || Size(m) <= x then m else Below(x, m - 1)
  }

  lemma {:induction false} BelowIs(x: real, m: nat)
    requires 0.0 <= x < Size(m + 1)
    ensures x < Size(Below(x, m) + 1)
  {
    hide R.Magnitude;
    if m > 0 && Size(m) > x {
      BelowIs(x, m - 1);
    }
  }

  /** The nearest binary32 pattern of a magnitude, the even one of two; infinity from where the exponent ends. */
  function Single(x: real): (r: nat)
    requires 0.0 <= x
    ensures r <= R.INFINITY
  {
    var m := Below(x, x.Floor);
    var above := Size(m + 1) - x;
    var n := if x - Size(m) < above || (x - Size(m) == above && m % 2 == 0) then m else m + 1;
    if n < R.INFINITY then n else R.INFINITY
  }

  lemma Bracket(x: real)
    requires 0.0 <= x
    ensures var m := Below(x, x.Floor); Size(m) <= x < Size(m + 1)
  {
    hide R.Magnitude;
    PatternAtMost(x.Floor + 1);
    BelowIs(x, x.Floor);
  }

  /** A binary32 number is its own pattern. */
  lemma SingleFixes(m: nat)
    requires m < R.INFINITY
    ensures Single(Size(m)) == m
  {
    hide R.Magnitude, Below;
    Bracket(Size(m));
    var n := Below(Size(m), Size(m).Floor);
    if n < m {
      if n + 1 < m {
        PatternsGrow(n + 1, m);
      }
    } else if m < n {
      PatternsGrow(m, n);
    }
    assert n == m;
  }

  /** Rounding to binary32 does not pass a binary32 number. */
  lemma SingleBelow(x: real, m: nat)
    requires 0.0 <= x <= Size(m) && m < R.INFINITY
    ensures Single(x) <= m
  {
    hide R.Magnitude, Below;
    Bracket(x);
    var n := Below(x, x.Floor);
    if m < n {
      PatternsGrow(m, n);
    } else if m == n {
      PatternsGrow(m, m + 1);
    }
  }

  lemma SingleNear(x: real)
    requires 0.0 <= x && Size(R.FRACTION) <= x && Single(x) < R.INFINITY
    ensures R.FRACTION <= Single(x)
    ensures Q.Distance(Size(Single(x)), x) * (R.FRACTION as real) <= x
  {
    hide R.Magnitude, Below, R.Unit;
    Bracket(x);
    var m := Below(x, x.Floor);
    if m < R.FRACTION {
      if m + 1 < R.FRACTION {
        PatternsGrow(m + 1, R.FRACTION);
      }
    }
    NextPattern(m);
    var d := R.FRACTION as real;
    assert Q.Distance(Size(Single(x)), x) <= R.Unit(m) as real;
    assert d * R.Unit(m) as real <= Size(m);
    Q.TimesLess(Q.Distance(Size(Single(x)), x), R.Unit(m) as real, d);
  }

  // ---------------------------------------------------------------- rounding to bfloat16

  /** bf16::from_float(static_cast<float>(x)).to_float(). */
  function Bf16(x: real): real {
    if x < 0.0 then Value(R.FromFloat(R.SIGN + Single(-x))) else Value(R.FromFloat(Single(x)))
  }

  lemma SameSign(m: nat)
    requires m <= R.INFINITY
    ensures R.FromFloat(m) == R.Nearest(m) && R.Nearest(m) <= INFINITY16
    ensures R.FromFloat(R.SIGN + m) == SIGN16 + R.Nearest(m)
  {
    R.FromFloatIsNearest(m);
    R.FromFloatIsNearest(R.SIGN + m);
  }

  lemma NearestFixes(h: nat)
    ensures R.Nearest(h * R.HALF) == h
  {
  }

  lemma NearestBelow(m: nat, h: nat)
    requires m <= h * R.HALF
    ensures R.Nearest(m) <= h
  {
  }

  /** Finite bfloat16 values are fixed points. */
  lemma Bf16Fixes(h: nat)
    requires IsFinite(h)
    ensures Bf16(Value(h)) == Value(h)
  {
    hide R.Magnitude, R.Nearest, R.FromFloat, Single;
    var m := h % SIGN16;
    PatternAtMost(m * R.HALF);
    SingleFixes(m * R.HALF);
    SameSign(m * R.HALF);
    NearestFixes(m);
    ZeroSize();
  }

  lemma ZeroSize()
    ensures Size(0) == 0.0
  {
  }

  /** The largest finite magnitude. */
  const LARGEST := INFINITY16 - 1

  lemma SteadyStep(x: real)
    requires 0.0 <= x <= Size(LARGEST * R.HALF)
    ensures Single(x) <= LARGEST * R.HALF && R.Nearest(Single(x)) <= LARGEST
    ensures Bf16(x) == Size(R.Nearest(Single(x)) * R.HALF) >= 0.0
  {
    hide R.Magnitude, R.Nearest, R.FromFloat, Single;
    SingleBelow(x, LARGEST * R.HALF);
    NearestBelow(Single(x), LARGEST);
    SameSign(Single(x));
  }

  /** From the least normal number on, the rounded step is at most one part in 100 below the exact one. */
  lemma NormalStep(x: real)
    requires Size(R.FRACTION) <= x <= Size(LARGEST * R.HALF)
    ensures 100.0 * x <= 101.0 * Bf16(x)
  {
    hide R.Magnitude, R.Nearest, R.FromFloat, Single;
    PatternAtMost(R.FRACTION);
    SteadyStep(x);
    SingleNear(x);
    var m := Single(x);
    R.RelativeError(m);
    RealError(R.Magnitude(R.Nearest(m) * R.HALF), R.Magnitude(m), x, Bf16(x));
  }

  lemma RealError(rounded: nat, m: nat, x: real, y: real)
    requires 256 * R.Distance(rounded, m) <= m && y == rounded as real
    requires Q.Distance(m as real, x) * (R.FRACTION as real) <= x
    ensures 100.0 * x <= 101.0 * y
  {
    var d := R.Distance(rounded, m);
    assert y >= m as real - d as real;
    assert 256.0 * d as real <= m as real;
  }

  // ---------------------------------------------------------------- groups of weights

  function Values(patterns: seq<nat>): (r: seq<real>)
    ensures |r| == |patterns| && forall i :: 0 <= i < |r| ==> r[i] == Value(patterns[i])
  {
    if patterns == [] then [] else [Value(patterns[0])] + Values(patterns[1..])
  }

  lemma FiniteSize(h: nat)
    requires IsFinite(h)
    ensures -Size(LARGEST * R.HALF) <= Value(h) <= Size(LARGEST * R.HALF)
  {
    hide R.Magnitude;
    var m := h % SIGN16;
    if m < LARGEST {
      PatternsGrow(m * R.HALF, LARGEST * R.HALF);
    }
  }

  ghost predicate FiniteGroup(patterns: seq<nat>) {
    |patterns| == Q.GROUP && forall i :: 0 <= i < |patterns| ==> IsFinite(patterns[i])
  }

  // ---------------------------------------------------------------- the arithmetic of the source

  /** The smallest positive double, 2^-1074, in units of 2^-149 and of 1. */
  const WIDE := -925
  const RATIO := -1074

  function Source(): Q.Arithmetic {
    Q.Arithmetic(Bf16, x => D.Double(x, WIDE), x => D.Double(x, RATIO))
  }

  /** Digits and place of a bfloat16 magnitude. */
  function Significand(h: nat): nat {
    if h < 128 then h else 128 + h % 128
  }

  function Place(h: nat): int {
    if h < 128 then 16 else 15 + h / 128
  }

  lemma SizeForm(h: nat)
    ensures Significand(h) < 256 && 16 <= Place(h)
    ensures Size(h * R.HALF) == D.Times(Significand(h) as real, D.Two(Place(h)))
  {
    SizeDigits(h);
    hide R.Pow2, Significand, Place, D.Times, R.Magnitude;
    D.WholeSteps(Significand(h), Place(h), 0);
    D.TimesOrder(1.0, 1.0, D.Two(0));
    UnitPower(D.Scaled(Significand(h), Place(h)));
  }

  lemma UnitPower(n: int)
    ensures D.Times(n as real, D.Two(0)) == n as real
  {
    assert D.Two(0) == 1.0;
  }

  lemma SizeDigits(h: nat)
    ensures Significand(h) < 256 && 16 <= Place(h)
    ensures R.Magnitude(h * R.HALF) == D.Scaled(Significand(h), Place(h))
  {
    SixteenPlaces();
    var m := h * R.HALF;
    assert m / R.FRACTION == h / 128 && m % R.FRACTION == h % 128 * R.HALF;
    if h >= 128 {
      var e := h / 128;
      D.PowersAdd(16, e - 1);
      Digits(128 + h % 128, R.Pow2(e - 1));
    }
  }

  lemma SixteenPlaces()
    ensures R.Pow2(16) == R.HALF
  {
    assert R.Pow2(8) == 256;
    D.PowersAdd(8, 8);
  }

  lemma Digits(m: nat, p: nat)
    ensures m * R.HALF * p == m * (R.HALF * p)
  {
  }

  /** Against the midpoints of a bfloat16 scale the arithmetic is sharp. */
  lemma SourceSharp(d: real, h: nat)
    requires 0.0 <= d && 0.0 < Size(h * R.HALF)
    ensures Q.Sharp(d, Size(h * R.HALF), Source())
  {
    hide D.Two, D.Rounded, R.Magnitude;
    var s := Size(h * R.HALF);
    D.DigitsKept(d, WIDE);
    forall c: nat | c < 15
      ensures Q.Midpoint(c, s) <= d ==> Q.Midpoint(c, s) <= D.Rounded(d, WIDE)
      ensures d < Q.Midpoint(c, s) ==> D.Rounded(d, WIDE) <= Q.Midpoint(c, s)
      ensures 0.0 <= D.Rounded(d, WIDE) / s
      ensures Q.Midpoint(c, s) <= D.Rounded(d, WIDE) <==> c as real + 0.5 <= D.Rounded(D.Rounded(d, WIDE) / s, RATIO)
    {
      OneMidpoint(d, h, c);
    }
  }

  lemma OneMidpoint(d: real, h: nat, c: nat)
    requires 0.0 <= d && 0.0 < Size(h * R.HALF) && c < 15
    ensures var s := Size(h * R.HALF);
            && (Q.Midpoint(c, s) <= d ==> Q.Midpoint(c, s) <= D.Rounded(d, WIDE))
            && (d < Q.Midpoint(c, s) ==> D.Rounded(d, WIDE) <= Q.Midpoint(c, s))
            && 0.0 <= D.Rounded(d, WIDE) / s
            && (Q.Midpoint(c, s) <= D.Rounded(d, WIDE) <==> c as real + 0.5 <= D.Rounded(D.Rounded(d, WIDE) / s, RATIO))
  {
    hide D.Two, D.Rounded, R.Magnitude, Significand, Place;
    var s, m, k := Size(h * R.HALF), Significand(h), Place(h);
    SizeForm(h);
    assert Q.Midpoint(c, s) == D.Times(c as real + 0.5, s);
    assert D.Over(D.Rounded(d, WIDE), s) == D.Rounded(d, WIDE) / s;
    assert m == 0 ==> D.Times(m as real, D.Two(k)) == 0.0;
    hide D.Times, D.Over, Q.Midpoint, Size;
    D.MidpointFixed(c, m, k, WIDE);
    if Q.Midpoint(c, s) <= d {
      D.Monotone(Q.Midpoint(c, s), d, WIDE);
    } else {
      D.Monotone(d, Q.Midpoint(c, s), WIDE);
    }
    if Q.Midpoint(c, s) <= D.Rounded(d, WIDE) {
      D.Reaches(D.Rounded(d, WIDE), c, s, RATIO);
    } else {
      D.StaysBelow(d, c, m, k, WIDE, RATIO);
    }
  }

  // ---------------------------------------------------------------- the stored scale

  /** The minimum of finite weights survives rounding, and their range is at most twice the largest number. */
  lemma GroupFacts(patterns: seq<nat>)
    requires FiniteGroup(patterns)
    ensures 0.0 <= Q.Most(Values(patterns)) - Q.Least(Values(patterns)) <= 2.0 * Size(LARGEST * R.HALF)
    ensures Bf16(Q.Least(Values(patterns))) == Q.Least(Values(patterns))
  {
    hide Value, Q.Least, Q.Most, Size, Bf16;
    var values := Values(patterns);
    var low :| 0 <= low < |values| && values[low] == Q.Least(values);
    var high :| 0 <= high < |values| && values[high] == Q.Most(values);
    FiniteSize(patterns[low]);
    FiniteSize(patterns[high]);
    Bf16Fixes(patterns[low]);
  }

  /** The step as it is computed from the range. */
  function StepOf(range: real): real {
    D.Double(D.Double(range, WIDE) / 15.0, WIDE)
  }

  lemma StepUpTo(range: real, m: nat, k: int)
    requires m < 0x1000_0000 && WIDE <= k && 0.0 <= range <= D.Times((15 * m) as real, D.Two(k))
    ensures 0.0 <= StepOf(range) <= D.Times(m as real, D.Two(k))
  {
    hide D.Two, D.Rounded, D.Times;
    D.DigitBound();
    hide R.Pow2;
    D.Fixes(15 * m, k, WIDE);
    D.Fixes(m, k, WIDE);
    D.Monotone(range, D.Times((15 * m) as real, D.Two(k)), WIDE);
    D.DigitsKept(range, WIDE);
    Fifteenth(m, D.Two(k));
    var q := D.Rounded(range, WIDE) / 15.0;
    D.Monotone(q, D.Times(m as real, D.Two(k)), WIDE);
    D.DigitsKept(q, WIDE);
  }

  lemma Fifteenth(m: nat, t: real)
    ensures D.Times((15 * m) as real, t) / 15.0 == D.Times(m as real, t)
  {
    assert (15 * m) as real == 15.0 * m as real;
  }

  lemma StepFrom(range: real, m: nat, k: int)
    requires m < 0x1000_0000 && WIDE <= k && 0.0 <= D.Times((15 * m) as real, D.Two(k)) <= range
    ensures D.Times(m as real, D.Two(k)) <= StepOf(range)
  {
    hide D.Two, D.Rounded, D.Times;
    D.DigitBound();
    hide R.Pow2;
    D.Fixes(15 * m, k, WIDE);
    D.Fixes(m, k, WIDE);
    D.Monotone(D.Times((15 * m) as real, D.Two(k)), range, WIDE);
    Fifteenth(m, D.Two(k));
    D.Monotone(D.Times(m as real, D.Two(k)), D.Rounded(range, WIDE) / 15.0, WIDE);
  }

  lemma LargestForm()
    ensures Size(LARGEST * R.HALF) == D.Times(255.0, D.Two(269))
  {
    hide D.Two, R.Magnitude, D.Times, Size;
    SizeForm(LARGEST);
  }

  lemma FractionForm()
    ensures Size(R.FRACTION) == D.Two(23) == D.Times(1.0, D.Two(23))
  {
    hide D.Two, R.Magnitude, D.Times, Size;
    SizeForm(128);
    D.TwoSteps(16, 7);
    D.TimesOrder(1.0, 1.0, D.Two(23));
    SevenPlaces();
  }

  lemma SevenPlaces()
    ensures R.Pow2(7) == 128
  {
  }

  /** The computed step of a finite range is a finite float. */
  lemma StepInRange(range: real)
    requires 0.0 <= range <= 2.0 * Size(LARGEST * R.HALF)
    ensures 0.0 <= StepOf(range) <= Size(LARGEST * R.HALF)
  {
    hide D.Two, R.Magnitude, D.Times, Size, StepOf;
    LargestForm();
    D.Doubled(255.0, D.Two(269));
    D.TimesOrder(510.0, 3825.0, D.Two(269));
    StepUpTo(range, 255, 269);
  }

  /** A normal step is stored with at least 30 parts in 31 of its value. */
  lemma NormalRange(range: real)
    requires Size(R.FRACTION) <= range / 15.0 && range <= 2.0 * Size(LARGEST * R.HALF)
    ensures 30.0 * (range / 15.0) <= 31.0 * Bf16(StepOf(range))
  {
    hide D.Two, R.Magnitude, D.Times, Size, StepOf, Bf16;
    FractionForm();
    D.TimesOrder(1.0, 15.0, D.Two(23));
    TimesIs(15.0, D.Two(23));
    StepFrom(range, 1, 23);
    StepInRange(range);
    StepClose(range);
    NormalStep(StepOf(range));
  }

  lemma TimesIs(a: real, t: real)
    ensures D.Times(a, t) == a * t
  {
  }

  lemma StepClose(range: real)
    requires 15.0 * D.Two(23) <= range && D.Two(23) <= StepOf(range)
    ensures 300.0 * (range / 15.0) <= 301.0 * StepOf(range)
  {
    hide D.Two, D.Rounded;
    D.TwoGrows(WIDE + 52, 23);
    D.Close(range, WIDE);
    var q := D.Rounded(range, WIDE) / 15.0;
    assert D.Two(22) * 1.0 <= q by {
      D.TwoNext(22);
    }
    D.TwoGrows(WIDE + 52, 22);
    D.Close(q, WIDE);
  }

  // ---------------------------------------------------------------- groups of weights

  lemma GroupArithmetic(patterns: seq<nat>)
    requires FiniteGroup(patterns)
    ensures var scale := Bf16(Q.Step(Values(patterns), Source())); 0.0 <= scale && Q.AllSharp(Values(patterns), scale, Source())
  {
    hide Values, Bf16, Size, Q.Least, Q.Most, Q.Sharp, R.Nearest, D.Double;
    GroupFacts(patterns);
    var values := Values(patterns);
    var range := Q.Most(values) - Q.Least(values);
    StepInRange(range);
    SteadyStep(StepOf(range));
    var h := R.Nearest(Single(StepOf(range)));
    if 0.0 < Size(h * R.HALF) {
      forall i | 0 <= i < |values| ensures Q.Sharp(values[i] - Q.Least(values), Size(h * R.HALF), Source()) {
        SourceSharp(values[i] - Q.Least(values), h);
      }
    }
  }

  /** A group of finite bfloat16 weights decodes to within half its stored scale exactly when the stored scale keeps at least 30
      parts in 31 of the exact step and no difference from the minimum is rounded up onto an odd multiple of half the scale; a
      step from the least normal number on always keeps that much. */
  lemma GroupDecodes(g: Q.Group, patterns: seq<nat>)
    requires FiniteGroup(patterns) && Q.Encodes(g, Values(patterns), Source())
    ensures var values := Values(patterns);
            var scale := Bf16(Q.Step(values, Source()));
            && (Q.DecodesNearly(g, values) <==> 30.0 * Q.Spacing(values) <= 31.0 * scale && Q.NoLift(values, scale, Source()))
            && (Size(R.FRACTION) <= Q.Spacing(values) ==> 30.0 * Q.Spacing(values) <= 31.0 * scale)
  {
    hide Values, Bf16, Size, Q.DecodesNearly, Q.Least, Q.Most, Q.AllSharp, Q.NoLift, Q.Encodes, D.Double, FiniteGroup;
    GroupFacts(patterns);
    GroupArithmetic(patterns);
    FiniteEach(patterns);
    Q.GroupBound(g, Values(patterns), Source());
    if Size(R.FRACTION) <= Q.Spacing(Values(patterns)) {
      NormalRange(Q.Most(Values(patterns)) - Q.Least(Values(patterns)));
    }
  }

  lemma FiniteEach(part: seq<nat>)
    requires FiniteGroup(part)
    ensures |part| == Q.GROUP && forall i :: 0 <= i < |part| ==> IsFinite(part[i])
  {
  }

  // ---------------------------------------------------------------- weights of similar size

  /** Apart from zeros the exponents differ by at most 44. */
  predicate Similar(patterns: seq<nat>, e: int) {
    WIDE <= e && forall i :: 0 <= i < |patterns| ==>
                   var m := patterns[i] % SIGN16; m == 0 || e <= Place(m) <= e + 44
  }

  /** 255 * 2^44. */
  const SPAN := 0xF_F000_0000_0000

  /** The weight in units of 2^e. */
  function Level(h: nat, e: int): int
    requires e <= Place(h % SIGN16) || h % SIGN16 == 0
  {
    var m := h % SIGN16;
    var n := if m == 0 then 0 else D.Scaled(Significand(m), Place(m) - e);
    if h < SIGN16 then n else -n
  }

  lemma LevelIs(h: nat, e: int)
    requires IsFinite(h) && (h % SIGN16 == 0 || e <= Place(h % SIGN16) <= e + 44)
    ensures Value(h) == D.Times(Level(h, e) as real, D.Two(e)) && -SPAN <= Level(h, e) <= SPAN
  {
    hide D.Two, R.Magnitude, Significand, Place, D.Scaled, D.Times;
    var m := h % SIGN16;
    D.TimesOrder(0.0, 0.0, D.Two(e));
    if m == 0 {
      ZeroSize();
    } else {
      SizeForm(m);
      D.WholeSteps(Significand(m), Place(m), e);
      ScaledWithin(Significand(m), Place(m) - e);
      Opposite(D.Scaled(Significand(m), Place(m) - e) as real, D.Two(e));
    }
  }

  lemma Opposite(a: real, t: real)
    ensures D.Times(-a, t) == -D.Times(a, t)
  {
  }

  lemma ScaledWithin(m: nat, n: nat)
    requires m < 256 && n <= 44
    ensures 0 <= D.Scaled(m, n) <= SPAN
  {
    D.PowersAdd(44 - n, n);
    Places44();
    hide R.Pow2;
    assert R.Pow2(n) <= R.Pow2(44) by {
      AtMostProduct(R.Pow2(44 - n), R.Pow2(n));
    }
    R.MulAtMost(m, 255, R.Pow2(n));
    R.MulAtMost(R.Pow2(n), R.Pow2(44), 255);
  }

  lemma AtMostProduct(a: nat, b: nat)
    requires 0 < a
    ensures b <= a * b
  {
  }

  lemma Places44()
    ensures R.Pow2(44) == 0x1000_0000_0000
  {
    assert R.Pow2(11) == 0x800 by {
      assert R.Pow2(5) == 32;
      D.PowersAdd(5, 6);
    }
    D.PowersAdd(11, 11);
    D.PowersAdd(22, 22);
  }

  /** Differences of weights of similar size are exact, so none is lifted. */
  lemma SimilarWeights(patterns: seq<nat>, e: int, scale: real)
    requires FiniteGroup(patterns) && Similar(patterns, e)
    ensures Q.NoLift(Values(patterns), scale, Source())
  {
    hide Values, Q.Least, Value, IsFinite, D.Rounded, Level, D.Two;
    FiniteEach(patterns);
    var values := Values(patterns);
    var low :| 0 <= low < |values| && values[low] == Q.Least(values);
    LevelIs(patterns[low], e);
    forall i | 0 <= i < |values| ensures !Q.Lifted(values[i] - Q.Least(values), scale, Source()) {
      LevelIs(patterns[i], e);
      assert Q.Least(values) <= values[i];
      ExactDifference(Level(patterns[i], e), Level(patterns[low], e), e, values[i], values[low]);
    }
  }

  lemma ExactDifference(a: int, b: int, e: int, x: real, y: real)
    requires -SPAN <= a <= SPAN && -SPAN <= b <= SPAN && WIDE <= e && y <= x
    requires x == D.Times(a as real, D.Two(e)) && y == D.Times(b as real, D.Two(e))
    ensures D.Double(x - y, WIDE) == x - y
  {
    hide D.Two, D.Rounded, D.Times;
    D.TimesOrder(b as real, a as real, D.Two(e));
    D.TimesSum(a as real, b as real, D.Two(e));
    D.DigitBound();
    hide R.Pow2;
    D.Fixes(a - b, e, WIDE);
    assert (a - b) as real == a as real - b as real;
  }

  /** Hence such a group, with a normal step, decodes to within half its stored scale. */
  lemma SimilarDecodes(g: Q.Group, patterns: seq<nat>, e: int)
    requires FiniteGroup(patterns) && Q.Encodes(g, Values(patterns), Source()) && Similar(patterns, e)
    ensures Q.DecodesNearly(g, Values(patterns)) <==>
            30.0 * Q.Spacing(Values(patterns)) <= 31.0 * Bf16(Q.Step(Values(patterns), Source()))
    ensures Size(R.FRACTION) <= Q.Spacing(Values(patterns)) ==> Q.DecodesNearly(g, Values(patterns))
  {
    hide Values, Bf16, Size, Q.DecodesNearly, Q.Step, Q.Spacing, Q.NoLift, Q.Encodes, FiniteGroup, Similar;
    FiniteEach(patterns);
    GroupDecodes(g, patterns);
    SimilarWeights(patterns, e, Bf16(Q.Step(Values(patterns), Source())));
  }

  // ---------------------------------------------------------------- groups that fail

  /** 63 zeros and one weight. */
  function OneAmongZeros(h: nat): seq<nat> {
    seq(Q.GROUP, i requires 0 <= i < Q.GROUP => if i == Q.GROUP - 1 then h else 0)
  }

  lemma OneRange(h: nat)
    requires h < INFINITY16
    ensures FiniteGroup(OneAmongZeros(h))
    ensures Q.Spacing(Values(OneAmongZeros(h))) == Size(h * R.HALF) / 15.0
    ensures Q.Step(Values(OneAmongZeros(h)), Source()) == StepOf(Size(h * R.HALF))
  {
    hide R.Magnitude, Q.Least, Q.Most, D.Double;
    ZeroSize();
    var values := Values(OneAmongZeros(h));
    assert values[0] == 0.0 && values[Q.GROUP - 1] == Size(h * R.HALF);
    assert forall i :: 0 <= i < Q.GROUP ==> values[i] == 0.0 || values[i] == Size(h * R.HALF);
    assert Q.Least(values) == 0.0;
    assert Q.Most(values) == Size(h * R.HALF);
  }

  lemma SubnormalSize(m: nat)
    requires m < R.FRACTION
    ensures Size(m) == m as real && Size(m + 1) == (m + 1) as real
  {
    assert R.Pow2(0) == 1;
  }

  lemma SubnormalSingle(x: real, m: nat)
    requires m < R.FRACTION && m as real <= x && x - m as real < 0.5
    ensures Single(x) == m
  {
    assert x.Floor == m;
    SubnormalSize(m);
    hide R.Magnitude;
  }

  lemma SubnormalStep(x: real, m: nat, h: nat)
    requires m < R.FRACTION && m as real <= x && x - m as real < 0.5
    requires R.FromFloat(m) == h < INFINITY16
    ensures Bf16(x) == Size(h * R.HALF)
  {
    SubnormalSingle(x, m);
    hide R.Magnitude, Single, R.FromFloat;
  }

  lemma WholeTimes(n: int)
    ensures D.Times(n as real, D.Two(0)) == n as real && D.Times(n as real, D.Two(-6)) == n as real / 64.0
  {
    assert D.Two(0) == 1.0;
    assert D.Two(-6) == 1.0 / 64.0;
  }

  /** The computed fifteenth of a small integer, between an integer and 31/64 more. */
  lemma SmallStep(range: nat, m: nat)
    requires range < 0x100_0000 && m < 0x100_0000 && m as real <= range as real / 15.0 <= m as real + 31.0 / 64.0
    ensures m as real <= StepOf(range as real) <= m as real + 31.0 / 64.0
  {
    hide D.Two, D.Rounded, D.Times;
    D.DigitBound();
    hide R.Pow2;
    WholeTimes(range);
    WholeTimes(m);
    WholeTimes(64 * m + 31);
    D.Fixes(range, 0, WIDE);
    D.Fixes(m, 0, WIDE);
    D.Fixes(64 * m + 31, -6, WIDE);
    D.Monotone(m as real, range as real / 15.0, WIDE);
    D.Monotone(range as real / 15.0, m as real + 31.0 / 64.0, WIDE);
  }

  lemma StoredPatterns()
    ensures R.FromFloat(4369) == 0 && R.FromFloat(96119) == 1
  {
  }

  /** A step of 65536/15 units is stored as zero. */
  lemma StepToZero()
    ensures Bf16(StepOf(Size(1 * R.HALF))) == 0.0 && Size(1 * R.HALF) == 65536.0
  {
    SubnormalSize(1 * R.HALF);
    ZeroSize();
    StoredPatterns();
    hide R.Magnitude, StepOf, R.FromFloat, Bf16, Size;
    SmallStep(65536, 4369);
    SubnormalStep(StepOf(65536.0), 4369, 0);
  }

  /** A step of 22/15 of the smallest bfloat16 number is stored as that number itself. */
  lemma StepToOne()
    ensures Bf16(StepOf(Size(22 * R.HALF))) == 65536.0 && Size(22 * R.HALF) == 1441792.0
  {
    SubnormalSize(22 * R.HALF);
    SubnormalSize(1 * R.HALF);
    StoredPatterns();
    hide R.Magnitude, StepOf, R.FromFloat, Bf16, Size;
    SmallStep(1441792, 96119);
    SubnormalStep(StepOf(1441792.0), 96119, 1);
  }

  lemma EncodedScale(g: Q.Group, patterns: seq<nat>)
    requires Q.Encodes(g, Values(patterns), Source())
    ensures |patterns| == Q.GROUP && g.scale == Bf16(Q.Step(Values(patterns), Source()))
  {
  }

  /** The smallest weight among zeros: its scale is zero, so the weight decodes to zero. */
  lemma ZeroScaleFails(g: Q.Group)
    requires Q.Encodes(g, Values(OneAmongZeros(1)), Source())
    ensures g.scale == 0.0 && !Q.DecodesNearly(g, Values(OneAmongZeros(1)))
  {
    hide R.Magnitude, Q.Encodes, Bf16, Q.DecodesNearly, Values, Q.Spacing, OneAmongZeros, StepOf, Q.Step, Q.NoLift;
    OneRange(1);
    StepToZero();
    EncodedScale(g, OneAmongZeros(1));
    GroupDecodes(g, OneAmongZeros(1));
  }

  /** 22 times that weight: the scale is positive and too small. */
  lemma SmallScaleFails(g: Q.Group)
    requires Q.Encodes(g, Values(OneAmongZeros(22)), Source())
    ensures 0.0 < g.scale && !Q.DecodesNearly(g, Values(OneAmongZeros(22)))
  {
    hide R.Magnitude, Q.Encodes, Bf16, Q.DecodesNearly, Values, Q.Spacing, OneAmongZeros, StepOf, Q.Step, Q.NoLift;
    OneRange(22);
    StepToOne();
    EncodedScale(g, OneAmongZeros(22));
    GroupDecodes(g, OneAmongZeros(22));
  }

  // ---------------------------------------------------------------- a difference that is rounded onto a midpoint

  /** -1, 29, and weights of -2^-100 in between. */
  function SmallAmongLarge(): seq<nat> {
    seq(Q.GROUP, i requires 0 <= i < Q.GROUP => if i == 0 then 0xBF80 else if i == Q.GROUP - 1 then 0x41E8 else 0x8D80)
  }

  lemma Forms()
    ensures Size(0x3F80 * R.HALF) == D.Two(149) && Size(0x41E8 * R.HALF) == D.Times(29.0, D.Two(149))
    ensures Size(0x0D80 * R.HALF) == D.Two(49) && Size(0x4000 * R.HALF) == D.Two(150)
  {
    hide R.Magnitude, Size, D.Two, D.Times;
    SizeForm(0x3F80);
    SizeForm(0x41E8);
    SizeForm(0x0D80);
    SizeForm(0x4000);
    SevenPlaces();
    D.TwoSteps(142, 7);
    D.TwoSteps(42, 7);
    D.TwoSteps(143, 7);
    ThreePlaces();
  }

  lemma ThreePlaces()
    ensures D.Times(232.0, D.Two(146)) == D.Times(29.0, D.Two(149))
  {
    D.TwoNext(146);
    D.TwoNext(147);
    D.TwoNext(148);
    hide D.Two;
  }

  lemma LargeRange()
    ensures FiniteGroup(SmallAmongLarge())
    ensures var values := Values(SmallAmongLarge());
            && Q.Least(values) == -D.Two(149) && Q.Most(values) == D.Times(29.0, D.Two(149))
            && values[1] == -D.Two(49)
  {
    hide R.Magnitude, Q.Least, Q.Most, D.Two, D.Times, Size;
    Forms();
    SizesApart();
    var values := Values(SmallAmongLarge());
    assert values[0] == -D.Two(149) && values[Q.GROUP - 1] == D.Times(29.0, D.Two(149)) && values[1] == -D.Two(49);
    assert forall i :: 0 <= i < Q.GROUP ==>
             values[i] == -D.Two(149) || values[i] == D.Times(29.0, D.Two(149)) || values[i] == -D.Two(49);
  }

  lemma SizesApart()
    ensures D.Two(49) < D.Two(149) < D.Times(29.0, D.Two(149))
  {
    D.TwoGrows(49, 149);
    hide D.Two;
  }

  /** The step is 2 and stored exactly. */
  lemma LargeStep()
    ensures Bf16(Q.Step(Values(SmallAmongLarge()), Source())) == D.Two(150)
    ensures Q.Spacing(Values(SmallAmongLarge())) == D.Two(150)
  {
    hide R.Magnitude, Q.Least, Q.Most, D.Two, Values, SmallAmongLarge, Size, R.FromFloat, Bf16, StepOf;
    LargeRange();
    Forms();
    TwiceFifteen();
    hide D.Times;
    StepFrom(D.Times(30.0, D.Two(149)), 2, 149);
    StepUpTo(D.Times(30.0, D.Two(149)), 2, 149);
    assert Q.Step(Values(SmallAmongLarge()), Source()) == StepOf(D.Times(30.0, D.Two(149))) by {
      StepUnfolds(Values(SmallAmongLarge()));
    }
    Bf16Fixes(0x4000);
  }

  lemma StepUnfolds(values: seq<real>)
    requires values != []
    ensures Q.Step(values, Source()) == StepOf(Q.Most(values) - Q.Least(values))
  {
    hide D.Double, Q.Most, Q.Least;
  }

  lemma TwiceFifteen()
    ensures D.Times(29.0, D.Two(149)) + D.Two(149) == D.Times(30.0, D.Two(149)) == 15.0 * D.Two(150)
    ensures D.Times(2.0, D.Two(149)) == D.Two(150) && 0.0 <= D.Times(30.0, D.Two(149))
  {
    D.TwoNext(149);
    hide D.Two;
  }

  /** 1 - 2^-100 is 1 in binary64. */
  lemma DifferenceLost()
    ensures D.Two(49) < D.Two(149) && D.Double(D.Two(149) - D.Two(49), WIDE) == D.Two(149)
  {
    hide D.Two, D.Times, D.Over, D.Even;
    var x := D.Two(149) - D.Two(49);
    D.TwoGrows(49, 149);
    D.TwoNext(148);
    D.TwoGrows(49, 148);
    D.ExponentAtMost(x, 96, WIDE);
    D.ExponentAtLeast(x, 96, WIDE);
    assert D.Exponent(x, WIDE) == 96;
    hide D.Exponent;
    D.TwoSteps(96, 53);
    D.TwoGrows(49, 96);
    D.TwoGrows(50, 96);
    D.TwoNext(49);
    D.DigitBound();
    AlmostWhole(R.Pow2(53), D.Two(49), D.Two(96));
  }

  lemma AlmostWhole(n: int, t: real, u: real)
    requires 0.0 < t && 0.0 < u && 2.0 * t < u
    ensures D.Even(D.Over(D.Times(n as real, u) - t, u)) == n
  {
    hide D.Times, D.Over;
    var z := D.Over(D.Times(n as real, u) - t, u);
    D.OverTimes(D.Times(n as real, u) - t, u);
    D.TimesOrder(z, n as real, u);
    D.TimesSum(n as real, z, u);
    D.TimesOrder(n as real - z, 0.5, u);
    TimesIs(0.5, u);
  }

  /** The difference 1 - 2^-100 counts as 1, half the scale, and gets code 1: the weight decodes to 1, although the stored scale
      is exact. */
  lemma LiftedFails(g: Q.Group)
    requires Q.Encodes(g, Values(SmallAmongLarge()), Source())
    ensures g.scale == Q.Spacing(Values(SmallAmongLarge())) && !Q.DecodesNearly(g, Values(SmallAmongLarge()))
  {
    hide R.Magnitude, Q.Encodes, Bf16, Q.DecodesNearly, Values, Q.Spacing, SmallAmongLarge, Q.Step, D.Two, Q.Least, Q.Most, D.Double;
    LargeRange();
    LargeStep();
    EncodedScale(g, SmallAmongLarge());
    GroupDecodes(g, SmallAmongLarge());
    DifferenceLost();
    D.TwoNext(149);
    assert Q.Midpoint(0, D.Two(150)) == D.Two(149);
    var values := Values(SmallAmongLarge());
    assert Q.Lifted(values[1] - Q.Least(values), D.Two(150), Source());
  }

  // ---------------------------------------------------------------- the whole matrix

  function WeightOf(h: nat): Q.Weight {
    if IsFinite(h) then Q.Finite(Value(h)) else Q.NonFinite
  }

  function Weights(source: seq<nat>): (r: seq<Q.Weight>)
    ensures |r| == |source| && forall i :: 0 <= i < |r| ==> r[i] == WeightOf(source[i])
  {
    if source == [] then [] else [WeightOf(source[0])] + Weights(source[1..])
  }

  /** The group encodes the patterns that stand at its place. */
  ghost predicate GroupAt(source: seq<nat>, group: nat, g: Q.Group) {
    && (group + 1) * Q.GROUP <= |source|
    && FiniteGroup(source[group * Q.GROUP..(group + 1) * Q.GROUP])
    && Q.Encodes(g, Values(source[group * Q.GROUP..(group + 1) * Q.GROUP]), Source())
  }

  /** quantized_matrix::quantize on bfloat16 patterns. */
  method Quantize(rows: nat, columns: nat, source: seq<nat>) returns (r: Result<seq<Q.Group>, Q.MatrixError>)
    requires |source| == rows * columns
    ensures r == Err(Q.InvalidLayout) <==> columns % Q.GROUP != 0
    ensures columns % Q.GROUP == 0 ==> (r == Err(Q.NonFiniteWeight) <==> exists i :: 0 <= i < |source| && !IsFinite(source[i]))
    ensures r.Ok? ==>
              |r.value| == |source| / Q.GROUP && forall group :: 0 <= group < |r.value| ==> GroupAt(source, group, r.value[group])
  {
    hide Q.GroupOk, IsFinite, Value;
    var weights := Weights(source);
    r := Q.Quantize(rows, columns, weights, Source());
    forall i | 0 <= i < |source| ensures weights[i] == Q.NonFinite <==> !IsFinite(source[i]) {
    }
    if r.Ok? {
      assert Q.NonFinite !in weights;
      forall group | 0 <= group < |r.value| ensures GroupAt(source, group, r.value[group]) {
        assert Q.GroupOk(weights, group, r.value[group], Source());
        PatternsOf(source, group, r.value[group]);
      }
    }
  }

  lemma PatternsOf(source: seq<nat>, group: nat, g: Q.Group)
    requires (group + 1) * Q.GROUP <= |source| && Q.GroupOk(Weights(source), group, g, Source())
    requires forall i :: 0 <= i < |source| ==> IsFinite(source[i])
    ensures GroupAt(source, group, g)
  {
    hide Value, IsFinite, Bf16, Q.Encodes, Weights, Values, Q.Holds, FiniteGroup;
    var values :| Q.Encodes(g, values, Source()) && Q.Holds(Weights(source), group * Q.GROUP, values);
    PartEncodes(source, group * Q.GROUP, (group + 1) * Q.GROUP, values, g);
  }

  lemma PartEncodes(source: seq<nat>, from: nat, to: nat, values: seq<real>, g: Q.Group)
    requires from <= to <= |source| && to - from == Q.GROUP && forall i :: 0 <= i < |source| ==> IsFinite(source[i])
    requires Q.Encodes(g, values, Source()) && Q.Holds(Weights(source), from, values)
    ensures FiniteGroup(source[from..to]) && Q.Encodes(g, Values(source[from..to]), Source())
  {
    hide Value, IsFinite, Bf16, Q.Encodes, Weights, Values, Q.Holds, FiniteGroup;
    EncodedSize(g, values);
    FinitePart(source, from, to);
    FiniteEach(source[from..to]);
    SameValues(source, from, source[from..to], values);
  }

  lemma FinitePart(source: seq<nat>, from: nat, to: nat)
    requires from <= to <= |source| && to - from == Q.GROUP && forall i :: 0 <= i < |source| ==> IsFinite(source[i])
    ensures FiniteGroup(source[from..to])
  {
    hide IsFinite;
    forall i | 0 <= i < Q.GROUP ensures IsFinite(source[from..to][i]) {
      assert source[from..to][i] == source[from + i];
    }
  }

  lemma EncodedSize(g: Q.Group, values: seq<real>)
    requires Q.Encodes(g, values, Source())
    ensures |values| == Q.GROUP
  {
  }

  lemma OneValue(source: seq<nat>, at: nat, values: seq<real>, i: nat)
    requires i < |values| && at + |values| <= |source| && Q.Holds(Weights(source), at, values) && IsFinite(source[at + i])
    ensures values[i] == Value(source[at + i])
  {
    hide Value, IsFinite;
    assert Weights(source)[at + i] == Q.Finite(values[i]);
  }

  lemma SameValues(source: seq<nat>, at: nat, part: seq<nat>, values: seq<real>)
    requires |values| == |part| && at + |part| <= |source| && part == source[at..at + |part|]
    requires Q.Holds(Weights(source), at, values)
    requires forall i :: 0 <= i < |part| ==> IsFinite(part[i])
    ensures values == Values(part)
  {
    hide Value, IsFinite, Weights, Values, Q.Holds;
    var all := Values(part);
    forall i | 0 <= i < |part| ensures values[i] == all[i] {
      assert part[i] == source[at + i];
      OneValue(source, at, values, i);
    }
  }
}

/** Conversion of binary32 to bfloat16 on bit patterns: src/tensor/types.h:60-88. Masks and shifts of the 32-bit word are
    remainders and quotients here, and the addition wraps explicitly.
    Magnitudes are integers, in units of the smallest subnormal binary32 number. */
module Rounding {

  const SIGN := 0x8000_0000
  const INFINITY := 0x7F80_0000
  const FRACTION := 0x80_0000
  const HALF := 0x1_0000
  const WORD := 0x1_0000_0000

  /** Sets bit 6 of a 16-bit pattern. */
  function SetQuiet(h: nat): nat {
    if h / 64 % 2 == 0 then h + 64 else h
  }

  /** bf16::from_float on the 32 bits of its argument. */
  function FromFloat(bits: nat): (r: nat)
    requires bits < WORD
    ensures r < HALF
  {
    if bits % SIGN > INFINITY then SetQuiet(bits / HALF)
    else (bits + 0x7FFF + bits / HALF % 2) % WORD / HALF
  }

  /** bf16::to_float. */
  function ToFloat(h: nat): (r: nat)
    requires h < HALF
    ensures r < WORD
  {
    h * HALF
  }

  predicate IsNaN(bits: nat) {
    bits % SIGN > INFINITY
  }

  function Pow2(n: nat): (r: nat)
    ensures 0 < r
  {
    if n == 0 then 1 else 2 * Pow2(n - 1)
  }

  /** The spacing of the numbers whose exponent field is that of m. */
  function Unit(m: nat): nat {
    Pow2(if m / FRACTION == 0 then 0 else m / FRACTION - 1)
  }

  /** The magnitude of a sign-free pattern (IEEE 754-2019, section 3.4), with infinity as the next power of two. */
  function Magnitude(m: nat): nat {
    if m / FRACTION == 0 then m else (FRACTION + m % FRACTION) * Unit(m)
  }

  // ---------------------------------------------------------------- neighbours

  /** Between two adjacent bfloat16 patterns the magnitude grows linearly, also across a power of two. */
  lemma Linear(h: nat, low: nat)
    requires low <= HALF
    ensures Magnitude(h * HALF + low) == Magnitude(h * HALF) + low * Unit(h * HALF)
  {
    var m := h * HALF;
    var e, f := m / FRACTION, m % FRACTION;
    assert h % 128 * HALF == f && h / 128 == e;
    if f + low < FRACTION {
      assert (m + low) / FRACTION == e && (m + low) % FRACTION == f + low;
      if e > 0 {
        Distributes(FRACTION + f, low, Unit(m));
      }
    } else {
      assert f + low == FRACTION && (m + low) / FRACTION == e + 1 && (m + low) % FRACTION == 0;
      if e > 0 {
        assert Pow2(e) == 2 * Pow2(e - 1);
        Distributes(FRACTION + f, low, Unit(m));
      }
    }
  }

  lemma Distributes(a: nat, b: nat, d: nat)
    ensures (a + b) * d == a * d + b * d
  {
  }

  lemma UnitPositive(m: nat)
    ensures 0 < Unit(m)
  {
  }

  /** Larger patterns have larger magnitudes. */
  lemma {:induction false} HalvesGrow(a: nat, b: nat)
    requires a < b
    ensures Magnitude(a * HALF) < Magnitude(b * HALF)
    decreases b
  {
    Linear(b - 1, HALF);
    UnitPositive((b - 1) * HALF);
    assert (b - 1) * HALF + HALF == b * HALF;
    if a < b - 1 {
      HalvesGrow(a, b - 1);
    }
  }

  function Distance(a: nat, b: nat): nat {
    if a <= b then b - a else a - b
  }

  /** The rounded pattern of a magnitude: the upper half, plus one past the middle or at the middle when odd. */
  function Nearest(m: nat): nat {
    var h, low := m / HALF, m % HALF;
    if low > HALF / 2 || (low == HALF / 2 && h % 2 == 1) then h + 1 else h
  }

  lemma FromFloatIsNearest(bits: nat)
    requires bits < WORD && !IsNaN(bits)
    ensures FromFloat(bits) == bits / SIGN * (SIGN / HALF) + Nearest(bits % SIGN)
    ensures Nearest(bits % SIGN) <= INFINITY / HALF
  {
  }

  /** No bfloat16 magnitude is closer to m than the rounded one, and of two equally close ones the even one is taken. */
  lemma NearestIsNearest(m: nat, k: nat)
    ensures var r := Nearest(m);
            && Distance(Magnitude(r * HALF), Magnitude(m)) <= Distance(Magnitude(k * HALF), Magnitude(m))
            && (Distance(Magnitude(r * HALF), Magnitude(m)) == Distance(Magnitude(k * HALF), Magnitude(m)) && k != r ==>
                  r % 2 == 0)
  {
    hide Magnitude, Unit;
    var h, low := m / HALF, m % HALF;
    var u := Unit(h * HALF);
    Linear(h, low);
    Linear(h, HALF);
    UnitPositive(h * HALF);
    assert h * HALF + low == m && h * HALF + HALF == (h + 1) * HALF;
    if k < h {
      HalvesGrow(k, h);
    } else if k > h + 1 {
      HalvesGrow(h + 1, k);
    }
    Sides(low, u);
  }

  lemma Sides(low: nat, u: nat)
    requires low < HALF && 0 < u
    ensures low * u + (HALF - low) * u == HALF * u
    ensures low < HALF / 2 ==> low * u < (HALF - low) * u
    ensures low == HALF / 2 ==> low * u == (HALF - low) * u
    ensures low > HALF / 2 ==> low * u > (HALF - low) * u
  {
    Distributes(low, HALF - low, u);
    if low < HALF / 2 {
      Distributes(low, HALF - 2 * low, u);
    } else if low > HALF / 2 {
      Distributes(HALF - low, 2 * low - HALF, u);
    }
  }

  /** from_float is roundTiesToEven (IEEE 754-2019, section 4.3.1) on everything that is not a NaN: the sign stays, and the
      magnitude is the nearest of bfloat16, the even one when two are equally near. */
  lemma RoundsTiesToEven(bits: nat, k: nat)
    requires bits < WORD && !IsNaN(bits) && k <= INFINITY / HALF
    ensures var r := FromFloat(bits);
            && r / (SIGN / HALF) == bits / SIGN
            && var m, n := r % (SIGN / HALF), bits % SIGN;
               && Distance(Magnitude(m * HALF), Magnitude(n)) <= Distance(Magnitude(k * HALF), Magnitude(n))
               && (Distance(Magnitude(m * HALF), Magnitude(n)) == Distance(Magnitude(k * HALF), Magnitude(n)) && k != m ==>
                     m % 2 == 0)
  {
    hide Magnitude, Distance;
    FromFloatIsNearest(bits);
    NearestIsNearest(bits % SIGN, k);
  }

  /** A NaN stays a NaN of the same sign. */
  lemma KeepsNaN(bits: nat)
    requires bits < WORD && IsNaN(bits)
    ensures IsNaN(ToFloat(FromFloat(bits))) && FromFloat(bits) / (SIGN / HALF) == bits / SIGN
  {
  }

  /** A bfloat16 value that is not a NaN survives the trip through binary32. */
  lemma ToFloatRoundTrip(h: nat)
    requires h < HALF
    ensures !IsNaN(ToFloat(h)) ==> FromFloat(ToFloat(h)) == h
  {
  }

  /** For normal numbers the rounding error is at most one part in 256. */
  lemma RelativeError(m: nat)
    requires FRACTION <= m < INFINITY
    ensures 256 * Distance(Magnitude(Nearest(m) * HALF), Magnitude(m)) <= Magnitude(m)
  {
    hide Magnitude, Unit;
    var h, low := m / HALF, m % HALF;
    var u := Unit(h * HALF);
    Linear(h, low);
    Linear(h, HALF);
    assert h * HALF + low == m && h * HALF + HALF == (h + 1) * HALF;
    NormalAtLeast(h);
    UnitPositive(h * HALF);
    Sides(low, u);
    if low <= HALF / 2 {
      MulAtMost(low, HALF / 2, u);
    }
    if low >= HALF / 2 {
      MulAtMost(HALF - low, HALF / 2, u);
    }
  }

  lemma MulAtMost(a: nat, b: nat, u: nat)
    requires a <= b
    ensures a * u <= b * u
  {
    Distributes(a, b - a, u);
  }

  lemma NormalAtLeast(h: nat)
    requires FRACTION <= h * HALF + HALF - 1
    ensures Magnitude(h * HALF) >= FRACTION * Unit(h * HALF)
  {
    var m := h * HALF;
    assert m / FRACTION > 0;
    Distributes(FRACTION, m % FRACTION, Unit(m));
  }
}

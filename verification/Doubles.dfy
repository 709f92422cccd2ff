/** Rounding of real numbers to binary64, to nearest and ties to even (IEEE 754-2019, section 4.3.1): 53 significant digits,
    down to a least exponent, below which numbers are subnormal. Only magnitudes far below the largest number occur here. */
module Doubles {
  import R = Rounding

  /** Powers of two. */
  function Two(i: int): (r: real)
    ensures 0.0 < r
  {
    if i >= 0 then R.Pow2(i) as real else 1.0 / R.Pow2(-i) as real
  }

  lemma TwoNext(i: int)
    ensures Two(i + 1) == 2.0 * Two(i)
  {
    if i < 0 {
      var p := R.Pow2(-i - 1) as real;
      assert R.Pow2(-i) as real == 2.0 * p;
      Halved(p);
    }
  }

  lemma Halved(p: real)
    requires 0.0 < p
    ensures 2.0 * (1.0 / (2.0 * p)) == 1.0 / p
  {
  }

  lemma TwoGrows(i: int, j: int)
    requires i < j
    ensures 2.0 * Two(i) <= Two(j)
    decreases j - i
  {
    hide Two;
    TwoNext(j - 1);
    if i < j - 1 {
      TwoGrows(i, j - 1);
    }
  }

  // ---------------------------------------------------------------- products and quotients

  /** Products and quotients by name, so that proofs can treat them as opaque. */
  function Times(a: real, t: real): real {
    a * t
  }

  function Over(a: real, t: real): real
    requires 0.0 < t
  {
    a / t
  }

  lemma TimesOrder(a: real, b: real, t: real)
    requires 0.0 < t
    ensures a <= b <==> Times(a, t) <= Times(b, t)
    ensures Times(0.0, t) == 0.0 && Times(1.0, t) == t
  {
    if a < b {
      Positive(b - a, t);
    }
    if b < a {
      Positive(a - b, t);
    }
  }

  lemma Positive(a: real, t: real)
    requires 0.0 < a && 0.0 < t
    ensures 0.0 < a * t
  {
  }

  lemma OverTimes(a: real, t: real)
    requires 0.0 < t
    ensures Times(Over(a, t), t) == a && Over(Times(a, t), t) == a
  {
  }

  lemma OverOrder(a: real, b: real, t: real)
    requires 0.0 < t
    ensures a <= b <==> Over(a, t) <= Over(b, t)
  {
    hide Times, Over;
    OverTimes(a, t);
    OverTimes(b, t);
    TimesOrder(Over(a, t), Over(b, t), t);
  }

  lemma TimesSum(a: real, b: real, t: real)
    ensures Times(a + b, t) == Times(a, t) + Times(b, t) && Times(a - b, t) == Times(a, t) - Times(b, t)
  {
  }

  lemma {:induction false} TwoSteps(i: int, n: nat)
    ensures Two(i + n) == Times(R.Pow2(n) as real, Two(i))
  {
    hide Two, Times;
    TimesOrder(1.0, 1.0, Two(i));
    if n > 0 {
      TwoSteps(i, n - 1);
      TwoNext(i + n - 1);
      Doubled(R.Pow2(n - 1) as real, Two(i));
    }
  }

  lemma Doubled(a: real, t: real)
    ensures 2.0 * Times(a, t) == Times(2.0 * a, t)
  {
  }

  // ---------------------------------------------------------------- rounding

  lemma ShorterScale(x: real, least: int)
    requires Two(least + 53) <= x
    ensures 0 <= Over(x, Two(least + 1)).Floor < Over(x, Two(least)).Floor
  {
    hide Two;
    TwoNext(least);
    TwoGrows(least, least + 53);
    HalfAsMuch(x, Two(least));
  }

  lemma HalfAsMuch(x: real, t: real)
    requires 0.0 < t && 2.0 * t <= x
    ensures 0 <= Over(x, 2.0 * t).Floor < Over(x, t).Floor
  {
    hide Times, Over;
    OverTimes(x, t);
    OverTimes(2.0, t);
    OverOrder(Times(2.0, t), x, t);
    Doubled(1.0, t);
    TimesOrder(1.0, 1.0, t);
    HalfQuotient(x, t);
  }

  lemma HalfQuotient(x: real, t: real)
    requires 0.0 < t
    ensures Over(x, 2.0 * t) == Over(x, t) / 2.0
  {
    var z := x / t;
    assert z * t == x;
    assert (z / 2.0) * (2.0 * t) == x;
  }

  /** The exponent of the last digit kept of x. */
  function Exponent(x: real, least: int): (e: int)
    requires 0.0 <= x
    ensures least <= e && x < Two(e + 53) && (least < e ==> Two(e + 52) <= x)
    decreases Over(x, Two(least)).Floor
  {
    if x < Two(least + 53) then least
    else
      ShorterScale(x, least);
      Exponent(x, least + 1)
  }

  /** The nearest integer, the even one of two. */
  function Even(z: real): int {
    var f := z.Floor;
    if z - f as real < 0.5 || (z - f as real == 0.5 && f % 2 == 0) then f else f + 1
  }

  /** The digits kept of x. */
  function Digits(x: real, least: int): int
    requires 0.0 <= x
  {
    Even(Over(x, Two(Exponent(x, least))))
  }

  function Rounded(x: real, least: int): real
    requires 0.0 <= x
  {
    Times(Digits(x, least) as real, Two(Exponent(x, least)))
  }

  /** The nearest double of x, in units in which the smallest positive double is 2^least. */
  function Double(x: real, least: int): real {
    if x < 0.0 then -Rounded(-x, least) else Rounded(x, least)
  }

  lemma EvenNear(z: real)
    ensures z - 0.5 <= Even(z) as real <= z + 0.5
  {
  }

  lemma EvenMonotone(y: real, z: real)
    requires y <= z
    ensures Even(y) <= Even(z)
  {
  }

  lemma EvenInteger(n: int)
    ensures Even(n as real) == n
  {
  }

  lemma EvenBelow(z: real, n: int)
    requires z < n as real - 0.5
    ensures Even(z) < n
  {
  }

  lemma ExponentAtMost(x: real, k: int, least: int)
    requires 0.0 <= x < Two(k + 53) && least <= k
    ensures Exponent(x, least) <= k
  {
    hide Two;
    var e := Exponent(x, least);
    hide Exponent;
    if k < e && k + 53 < e + 52 {
      TwoGrows(k + 53, e + 52);
    }
  }

  lemma ExponentAtLeast(x: real, k: int, least: int)
    requires Two(k + 52) <= x
    ensures k <= Exponent(x, least)
  {
    hide Two;
    var e := Exponent(x, least);
    hide Exponent;
    if e < k && e + 53 < k + 52 {
      TwoGrows(e + 53, k + 52);
    }
  }

  /** The rounded number has the digits of a double and stays between the powers of two around it. */
  lemma DigitsKept(x: real, least: int)
    requires 0.0 <= x
    ensures var e := Exponent(x, least);
            && 0 <= Digits(x, least) <= R.Pow2(53)
            && 0.0 <= Rounded(x, least) <= Two(e + 53) && (least < e ==> Two(e + 52) <= Rounded(x, least))
  {
    hide Two, R.Pow2, Even, Times, Over;
    var e := Exponent(x, least);
    hide Exponent;
    var t, z := Two(e), Over(x, Two(e));
    TwoSteps(e, 53);
    TwoSteps(e, 52);
    TimesOrder(0.0, 0.0, t);
    assert 0 as real == 0.0;
    DigitsBetween(0, x, t);
    DigitsUpTo(R.Pow2(53), x, t);
    TimesOrder(0.0, Even(z) as real, t);
    TimesOrder(Even(z) as real, R.Pow2(53) as real, t);
    if least < e {
      DigitsBetween(R.Pow2(52), x, t);
      TimesOrder(R.Pow2(52) as real, Even(z) as real, t);
    }
  }

  lemma DigitsBetween(n: int, x: real, t: real)
    requires 0.0 < t && Times(n as real, t) <= x
    ensures n <= Even(Over(x, t))
  {
    hide Even, Times, Over;
    OverOrder(Times(n as real, t), x, t);
    OverTimes(n as real, t);
    EvenInteger(n);
    EvenMonotone(n as real, Over(x, t));
  }

  lemma DigitsUpTo(n: int, x: real, t: real)
    requires 0.0 < t && x <= Times(n as real, t)
    ensures Even(Over(x, t)) <= n
  {
    hide Even, Times, Over;
    OverOrder(x, Times(n as real, t), t);
    OverTimes(n as real, t);
    EvenInteger(n);
    EvenMonotone(Over(x, t), n as real);
  }

  lemma Monotone(x: real, y: real, least: int)
    requires 0.0 <= x <= y
    ensures Rounded(x, least) <= Rounded(y, least)
  {
    hide Two, Even, R.Pow2, Times, Over;
    DigitsKept(x, least);
    DigitsKept(y, least);
    var e, f := Exponent(x, least), Exponent(y, least);
    hide Exponent;
    if e == f {
      OverOrder(x, y, Two(e));
      EvenMonotone(Over(x, Two(e)), Over(y, Two(e)));
      TimesOrder(Digits(x, least) as real, Digits(y, least) as real, Two(e));
    } else if e < f && e + 53 < f + 52 {
      TwoGrows(e + 53, f + 52);
    } else if f < e && f + 53 < e + 52 {
      TwoGrows(f + 53, e + 52);
    }
  }

  lemma DigitsBelow(m: nat, k: int)
    requires m < R.Pow2(53)
    ensures 0.0 <= Times(m as real, Two(k)) < Two(k + 53)
  {
    hide Two, R.Pow2, Times;
    TwoSteps(k, 53);
    TimesOrder(0.0, m as real, Two(k));
    TimesOrder(R.Pow2(53) as real, m as real, Two(k));
  }

  /** A number of at most 53 digits is a double. */
  lemma Fixes(m: nat, k: int, least: int)
    requires m < R.Pow2(53) && least <= k
    ensures 0.0 <= Times(m as real, Two(k)) && Rounded(Times(m as real, Two(k)), least) == Times(m as real, Two(k))
  {
    hide Two, Even, R.Pow2, Times, Over, Scaled;
    DigitsBelow(m, k);
    var x := Times(m as real, Two(k));
    ExponentAtMost(x, k, least);
    var e := Exponent(x, least);
    hide Exponent;
    WholeSteps(m, k, e);
    var n := Scaled(m, k - e);
    OverTimes(n as real, Two(e));
    EvenInteger(n);
  }

  function Scaled(m: int, n: nat): int {
    m * R.Pow2(n)
  }

  lemma ScaledReal(m: int, n: nat)
    ensures Scaled(m, n) as real == m as real * R.Pow2(n) as real
  {
    RealProduct(m, R.Pow2(n));
  }

  lemma {:induction false} RealProduct(a: int, b: nat)
    ensures (a * b) as real == a as real * b as real
  {
    if b > 0 {
      RealProduct(a, b - 1);
      var p, q := a * b, a * (b - 1);
      assert p == q + a;
      assert p as real == q as real + a as real;
      var x, y := a as real, (b - 1) as real;
      assert b as real == y + 1.0;
      assert x * (y + 1.0) == x * y + x;
    }
  }

  lemma WholeSteps(m: int, k: int, e: int)
    requires e <= k
    ensures Times(m as real, Two(k)) == Times(Scaled(m, k - e) as real, Two(e))
  {
    hide Two, R.Pow2, Times, Scaled;
    TwoSteps(e, k - e);
    ScaledReal(m, k - e);
    ProductTimes(m as real, R.Pow2(k - e) as real, Two(e), Scaled(m, k - e) as real);
  }

  lemma ProductTimes(a: real, b: real, t: real, c: real)
    requires c == a * b
    ensures Times(a, Times(b, t)) == Times(c, t)
  {
  }

  lemma {:induction false} PowersAdd(a: nat, b: nat)
    ensures R.Pow2(a + b) == R.Pow2(a) * R.Pow2(b)
  {
    if a > 0 {
      PowersAdd(a - 1, b);
      assert R.Pow2(a + b) == 2 * R.Pow2(a - 1 + b);
      assert R.Pow2(a) * R.Pow2(b) == 2 * (R.Pow2(a - 1) * R.Pow2(b));
    }
  }

  lemma DigitBound()
    ensures R.Pow2(53) == 0x20_0000_0000_0000 && R.Pow2(52) == 0x10_0000_0000_0000
  {
    assert R.Pow2(13) == 0x2000 by {
      assert R.Pow2(6) == 64;
      PowersAdd(6, 7);
    }
    PowersAdd(13, 13);
    PowersAdd(26, 26);
  }

  // ---------------------------------------------------------------- nearest, ties to even

  function Apart(a: real, b: real): real {
    if a >= b then a - b else b - a
  }

  lemma EvenNearest(z: real, n: int)
    ensures Apart(Even(z) as real, z) <= Apart(n as real, z)
    ensures Apart(Even(z) as real, z) == Apart(n as real, z) && n != Even(z) ==> Even(z) % 2 == 0
  {
  }

  lemma ApartTimes(a: real, b: real, t: real)
    requires 0.0 < t
    ensures Apart(Times(a, t), Times(b, t)) == Times(Apart(a, b), t)
  {
    hide Times;
    TimesOrder(a, b, t);
    TimesSum(a, b, t);
    TimesSum(b, a, t);
  }

  /** Among the multiples of the last digit kept, the rounded one is nearest. */
  lemma NearestMultiple(x: real, least: int, n: int)
    requires 0.0 <= x
    ensures var y := Times(n as real, Two(Exponent(x, least)));
            && Apart(Rounded(x, least), x) <= Apart(y, x)
            && (Apart(Rounded(x, least), x) == Apart(y, x) && y != Rounded(x, least) ==> Digits(x, least) % 2 == 0)
  {
    hide Two, Exponent, Times, Over, Even, Apart;
    var t := Two(Exponent(x, least));
    var z := Over(x, t);
    EvenNearest(z, n);
    OverTimes(x, t);
    ApartTimes(n as real, z, t);
    ApartTimes(Digits(x, least) as real, z, t);
    TimesOrder(Apart(Digits(x, least) as real, z), Apart(n as real, z), t);
    TimesOrder(Apart(n as real, z), Apart(Digits(x, least) as real, z), t);
  }

  /** No double is closer to x than the rounded one, and of two equally close ones the one with even digits is taken. */
  lemma NearestDouble(x: real, m: nat, k: int, least: int)
    requires 0.0 <= x && m < R.Pow2(53) && least <= k
    ensures var y := Times(m as real, Two(k));
            && Apart(Rounded(x, least), x) <= Apart(y, x)
            && (Apart(Rounded(x, least), x) == Apart(y, x) && y != Rounded(x, least) ==> Digits(x, least) % 2 == 0)
  {
    hide Two, R.Pow2, Times, Scaled, Rounded, Digits;
    var e := Exponent(x, least);
    var y := Times(m as real, Two(k));
    if e <= k {
      WholeSteps(m, k, e);
      NearestMultiple(x, least, Scaled(m, k - e));
    } else {
      DigitsBelow(m, k);
      TwoSteps(e, 52);
      NearestMultiple(x, least, R.Pow2(52));
      assert Two(e + 52) <= x;
      hide Exponent;
      if k + 53 < e + 52 {
        TwoGrows(k + 53, e + 52);
      }
      assert y < Two(e + 52);
    }
  }

  /** A normal number loses less than one part in a million. */
  lemma Close(x: real, least: int)
    requires Two(least + 52) <= x
    ensures 0.0 <= x && -x <= 1000000.0 * (Rounded(x, least) - x) <= x
  {
    hide Two, Even, R.Pow2, Times, Over;
    TwoGrows(least, least + 52);
    var e := Exponent(x, least);
    assert Two(e + 52) <= x;
    hide Exponent;
    TwoSteps(e, 52);
    DigitBound();
    EvenNear(Over(x, Two(e)));
    HalfUnit(x, Digits(x, least) as real, Two(e), R.Pow2(52) as real);
  }

  lemma HalfUnit(x: real, n: real, t: real, big: real)
    requires 0.0 < t && Over(x, t) - 0.5 <= n <= Over(x, t) + 0.5 && 1000000.0 <= big && Times(big, t) <= x
    ensures -x <= 1000000.0 * (Times(n, t) - x) <= x
  {
    hide Times, Over;
    var z := Over(x, t);
    OverTimes(x, t);
    TimesOrder(z - 0.5, n, t);
    TimesOrder(n, z + 0.5, t);
    TimesSum(z, 0.5, t);
    TimesOrder(1000000.0, big, t);
    Fractions(t);
  }

  lemma Fractions(t: real)
    ensures Times(0.5, t) * 2000000.0 == Times(1000000.0, t)
  {
  }

  // ---------------------------------------------------------------- quotients near a half

  /** The power of two below c + 1/2. */
  function Below(c: nat): int {
    if c == 0 then -2 else if c == 1 then 0 else if c <= 3 then 1 else if c <= 7 then 2 else 3
  }

  lemma BelowIs(c: nat)
    requires c < 15
    ensures Two(Below(c)) < c as real + 0.5 <= Two(Below(c) + 1)
  {
    assert Two(-2) == 0.25 && Two(-1) == 0.5 && Two(0) == 1.0 && Two(1) == 2.0 && Two(2) == 4.0 && Two(3) == 8.0 && Two(4) == 16.0;
  }

  lemma HalfForm(c: nat)
    ensures c as real + 0.5 == Times((2 * c + 1) as real, Two(-1))
  {
    assert Two(-1) == 0.5;
  }

  /** A half is a double. */
  lemma HalfFixed(c: nat, least: int)
    requires c < 15 && least <= -1
    ensures Rounded(c as real + 0.5, least) == c as real + 0.5
  {
    hide Two, R.Pow2, Times, Rounded;
    HalfForm(c);
    DigitBound();
    Fixes(2 * c + 1, -1, least);
  }

  lemma MidpointForm(c: nat, m: nat, k: int)
    ensures Times(c as real + 0.5, Times(m as real, Two(k))) == Times(((2 * c + 1) * m) as real, Two(k - 1))
  {
    TwoNext(k - 1);
    hide Two;
    var t := Two(k - 1);
    assert (c as real + 0.5) * (m as real * (2.0 * t)) == ((2 * c + 1) * m) as real * t;
  }

  /** A midpoint of a short number is a double. */
  lemma MidpointFixed(c: nat, m: nat, k: int, least: int)
    requires c < 15 && m < 256 && least < k
    ensures var h := Times(c as real + 0.5, Times(m as real, Two(k))); 0.0 <= h && Rounded(h, least) == h
  {
    hide Two, R.Pow2, Times, Rounded;
    MidpointForm(c, m, k);
    DigitBound();
    SmallProduct(2 * c + 1, m);
    Fixes((2 * c + 1) * m, k - 1, least);
  }

  lemma SmallProduct(a: nat, m: nat)
    requires a < 30 && m < 256
    ensures a * m < 0x2000
  {
  }

  /** A double below a midpoint of the short number s is below it by at least its own last digit. */
  lemma GapBelow(d: real, c: nat, m: nat, k: int, least: int)
    requires 0.0 <= d && c < 15 && m < 256 && least < k
    requires Rounded(d, least) < Times(c as real + 0.5, Times(m as real, Two(k)))
    ensures Rounded(d, least) + Two(Exponent(d, least)) <= Times(c as real + 0.5, Times(m as real, Two(k)))
  {
    hide Two, R.Pow2, Times, Digits, Scaled;
    var h := Times(c as real + 0.5, Times(m as real, Two(k)));
    MidpointForm(c, m, k);
    MidpointFixed(c, m, k, least);
    SmallProduct(2 * c + 1, m);
    DigitBound();
    DigitsBelow((2 * c + 1) * m, k - 1);
    if h <= d {
      Monotone(h, d, least);
    }
    ExponentAtMost(d, k - 1, least);
    var i := Exponent(d, least);
    hide Exponent;
    WholeSteps((2 * c + 1) * m, k - 1, i);
    NextMultiple(Digits(d, least), Scaled((2 * c + 1) * m, k - 1 - i), Two(i));
  }

  lemma NextMultiple(a: int, b: int, t: real)
    requires 0.0 < t && Times(a as real, t) < Times(b as real, t)
    ensures Times(a as real, t) + t <= Times(b as real, t)
  {
    hide Times;
    TimesOrder(b as real, a as real, t);
    assert a + 1 <= b;
    assert a as real + 1.0 <= b as real;
    TimesOrder(a as real + 1.0, b as real, t);
    TimesSum(a as real, 1.0, t);
  }

  lemma Shrunk(i: int, j: int, s: real)
    requires 0.0 < s && Times(Two(j), s) < Two(i + 53)
    ensures Times(Two(j - 53), s) < Two(i)
  {
    hide Two, Times, R.Pow2;
    TwoSteps(j - 53, 53);
    TwoSteps(i, 53);
    DigitBound();
    Cancelled(R.Pow2(53) as real, Two(j - 53), s, Two(i));
  }

  lemma Cancelled(big: real, a: real, s: real, t: real)
    requires 0.0 < big && Times(Times(big, a), s) < Times(big, t)
    ensures Times(a, s) < t
  {
    assert Times(Times(big, a), s) == Times(Times(a, s), big);
    assert Times(big, t) == Times(t, big);
    hide Times;
    TimesOrder(t, Times(a, s), big);
  }

  /** So its quotient is below the half by more than half a digit. */
  lemma GapOver(d: real, c: nat, m: nat, k: int, least: int)
    requires 0.0 <= d && c < 15 && 0 < m < 256 && least < k
    requires var s := Times(m as real, Two(k));
             0.0 < s && Rounded(d, least) < Times(c as real + 0.5, s) && Two(Below(c)) < Over(Rounded(d, least), s)
    ensures Over(Rounded(d, least), Times(m as real, Two(k))) + Two(Below(c) - 53) < c as real + 0.5
  {
    hide Two, R.Pow2, Times, Over, Rounded, Below;
    var s, D := Times(m as real, Two(k)), Rounded(d, least);
    var i, j, y := Exponent(d, least), Below(c), Over(D, s);
    GapBelow(d, c, m, k, least);
    DigitsKept(d, least);
    hide Exponent;
    OverTimes(D, s);
    TimesOrder(y, Two(j), s);
    Shrunk(i, j, s);
    TimesSum(c as real + 0.5, y, s);
    TimesOrder(c as real + 0.5 - y, Two(j - 53), s);
  }

  /** Rounding the quotient does not reach a half that the rounded dividend does not reach. */
  lemma StaysBelow(d: real, c: nat, m: nat, k: int, least: int, lowest: int)
    requires 0.0 <= d && c < 15 && 0 < m < 256 && least < k && lowest <= -60
    requires var s := Times(m as real, Two(k)); 0.0 < s && Rounded(d, least) < Times(c as real + 0.5, s)
    ensures var y := Over(Rounded(d, least), Times(m as real, Two(k)));
            0.0 <= y && Rounded(y, lowest) < c as real + 0.5
  {
    hide Two, R.Pow2, Times, Over, Rounded;
    var s, D, j := Times(m as real, Two(k)), Rounded(d, least), Below(c);
    DigitsKept(d, least);
    var y := Over(D, s);
    OverTimes(0.0, s);
    TimesOrder(0.0, 0.0, s);
    OverOrder(0.0, D, s);
    OverTimes(c as real + 0.5, s);
    OverOrder(Times(c as real + 0.5, s), D, s);
    BelowIs(c);
    assert y < c as real + 0.5;
    if y <= Two(j) {
      Monotone(y, Two(j), lowest);
      PowerFixed(j, lowest);
    } else {
      GapOver(d, c, m, k, least);
      RoundsUnder(y, c, j, lowest);
    }
  }

  lemma PowerFixed(j: int, least: int)
    requires least <= j
    ensures Rounded(Two(j), least) == Two(j)
  {
    hide Two, R.Pow2, Times, Rounded;
    DigitBound();
    Fixes(1, j, least);
    TimesOrder(1.0, 1.0, Two(j));
  }

  lemma RoundsUnder(y: real, c: nat, j: int, lowest: int)
    requires c < 15 && -2 <= j <= 3 && lowest <= -60 && Two(j) < y < Two(j + 1)
    requires y + Two(j - 53) < c as real + 0.5
    ensures Rounded(y, lowest) < c as real + 0.5
  {
    hide Two, R.Pow2, Times, Over, Even, Scaled;
    var e := j - 52;
    ExponentAtMost(y, e, lowest);
    ExponentAtLeast(y, e, lowest);
    assert Exponent(y, lowest) == e;
    hide Exponent;
    HalfForm(c);
    WholeSteps(2 * c + 1, -1, e);
    var n := Scaled(2 * c + 1, -1 - e);
    TwoNext(e - 1);
    UnderHalf(y, n, Two(e));
    EvenBelow(Over(y, Two(e)), n);
    TimesOrder(n as real, Even(Over(y, Two(e))) as real, Two(e));
  }

  lemma UnderHalf(y: real, n: int, t: real)
    requires 0.0 < t && y + t / 2.0 < Times(n as real, t)
    ensures Over(y, t) < n as real - 0.5
  {
    hide Over;
    OverTimes(y, t);
    var z := Over(y, t);
    TimesOrder(n as real - 0.5, z, t);
    assert Times(n as real - 0.5, t) == Times(n as real, t) - t / 2.0;
  }

  /** Nor does it miss one that the rounded dividend reaches. */
  lemma Reaches(D: real, c: nat, s: real, lowest: int)
    requires 0.0 < s && c < 15 && lowest <= -60 && Times(c as real + 0.5, s) <= D
    ensures 0.0 <= Over(D, s) && c as real + 0.5 <= Rounded(Over(D, s), lowest)
  {
    hide Times, Over, Rounded;
    OverTimes(c as real + 0.5, s);
    OverOrder(Times(c as real + 0.5, s), D, s);
    Monotone(c as real + 0.5, Over(D, s), lowest);
    HalfFixed(c, lowest);
  }
}

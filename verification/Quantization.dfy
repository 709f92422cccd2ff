/** Affine 4-bit quantisation in groups of 64: src/tensor/matrix.cc:44-111, for any rounding of its arithmetic; Bfloats gives the
    roundings of the source. */
module Quantization {
  import opened Wrappers

  const GROUP := 64
  const PER_WORD := 8

  /** A stored weight: a finite bfloat16 value, or an infinity or NaN. */
  datatype Weight = Finite(value: real) | NonFinite

  datatype MatrixError = InvalidLayout | NonFiniteWeight

  /** How intermediate results are rounded: what is stored, differences of weights, and quotients by the scale. */
  datatype Arithmetic = Arithmetic(stored: real -> real, wide: real -> real, ratio: real -> real)

  // ---------------------------------------------------------------- codes

  /** std::round: to the nearest integer, halves away from zero. */
  function Round(x: real): int {
    if x >= 0.0 then (x + 0.5).Floor else -((-x + 0.5).Floor)
  }

  function Clamp(n: int): (r: nat)
    ensures r <= 15
  {
    if n < 0 then 0 else if n > 15 then 15 else n
  }

  /** The 4-bit code of a weight. */
  function Code(w: real, offset: real, scale: real, a: Arithmetic): (r: nat)
    ensures r <= 15
  {
    if scale == 0.0 then 0 else Clamp(Round(a.ratio(a.wide(w - offset) / scale)))
  }

  function Decoded(code: nat, offset: real, scale: real): real {
    offset + code as real * scale
  }

  function Distance(a: real, b: real): real {
    if a >= b then a - b else b - a
  }

  // ---------------------------------------------------------------- one weight

  /** The midpoint between the levels c and c + 1 above the offset. */
  function Midpoint(c: nat, scale: real): real {
    (c as real + 0.5) * scale
  }

  /** Rounding puts this difference on a midpoint that it does not reach. */
  ghost predicate Lifted(d: real, scale: real, a: Arithmetic) {
    exists c: nat :: c < 15 && d < Midpoint(c, scale) == a.wide(d)
  }

  /** Rounding the difference takes it past no midpoint, and rounding the quotient moves it over none. */
  ghost predicate Sharp(d: real, scale: real, a: Arithmetic)
    requires 0.0 < scale
  {
    forall c: nat :: c < 15 ==>
      && (Midpoint(c, scale) <= d ==> Midpoint(c, scale) <= a.wide(d))
      && (d < Midpoint(c, scale) ==> a.wide(d) <= Midpoint(c, scale))
      && (Midpoint(c, scale) <= a.wide(d) <==> c as real + 0.5 <= a.ratio(a.wide(d) / scale))
  }

  /** A quotient gets a code above c exactly from c + 1/2 on. */
  lemma CodeAbove(q: real, c: nat)
    requires c < 15
    ensures c < Clamp(Round(q)) <==> c as real + 0.5 <= q
  {
  }

  lemma MidpointsOrdered(b: nat, c: nat, scale: real)
    requires b <= c && 0.0 < scale
    ensures Midpoint(b, scale) <= Midpoint(c, scale)
    ensures Midpoint(c, scale) == c as real * scale + 0.5 * scale
  {
    TimesLess(b as real + 0.5, c as real + 0.5, scale);
  }

  lemma TimesLess(a: real, b: real, s: real)
    requires a <= b && s >= 0.0
    ensures a * s <= b * s
  {
  }

  /** A weight decodes to within half the stored scale exactly when it is at most 15.5 scales above the offset and its difference
      is not lifted onto a midpoint; with a zero scale, when it is the offset. */
  lemma HalfScaleBound(w: real, minimum: real, scale: real, a: Arithmetic)
    requires minimum <= w && 0.0 <= scale && (0.0 < scale ==> Sharp(w - minimum, scale, a))
    ensures Distance(Decoded(Code(w, minimum, scale, a), minimum, scale), w) * 2.0 <= scale <==>
            w - minimum <= 15.5 * scale && !Lifted(w - minimum, scale, a)
  {
    if scale == 0.0 {
      NoneLifted(w - minimum, a);
    } else {
      var d := w - minimum;
      var code := Code(w, minimum, scale, a);
      CodeBrackets(d, scale, a, code);
      LevelNear(d, scale, code);
      if code == 0 {
        LowestNear(d, scale, a);
      } else {
        LevelLifted(d, scale, a, code);
      }
    }
  }

  lemma NoneLifted(d: real, a: Arithmetic)
    requires 0.0 <= d
    ensures !Lifted(d, 0.0, a)
  {
  }

  /** The rounded difference lies between the midpoints around its code. */
  lemma CodeBrackets(d: real, scale: real, a: Arithmetic, code: nat)
    requires 0.0 < scale && Sharp(d, scale, a) && code == Clamp(Round(a.ratio(a.wide(d) / scale)))
    ensures code <= 15
    ensures 0 < code ==> Midpoint(code - 1, scale) <= a.wide(d)
    ensures code < 15 ==> a.wide(d) < Midpoint(code, scale) && d < Midpoint(code, scale)
  {
    hide Round, Clamp, Midpoint;
    var q := a.ratio(a.wide(d) / scale);
    if 0 < code {
      CodeAbove(q, code - 1);
    }
    if code < 15 {
      CodeAbove(q, code);
    }
  }

  /** A level is within half a scale of what lies between its midpoints, the highest one of what is below 15.5 scales. */
  lemma LevelNear(d: real, scale: real, code: nat)
    requires 0.0 < scale && code <= 15
    requires code < 15 ==> d < Midpoint(code, scale)
    ensures 0 < code ==>
              ((code as real * scale - d) * 2.0 <= scale <==> Midpoint(code - 1, scale) <= d)
    ensures code < 15 ==> (d - code as real * scale) * 2.0 < scale && d <= 15.5 * scale
    ensures code == 15 ==> ((d - code as real * scale) * 2.0 <= scale <==> d <= 15.5 * scale)
  {
    if code < 15 {
      TimesLess(code as real + 0.5, 15.5, scale);
    }
  }

  lemma LowestNear(d: real, scale: real, a: Arithmetic)
    requires 0.0 <= d < Midpoint(0, scale) && 0.0 < scale && a.wide(d) < Midpoint(0, scale)
    ensures !Lifted(d, scale, a)
  {
    forall c: nat | c < 15 ensures a.wide(d) != Midpoint(c, scale) {
      MidpointsOrdered(0, c, scale);
    }
  }

  lemma LevelLifted(d: real, scale: real, a: Arithmetic, code: nat)
    requires 0.0 < scale && Sharp(d, scale, a) && 0 < code <= 15
    requires Midpoint(code - 1, scale) <= a.wide(d) && (code < 15 ==> a.wide(d) < Midpoint(code, scale))
    ensures Lifted(d, scale, a) <==> d < Midpoint(code - 1, scale)
  {
    hide Midpoint;
    forall c: nat | c < 15 ensures d < Midpoint(c, scale) == a.wide(d) ==> d < Midpoint(code - 1, scale) {
      if c < code {
        MidpointsOrdered(c, code - 1, scale);
      } else {
        MidpointsOrdered(code, c, scale);
      }
    }
  }

  /** A group of equal weights, or one whose scale underflows, decodes to its offset. */
  lemma ZeroScale(w: real, offset: real, a: Arithmetic)
    ensures Decoded(Code(w, offset, 0.0, a), offset, 0.0) == offset
  {
  }

  // ---------------------------------------------------------------- nibbles

  /** The code shifted to nibble i of a word. */
  function Placed(code: bv32, i: nat): bv32 {
    if i == 0 then code else if i == 1 then code << 4 else if i == 2 then code << 8 else if i == 3 then code << 12
    else if i == 4 then code << 16 else if i == 5 then code << 20 else if i == 6 then code << 24 else code << 28
  }

  /** Nibble i of a word. */
  function Nibble(word: bv32, i: nat): bv32 {
    (if i == 0 then word else if i == 1 then word >> 4 else if i == 2 then word >> 8 else if i == 3 then word >> 12
     else if i == 4 then word >> 16 else if i == 5 then word >> 20 else if i == 6 then word >> 24 else word >> 28) & 0xF
  }

  function Or(a: bv32, b: bv32): bv32 {
    a | b
  }

  lemma NibbleOr0(a: bv32, b: bv32)
    ensures Nibble(Or(a, b), 0) == Or(Nibble(a, 0), Nibble(b, 0))
  {
  }

  lemma NibbleOr1(a: bv32, b: bv32)
    ensures Nibble(Or(a, b), 1) == Or(Nibble(a, 1), Nibble(b, 1))
  {
  }

  lemma NibbleOr2(a: bv32, b: bv32)
    ensures Nibble(Or(a, b), 2) == Or(Nibble(a, 2), Nibble(b, 2))
  {
  }

  lemma NibbleOr3(a: bv32, b: bv32)
    ensures Nibble(Or(a, b), 3) == Or(Nibble(a, 3), Nibble(b, 3))
  {
  }

  lemma NibbleOr4(a: bv32, b: bv32)
    ensures Nibble(Or(a, b), 4) == Or(Nibble(a, 4), Nibble(b, 4))
  {
  }

  lemma NibbleOr5(a: bv32, b: bv32)
    ensures Nibble(Or(a, b), 5) == Or(Nibble(a, 5), Nibble(b, 5))
  {
  }

  lemma NibbleOr6(a: bv32, b: bv32)
    ensures Nibble(Or(a, b), 6) == Or(Nibble(a, 6), Nibble(b, 6))
  {
  }

  lemma NibbleOr7(a: bv32, b: bv32)
    ensures Nibble(Or(a, b), 7) == Or(Nibble(a, 7), Nibble(b, 7))
  {
  }

  lemma NibbleOr(word: bv32, other: bv32, j: nat)
    requires j < PER_WORD
    ensures Nibble(Or(word, other), j) == Or(Nibble(word, j), Nibble(other, j))
  {
    hide Or, Nibble;
    if j == 0 {
      NibbleOr0(word, other);
    } else if j == 1 {
      NibbleOr1(word, other);
    } else if j == 2 {
      NibbleOr2(word, other);
    } else if j == 3 {
      NibbleOr3(word, other);
    } else if j == 4 {
      NibbleOr4(word, other);
    } else if j == 5 {
      NibbleOr5(word, other);
    } else if j == 6 {
      NibbleOr6(word, other);
    } else {
      NibbleOr7(word, other);
    }
  }

  lemma NibblePlaced(code: bv32, i: nat, j: nat)
    requires code <= 0xF && i < PER_WORD && j < PER_WORD
    ensures Nibble(Placed(code, i), j) == if i == j then code else 0
  {
  }

  lemma OrZero(x: bv32)
    ensures Or(x, 0) == x && Or(0, x) == x
  {
  }

  /** static_cast<std::uint32_t> of a code. */
  function Bits(code: nat): (r: bv32)
    requires code <= 15
    ensures r <= 0xF
  {
    if code == 0 then 0 else if code == 1 then 1 else if code == 2 then 2 else if code == 3 then 3
    else if code == 4 then 4 else if code == 5 then 5 else if code == 6 then 6 else if code == 7 then 7
    else if code == 8 then 8 else if code == 9 then 9 else if code == 10 then 10 else if code == 11 then 11
    else if code == 12 then 12 else if code == 13 then 13 else if code == 14 then 14 else 15
  }

  lemma BitsDiffer(a: nat, b: nat)
    requires a <= 15 && b <= 15
    ensures Bits(a) == Bits(b) ==> a == b
  {
  }

  /** Nibble i of the word is this code. */
  ghost predicate Has(word: bv32, i: nat, code: nat) {
    code <= 15 && Nibble(word, i) == Bits(code)
  }

  /** OR-ing a code into an empty nibble puts it there and leaves the others alone. */
  lemma PlaceNibble(word: bv32, code: nat, i: nat, j: nat, other: nat)
    requires code <= 15 && i < PER_WORD && j < PER_WORD && Has(word, i, 0) && Has(word, j, other)
    ensures Has(Or(word, Placed(Bits(code), i)), j, if i == j then code else other)
  {
    hide Nibble, Placed, Bits, Or;
    NoBits();
    NibbleOr(word, Placed(Bits(code), i), j);
    NibblePlaced(Bits(code), i, j);
    OrZero(Bits(code));
    OrZero(Bits(other));
  }

  lemma NoBits()
    ensures Bits(0) == 0
  {
  }

  /** A nibble holds one code only. */
  lemma HasOne(word: bv32, i: nat, a: nat, b: nat)
    requires Has(word, i, a) && Has(word, i, b)
    ensures a == b
  {
    hide Nibble;
    BitsDiffer(a, b);
  }

  /** Nibbles 0 to n - 1 are the codes of these weights, the rest is empty. */
  ghost predicate Packs(word: bv32, values: seq<real>, offset: real, scale: real, a: Arithmetic, n: nat) {
    && n <= |values|
    && (forall i :: 0 <= i < n && i < PER_WORD ==> Has(word, i, Code(values[i], offset, scale, a)))
    && (forall i :: n <= i < PER_WORD ==> Has(word, i, 0))
  }

  lemma PacksNext(word: bv32, values: seq<real>, offset: real, scale: real, a: Arithmetic, n: nat)
    requires n < |values| && n < PER_WORD && Packs(word, values, offset, scale, a, n)
    ensures Packs(Or(word, Placed(Bits(Code(values[n], offset, scale, a)), n)), values, offset, scale, a, n + 1)
  {
    hide Has, Placed, Bits, Code, Or;
    var code := Code(values[n], offset, scale, a);
    var more := Or(word, Placed(Bits(code), n));
    forall i | 0 <= i < n + 1 && i < PER_WORD ensures Has(more, i, Code(values[i], offset, scale, a)) {
      PlaceNibble(word, code, n, i, if i < n then Code(values[i], offset, scale, a) else 0);
    }
    forall i | n + 1 <= i < PER_WORD ensures Has(more, i, 0) {
      PlaceNibble(word, code, n, i, 0);
    }
  }

  method PackWord(values: seq<real>, offset: real, scale: real, a: Arithmetic) returns (word: bv32)
    requires |values| == PER_WORD
    ensures Packs(word, values, offset, scale, a, PER_WORD)
  {
    hide Placed, Bits, Code, Packs, Or;
    word := 0;
    PacksNothing(values, offset, scale, a);
    var i := 0;
    while i < PER_WORD
      invariant i <= PER_WORD && Packs(word, values, offset, scale, a, i)
    {
      PacksNext(word, values, offset, scale, a, i);
      word := Or(word, Placed(Bits(Code(values[i], offset, scale, a)), i));
      i := i + 1;
    }
  }

  lemma PacksNothing(values: seq<real>, offset: real, scale: real, a: Arithmetic)
    ensures Packs(0, values, offset, scale, a, 0)
  {
  }

  // ---------------------------------------------------------------- one group

  /** The smallest weight of a group. */
  ghost function Least(values: seq<real>): (r: real)
    requires values != []
    ensures r in values && forall i :: 0 <= i < |values| ==> r <= values[i]
  {
    var last := values[|values| - 1];
    if |values| == 1 then last else
      var least := Least(values[..|values| - 1]);
      if last < least then last else least
  }

  /** The largest weight of a group. */
  ghost function Most(values: seq<real>): (r: real)
    requires values != []
    ensures r in values && forall i :: 0 <= i < |values| ==> values[i] <= r
  {
    var last := values[|values| - 1];
    if |values| == 1 then last else
      var most := Most(values[..|values| - 1]);
      if last > most then last else most
  }

  /** A fifteenth of the range of a group. */
  ghost function Spacing(values: seq<real>): (r: real)
    requires values != []
    ensures 0.0 <= r
  {
    (Most(values) - Least(values)) / 15.0
  }

  /** The same as it is computed, before it is rounded to the stored scale. */
  ghost function Step(values: seq<real>, a: Arithmetic): real
    requires values != []
  {
    a.wide(a.wide(Most(values) - Least(values)) / 15.0)
  }

  /** std::minmax_element. */
  method MinMax(values: seq<real>) returns (minimum: real, maximum: real)
    requires values != []
    ensures minimum == Least(values) && maximum == Most(values)
  {
    minimum, maximum := values[0], values[0];
    var i := 1;
    while i < |values|
      invariant 1 <= i <= |values|
      invariant minimum == Least(values[..i]) && maximum == Most(values[..i])
    {
      assert values[..i + 1][..i] == values[..i];
      if values[i] < minimum {
        minimum := values[i];
      }
      if values[i] > maximum {
        maximum := values[i];
      }
      i := i + 1;
    }
    assert values[..i] == values;
  }

  datatype Group = Group(offset: real, scale: real, words: seq<bv32>)

  /** A group encodes these weights: rounded minimum and step, and a code per weight. */
  ghost predicate Encodes(g: Group, values: seq<real>, a: Arithmetic) {
    && |values| == GROUP && |g.words| == GROUP / PER_WORD
    && g.offset == a.stored(Least(values)) && g.scale == a.stored(Step(values, a))
    && forall i :: 0 <= i < GROUP ==>
         Has(g.words[i / PER_WORD], i % PER_WORD, Code(values[i], g.offset, g.scale, a))
  }

  method QuantizeGroup(values: seq<real>, a: Arithmetic) returns (g: Group)
    requires |values| == GROUP
    ensures Encodes(g, values, a)
  {
    hide Has, Code, Least, Most;
    var minimum, maximum := MinMax(values);
    var offset, scale := a.stored(minimum), a.stored(a.wide(a.wide(maximum - minimum) / 15.0));
    var words: seq<bv32> := [];
    var word := 0;
    while word < GROUP / PER_WORD
      invariant word <= GROUP / PER_WORD && |words| == word
      invariant forall i :: 0 <= i < word * PER_WORD ==>
                  Has(words[i / PER_WORD], i % PER_WORD, Code(values[i], offset, scale, a))
    {
      var part := values[word * PER_WORD..(word + 1) * PER_WORD];
      var packed := PackWord(part, offset, scale, a);
      forall i | word * PER_WORD <= i < (word + 1) * PER_WORD
        ensures Has(packed, i % PER_WORD, Code(values[i], offset, scale, a)) && i / PER_WORD == word
      {
        assert part[i % PER_WORD] == values[i];
      }
      words := words + [packed];
      word := word + 1;
    }
    return Group(offset, scale, words);
  }

  /** Reading the group back gives every weight to within half the stored scale. */
  ghost predicate DecodesNearly(g: Group, values: seq<real>) {
    |g.words| == GROUP / PER_WORD && |values| == GROUP
    && forall i, code | 0 <= i < GROUP && Has(g.words[i / PER_WORD], i % PER_WORD, code) ::
         Distance(Decoded(code, g.offset, g.scale), values[i]) * 2.0 <= g.scale
  }

  lemma ReadBack(g: Group, values: seq<real>, a: Arithmetic, i: nat, code: nat)
    requires Encodes(g, values, a) && a.stored(Least(values)) == Least(values) && 0.0 <= g.scale
    requires i < GROUP && Has(g.words[i / PER_WORD], i % PER_WORD, code)
    requires 0.0 < g.scale ==> Sharp(values[i] - Least(values), g.scale, a)
    ensures Distance(Decoded(code, g.offset, g.scale), values[i]) * 2.0 <= g.scale <==>
            values[i] - Least(values) <= 15.5 * g.scale && !Lifted(values[i] - Least(values), g.scale, a)
  {
    hide Has, Code, Decoded, Distance, Least, Most, Sharp, Lifted;
    HasOne(g.words[i / PER_WORD], i % PER_WORD, code, Code(values[i], g.offset, g.scale, a));
    HalfScaleBound(values[i], g.offset, g.scale, a);
  }

  /** Rounding lifts none of the differences onto a midpoint. */
  ghost predicate NoLift(values: seq<real>, scale: real, a: Arithmetic)
    requires values != []
  {
    forall i :: 0 <= i < |values| ==> !Lifted(values[i] - Least(values), scale, a)
  }

  ghost predicate AllSharp(values: seq<real>, scale: real, a: Arithmetic)
    requires values != []
  {
    0.0 < scale ==> forall i :: 0 <= i < |values| ==> Sharp(values[i] - Least(values), scale, a)
  }

  /** The group decodes to within half a scale exactly when rounding left at least 30 parts in 31 of the step and lifted no
      difference onto a midpoint; a step that was rounded to zero must have been zero. */
  lemma GroupBound(g: Group, values: seq<real>, a: Arithmetic)
    requires Encodes(g, values, a) && a.stored(Least(values)) == Least(values)
    requires var scale := a.stored(Step(values, a)); 0.0 <= scale && AllSharp(values, scale, a)
    ensures var scale := a.stored(Step(values, a));
            DecodesNearly(g, values) <==> 30.0 * Spacing(values) <= 31.0 * scale && NoLift(values, scale, a)
  {
    hide Has, Code, Decoded, Distance, Least, Most, Sharp, Lifted, Step;
    var top :| 0 <= top < |values| && values[top] == Most(values);
    assert values[top] - Least(values) == 15.0 * Spacing(values);
    if DecodesNearly(g, values) {
      forall i | 0 <= i < |values|
        ensures values[i] - Least(values) <= 15.5 * g.scale && !Lifted(values[i] - Least(values), g.scale, a)
      {
        var code := Code(values[i], g.offset, g.scale, a);
        assert Has(g.words[i / PER_WORD], i % PER_WORD, code);
        ReadBack(g, values, a, i, code);
      }
    } else {
      var i, code :| 0 <= i < GROUP && Has(g.words[i / PER_WORD], i % PER_WORD, code)
                     && !(Distance(Decoded(code, g.offset, g.scale), values[i]) * 2.0 <= g.scale);
      ReadBack(g, values, a, i, code);
    }
  }

  /** Hence it suffices that the stored scale is within one part in 31 of the step. */
  lemma GroupNearly(g: Group, values: seq<real>, a: Arithmetic)
    requires Encodes(g, values, a) && a.stored(Least(values)) == Least(values)
    requires var scale := a.stored(Step(values, a));
             AllSharp(values, scale, a) && NoLift(values, scale, a) && 31.0 * Distance(scale, Spacing(values)) <= Spacing(values)
    ensures DecodesNearly(g, values)
  {
    hide AllSharp, NoLift, Step, Encodes, Spacing;
    GroupBound(g, values, a);
  }

  // ---------------------------------------------------------------- the whole matrix

  /** Rows of whole groups make whole groups. */
  lemma {:induction false} WholeGroups(rows: nat, columns: nat)
    requires columns % GROUP == 0
    ensures rows * columns % GROUP == 0
  {
    if rows > 0 {
      WholeGroups(rows - 1, columns);
      OneMoreRow(rows, columns);
      SumOfWholes((rows - 1) * columns, columns);
    }
  }

  lemma OneMoreRow(rows: nat, columns: nat)
    requires 0 < rows
    ensures rows * columns == (rows - 1) * columns + columns
  {
  }

  lemma SumOfWholes(a: nat, b: nat)
    requires a % GROUP == 0 && b % GROUP == 0
    ensures (a + b) % GROUP == 0
  {
  }

  /** The groups of a matrix in order; an infinity or NaN anywhere refuses it. */
  method Quantize(rows: nat, columns: nat, source: seq<Weight>, a: Arithmetic) returns (r: Result<seq<Group>, MatrixError>)
    requires |source| == rows * columns
    ensures r == Err(InvalidLayout) <==> columns % GROUP != 0
    ensures columns % GROUP == 0 ==> (r == Err(NonFiniteWeight) <==> NonFinite in source)
    ensures r.Ok? ==>
              && |r.value| == |source| / GROUP
              && forall group :: 0 <= group < |r.value| ==> GroupOk(source, group, r.value[group], a)
  {
    if columns % GROUP != 0 {
      return Err(InvalidLayout);
    }
    WholeGroups(rows, columns);
    hide Encodes, Holds, GroupOk, Encoded;
    var groups: seq<Group> := [];
    var group := 0;
    NothingEncoded(source, a);
    while group < |source| / GROUP
      invariant group <= |source| / GROUP && |groups| == group && Encoded(source, groups, a)
    {
      var values := ReadGroup(source, group * GROUP);
      if values == None {
        return Err(NonFiniteWeight);
      }
      var encoded := QuantizeGroup(values.value, a);
      EncodedNext(source, groups, values.value, encoded, a);
      groups := groups + [encoded];
      group := group + 1;
    }
    AllEncoded(source, groups, a);
    return Ok(groups);
  }

  /** The groups so far encode the beginning of the matrix, which is finite. */
  ghost predicate Encoded(source: seq<Weight>, groups: seq<Group>, a: Arithmetic) {
    && |groups| * GROUP <= |source|
    && (forall i :: 0 <= i < |groups| * GROUP ==> source[i].Finite?)
    && (forall k :: 0 <= k < |groups| ==> GroupOk(source, k, groups[k], a))
  }

  lemma NothingEncoded(source: seq<Weight>, a: Arithmetic)
    ensures Encoded(source, [], a)
  {
  }

  lemma EncodedNext(source: seq<Weight>, groups: seq<Group>, values: seq<real>, g: Group, a: Arithmetic)
    requires Encoded(source, groups, a) && Encodes(g, values, a) && |values| == GROUP && Holds(source, |groups| * GROUP, values)
    ensures Encoded(source, groups + [g], a)
  {
    hide Encodes, Holds, GroupOk;
    AllFinite(source, |groups| * GROUP, values);
    Fits(source, |groups|, values, g, a);
    assert |groups| * GROUP + GROUP <= |source| by {
      HoldsWithin(source, |groups| * GROUP, values);
    }
  }

  lemma HoldsWithin(source: seq<Weight>, at: nat, values: seq<real>)
    requires Holds(source, at, values)
    ensures at + |values| <= |source|
  {
  }

  lemma AllEncoded(source: seq<Weight>, groups: seq<Group>, a: Arithmetic)
    requires Encoded(source, groups, a) && |groups| * GROUP == |source|
    ensures NonFinite !in source && forall k :: 0 <= k < |groups| ==> GroupOk(source, k, groups[k], a)
  {
    hide GroupOk;
  }

  /** The encoding of the weights of one group. */
  ghost predicate GroupOk(source: seq<Weight>, group: nat, g: Group, a: Arithmetic) {
    exists values :: Encodes(g, values, a) && Holds(source, group * GROUP, values)
  }

  /** These are the weights from `at` on. */
  ghost predicate Holds(source: seq<Weight>, at: nat, values: seq<real>) {
    at + |values| <= |source| && forall i :: 0 <= i < |values| ==> source[at + i] == Finite(values[i])
  }

  lemma Fits(source: seq<Weight>, group: nat, values: seq<real>, g: Group, a: Arithmetic)
    requires Encodes(g, values, a) && Holds(source, group * GROUP, values)
    ensures GroupOk(source, group, g, a)
  {
    hide Encodes, Holds;
  }

  lemma AllFinite(source: seq<Weight>, at: nat, values: seq<real>)
    requires Holds(source, at, values)
    ensures forall i :: at <= i < at + |values| ==> source[i].Finite?
  {
    forall i | at <= i < at + |values| ensures source[i].Finite? {
      assert source[at + (i - at)] == Finite(values[i - at]);
    }
  }

  method ReadGroup(source: seq<Weight>, at: nat) returns (r: Option<seq<real>>)
    requires at + GROUP <= |source|
    ensures r.None? ==> NonFinite in source
    ensures r.Some? ==> |r.value| == GROUP && Holds(source, at, r.value)
  {
    var values: seq<real> := [];
    var i := 0;
    while i < GROUP
      invariant i <= GROUP && |values| == i && Holds(source, at, values)
    {
      if source[at + i].NonFinite? {
        return None;
      }
      values := values + [source[at + i].value];
      i := i + 1;
    }
    return Some(values);
  }
}

/** UTF-8 units of the tokenizer: src/qwen/qwen_tokenizer.cc:23-148. */
module Utf8Units {
  import opened Wrappers
  import opened Utf8

  type Str = seq<Byte>

  datatype Unit = Unit(codepoint: bv32, bytes: Str)

  ghost predicate Scalar(c: bv32) {
    c <= 0x10FFFF && !(0xD800 <= c <= 0xDFFF)
  }

  function Low(x: bv32): Byte {
    0x80 | (x & 0x3F)
  }

  /** encode_utf8, for code points up to 0x10FFFF. */
  function EncodeUtf8(c: bv32): Str
    requires c <= 0x10FFFF
  {
    if c <= 0x7F then [c]
    else if c <= 0x7FF then [0xC0 | (c >> 6), Low(c)]
    else if c <= 0xFFFF then [0xE0 | (c >> 12), Low(c >> 6), Low(c)]
    else [0xF0 | (c >> 18), Low(c >> 12), Low(c >> 6), Low(c)]
  }

  /** The code point of one character; None when it is not well formed. */
  function Point(s: Str): Option<bv32>
    requires s != []
  {
    var point := Accumulate(LeadBits(s[0]), s[1..]);
    if point.Some? && InRange(point.value, |s|) then point else None
  }

  /** split_utf8: the characters of a text with their bytes; None for invalid or truncated UTF-8. */
  function SplitUtf8(s: Str): Option<seq<Unit>>
    decreases |s|
  {
    if s == [] then Some([])
    else
      var n := Announced(s[0]);
      if n == 0 || n > |s| || Point(s[..n]) == None then None
      else
        var rest := SplitUtf8(s[n..]);
        if rest == None then None else Some([Unit(Point(s[..n]).value, s[..n])] + rest.value)
  }

  function JoinUnits(units: seq<Unit>): Str {
    if units == [] then [] else units[0].bytes + JoinUnits(units[1..])
  }

  lemma {:induction false} SplitJoins(s: Str)
    ensures SplitUtf8(s).Some? ==> JoinUnits(SplitUtf8(s).value) == s
    ensures SplitUtf8(s).Some? ==> forall i :: 0 <= i < |SplitUtf8(s).value| ==> SplitUtf8(s).value[i].bytes != []
    decreases |s|
  {
    hide Announced, Point;
    if s != [] {
      var n := Announced(s[0]);
      if 0 < n <= |s| {
        SplitJoins(s[n..]);
        assert s[..n] + s[n..] == s;
        if SplitUtf8(s).Some? {
          var units := SplitUtf8(s).value;
          assert units[1..] == SplitUtf8(s[n..]).value;
        }
      }
    }
  }

  /** split_utf8 accepts exactly the well-formed texts. */
  lemma {:induction false} SplitExactly(s: Str)
    ensures SplitUtf8(s).Some? <==> WellFormed(s)
    decreases |s|
  {
    hide IsChar, Announced, Point, Accepts, WellFormed;
    if s == [] {
      EmptyWellFormed();
    } else {
      var n := Announced(s[0]);
      if 0 < n <= |s| {
        SplitExactly(s[n..]);
        AcceptsExactly(s[..n]);
        PointAccepts(s[..n]);
        if IsChar(s[..n]) && WellFormed(s[n..]) {
          CharWellFormed(s, n);
        }
      }
      if WellFormed(s) {
        FirstChar(s);
      }
    }
  }

  lemma EmptyWellFormed()
    ensures WellFormed([])
  {
  }

  lemma PointAccepts(s: Str)
    requires s != []
    ensures Point(s).Some? <==> Accepts(s)
  {
  }

  lemma CharWellFormed(s: Str, n: nat)
    requires 0 < n <= |s| && IsChar(s[..n]) && WellFormed(s[n..])
    ensures WellFormed(s)
  {
  }

  lemma FirstChar(s: Str)
    requires s != [] && WellFormed(s)
    ensures var n := Announced(s[0]); 0 < n <= |s| && IsChar(s[..n]) && WellFormed(s[n..])
  {
    hide IsChar, Announced, Accepts;
    var n :| 0 < n <= |s| && IsChar(s[..n]) && WellFormed(s[n..]);
    CharFirst(s, n);
  }

  // ---------------------------------------------------------------- UTF-8 round trips

  lemma PointOne(a: Byte)
    ensures Point([a]) == if LeadBits(a) <= 0x10FFFF && !(0xD800 <= LeadBits(a) <= 0xDFFF) then Some(LeadBits(a)) else None
  {
    assert [a][1..] == [];
  }

  lemma PointTwo(a: Byte, b: Byte)
    ensures Point([a, b])
         == if b & 0xC0 == 0x80 && InRange(Join(LeadBits(a), b), 2) then Some(Join(LeadBits(a), b)) else None
  {
    hide Join, InRange, LeadBits;
    assert [a, b][1..] == [b] + [];
    AccumulateOne(LeadBits(a), b, []);
  }

  lemma PointThree(a: Byte, b: Byte, c: Byte)
    ensures var p := Join(Join(LeadBits(a), b), c);
            Point([a, b, c]) == if b & 0xC0 == 0x80 && c & 0xC0 == 0x80 && InRange(p, 3) then Some(p) else None
  {
    hide Join, InRange, LeadBits;
    assert [a, b, c][1..] == [b] + ([c] + []);
    AccumulateOne(LeadBits(a), b, [c] + []);
    AccumulateOne(Join(LeadBits(a), b), c, []);
  }

  lemma PointFour(a: Byte, b: Byte, c: Byte, d: Byte)
    ensures var p := Join(Join(Join(LeadBits(a), b), c), d);
            Point([a, b, c, d]) ==
              if b & 0xC0 == 0x80 && c & 0xC0 == 0x80 && d & 0xC0 == 0x80 && InRange(p, 4) then Some(p) else None
  {
    hide Join, InRange, LeadBits;
    assert [a, b, c, d][1..] == [b] + ([c] + ([d] + []));
    AccumulateOne(LeadBits(a), b, [c] + ([d] + []));
    AccumulateOne(Join(LeadBits(a), b), c, [d] + []);
    AccumulateOne(Join(Join(LeadBits(a), b), c), d, []);
  }

  /** Appending the low six bits undoes shifting them out. */
  lemma JoinLow(x: bv32)
    ensures Join(x >> 6, Low(x)) == x && Low(x) & 0xC0 == 0x80
  {
  }

  lemma ShiftTwice(c: bv32)
    ensures (c >> 6) >> 6 == c >> 12 && (c >> 12) >> 6 == c >> 18
  {
  }

  lemma LeadTwo(c: bv32)
    requires 0x7F < c <= 0x7FF
    ensures 0xC0 | (c >> 6) < 0x100 && Announced(0xC0 | (c >> 6)) == 2 && LeadBits(0xC0 | (c >> 6)) == c >> 6
  {
  }

  lemma LeadThree(c: bv32)
    requires 0x7FF < c <= 0xFFFF
    ensures 0xE0 | (c >> 12) < 0x100 && Announced(0xE0 | (c >> 12)) == 3 && LeadBits(0xE0 | (c >> 12)) == c >> 12
  {
  }

  lemma LeadFour(c: bv32)
    requires 0xFFFF < c <= 0x10FFFF
    ensures 0xF0 | (c >> 18) < 0x100 && Announced(0xF0 | (c >> 18)) == 4 && LeadBits(0xF0 | (c >> 18)) == c >> 18
  {
  }

  lemma ScalarInRange(c: bv32)
    requires Scalar(c)
    ensures c <= 0x7F ==> InRange(c, 1)
    ensures 0x7F < c <= 0x7FF ==> InRange(c, 2)
    ensures 0x7FF < c <= 0xFFFF ==> InRange(c, 3)
    ensures 0xFFFF < c ==> InRange(c, 4)
  {
  }

  lemma TwoJoin(c: bv32, a: Byte, b: Byte)
    requires LeadBits(a) == c >> 6 && b == Low(c) && InRange(c, 2)
    ensures Point([a, b]) == Some(c)
  {
    hide Low, InRange, LeadBits, Join, Point;
    JoinLow(c);
    PointTwo(a, b);
  }

  lemma ThreeJoin(c: bv32, a: Byte, b: Byte, d: Byte)
    requires LeadBits(a) == c >> 12 && b == Low(c >> 6) && d == Low(c) && InRange(c, 3)
    ensures Point([a, b, d]) == Some(c)
  {
    hide Low, InRange, LeadBits, Join, Point;
    JoinLow(c);
    JoinLow(c >> 6);
    ShiftTwice(c);
    PointThree(a, b, d);
  }

  lemma FourJoin(a: Byte, b: Byte, d: Byte, e: Byte, top: bv32, mid: bv32, high: bv32, c: bv32)
    requires LeadBits(a) == top && Join(top, b) == mid && Join(mid, d) == high && Join(high, e) == c && InRange(c, 4)
    requires b & 0xC0 == 0x80 && d & 0xC0 == 0x80 && e & 0xC0 == 0x80
    ensures Point([a, b, d, e]) == Some(c)
  {
    hide InRange, LeadBits, Join, Point;
    PointFour(a, b, d, e);
  }

  lemma JoinTop(c: bv32)
    ensures Join(c >> 18, Low(c >> 12)) == c >> 12 && Low(c >> 12) & 0xC0 == 0x80
  {
  }

  lemma JoinMid(c: bv32)
    ensures Join(c >> 12, Low(c >> 6)) == c >> 6 && Low(c >> 6) & 0xC0 == 0x80
  {
  }

  /** Encoding a scalar value gives one character with that code point. */
  lemma EncodedPoint(c: bv32)
    requires Scalar(c)
    ensures var s := EncodeUtf8(c); s != [] && Announced(s[0]) == |s| && Point(s) == Some(c)
  {
    hide Join, Low, InRange, Announced, LeadBits, Point, Scalar;
    ScalarInRange(c);
    if c <= 0x7F {
      OneByte(c);
    } else if c <= 0x7FF {
      LeadTwo(c);
      TwoJoin(c, 0xC0 | (c >> 6), Low(c));
    } else if c <= 0xFFFF {
      LeadThree(c);
      ThreeJoin(c, 0xE0 | (c >> 12), Low(c >> 6), Low(c));
    } else {
      LeadFour(c);
      JoinTop(c);
      JoinMid(c);
      JoinLow(c);
      FourJoin(0xF0 | (c >> 18), Low(c >> 12), Low(c >> 6), Low(c), c >> 18, c >> 12, c >> 6, c);
    }
  }

  lemma OneByte(c: bv32)
    requires c <= 0x7F
    ensures Announced(c) == 1 && Point([c]) == Some(c)
  {
    PointOne(c);
  }

  /** Splitting a text that starts with an encoded scalar yields that scalar first. */
  lemma SplitEncoded(c: bv32, rest: Str)
    requires Scalar(c)
    ensures SplitUtf8(EncodeUtf8(c) + rest)
         == if SplitUtf8(rest) == None then None else Some([Unit(c, EncodeUtf8(c))] + SplitUtf8(rest).value)
  {
    hide Announced, Point, EncodeUtf8;
    var e := EncodeUtf8(c);
    var s := e + rest;
    EncodedPoint(c);
    assert s[0] == e[0] && s[..|e|] == e && s[|e|..] == rest;
  }

  // ---------------------------------------------------------------- the loop

  method Split(text: Str) returns (r: Option<seq<Unit>>)
    ensures r == SplitUtf8(text)
  {
    hide SplitUtf8, Point, Announced, InRange, Accumulate;
    var units: seq<Unit> := [];
    var offset := 0;
    assert text[0..] == text;
    SplitNothing();
    PrependNone(SplitUtf8(text));
    while offset < |text|
      invariant offset <= |text|
      invariant SplitUtf8(text) == Prepended(units, SplitUtf8(text[offset..]))
    {
      var length := Announced(text[offset]);
      var rest := text[offset..];
      assert rest[0] == text[offset];
      SplitStep(rest);
      if length == 0 || length > |text| - offset {
        return None;
      }
      assert rest[..length] == text[offset..offset + length];
      var codepoint := Codepoint(text, offset, length);
      PointIs(rest[..length], codepoint);
      if codepoint == None || !InRange(codepoint.value, length) {
        return None;
      }
      var unit := Unit(codepoint.value, text[offset..offset + length]);
      PrependOne(units, unit, SplitUtf8(rest[length..]));
      assert rest[length..] == text[offset + length..];
      units := units + [unit];
      offset := offset + length;
    }
    assert text[offset..] == [] && units + [] == units;
    return Some(units);
  }

  function Prepended(units: seq<Unit>, rest: Option<seq<Unit>>): Option<seq<Unit>> {
    if rest == None then None else Some(units + rest.value)
  }

  lemma PrependOne(units: seq<Unit>, unit: Unit, rest: Option<seq<Unit>>)
    ensures Prepended(units, Prepended([unit], rest)) == Prepended(units + [unit], rest)
  {
    if rest.Some? {
      assert units + ([unit] + rest.value) == units + [unit] + rest.value;
    }
  }

  lemma SplitNothing()
    ensures SplitUtf8([]) == Some([])
  {
  }

  lemma PrependNone(r: Option<seq<Unit>>)
    ensures Prepended([], r) == r
  {
    if r.Some? {
      assert [] + r.value == r.value;
    }
  }

  lemma SplitStep(s: Str)
    requires s != []
    ensures var n := Announced(s[0]);
            SplitUtf8(s) == if n == 0 || n > |s| || Point(s[..n]) == None then None
                            else Prepended([Unit(Point(s[..n]).value, s[..n])], SplitUtf8(s[n..]))
  {
    hide Point, Announced;
  }

  lemma PointIs(s: Str, codepoint: Option<bv32>)
    requires s != [] && codepoint == Accumulate(LeadBits(s[0]), s[1..])
    ensures Point(s) == if codepoint == None || !InRange(codepoint.value, |s|) then None else codepoint
  {
  }
}

/** Complete UTF-8 prefixes (RFC 3629) and the two streaming text decoders built on them:
    src/model_runner.cc:7-77 and src/qwen/qwen_model_runner.cc:20-45. */
module Utf8 {
  import opened Wrappers

  /** A byte, held in a machine word so that code points can be assembled from it. */
  type Byte = b: bv32 | b < 0x100

  // ---------------------------------------------------------------- RFC 3629, section 4

  ghost predicate Tail(b: Byte) {
    0x80 <= b <= 0xBF
  }

  /** One well-formed character, by the ABNF of RFC 3629 section 4. */
  ghost predicate IsChar(s: seq<Byte>) {
    || (|s| == 1 && s[0] <= 0x7F)
    || (|s| == 2 && 0xC2 <= s[0] <= 0xDF && Tail(s[1]))
    || (|s| == 3 && Tail(s[2]) && (
          || (s[0] == 0xE0 && 0xA0 <= s[1] <= 0xBF)
          || (0xE1 <= s[0] <= 0xEC && Tail(s[1]))
          || (s[0] == 0xED && 0x80 <= s[1] <= 0x9F)
          || (0xEE <= s[0] <= 0xEF && Tail(s[1]))))
    || (|s| == 4 && Tail(s[2]) && Tail(s[3]) && (
          || (s[0] == 0xF0 && 0x90 <= s[1] <= 0xBF)
          || (0xF1 <= s[0] <= 0xF3 && Tail(s[1]))
          || (s[0] == 0xF4 && 0x80 <= s[1] <= 0x8F)))
  }

  ghost predicate WellFormed(s: seq<Byte>) {
    s == [] || exists n :: 0 < n <= |s| && IsChar(s[..n]) && WellFormed(s[n..])
  }

  // ---------------------------------------------------------------- the source's checks

  /** The length announced by a lead byte; 0 for a byte that leads nothing. */
  function Announced(first: Byte): nat {
    if first < 0x80 then 1
    else if first & 0xE0 == 0xC0 then 2
    else if first & 0xF0 == 0xE0 then 3
    else if first & 0xF8 == 0xF0 then 4
    else 0
  }

  function LeadBits(first: Byte): bv32 {
    var mask := if Announced(first) == 1 then 0x7F else if Announced(first) == 2 then 0x1F
                      else if Announced(first) == 3 then 0x0F else 0x07;
    first & mask
  }

  function Join(codepoint: bv32, b: Byte): bv32 {
    (codepoint << 6) | (b & 0x3F)
  }

  /** The loop over continuation bytes: the code point, or None at a byte that continues nothing. */
  function Accumulate(codepoint: bv32, tail: seq<Byte>): Option<bv32>
    decreases |tail|
  {
    if tail == [] then Some(codepoint)
    else if tail[0] & 0xC0 != 0x80 then None
    else Accumulate(Join(codepoint, tail[0]), tail[1..])
  }

  function Minimum(length: nat): bv32 {
    if length == 1 then 0 else if length == 2 then 0x80 else if length == 3 then 0x800 else 0x10000
  }

  predicate InRange(codepoint: bv32, length: nat) {
    Minimum(length) <= codepoint <= 0x10FFFF && !(0xD800 <= codepoint <= 0xDFFF)
  }

  /** The checks on one complete character. */
  predicate Accepts(s: seq<Byte>)
    requires s != []
  {
    var point := Accumulate(LeadBits(s[0]), s[1..]);
    point.Some? && InRange(point.value, |s|)
  }

  lemma AccumulateOne(codepoint: bv32, b: Byte, rest: seq<Byte>)
    ensures Accumulate(codepoint, [b] + rest) == if b & 0xC0 != 0x80 then None else Accumulate(Join(codepoint, b), rest)
  {
    assert ([b] + rest)[1..] == rest;
  }

  lemma TwoBits(a: Byte, b: Byte)
    requires a & 0xE0 == 0xC0
    ensures (b & 0xC0 == 0x80 && InRange(Join(a & 0x1F, b), 2)) <==> (0xC2 <= a <= 0xDF && Tail(b))
  {
  }

  lemma ThreeBits(a: Byte, b: Byte, c: Byte)
    requires a & 0xF0 == 0xE0
    ensures (b & 0xC0 == 0x80 && c & 0xC0 == 0x80 && InRange(Join(Join(a & 0x0F, b), c), 3)) <==> IsChar([a, b, c])
  {
  }

  lemma FourBits(a: Byte, b: Byte, c: Byte, d: Byte)
    requires a & 0xF8 == 0xF0
    ensures (b & 0xC0 == 0x80 && c & 0xC0 == 0x80 && d & 0xC0 == 0x80 && InRange(Join(Join(Join(a & 0x07, b), c), d), 4))
            <==> IsChar([a, b, c, d])
  {
  }

  lemma AcceptsOne(a: Byte)
    requires Announced(a) == 1
    ensures Accepts([a]) <==> IsChar([a])
  {
  }

  lemma AcceptsTwo(a: Byte, b: Byte)
    requires Announced(a) == 2
    ensures Accepts([a, b]) <==> IsChar([a, b])
  {
    hide Join, InRange;
    assert [a, b][1..] == [b] + [];
    AccumulateOne(LeadBits(a), b, []);
    TwoBits(a, b);
  }

  lemma AcceptsThree(a: Byte, b: Byte, c: Byte)
    requires Announced(a) == 3
    ensures Accepts([a, b, c]) <==> IsChar([a, b, c])
  {
    hide Join, InRange, IsChar;
    assert [a, b, c][1..] == [b] + ([c] + []);
    AccumulateOne(LeadBits(a), b, [c] + []);
    AccumulateOne(Join(LeadBits(a), b), c, []);
    ThreeBits(a, b, c);
  }

  lemma AcceptsFour(a: Byte, b: Byte, c: Byte, d: Byte)
    requires Announced(a) == 4
    ensures Accepts([a, b, c, d]) <==> IsChar([a, b, c, d])
  {
    hide Join, InRange, IsChar;
    assert [a, b, c, d][1..] == [b] + ([c] + ([d] + []));
    AccumulateOne(LeadBits(a), b, [c] + ([d] + []));
    AccumulateOne(Join(LeadBits(a), b), c, [d] + []);
    AccumulateOne(Join(Join(LeadBits(a), b), c), d, []);
    FourBits(a, b, c, d);
  }

  /** Masks, shifts and the three range checks accept exactly the characters of the standard. */
  lemma AcceptsExactly(s: seq<Byte>)
    requires s != [] && |s| == Announced(s[0])
    ensures Accepts(s) <==> IsChar(s)
  {
    if |s| == 1 {
      assert s == [s[0]];
      AcceptsOne(s[0]);
    } else if |s| == 2 {
      assert s == [s[0], s[1]];
      AcceptsTwo(s[0], s[1]);
    } else if |s| == 3 {
      assert s == [s[0], s[1], s[2]];
      AcceptsThree(s[0], s[1], s[2]);
    } else {
      assert s == [s[0], s[1], s[2], s[3]];
      AcceptsFour(s[0], s[1], s[2], s[3]);
    }
  }

  lemma CharAnnounced(s: seq<Byte>)
    requires IsChar(s)
    ensures s != [] && |s| == Announced(s[0])
  {
  }

  // ---------------------------------------------------------------- complete_utf8_prefix

  function After(n: nat, rest: Option<nat>): Option<nat> {
    if rest.Some? then Some(n + rest.value) else None
  }

  /** complete_utf8_prefix: None at a byte or character that is wrong, else where complete characters end. */
  function Scan(s: seq<Byte>): (r: Option<nat>)
    ensures r.Some? ==> r.value <= |s|
    decreases |s|
  {
    if s == [] then Some(0)
    else
      var n := Announced(s[0]);
      if n == 0 then None
      else if n > |s| then Some(0)
      else if !Accepts(s[..n]) then None
      else After(n, Scan(s[n..]))
  }

  method Codepoint(text: seq<Byte>, offset: nat, length: nat) returns (r: Option<bv32>)
    requires 0 < length && offset + length <= |text| && length == Announced(text[offset])
    ensures r == Accumulate(LeadBits(text[offset]), text[offset..offset + length][1..])
  {
    var codepoint := LeadBits(text[offset]);
    ghost var tail := text[offset..offset + length][1..];
    var index := 1;
    assert tail[0..] == tail;
    while index < length
      invariant 1 <= index <= length
      invariant Accumulate(codepoint, tail[index - 1..]) == Accumulate(LeadBits(text[offset]), tail)
    {
      var byte := text[offset + index];
      assert tail[index - 1..][0] == byte && tail[index - 1..][1..] == tail[index..];
      if byte & 0xC0 != 0x80 {
        return None;
      }
      codepoint := Join(codepoint, byte);
      index := index + 1;
    }
    return Some(codepoint);
  }

  lemma ScanNothing()
    ensures Scan([]) == Some(0)
  {
  }

  method CompleteUtf8Prefix(text: seq<Byte>) returns (r: Option<nat>)
    ensures r == Scan(text)
  {
    hide Scan, Accumulate, InRange;
    var offset := 0;
    assert text[0..] == text;
    while offset < |text|
      invariant offset <= |text|
      invariant Scan(text) == After(offset, Scan(text[offset..]))
    {
      hide Announced;
      var length := Announced(text[offset]);
      assert text[offset..][0] == text[offset];
      ScanEnds(text[offset..]);
      if length == 0 {
        return None;
      }
      if length > |text| - offset {
        break;
      }
      assert text[offset..][..length] == text[offset..offset + length];
      var codepoint := Codepoint(text, offset, length);
      if codepoint == None || !InRange(codepoint.value, length) {
        return None;
      }
      assert text[offset..][length..] == text[offset + length..];
      ScanStep(text[offset..], length);
      offset := offset + length;
    }
    ScanNothing();
    return Some(offset);
  }

  // ---------------------------------------------------------------- the longest complete prefix

  lemma CharFirst(s: seq<Byte>, n: nat)
    requires n <= |s| && IsChar(s[..n])
    ensures 0 < n && n == Announced(s[0]) && Accepts(s[..n])
  {
    CharAnnounced(s[..n]);
    AcceptsExactly(s[..n]);
  }

  /** The text up to k is well formed, and what follows is empty or a character cut short. */
  ghost predicate Stops(s: seq<Byte>, k: nat) {
    k <= |s| && WellFormed(s[..k]) && (k == |s| || Announced(s[k]) > |s| - k)
  }

  lemma {:induction false} ScanStops(s: seq<Byte>)
    ensures Scan(s).Some? ==> Stops(s, Scan(s).value)
    decreases |s|
  {
    hide IsChar, Announced;
    if s != [] {
      var n := Announced(s[0]);
      if 0 < n <= |s| && Accepts(s[..n]) {
        AcceptsExactly(s[..n]);
        ScanStops(s[n..]);
        if Scan(s[n..]).Some? {
          var k := n + Scan(s[n..]).value;
          assert s[..k][..n] == s[..n] && s[..k][n..] == s[n..][..k - n];
        }
      }
    }
  }

  lemma {:induction false} StopsScan(s: seq<Byte>, k: nat)
    requires Stops(s, k)
    ensures Scan(s) == Some(k)
    decreases |s|
  {
    hide IsChar, Announced, Accepts;
    if k > 0 {
      var n :| 0 < n <= k && IsChar(s[..k][..n]) && WellFormed(s[..k][n..]);
      assert s[..k][..n] == s[..n] && s[..k][n..] == s[n..][..k - n];
      CharFirst(s, n);
      StopsScan(s[n..], k - n);
    }
  }

  /** complete_utf8_prefix answers k exactly when the text up to k is well formed and the rest is a character cut short. */
  lemma ScanExactly(s: seq<Byte>, k: nat)
    ensures Scan(s) == Some(k) <==> Stops(s, k)
  {
    if Scan(s) == Some(k) {
      ScanStops(s);
    }
    if Stops(s, k) {
      StopsScan(s, k);
    }
  }

  /** A well-formed text splits after any well-formed prefix. */
  lemma {:induction false} WellFormedRest(s: seq<Byte>, k: nat)
    requires k <= |s| && WellFormed(s) && WellFormed(s[..k])
    ensures WellFormed(s[k..])
    decreases |s|
  {
    hide IsChar, Announced, Accepts;
    if k > 0 {
      var n :| 0 < n <= |s| && IsChar(s[..n]) && WellFormed(s[n..]);
      var m :| 0 < m <= k && IsChar(s[..k][..m]) && WellFormed(s[..k][m..]);
      assert s[..k][..m] == s[..m] && s[..k][m..] == s[m..][..k - m];
      CharFirst(s, n);
      CharFirst(s, m);
      WellFormedRest(s[n..], k - n);
      assert s[n..][k - n..] == s[k..];
    } else {
      assert s[0..] == s;
    }
  }

  lemma {:induction false} WellFormedJoin(a: seq<Byte>, b: seq<Byte>)
    requires WellFormed(a) && WellFormed(b)
    ensures WellFormed(a + b)
    decreases |a|
  {
    hide IsChar;
    if a != [] {
      var n :| 0 < n <= |a| && IsChar(a[..n]) && WellFormed(a[n..]);
      WellFormedJoin(a[n..], b);
      assert (a + b)[..n] == a[..n] && (a + b)[n..] == a[n..] + b;
    } else {
      assert a + b == b;
    }
  }

  lemma CutShort(s: seq<Byte>)
    requires s != [] && Announced(s[0]) > |s|
    ensures !WellFormed(s)
  {
    hide IsChar, Announced, Accepts;
    forall n | 0 < n <= |s| ensures !IsChar(s[..n]) {
      if IsChar(s[..n]) {
        CharFirst(s, n);
      }
    }
  }

  /** The answer is the longest well-formed prefix. */
  lemma ScanIsLongest(s: seq<Byte>, m: nat)
    requires Scan(s).Some? && Scan(s).value < m <= |s|
    ensures !WellFormed(s[..m])
  {
    hide Announced, Scan, WellFormed;
    var k := Scan(s).value;
    ScanStops(s);
    CutShort(s[k..m]);
    assert s[..m][..k] == s[..k] && s[..m][k..] == s[k..m];
    if WellFormed(s[..m]) {
      WellFormedRest(s[..m], k);
    }
  }

  /** A refused text cannot be completed by whatever comes next. */
  lemma {:induction false} RefusedForGood(s: seq<Byte>, more: seq<Byte>)
    requires Scan(s) == None
    ensures !WellFormed(s + more)
    decreases |s|
  {
    hide IsChar, Announced, Accepts;
    var t := s + more;
    if WellFormed(t) {
      var n :| 0 < n <= |t| && IsChar(t[..n]) && WellFormed(t[n..]);
      CharFirst(t, n);
      assert t[0] == s[0];
      assert t[..n] == s[..n];
      assert t[n..] == s[n..] + more;
      RefusedForGood(s[n..], more);
    }
  }

  /** Text that is complete up to k can be scanned from there. */
  lemma {:induction false} ScanFrom(a: seq<Byte>, b: seq<Byte>)
    requires WellFormed(a)
    ensures Scan(a + b) == After(|a|, Scan(b))
    decreases |a|
  {
    hide IsChar, Scan;
    if a == [] {
      assert a + b == b;
      AfterNone(Scan(b));
    } else {
      var n :| 0 < n <= |a| && IsChar(a[..n]) && WellFormed(a[n..]);
      var t := a + b;
      assert t[..n] == a[..n] && t[n..] == a[n..] + b;
      CharFirst(t, n);
      ScanStep(t, n);
      ScanFrom(a[n..], b);
    }
  }

  lemma AfterNone(r: Option<nat>)
    ensures After(0, r) == r
  {
  }

  lemma ScanStep(s: seq<Byte>, n: nat)
    requires 0 < n <= |s| && n == Announced(s[0]) && Accepts(s[..n])
    ensures Scan(s) == After(n, Scan(s[n..]))
  {
    hide Accepts, Announced;
  }

  lemma ScanEnds(s: seq<Byte>)
    requires s != []
    ensures Announced(s[0]) == 0 ==> Scan(s) == None
    ensures Announced(s[0]) > |s| ==> Scan(s) == Some(0)
    ensures 0 < Announced(s[0]) <= |s| && !Accepts(s[..Announced(s[0])]) ==> Scan(s) == None
  {
    hide Accepts, Announced;
  }
}

/** The byte-to-character codec of byte-level BPE: src/qwen/qwen_tokenizer.cc:263-291. */
module ByteCodecs {
  import opened Wrappers
  import opened Utf8
  import opened Utf8Units

  /** The bytes that stand for themselves. */
  predicate Printable(b: Byte) {
    0x21 <= b <= 0x7E || 0xA1 <= b <= 0xAC || 0xAE <= b
  }

  /** How many bytes below `value` do not stand for themselves. */
  function ExtrasBelow(value: bv32): bv32 {
    if value <= 0x21 then value
    else if value <= 0x7F then 33
    else if value <= 0xA1 then value - 0x7F + 33
    else if value <= 0xAD then 67
    else 68
  }

  /** The code point of a byte: itself, or the next one from 256 on. */
  function CodeOf(b: Byte): bv32 {
    if Printable(b) then b else 0x100 + ExtrasBelow(b)
  }

  /** No two bytes share a code point, and every code point is a scalar value. */
  lemma CodesDiffer(a: Byte, b: Byte)
    ensures CodeOf(a) == CodeOf(b) ==> a == b
    ensures Scalar(CodeOf(a)) && 0 < CodeOf(a) < 0x144
  {
  }

  lemma ExtrasStep(value: bv32)
    requires value < 0x100
    ensures ExtrasBelow(value + 1) == if Printable(value) then ExtrasBelow(value) else ExtrasBelow(value) + 1
  {
  }

  /** Every code point below 0x144 that is not a skipped Latin-1 one belongs to a byte. */
  function ByteOf(c: bv32): Option<Byte> {
    if c < 0x100 then if Printable(c) then Some(c) else None
    else if c <= 0x120 then Some(c - 0x100)
    else if c <= 0x142 then Some(c - 0x121 + 0x7F)
    else if c == 0x143 then Some(0xAD)
    else None
  }

  /** The codec is a bijection between the 256 bytes and their code points. */
  lemma CodecInverts(b: Byte, c: bv32)
    ensures ByteOf(CodeOf(b)) == Some(b)
    ensures ByteOf(c).Some? ==> CodeOf(ByteOf(c).value) == c
  {
  }

  // ---------------------------------------------------------------- the construction loops

  /** The bytes from `from` up to, but without, `end`. */
  function Range(from: bv32, end: bv32): seq<Byte>
    requires end <= 0x100
    decreases end
  {
    if end <= from then [] else Range(from, end - 1) + [end - 1]
  }

  lemma {:induction false} RangeHas(from: bv32, end: bv32, b: Byte)
    requires end <= 0x100
    ensures b in Range(from, end) <==> from <= b < end
    decreases end
  {
    if end > from {
      RangeHas(from, end - 1, b);
    }
  }

  /** The bytes below `end` that do not stand for themselves, in order. */
  function Extras(end: bv32): seq<Byte>
    requires end <= 0x100
    decreases end
  {
    if end == 0 then []
    else Extras(end - 1) + (if Printable(end - 1) then [] else [end - 1])
  }

  lemma {:induction false} ExtrasHas(end: bv32, b: Byte)
    requires end <= 0x100
    ensures b in Extras(end) <==> b < end && !Printable(b)
    decreases end
  {
    if end > 0 {
      ExtrasHas(end - 1, b);
    }
  }

  function SelfStanding(): seq<Byte> {
    Range(0x21, 0x7F) + Range(0xA1, 0xAD) + Range(0xAE, 0x100)
  }

  lemma SelfStandingHas(b: Byte)
    ensures b in SelfStanding() <==> Printable(b)
  {
    hide Range;
    RangeHas(0x21, 0x7F, b);
    RangeHas(0xA1, 0xAD, b);
    RangeHas(0xAE, 0x100, b);
  }

  /** The list as it stands when the loop over all bytes has reached `end`. */
  function Listed(end: bv32): seq<Byte>
    requires end <= 0x100
  {
    SelfStanding() + Extras(end)
  }

  lemma ListedHas(end: bv32, b: Byte)
    requires end <= 0x100
    ensures b in Listed(end) <==> Printable(b) || b < end
  {
    hide SelfStanding, Extras, Printable;
    SelfStandingHas(b);
    ExtrasHas(end, b);
  }

  // Counting in machine words, behind names that the loops do not unfold.

  function Next(value: bv32): bv32 {
    value + 1
  }

  predicate Below(value: bv32, end: bv32) {
    value < end
  }

  ghost predicate UpTo(value: bv32, end: bv32) {
    value <= end <= 0x100
  }

  ghost function Rank(value: bv32): nat {
    value as nat
  }

  lemma CountUp(value: bv32, end: bv32)
    requires UpTo(value, end) && Below(value, end)
    ensures value < 0x100 && UpTo(Next(value), end) && Rank(value) < Rank(Next(value)) <= 0x100
  {
  }

  lemma CountStarts(value: bv32, end: bv32)
    requires value <= end <= 0x100
    ensures UpTo(value, end) && Range(value, value) == []
  {
  }

  lemma CountEnds(value: bv32, end: bv32)
    requires UpTo(value, end) && !Below(value, end)
    ensures value == end
  {
  }

  lemma RangeNext(from: bv32, value: bv32, end: bv32)
    requires from <= value && UpTo(value, end) && Below(value, end)
    ensures value < 0x100 && from <= Next(value) <= 0x100
    ensures Range(from, Next(value)) == Range(from, value) + [value]
  {
  }

  method PushRange(bytes: seq<Byte>, from: Byte, end: bv32) returns (r: seq<Byte>)
    requires from <= end <= 0x100
    ensures r == bytes + Range(from, end)
  {
    hide Range, Next, Below, UpTo, Rank;
    r := bytes;
    var value: bv32 := from;
    CountStarts(from, end);
    assert bytes + [] == bytes;
    while Below(value, end)
      invariant UpTo(value, end) && from <= value <= 0x100
      invariant r == bytes + Range(from, value)
      decreases 0x100 - Rank(value)
    {
      CountUp(value, end);
      RangeNext(from, value, end);
      r := r + [value];
      assert r == bytes + (Range(from, value) + [value]);
      value := Next(value);
    }
    CountEnds(value, end);
  }

  lemma ExtrasNext(value: bv32)
    requires value < 0x100
    ensures Next(value) <= 0x100
    ensures Extras(Next(value)) == Extras(value) + (if Printable(value) then [] else [value])
    ensures ExtrasBelow(Next(value)) == if Printable(value) then ExtrasBelow(value) else Next(ExtrasBelow(value))
  {
    hide Printable;
    ExtrasStep(value);
  }

  ghost predicate Coded(bytes: seq<Byte>, codepoints: seq<bv32>) {
    |bytes| == |codepoints| && forall i :: 0 <= i < |bytes| ==> codepoints[i] == CodeOf(bytes[i])
  }

  lemma CodedNext(bytes: seq<Byte>, codepoints: seq<bv32>, b: Byte)
    requires Coded(bytes, codepoints)
    ensures Coded(bytes + [b], codepoints + [CodeOf(b)])
  {
    hide CodeOf;
  }

  lemma SelfCoded(bytes: seq<Byte>)
    requires bytes == SelfStanding()
    ensures Coded(bytes, bytes)
  {
    hide SelfStanding;
    forall i | 0 <= i < |bytes| ensures bytes[i] == CodeOf(bytes[i]) {
      SelfStandingHas(bytes[i]);
    }
  }

  method ListSelfStanding() returns (bytes: seq<Byte>)
    ensures bytes == SelfStanding()
  {
    hide Range;
    bytes := PushRange([], 0x21, 0x7F);
    assert bytes == Range(0x21, 0x7F);
    bytes := PushRange(bytes, 0xA1, 0xAD);
    bytes := PushRange(bytes, 0xAE, 0x100);
  }

  lemma ListedNext(value: Byte)
    ensures Next(value) <= 0x100
    ensures if value in Listed(value) then Listed(Next(value)) == Listed(value) && Printable(value)
            else Listed(Next(value)) == Listed(value) + [value] && !Printable(value)
  {
    hide Next, Printable, Extras, SelfStanding;
    ExtrasNext(value);
    ListedHas(value, value);
    assert SelfStanding() + (Extras(value) + [value]) == Listed(value) + [value];
    assert Extras(value) + [] == Extras(value);
  }

  function ExtraPoint(extra: bv32): bv32 {
    0x100 + extra
  }

  lemma ExtraCode(value: Byte)
    requires !Printable(value)
    ensures CodeOf(value) == ExtraPoint(ExtrasBelow(value))
  {
  }

  /** The bytes with their code points, the self-standing ones first. */
  method ListCodes() returns (bytes: seq<Byte>, codepoints: seq<bv32>)
    ensures bytes == Listed(0x100) && Coded(bytes, codepoints)
  {
    hide CodeOf, Printable, Coded, ExtrasBelow, Listed, Next, Below, UpTo, Rank, ExtraPoint, SelfStanding;
    bytes := ListSelfStanding();
    codepoints := bytes;
    SelfCoded(bytes);
    NothingListed();
    CountStarts(0, 0x100);
    var extra: bv32, value: bv32 := 0, 0;
    while Below(value, 0x100)
      invariant UpTo(value, 0x100) && value <= 0x100 && extra == ExtrasBelow(value)
      invariant bytes == Listed(value) && Coded(bytes, codepoints)
      decreases 0x100 - Rank(value)
    {
      CountUp(value, 0x100);
      ListedNext(value);
      ExtrasNext(value);
      if value !in bytes {
        ExtraCode(value);
        CodedNext(bytes, codepoints, value);
        bytes := bytes + [value];
        codepoints := codepoints + [ExtraPoint(extra)];
        extra := Next(extra);
      }
      value := Next(value);
    }
    CountEnds(value, 0x100);
  }

  lemma NothingListed()
    ensures ExtrasBelow(0) == 0 && Listed(0) == SelfStanding()
  {
    assert SelfStanding() + [] == SelfStanding();
  }

  /** A machine word as a table key. */
  datatype Key = Key(word: bv32)

  /** The encoder table holds this byte's character, and the decoder table the way back. */
  ghost predicate Codec(encoder: map<Key, Str>, decoder: map<Key, Byte>, b: Byte) {
    && CodeOf(b) <= 0x10FFFF
    && Key(b) in encoder && encoder[Key(b)] == EncodeUtf8(CodeOf(b))
    && Key(CodeOf(b)) in decoder && decoder[Key(CodeOf(b))] == b
  }

  /** Nothing decodes but the characters of bytes. */
  ghost predicate OnlyCodes(decoder: map<Key, Byte>) {
    forall k :: k in decoder ==> ByteOf(k.word) == Some(decoder[k])
  }

  /** The entries made so far. */
  ghost predicate Filled(bytes: seq<Byte>, index: nat, encoder: map<Key, Str>, decoder: map<Key, Byte>) {
    && index <= |bytes|
    && (forall i :: 0 <= i < index ==> Codec(encoder, decoder, bytes[i]))
    && OnlyCodes(decoder)
  }

  /** emplace: the first entry of a key stays. */
  function Emplace(decoder: map<Key, Byte>, codepoint: bv32, b: Byte): map<Key, Byte> {
    if Key(codepoint) in decoder then decoder else decoder[Key(codepoint) := b]
  }

  lemma FilledNext(bytes: seq<Byte>, index: nat, encoder: map<Key, Str>, decoder: map<Key, Byte>, codepoint: bv32)
    requires Filled(bytes, index, encoder, decoder) && index < |bytes|
    requires codepoint == CodeOf(bytes[index]) && codepoint <= 0x10FFFF
    ensures Filled(bytes, index + 1, encoder[Key(bytes[index]) := EncodeUtf8(codepoint)],
                   Emplace(decoder, codepoint, bytes[index]))
  {
    hide CodeOf, ByteOf, EncodeUtf8;
    CodecInverts(bytes[index], codepoint);
    var more := encoder[Key(bytes[index]) := EncodeUtf8(codepoint)];
    var wider := Emplace(decoder, codepoint, bytes[index]);
    forall i | 0 <= i < index + 1 ensures Codec(more, wider, bytes[i]) {
      if i < index {
        assert Codec(encoder, decoder, bytes[i]);
      }
    }
  }

  /** make_byte_codec: every byte has its character, every character its byte, and nothing else decodes. */
  method MakeByteCodec() returns (encoder: map<Key, Str>, decoder: map<Key, Byte>)
    ensures forall b: Byte :: Codec(encoder, decoder, b)
    ensures OnlyCodes(decoder)
  {
    hide EncodeUtf8, CodeOf, ByteOf, Codec, Listed;
    var bytes, codepoints := ListCodes();
    encoder, decoder := map[], map[];
    var index := 0;
    while index < |bytes|
      invariant Filled(bytes, index, encoder, decoder)
    {
      CodesDiffer(bytes[index], bytes[index]);
      FilledNext(bytes, index, encoder, decoder, codepoints[index]);
      encoder := encoder[Key(bytes[index]) := EncodeUtf8(codepoints[index])];
      decoder := Emplace(decoder, codepoints[index], bytes[index]);
      index := index + 1;
    }
    forall b: Byte ensures Codec(encoder, decoder, b) {
      ListedHas(0x100, b);
      assert b in bytes;
    }
  }
}

/** The tokenizer as an object: a piece cache that never changes an answer, and the encode and decode loops.
    src/qwen/qwen_tokenizer.cc:498-662. */
module TokenizerObjects {
  import opened Wrappers
  import opened Utf8Units
  import opened ByteCodecs
  import opened Pretokenizing
  import opened PairMerging
  import opened Tokenizing

  class Tokenizer {
    const v: Vocab
    var cache: map<Str, seq<nat>>

    /** Every cached answer is the one that would be computed. */
    ghost predicate Valid()
      reads this
    {
      Advancing(v) && CodecOk(v) && KeysOk(v) && forall piece :: piece in cache ==> EncodePiece(v, piece) == Some(cache[piece])
    }

    constructor (v: Vocab)
      requires Advancing(v) && CodecOk(v) && KeysOk(v)
      ensures Valid() && this.v == v
    {
      this.v, cache := v, map[];
    }

    method Piece(piece: Str) returns (r: Option<seq<nat>>)
      requires Valid()
      modifies this
      ensures Valid() && r == EncodePiece(v, piece)
    {
      hide Symbols, MergeAll, Lookup, CodecOk, KeysOk, NoZero;
      if piece in cache {
        return Some(cache[piece]);
      }
      var symbols := ListSymbols(v, piece);
      SymbolsNoZero(v, piece);
      symbols := Merge(v, symbols);
      r := LookUp(v, symbols);
      if r.Some? {
        cache := cache[piece := r.value];
      }
    }

    /** encode_ordinary, appending to nothing. */
    method Ordinary(text: Str) returns (r: Result<seq<nat>, TokenizerError>)
      requires Valid()
      modifies this
      ensures Valid() && r == EncodeOrdinary(v, text)
    {
      hide EncodePiece, Pretokenize;
      var pieces := PretokenizeText(text);
      if pieces == None {
        return Err(InvalidUtf8);
      }
      var tokens: seq<nat> := [];
      var i := 0;
      assert pieces.value[0..] == pieces.value;
      LookedNothing(EncodePieces(v, pieces.value));
      while i < |pieces.value|
        invariant Valid() && i <= |pieces.value|
        invariant EncodePieces(v, pieces.value) == Looked(tokens, EncodePieces(v, pieces.value[i..]))
      {
        assert pieces.value[i..][1..] == pieces.value[i + 1..] && pieces.value[i..][0] == pieces.value[i];
        var encoded := Piece(pieces.value[i]);
        if encoded == None {
          return Err(TokenNotFound);
        }
        LookedMore(tokens, encoded.value, EncodePieces(v, pieces.value[i + 1..]));
        tokens := tokens + encoded.value;
        i := i + 1;
      }
      assert tokens + [] == tokens;
      return Ok(tokens);
    }

    /** The scan over the added tokens. */
    method Next(text: Str, offset: nat) returns (r: Option<Hit>)
      ensures r == NextAdded(v.added, text, offset)
    {
      r := None;
      var j := 0;
      while j < |v.added|
        invariant j <= |v.added|
        invariant NextFrom(v.added, text, offset, j, r) == NextAdded(v.added, text, offset)
      {
        var found := FindIn(text, v.added[j].0, offset);
        if found.Some? && (r == None || found.value < r.value.at) {
          r := Some(Hit(found.value, j));
        }
        j := j + 1;
      }
    }

    method FindIn(text: Str, pattern: Str, from: nat) returns (r: Option<nat>)
      ensures r == Find(text, pattern, from)
    {
      var at := from;
      while at + |pattern| <= |text|
        invariant Find(text, pattern, from) == Find(text, pattern, at)
        decreases |text| - at
      {
        if text[at..at + |pattern|] == pattern {
          return Some(at);
        }
        at := at + 1;
      }
      return None;
    }

    method EncodeWithCheckpoints(text: Str, offsets: seq<nat>) returns (r: Result<Prompt, TokenizerError>)
      requires Valid()
      modifies this
      ensures Valid() && r == EncodePrompt(v, text, offsets)
    {
      hide EncodeOrdinary, NextAdded, Occurs;
      var p := Prompt([], []);
      var offset := 0;
      while offset < |text|
        invariant Valid()
        invariant EncodeFrom(v, text, offset, offsets, p) == EncodePrompt(v, text, offsets)
        decreases if offset < |text| then |text| - offset else 0
      {
        NextAddedIs(v.added, text, offset);
        var next := Next(text, offset);
        if next == None {
          var rest := Ordinary(text[offset..]);
          if rest.Err? {
            return Err(rest.error);
          }
          return Ok(p.(tokens := p.tokens + rest.value));
        }
        var hit := next.value;
        OccursIs(text, v.added[hit.token].0, hit.at);
        var encoded := Ordinary(text[offset..hit.at]);
        if encoded.Err? {
          return Err(encoded.error);
        }
        var q := p.(tokens := p.tokens + encoded.value);
        p := Prompt(q.tokens + [v.added[hit.token].1], Marked(q, offsets, hit.at));
        offset := hit.at + |v.added[hit.token].0|;
      }
      return Ok(p);
    }

    method EncodeText(text: Str) returns (r: Result<seq<nat>, TokenizerError>)
      requires Valid()
      modifies this
      ensures Valid() && r == Encode(v, text)
    {
      var prompt := EncodeWithCheckpoints(text, []);
      if prompt.Err? {
        return Err(prompt.error);
      }
      return Ok(prompt.value.tokens);
    }

    method DecodeTokens(ids: seq<int>, skip: bool) returns (r: Result<Str, TokenizerError>)
      ensures r == Decode(v, ids, skip)
    {
      hide DecodeOne;
      var output: Str := [];
      var i := 0;
      assert ids[0..] == ids;
      DecodedNothing(Decode(v, ids, skip));
      while i < |ids|
        invariant i <= |ids|
        invariant Decode(v, ids, skip) == Decoded(output, Decode(v, ids[i..], skip))
      {
        assert ids[i..][1..] == ids[i + 1..] && ids[i..][0] == ids[i];
        var one := DecodeId(ids[i], skip);
        if one.Err? {
          return one;
        }
        DecodedMore(output, one.value, Decode(v, ids[i + 1..], skip));
        output := output + one.value;
        i := i + 1;
      }
      assert output + [] == output;
      return Ok(output);
    }

    method DecodeId(id: int, skip: bool) returns (r: Result<Str, TokenizerError>)
      ensures r == DecodeOne(v, id, skip)
    {
      if id < 0 || id >= |v.tokens| || v.tokens[id] == [] || id >= |v.special| {
        return Err(TokenIdOutOfRange);
      }
      if v.special[id] {
        return Ok(if skip then [] else v.tokens[id]);
      }
      var units := Split(v.tokens[id]);
      if units == None {
        return Err(InvalidUtf8);
      }
      var bytes := UnitBytes(units.value);
      if bytes == None {
        return Err(InvalidVocabulary);
      }
      return Ok(bytes.value);
    }

    method UnitBytes(units: seq<Unit>) returns (r: Option<Str>)
      ensures r == Bytes(v, units)
    {
      hide Both;
      var output: Str := [];
      var i := 0;
      assert units[0..] == units;
      BothEmpty(Bytes(v, units));
      while i < |units|
        invariant i <= |units|
        invariant Bytes(v, units) == Both(Some(output), Bytes(v, units[i..]))
      {
        var unit := units[i];
        assert units[i..] == [unit] + units[i + 1..];
        BytesCons(v, unit, units[i + 1..]);
        BothAssoc(Some(output), ByteOfUnit(v, unit), Bytes(v, units[i + 1..]));
        if Key(unit.codepoint) !in v.decoder {
          BothNone(output, Bytes(v, units[i + 1..]));
          return None;
        }
        BothSome(output, [v.decoder[Key(unit.codepoint)]]);
        output := output + [v.decoder[Key(unit.codepoint)]];
        i := i + 1;
      }
      BothSome(output, []);
      assert output + [] == output;
      return Some(output);
    }
  }

  lemma BothNone(output: Str, rest: Option<Str>)
    ensures Both(Some(output), Both(None, rest)) == None
  {
  }

  lemma BothSome(a: Str, b: Str)
    ensures Both(Some(a), Some(b)) == Some(a + b)
  {
  }

  lemma LookedMore(output: seq<nat>, ids: seq<nat>, rest: Option<seq<nat>>)
    ensures Looked(output, Looked(ids, rest)) == Looked(output + ids, rest)
  {
    if rest.Some? {
      assert output + (ids + rest.value) == output + ids + rest.value;
    }
  }

  function Decoded(output: Str, rest: Result<Str, TokenizerError>): Result<Str, TokenizerError> {
    if rest.Err? then rest else Ok(output + rest.value)
  }

  lemma DecodedNothing(r: Result<Str, TokenizerError>)
    ensures Decoded([], r) == r
  {
    if r.Ok? {
      assert [] + r.value == r.value;
    }
  }

  lemma DecodedMore(output: Str, one: Str, rest: Result<Str, TokenizerError>)
    ensures Decoded(output, Decoded(one, rest)) == Decoded(output + one, rest)
  {
    if rest.Ok? {
      assert output + (one + rest.value) == output + one + rest.value;
    }
  }
}

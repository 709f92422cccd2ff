/** The byte-level BPE tokenizer: src/qwen/qwen_tokenizer.cc:498-662. */
module Tokenizing {
  import opened Wrappers
  import opened Utf8
  import opened Utf8Units
  import opened ByteCodecs
  import opened Pretokenizing
  import opened PairMerging

  datatype TokenizerError = InvalidUtf8 | TokenNotFound | TokenIdOutOfRange | InvalidVocabulary

  // ---------------------------------------------------------------- encoding ordinary text

  function EncodePieces(v: Vocab, pieces: seq<Str>): Option<seq<nat>> {
    if pieces == [] then Some([])
    else
      var first := EncodePiece(v, pieces[0]);
      if first == None then None else Looked(first.value, EncodePieces(v, pieces[1..]))
  }

  function EncodeOrdinary(v: Vocab, text: Str): Result<seq<nat>, TokenizerError> {
    var pieces := Pretokenize(text);
    if pieces == None then Err(InvalidUtf8)
    else
      var ids := EncodePieces(v, pieces.value);
      if ids == None then Err(TokenNotFound) else Ok(ids.value)
  }

  // ---------------------------------------------------------------- finding added tokens

  predicate Occurs(text: Str, pattern: Str, at: nat) {
    at + |pattern| <= |text| && text[at..at + |pattern|] == pattern
  }

  /** string_view::find from an offset. */
  function Find(text: Str, pattern: Str, from: nat): (r: Option<nat>)
    decreases if from <= |text| then |text| - from + 1 else 0
  {
    if from + |pattern| > |text| then None
    else if text[from..from + |pattern|] == pattern then Some(from)
    else Find(text, pattern, from + 1)
  }

  datatype Hit = Hit(at: nat, token: nat)

  /** The earliest added token from entry j on; at one place, the first listed. */
  function NextFrom(added: seq<(Str, nat)>, text: Str, offset: nat, j: nat, best: Option<Hit>): (r: Option<Hit>)
    requires j <= |added|
    decreases |added| - j
  {
    if j == |added| then best
    else
      var found := Find(text, added[j].0, offset);
      NextFrom(added, text, offset, j + 1,
               if found.Some? && (best == None || found.value < best.value.at) then Some(Hit(found.value, j)) else best)
  }

  function NextAdded(added: seq<(Str, nat)>, text: Str, offset: nat): Option<Hit> {
    NextFrom(added, text, offset, 0, None)
  }

  lemma {:induction false} FindIs(text: Str, pattern: Str, from: nat)
    ensures match Find(text, pattern, from)
            case None => forall q :: from <= q ==> !Occurs(text, pattern, q)
            case Some(p) => from <= p && Occurs(text, pattern, p) && forall q :: from <= q < p ==> !Occurs(text, pattern, q)
    decreases if from <= |text| then |text| - from + 1 else 0
  {
    if from + |pattern| <= |text| && text[from..from + |pattern|] != pattern {
      FindIs(text, pattern, from + 1);
      forall q | from <= q ensures q == from ==> !Occurs(text, pattern, q) {
      }
    }
  }

  /** The least place, and the first token there, among the tokens below n. */
  ghost predicate IsNext(added: seq<(Str, nat)>, text: Str, offset: nat, n: nat, r: Option<Hit>)
    requires n <= |added|
  {
    match r
    case None => forall i, q :: 0 <= i < n && offset <= q ==> !Occurs(text, added[i].0, q)
    case Some(hit) =>
      && hit.token < n && offset <= hit.at && Occurs(text, added[hit.token].0, hit.at)
      && forall i, q :: 0 <= i < n && offset <= q && Occurs(text, added[i].0, q) ==>
                          hit.at < q || (hit.at == q && hit.token <= i)
  }

  lemma NextStep(added: seq<(Str, nat)>, text: Str, offset: nat, j: nat, best: Option<Hit>)
    requires j < |added| && IsNext(added, text, offset, j, best)
    ensures var found := Find(text, added[j].0, offset);
            IsNext(added, text, offset, j + 1,
                   if found.Some? && (best == None || found.value < best.value.at) then Some(Hit(found.value, j)) else best)
  {
    hide Occurs;
    FindIs(text, added[j].0, offset);
  }

  lemma {:induction false} NextFromIs(added: seq<(Str, nat)>, text: Str, offset: nat, j: nat, best: Option<Hit>)
    requires j <= |added| && IsNext(added, text, offset, j, best)
    ensures IsNext(added, text, offset, |added|, NextFrom(added, text, offset, j, best))
    decreases |added| - j
  {
    hide IsNext;
    if j < |added| {
      NextStep(added, text, offset, j, best);
      var found := Find(text, added[j].0, offset);
      NextFromIs(added, text, offset, j + 1,
                 if found.Some? && (best == None || found.value < best.value.at) then Some(Hit(found.value, j)) else best);
    }
  }

  /** What the scan over added tokens finds: the earliest occurrence, the first listed of those, or nothing at all. */
  lemma NextAddedIs(added: seq<(Str, nat)>, text: Str, offset: nat)
    ensures IsNext(added, text, offset, |added|, NextAdded(added, text, offset))
  {
    NextFromIs(added, text, offset, 0, None);
  }

  lemma NextUnique(added: seq<(Str, nat)>, text: Str, offset: nat, a: Option<Hit>, b: Option<Hit>)
    requires IsNext(added, text, offset, |added|, a) && IsNext(added, text, offset, |added|, b)
    ensures a == b
  {
    hide Occurs;
    if a.Some? {
      assert Occurs(text, added[a.value.token].0, a.value.at);
    }
    if b.Some? {
      assert Occurs(text, added[b.value.token].0, b.value.at);
    }
  }

  // ---------------------------------------------------------------- encoding a prompt

  /** No added token is empty: an empty one would be found at every offset, for ever. */
  ghost predicate Advancing(v: Vocab) {
    forall j :: 0 <= j < |v.added| ==> v.added[j].0 != []
  }

  datatype Prompt = Prompt(tokens: seq<nat>, checkpoints: seq<nat>)

  /** The checkpoint test before an added token at text offset `at`. */
  function Marked(p: Prompt, offsets: seq<nat>, at: nat): seq<nat> {
    if p.tokens != [] && at in offsets && (p.checkpoints == [] || p.checkpoints[|p.checkpoints| - 1] != |p.tokens|)
    then p.checkpoints + [|p.tokens|] else p.checkpoints
  }

  /** What one pass through the loop leads to: the end of the call, or the next pass. */
  datatype Pass = Done(result: Result<Prompt, TokenizerError>) | Again(offset: nat, prompt: Prompt)

  /** One pass of the loop of encode_prompt, with its guard. */
  function Iterate(v: Vocab, text: Str, offset: nat, offsets: seq<nat>, p: Prompt): (r: Pass)
    ensures r.Again? ==> offset < |text| && offset <= r.offset && (Advancing(v) ==> offset < r.offset)
  {
    if offset >= |text| then Done(Ok(p))
    else
      NextAddedIs(v.added, text, offset);
      match NextAdded(v.added, text, offset)
      case None =>
        (match EncodeOrdinary(v, text[offset..])
         case Err(e) => Done(Err(e))
         case Ok(ids) => Done(Ok(p.(tokens := p.tokens + ids))))
      case Some(hit) =>
        (match EncodeOrdinary(v, text[offset..hit.at])
         case Err(e) => Done(Err(e))
         case Ok(ids) =>
           var q := p.(tokens := p.tokens + ids);
           Again(hit.at + |v.added[hit.token].0|, Prompt(q.tokens + [v.added[hit.token].1], Marked(q, offsets, hit.at))))
  }

  /** At most n passes of the loop. */
  function Loop(v: Vocab, text: Str, offset: nat, offsets: seq<nat>, p: Prompt, n: nat): Pass
    decreases n
  {
    if n == 0 then Again(offset, p)
    else
      match Iterate(v, text, offset, offsets, p)
      case Done(r) => Done(r)
      case Again(next, q) => Loop(v, text, next, offsets, q, n - 1)
  }

  /** The loop ends, in success or in failure. */
  ghost predicate Ends(v: Vocab, text: Str, offset: nat, offsets: seq<nat>, p: Prompt) {
    exists n :: Loop(v, text, offset, offsets, p, n).Done?
  }

  /** encode_prompt from a text offset on. */
  function EncodeFrom(v: Vocab, text: Str, offset: nat, offsets: seq<nat>, p: Prompt): (r: Result<Prompt, TokenizerError>)
    requires Advancing(v)
    decreases if offset < |text| then |text| - offset else 0
  {
    match Iterate(v, text, offset, offsets, p)
    case Done(r) => r
    case Again(next, q) => EncodeFrom(v, text, next, offsets, q)
  }

  function EncodePrompt(v: Vocab, text: Str, offsets: seq<nat>): Result<Prompt, TokenizerError>
    requires Advancing(v)
  {
    EncodeFrom(v, text, 0, offsets, Prompt([], []))
  }

  function Encode(v: Vocab, text: Str): Result<seq<nat>, TokenizerError>
    requires Advancing(v)
  {
    match EncodePrompt(v, text, [])
    case Err(e) => Err(e)
    case Ok(p) => Ok(p.tokens)
  }

  // ---------------------------------------------------------------- decoding

  function DecodeOne(v: Vocab, id: int, skip: bool): Result<Str, TokenizerError> {
    if id < 0 || id >= |v.tokens| || v.tokens[id] == [] || id >= |v.special| then Err(TokenIdOutOfRange)
    else if v.special[id] then Ok(if skip then [] else v.tokens[id])
    else if SplitUtf8(v.tokens[id]) == None then Err(InvalidUtf8)
    else if BytesOf(v, v.tokens[id]) == None then Err(InvalidVocabulary)
    else Ok(BytesOf(v, v.tokens[id]).value)
  }

  function Decode(v: Vocab, ids: seq<int>, skip: bool): Result<Str, TokenizerError> {
    if ids == [] then Ok([])
    else
      match DecodeOne(v, ids[0], skip)
      case Err(e) => Err(e)
      case Ok(first) =>
        match Decode(v, ids[1..], skip)
        case Err(e) => Err(e)
        case Ok(rest) => Ok(first + rest)
  }

  /** Two decodings in a row: the first failure, or both texts. */
  function Joined(a: Result<Str, TokenizerError>, b: Result<Str, TokenizerError>): Result<Str, TokenizerError> {
    if a.Err? then a else if b.Err? then b else Ok(a.value + b.value)
  }

  lemma JoinedAssoc(a: Result<Str, TokenizerError>, b: Result<Str, TokenizerError>, c: Result<Str, TokenizerError>)
    ensures Joined(a, Joined(b, c)) == Joined(Joined(a, b), c)
  {
    if a.Ok? && b.Ok? && c.Ok? {
      assert a.value + (b.value + c.value) == a.value + b.value + c.value;
    }
  }

  lemma DecodeCons(v: Vocab, ids: seq<int>, skip: bool)
    ensures Decode(v, ids, skip) == if ids == [] then Ok([]) else Joined(DecodeOne(v, ids[0], skip), Decode(v, ids[1..], skip))
  {
    hide DecodeOne;
  }

  /** Decoding is a homomorphism over token lists: both texts, or the failure that comes first. */
  lemma {:induction false} DecodeConcat(v: Vocab, a: seq<int>, b: seq<int>, skip: bool)
    ensures Decode(v, a + b, skip) == Joined(Decode(v, a, skip), Decode(v, b, skip))
  {
    hide DecodeOne;
    if a == [] {
      assert a + b == b;
      assert forall s: Str :: [] + s == s;
    } else {
      assert (a + b)[1..] == a[1..] + b;
      DecodeConcat(v, a[1..], b, skip);
      hide Decode;
      DecodeCons(v, a, skip);
      DecodeCons(v, a + b, skip);
      JoinedAssoc(DecodeOne(v, a[0], skip), Decode(v, a[1..], skip), Decode(v, b, skip));
    }
  }

  /** A token with a string that is not empty. */
  predicate Known(v: Vocab, id: int) {
    0 <= id < |v.tokens| && id < |v.special| && v.tokens[id] != []
  }

  /** The ids of the tokens that are not special, in order. */
  function Unspecial(v: Vocab, ids: seq<int>): seq<int>
    requires forall i :: 0 <= i < |ids| ==> Known(v, ids[i])
  {
    if ids == [] then []
    else
      assert Known(v, ids[0]);
      (if v.special[ids[0]] then [] else [ids[0]]) + Unspecial(v, ids[1..])
  }

  /** Decoding with special tokens skipped is decoding the list without them. */
  lemma {:induction false} SkipLeavesOut(v: Vocab, ids: seq<int>)
    requires forall i :: 0 <= i < |ids| ==> Known(v, ids[i])
    ensures Decode(v, ids, true) == Decode(v, Unspecial(v, ids), false)
  {
    if ids != [] {
      SkipLeavesOut(v, ids[1..]);
      hide Decode;
      assert Known(v, ids[0]);
      DecodeCons(v, ids, true);
      DecodeCons(v, Unspecial(v, ids), false);
      if v.special[ids[0]] {
        assert Unspecial(v, ids) == Unspecial(v, ids[1..]);
        NothingJoined(Decode(v, ids[1..], true));
      } else {
        assert Unspecial(v, ids) == [ids[0]] + Unspecial(v, ids[1..]);
        assert Unspecial(v, ids)[1..] == Unspecial(v, ids[1..]);
      }
    }
  }

  lemma NothingJoined(r: Result<Str, TokenizerError>)
    ensures Joined(Ok([]), r) == r
  {
    if r.Ok? {
      assert [] + r.value == r.value;
    }
  }

  /** Without skipping, a special token contributes its own string; an id without a string fails either way. */
  lemma SpecialStandsForItself(v: Vocab, a: seq<int>, id: int, b: seq<int>)
    ensures Known(v, id) && v.special[id] ==>
              Decode(v, a + [id] + b, false) == Joined(Joined(Decode(v, a, false), Ok(v.tokens[id])), Decode(v, b, false))
    ensures !Known(v, id) ==> forall skip :: Decode(v, a + [id] + b, skip).Err?
  {
    forall skip
      ensures Decode(v, a + [id] + b, skip)
           == Joined(Joined(Decode(v, a, skip), DecodeOne(v, id, skip)), Decode(v, b, skip))
    {
      DecodeConcat(v, a + [id], b, skip);
      DecodeConcat(v, a, [id], skip);
      DecodeSingle(v, id, skip);
    }
  }

  lemma DecodeSingle(v: Vocab, id: int, skip: bool)
    ensures Decode(v, [id], skip) == DecodeOne(v, id, skip)
  {
    hide DecodeOne;
    assert [id][1..] == [];
    if DecodeOne(v, id, skip).Ok? {
      assert DecodeOne(v, id, skip).value + [] == DecodeOne(v, id, skip).value;
    }
  }

  // ---------------------------------------------------------------- round trip

  /** A non-empty added token decodes to itself: because it is special, or because all its bytes stand for themselves. */
  ghost predicate AddedOk(v: Vocab, content: Str, id: nat) {
    content != [] ==>
    && id < |v.tokens| && id < |v.special| && v.tokens[id] == content
    && (v.special[id] || forall i :: 0 <= i < |content| ==> 0x21 <= content[i] <= 0x7E)
  }

  /** A well-formed vocabulary: strings and ids are inverse, symbols are not special, added tokens decode to themselves. */
  ghost predicate VocabOk(v: Vocab) {
    && CodecOk(v) && |v.special| == |v.tokens|
    && (forall s :: s in v.ids ==> v.ids[s] < |v.tokens| && v.tokens[v.ids[s]] == s)
    && (forall s :: s in v.ids && IsSymbol(v, s) ==> !v.special[v.ids[s]])
    && (forall j :: 0 <= j < |v.added| ==> AddedOk(v, v.added[j].0, v.added[j].1))
  }

  lemma SymbolDecodes(v: Vocab, s: Str)
    requires VocabOk(v) && IsSymbol(v, s) && s in v.ids
    ensures DecodeOne(v, v.ids[s], false) == Ok(BytesOf(v, s).value)
  {
    hide CodecOk, SplitUtf8, Bytes;
  }

  lemma {:induction false} SymbolsDecode(v: Vocab, symbols: seq<Str>)
    requires VocabOk(v) && AllSymbols(v, symbols) && Lookup(v, symbols).Some?
    ensures Text(v, symbols).Some? && Decode(v, Lookup(v, symbols).value, false) == Ok(Text(v, symbols).value)
  {
    hide VocabOk, IsSymbol, BytesOf, DecodeOne;
    if symbols != [] {
      SymbolsAt(v, symbols);
      SymbolsRest(v, symbols, 1);
      SymbolDecodes(v, symbols[0]);
      SymbolBytes(v, symbols[0]);
      SymbolsDecode(v, symbols[1..]);
      var id, rest := v.ids[symbols[0]], Lookup(v, symbols[1..]).value;
      assert ([id] + rest)[1..] == rest;
    }
  }

  lemma SymbolBytes(v: Vocab, s: Str)
    requires IsSymbol(v, s)
    ensures BytesOf(v, s).Some?
  {
  }

  lemma TablesOk(v: Vocab)
    requires VocabOk(v)
    ensures CodecOk(v)
  {
  }

  lemma PieceDecodes(v: Vocab, piece: Str)
    requires VocabOk(v) && EncodePiece(v, piece).Some?
    ensures Decode(v, EncodePiece(v, piece).value, false) == Ok(piece)
  {
    hide VocabOk, Decode, Lookup, MergeAll, Symbols, Text, AllSymbols;
    TablesOk(v);
    SymbolsText(v, piece);
    MergeAllKeepsText(v, Symbols(v, piece));
    SymbolsDecode(v, MergeAll(v, Symbols(v, piece)));
  }

  lemma {:induction false} PiecesDecode(v: Vocab, pieces: seq<Str>)
    requires VocabOk(v) && EncodePieces(v, pieces).Some?
    ensures Decode(v, EncodePieces(v, pieces).value, false) == Ok(Concat(pieces))
  {
    hide VocabOk, EncodePiece;
    if pieces != [] {
      hide Decode;
      PieceDecodes(v, pieces[0]);
      PiecesDecode(v, pieces[1..]);
      DecodeConcat(v, EncodePiece(v, pieces[0]).value, EncodePieces(v, pieces[1..]).value, false);
    }
  }

  lemma OrdinaryDecodes(v: Vocab, text: Str)
    requires VocabOk(v) && EncodeOrdinary(v, text).Ok?
    ensures Decode(v, EncodeOrdinary(v, text).value, false) == Ok(text)
  {
    hide VocabOk, Decode, EncodePieces, Pretokenize;
    PretokenizePartitions(text);
    PiecesDecode(v, Pretokenize(text).value);
  }

  lemma SelfByte(b: Byte)
    requires 0x21 <= b <= 0x7E
    ensures CodeOf(b) == b && EncodeUtf8(b) == [b] && Scalar(b)
  {
  }

  /** Text of self-standing bytes is what the codec decodes it to. */
  lemma {:induction false} SelfBytes(v: Vocab, s: Str)
    requires CodecOk(v) && forall i :: 0 <= i < |s| ==> 0x21 <= s[i] <= 0x7E
    ensures SplitUtf8(s).Some? && BytesOf(v, s) == Some(s)
  {
    hide CodeOf, EncodeUtf8, SplitUtf8, Scalar, OnlyCodes, BytesOf;
    if s == [] {
      SplitNothing();
      BytesOfNothing(v);
    } else {
      SelfBytes(v, s[1..]);
      SelfByte(s[0]);
      assert Codec(v.encoder, v.decoder, s[0]);
      SplitEncoded(s[0], s[1..]);
      assert [s[0]] + s[1..] == s;
      OneMoreByte(v, s[0], s[1..], SplitUtf8(s[1..]).value);
    }
  }

  lemma BytesOfNothing(v: Vocab)
    ensures BytesOf(v, []) == Some([])
  {
  }

  lemma OneMoreByte(v: Vocab, b: Byte, rest: Str, units: seq<Unit>)
    requires SplitUtf8([b] + rest) == Some([Unit(b, [b])] + units) && SplitUtf8(rest) == Some(units)
    requires BytesOf(v, rest) == Some(rest) && Key(b) in v.decoder && v.decoder[Key(b)] == b
    ensures BytesOf(v, [b] + rest) == Some([b] + rest)
  {
    hide SplitUtf8;
    BytesCons(v, Unit(b, [b]), units);
  }

  lemma AddedDecodes(v: Vocab, j: nat)
    requires VocabOk(v) && j < |v.added| && v.added[j].0 != []
    ensures Decode(v, [v.added[j].1], false) == Ok(v.added[j].0)
  {
    hide SplitUtf8, BytesOf, CodecOk;
    var content, id := v.added[j].0, v.added[j].1;
    assert AddedOk(v, content, id);
    if !v.special[id] {
      SelfBytes(v, content);
    }
    assert DecodeOne(v, id, false) == Ok(content);
    assert [id][1..] == [];
    assert content + [] == content;
  }

  lemma OccursIs(text: Str, pattern: Str, at: nat)
    requires Occurs(text, pattern, at)
    ensures at + |pattern| <= |text| && text[at..at + |pattern|] == pattern
  {
  }

  /** A pass that goes nowhere is followed by another one that goes nowhere, whatever was encoded before. */
  lemma {:induction false} NoWayOut(v: Vocab, text: Str, offset: nat, offsets: seq<nat>, p: Prompt, q: Prompt, n: nat)
    requires Iterate(v, text, offset, offsets, p).Again? && Iterate(v, text, offset, offsets, p).offset == offset
    ensures Loop(v, text, offset, offsets, q, n).Again?
    decreases n
  {
    hide NextAdded, EncodeOrdinary, Marked, Advancing, Occurs;
    if n > 0 {
      var r := Iterate(v, text, offset, offsets, q);
      NoWayOut(v, text, offset, offsets, p, r.prompt, n - 1);
    }
  }

  /** One pass that gets further keeps the tokens in step with the text. */
  lemma PassDecodes(v: Vocab, text: Str, offset: nat, offsets: seq<nat>, p: Prompt)
    requires VocabOk(v) && offset < |text| && Decode(v, p.tokens, false) == Ok(text[..offset])
    ensures var r := Iterate(v, text, offset, offsets, p);
            && (r.Done? && r.result.Ok? ==> Decode(v, r.result.value.tokens, false) == Ok(text))
            && (r.Again? ==>
                  && r.offset <= |text|
                  && (r.offset != offset ==> Decode(v, r.prompt.tokens, false) == Ok(text[..r.offset])))
  {
    hide VocabOk, Decode, EncodeOrdinary, NextAdded, Occurs, Marked;
    NextAddedIs(v.added, text, offset);
    match NextAdded(v.added, text, offset) {
      case None =>
        var ordinary := EncodeOrdinary(v, text[offset..]);
        if ordinary.Ok? {
          OrdinaryDecodes(v, text[offset..]);
          DecodeConcat(v, p.tokens, ordinary.value, false);
          assert text[..offset] + text[offset..] == text;
        }
      case Some(hit) =>
        OccursIs(text, v.added[hit.token].0, hit.at);
        var ordinary := EncodeOrdinary(v, text[offset..hit.at]);
        if ordinary.Ok? && v.added[hit.token].0 != [] {
          OrdinaryDecodes(v, text[offset..hit.at]);
          DecodeConcat(v, p.tokens, ordinary.value, false);
          AddedDecodes(v, hit.token);
          DecodeConcat(v, p.tokens + ordinary.value, [v.added[hit.token].1], false);
          var next := hit.at + |v.added[hit.token].0|;
          assert text[..offset] + text[offset..hit.at] + text[hit.at..next] == text[..next];
        } else if ordinary.Ok? {
          EmptyHit(v, text, offset, hit);
        }
    }
  }

  /** An empty added token is found where the search starts. */
  lemma EmptyHit(v: Vocab, text: Str, offset: nat, hit: Hit)
    requires offset < |text| && IsNext(v.added, text, offset, |v.added|, Some(hit)) && v.added[hit.token].0 == []
    ensures hit.at == offset
  {
    assert Occurs(text, v.added[hit.token].0, offset);
  }

  /** Whenever the loop ends with tokens, they decode to the text. */
  lemma {:induction false} LoopDecodes(v: Vocab, text: Str, offset: nat, offsets: seq<nat>, p: Prompt, n: nat)
    requires VocabOk(v) && offset <= |text| && Decode(v, p.tokens, false) == Ok(text[..offset])
    ensures var r := Loop(v, text, offset, offsets, p, n);
            r.Done? && r.result.Ok? ==> Decode(v, r.result.value.tokens, false) == Ok(text)
    decreases n
  {
    hide VocabOk, Decode, Iterate;
    if n > 0 {
      if offset == |text| {
        LoopOver(v, text, offsets, p);
      } else {
        PassDecodes(v, text, offset, offsets, p);
        var r := Iterate(v, text, offset, offsets, p);
        if r.Again? {
          if r.offset == offset {
            NoWayOut(v, text, offset, offsets, p, r.prompt, n - 1);
          } else {
            LoopDecodes(v, text, r.offset, offsets, r.prompt, n - 1);
          }
        }
      }
    }
  }

  lemma LoopOver(v: Vocab, text: Str, offsets: seq<nat>, p: Prompt)
    ensures Iterate(v, text, |text|, offsets, p) == Done(Ok(p)) && text[..|text|] == text
  {
  }

  /** Without an empty added token the loop ends with the encoding. */
  lemma {:induction false} AdvancingEnds(v: Vocab, text: Str, offset: nat, offsets: seq<nat>, p: Prompt) returns (n: nat)
    requires Advancing(v)
    ensures Loop(v, text, offset, offsets, p, n) == Done(EncodeFrom(v, text, offset, offsets, p))
    decreases if offset < |text| then |text| - offset else 0
  {
    var r := Iterate(v, text, offset, offsets, p);
    hide Iterate, Advancing;
    if r.Done? {
      n := 1;
    } else {
      var m := AdvancingEnds(v, text, r.offset, offsets, r.prompt);
      n := m + 1;
    }
  }

  /** Whenever encode_prompt ends with tokens, decoding them (special ones included) gives the text back; the vocabulary may
      even hold an empty added token. */
  lemma EndedDecodes(v: Vocab, text: Str, offsets: seq<nat>, n: nat)
    requires VocabOk(v)
    ensures var r := Loop(v, text, 0, offsets, Prompt([], []), n);
            r.Done? && r.result.Ok? ==> Decode(v, r.result.value.tokens, false) == Ok(text)
  {
    hide VocabOk, Loop;
    assert text[..0] == [];
    LoopDecodes(v, text, 0, offsets, Prompt([], []), n);
  }

  /** Whenever a text can be encoded, decoding its tokens (special ones included) gives the text back. */
  lemma EncodeDecodes(v: Vocab, text: Str)
    requires VocabOk(v) && Advancing(v)
    ensures Encode(v, text).Ok? ==> Decode(v, Encode(v, text).value, false) == Ok(text)
  {
    hide VocabOk, EncodeFrom, Loop, Advancing;
    var n := AdvancingEnds(v, text, 0, [], Prompt([], []));
    EndedDecodes(v, text, [], n);
  }
}

/** The two streaming decoders: one decodes the whole history at each token, the other keeps only the unfinished
    character. src/model_runner.cc:48-77 and src/qwen/qwen_model_runner.cc:20-45. */
module TextDecoders {
  import opened Wrappers
  import opened Utf8

  type Token = int

  /** What one token decodes to; None for a token the tokenizer does not know. */
  type Vocabulary = Token -> Option<seq<Byte>>

  datatype DecodeError = UnknownToken | BadText

  /** decode(tokens): the concatenation of the tokens' bytes. */
  function Decode(v: Vocabulary, tokens: seq<Token>): Option<seq<Byte>> {
    if tokens == [] then Some([])
    else
      var before, last := Decode(v, tokens[..|tokens| - 1]), v(tokens[|tokens| - 1]);
      if before.Some? && last.Some? then Some(before.value + last.value) else None
  }

  /** Decoding is a homomorphism over token lists. */
  lemma {:induction false} DecodeConcat(v: Vocabulary, a: seq<Token>, b: seq<Token>)
    ensures Decode(v, a + b) == if Decode(v, a).Some? && Decode(v, b).Some?
                                then Some(Decode(v, a).value + Decode(v, b).value) else None
    decreases |b|
  {
    if b == [] {
      assert a + b == a;
      if Decode(v, a).Some? {
        assert Decode(v, a).value + [] == Decode(v, a).value;
      }
    } else {
      var n := |b| - 1;
      assert (a + b)[..|a + b| - 1] == a + b[..n];
      DecodeConcat(v, a, b[..n]);
      if Decode(v, a).Some? && Decode(v, b[..n]).Some? && v(b[n]).Some? {
        assert Decode(v, a).value + (Decode(v, b[..n]).value + v(b[n]).value)
            == Decode(v, a).value + Decode(v, b[..n]).value + v(b[n]).value;
      }
    }
  }

  // ---------------------------------------------------------------- one push

  datatype History = History(tokens: seq<Token>, emitted: seq<Byte>)

  /** prefix_decoder::push: decode everything again and emit what is newly complete. */
  function PushAll(v: Vocabulary, h: History, token: Token, final: bool): (r: (History, Result<seq<Byte>, DecodeError>)) {
    var tokens := h.tokens + [token];
    match Decode(v, tokens)
    case None => (History(tokens, h.emitted), Err(UnknownToken))
    case Some(text) =>
      var prefix := Scan(text);
      if prefix == None || (final && prefix.value != |text|) || !(h.emitted <= text) || prefix.value < |h.emitted|
      then (History(tokens, h.emitted), Err(BadText))
      else
        var delta := text[|h.emitted|..prefix.value];
        (History(tokens, h.emitted + delta), Ok(delta))
  }

  /** qwen_text_decoder::push: append the token's bytes to the unfinished ones and emit what is complete. */
  function PushTail(v: Vocabulary, pending: seq<Byte>, token: Token, final: bool): (r: (seq<Byte>, Result<seq<Byte>, DecodeError>)) {
    match v(token)
    case None => (pending, Err(UnknownToken))
    case Some(bytes) =>
      var grown := pending + bytes;
      var prefix := Scan(grown);
      if prefix == None || (final && prefix.value != |grown|) then (grown, Err(BadText))
      else (grown[prefix.value..], Ok(grown[..prefix.value]))
  }

  /** The decoders agree so far: all text is what was emitted, complete, followed by the unfinished bytes. */
  ghost predicate Agree(v: Vocabulary, h: History, pending: seq<Byte>) {
    Decode(v, h.tokens) == Some(h.emitted + pending) && WellFormed(h.emitted)
  }

  /** In step, both decoders answer a push alike: the same delta, or the same failure; and stay in step. The emitted text
      never outruns the complete prefix, so the difference of the two lengths in the source cannot wrap. */
  lemma PushesAgree(v: Vocabulary, h: History, pending: seq<Byte>, token: Token, final: bool)
    requires Agree(v, h, pending)
    ensures PushAll(v, h, token, final).1 == PushTail(v, pending, token, final).1
    ensures PushAll(v, h, token, final).1.Ok? ==>
              Agree(v, PushAll(v, h, token, final).0, PushTail(v, pending, token, final).0)
    ensures Decode(v, h.tokens + [token]).Some? ==>
              var text := Decode(v, h.tokens + [token]).value;
              h.emitted <= text && (Scan(text).Some? ==> |h.emitted| <= Scan(text).value)
  {
    var tokens := h.tokens + [token];
    assert tokens[..|tokens| - 1] == h.tokens;
    if v(token).Some? {
      var grown := pending + v(token).value;
      var text := h.emitted + pending + v(token).value;
      assert text == h.emitted + grown;
      ScanFrom(h.emitted, grown);
      if Scan(grown).Some? {
        EmitAgrees(h.emitted, grown, Scan(grown).value);
      }
    }
  }

  lemma EmitAgrees(emitted: seq<Byte>, grown: seq<Byte>, k: nat)
    requires WellFormed(emitted) && Scan(grown) == Some(k)
    ensures k <= |grown| && WellFormed(emitted + grown[..k])
    ensures (emitted + grown)[|emitted|..|emitted| + k] == grown[..k]
    ensures emitted + grown == emitted + grown[..k] + grown[k..]
  {
    hide Scan, WellFormed, Announced;
    ScanStops(grown);
    WellFormedJoin(emitted, grown[..k]);
    SplitAt(emitted, grown, k);
  }

  lemma SplitAt(a: seq<Byte>, b: seq<Byte>, k: nat)
    requires k <= |b|
    ensures (a + b)[|a|..|a| + k] == b[..k]
    ensures a + b == a + b[..k] + b[k..]
  {
  }

  /** A push fails exactly when the token is unknown, the bytes cannot be the beginning of well-formed text, or, at the end of
      the stream, they are not well-formed; and it emits all characters that are complete. */
  lemma PushExactly(v: Vocabulary, pending: seq<Byte>, token: Token, final: bool)
    ensures var r := PushTail(v, pending, token, final).1;
            match v(token)
            case None => r == Err(UnknownToken)
            case Some(bytes) =>
              var text := pending + bytes;
              (r.Ok? <==> Scan(text).Some? && (final ==> WellFormed(text)))
              && (r.Ok? ==> r.value <= text && WellFormed(r.value)
                            && forall k :: |r.value| < k <= |text| ==> !WellFormed(text[..k]))
  {
    hide Scan, WellFormed;
    if v(token).Some? {
      var text := pending + v(token).value;
      if Scan(text).Some? {
        ScanStops(text);
        forall k | Scan(text).value < k <= |text| ensures !WellFormed(text[..k]) {
          ScanIsLongest(text, k);
        }
        assert text[..|text|] == text;
      }
    }
  }

  // ---------------------------------------------------------------- whole streams

  datatype Push = Push(token: Token, final: bool)

  /** The deltas of a stream up to the first failure. */
  function DeltasAll(v: Vocabulary, h: History, pushes: seq<Push>): (seq<seq<Byte>>, Option<DecodeError>)
    decreases |pushes|
  {
    if pushes == [] then ([], None)
    else
      var r := PushAll(v, h, pushes[0].token, pushes[0].final);
      match r.1
      case Err(e) => ([], Some(e))
      case Ok(delta) =>
        var rest := DeltasAll(v, r.0, pushes[1..]);
        ([delta] + rest.0, rest.1)
  }

  function DeltasTail(v: Vocabulary, pending: seq<Byte>, pushes: seq<Push>): (seq<seq<Byte>>, Option<DecodeError>)
    decreases |pushes|
  {
    if pushes == [] then ([], None)
    else
      var r := PushTail(v, pending, pushes[0].token, pushes[0].final);
      match r.1
      case Err(e) => ([], Some(e))
      case Ok(delta) =>
        var rest := DeltasTail(v, r.0, pushes[1..]);
        ([delta] + rest.0, rest.1)
  }

  lemma {:induction false} StreamsAgreeFrom(v: Vocabulary, h: History, pending: seq<Byte>, pushes: seq<Push>)
    requires Agree(v, h, pending)
    ensures DeltasAll(v, h, pushes) == DeltasTail(v, pending, pushes)
    decreases |pushes|
  {
    hide Agree, PushAll, PushTail;
    if pushes != [] {
      var p := pushes[0];
      PushesAgree(v, h, pending, p.token, p.final);
      if PushAll(v, h, p.token, p.final).1.Ok? {
        StreamsAgreeFrom(v, PushAll(v, h, p.token, p.final).0, PushTail(v, pending, p.token, p.final).0, pushes[1..]);
      }
    }
  }

  /** The incremental decoder refines the one that decodes everything: same deltas, same failure, on every stream. */
  lemma StreamsAgree(v: Vocabulary, pushes: seq<Push>)
    ensures DeltasAll(v, History([], []), pushes) == DeltasTail(v, [], pushes)
  {
    var nothing: seq<Byte> := [];
    assert nothing + nothing == nothing;
    StreamsAgreeFrom(v, History([], []), [], pushes);
  }

  function Concat(deltas: seq<seq<Byte>>): seq<Byte> {
    if deltas == [] then [] else deltas[0] + Concat(deltas[1..])
  }

  function Tokens(pushes: seq<Push>): seq<Token> {
    if pushes == [] then [] else [pushes[0].token] + Tokens(pushes[1..])
  }

  /** The text seen so far is complete up to the unfinished bytes, and those are a character cut short. */
  ghost predicate Emitted(text: seq<Byte>, emitted: seq<Byte>) {
    emitted <= text && Stops(text, |emitted|)
  }

  lemma PushEmits(v: Vocabulary, h: History, token: Token, final: bool)
    requires PushAll(v, h, token, final).1.Ok?
    ensures var r := PushAll(v, h, token, final);
            && Decode(v, r.0.tokens).Some? && r.0.tokens == h.tokens + [token]
            && r.0.emitted == h.emitted + r.1.value
            && Emitted(Decode(v, r.0.tokens).value, r.0.emitted)
            && (final ==> r.0.emitted == Decode(v, r.0.tokens).value)
  {
    hide Scan, Stops;
    var text := Decode(v, h.tokens + [token]).value;
    ScanStops(text);
    var k := Scan(text).value;
    assert h.emitted + text[|h.emitted|..k] == text[..k];
  }

  lemma {:induction false} StreamEmitsFrom(v: Vocabulary, h: History, pushes: seq<Push>)
    requires pushes != [] && DeltasAll(v, h, pushes).1 == None
    ensures var tokens := h.tokens + Tokens(pushes);
            var emitted := h.emitted + Concat(DeltasAll(v, h, pushes).0);
            && Decode(v, tokens).Some? && Emitted(Decode(v, tokens).value, emitted)
            && (pushes[|pushes| - 1].final ==> emitted == Decode(v, tokens).value)
    decreases |pushes|
  {
    hide PushAll, Emitted, Decode, Tokens, Concat;
    var p := pushes[0];
    var r := PushAll(v, h, p.token, p.final);
    PushEmits(v, h, p.token, p.final);
    var rest := DeltasAll(v, r.0, pushes[1..]);
    ConcatCons(r.1.value, rest.0);
    TokensCons(pushes);
    assert h.emitted + (r.1.value + Concat(rest.0)) == r.0.emitted + Concat(rest.0);
    assert h.tokens + ([p.token] + Tokens(pushes[1..])) == r.0.tokens + Tokens(pushes[1..]);
    if |pushes| > 1 {
      StreamEmitsFrom(v, r.0, pushes[1..]);
    } else {
      NothingMore(v, r.0, pushes[1..]);
    }
  }

  lemma ConcatCons(delta: seq<Byte>, rest: seq<seq<Byte>>)
    ensures Concat([delta] + rest) == delta + Concat(rest)
  {
    assert ([delta] + rest)[1..] == rest;
  }

  lemma TokensCons(pushes: seq<Push>)
    requires pushes != []
    ensures Tokens(pushes) == [pushes[0].token] + Tokens(pushes[1..])
  {
  }

  lemma NothingMore(v: Vocabulary, h: History, pushes: seq<Push>)
    requires pushes == []
    ensures h.tokens + Tokens(pushes) == h.tokens && h.emitted + Concat(DeltasAll(v, h, pushes).0) == h.emitted
  {
  }

  /** The deltas of a stream without failure, put together, are the longest well-formed prefix of the whole decoded text,
      and all of it once the last push was final. */
  lemma StreamEmitsText(v: Vocabulary, pushes: seq<Push>)
    requires pushes != [] && DeltasTail(v, [], pushes).1 == None
    ensures var emitted := Concat(DeltasTail(v, [], pushes).0);
            && Decode(v, Tokens(pushes)).Some?
            && var text := Decode(v, Tokens(pushes)).value;
               && emitted <= text && WellFormed(emitted)
               && (forall m :: |emitted| < m <= |text| ==> !WellFormed(text[..m]))
               && (pushes[|pushes| - 1].final ==> emitted == text)
  {
    hide DeltasTail, DeltasAll, Decode, Tokens, Concat, WellFormed, Scan, Announced;
    StreamsAgree(v, pushes);
    StreamEmitsFrom(v, History([], []), pushes);
    var emitted := Concat(DeltasTail(v, [], pushes).0);
    assert [] + Tokens(pushes) == Tokens(pushes) && [] + emitted == emitted;
    var text := Decode(v, Tokens(pushes)).value;
    assert text[..|emitted|] == emitted;
    StopsScan(text, |emitted|);
    forall m | |emitted| < m <= |text| ensures !WellFormed(text[..m]) {
      ScanIsLongest(text, m);
    }
  }

  // ---------------------------------------------------------------- the decoder objects

  class PrefixDecoder {
    const vocabulary: Vocabulary
    var tokens: seq<Token>
    var emitted: seq<Byte>

    constructor (vocabulary: Vocabulary)
      ensures this.vocabulary == vocabulary && tokens == [] && emitted == []
    {
      this.vocabulary, tokens, emitted := vocabulary, [], [];
    }

    method Push(token: Token, final: bool) returns (r: Result<seq<Byte>, DecodeError>)
      modifies this
      ensures (History(tokens, emitted), r) == PushAll(vocabulary, History(old(tokens), old(emitted)), token, final)
    {
      tokens := tokens + [token];
      var text := Decode(vocabulary, tokens);
      if text == None {
        return Err(UnknownToken);
      }
      var prefix := CompleteUtf8Prefix(text.value);
      if prefix == None || (final && prefix.value != |text.value|) || !(emitted <= text.value) || prefix.value < |emitted| {
        return Err(BadText);
      }
      var delta := text.value[|emitted|..prefix.value];
      emitted := emitted + delta;
      return Ok(delta);
    }
  }

  class TextDecoder {
    const vocabulary: Vocabulary
    var pending: seq<Byte>

    constructor (vocabulary: Vocabulary)
      ensures this.vocabulary == vocabulary && pending == []
    {
      this.vocabulary, pending := vocabulary, [];
    }

    method Push(token: Token, final: bool) returns (r: Result<seq<Byte>, DecodeError>)
      modifies this
      ensures (pending, r) == PushTail(vocabulary, old(pending), token, final)
    {
      var bytes := vocabulary(token);
      if bytes == None {
        return Err(UnknownToken);
      }
      pending := pending + bytes.value;
      var prefix := CompleteUtf8Prefix(pending);
      if prefix == None || (final && prefix.value != |pending|) {
        return Err(BadText);
      }
      var delta := pending[..prefix.value];
      pending := pending[prefix.value..];
      return Ok(delta);
    }
  }
}

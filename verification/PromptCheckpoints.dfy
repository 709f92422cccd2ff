/** Checkpoints recorded while a prompt is encoded are sound prefixes: src/qwen/qwen_tokenizer.cc:566-618. */
module PromptCheckpoints {
  import opened Wrappers
  import opened Utf8Units
  import opened PairMerging
  import opened Tokenizing
  import Sequences
  import TextDecoders

  // ---------------------------------------------------------------- a text cut short is encoded alike

  lemma OccursCut(text: Str, m: nat, pattern: Str, at: nat)
    requires m <= |text|
    ensures Occurs(text[..m], pattern, at) <==> Occurs(text, pattern, at) && at + |pattern| <= m
  {
    if at + |pattern| <= m {
      assert text[..m][at..at + |pattern|] == text[at..at + |pattern|];
    }
  }

  /** Cutting a text behind the next added token does not change which one is next. */
  lemma NextCutBehind(v: Vocab, text: Str, offset: nat, m: nat, hit: Hit)
    requires m <= |text| && NextAdded(v.added, text, offset) == Some(hit)
    requires hit.token < |v.added| && hit.at + |v.added[hit.token].0| <= m
    ensures NextAdded(v.added, text[..m], offset) == Some(hit)
  {
    hide NextAdded, Occurs;
    NextAddedIs(v.added, text, offset);
    NextAddedIs(v.added, text[..m], offset);
    CutIsNext(v, text, offset, m, hit);
    NextUnique(v.added, text[..m], offset, NextAdded(v.added, text[..m], offset), Some(hit));
  }

  lemma CutIsNext(v: Vocab, text: Str, offset: nat, m: nat, hit: Hit)
    requires m <= |text| && IsNext(v.added, text, offset, |v.added|, Some(hit))
    requires hit.token < |v.added| && hit.at + |v.added[hit.token].0| <= m
    ensures IsNext(v.added, text[..m], offset, |v.added|, Some(hit))
  {
    hide Occurs;
    OccursCut(text, m, v.added[hit.token].0, hit.at);
    forall i, q | 0 <= i < |v.added| && offset <= q && Occurs(text[..m], v.added[i].0, q)
      ensures hit.at < q || (hit.at == q && hit.token <= i)
    {
      OccursCut(text, m, v.added[i].0, q);
    }
  }

  /** Cutting it before the next added token leaves none. */
  lemma NextCutBefore(v: Vocab, text: Str, offset: nat, hit: Hit)
    requires Advancing(v) && NextAdded(v.added, text, offset) == Some(hit) && hit.at <= |text|
    ensures NextAdded(v.added, text[..hit.at], offset) == None
  {
    hide NextAdded, Occurs;
    NextAddedIs(v.added, text, offset);
    NextAddedIs(v.added, text[..hit.at], offset);
    forall i, q | 0 <= i < |v.added| && offset <= q ensures !Occurs(text[..hit.at], v.added[i].0, q) {
      OccursCut(text, hit.at, v.added[i].0, q);
      assert v.added[i].0 != [];
    }
    NextUnique(v.added, text[..hit.at], offset, NextAdded(v.added, text[..hit.at], offset), None);
  }

  /** Encoding any cut of the text that reaches `offset` passes through this state. */
  ghost predicate PassesThrough(v: Vocab, text: Str, offset: nat, tokens: seq<nat>)
    requires Advancing(v)
  {
    forall m :: offset <= m <= |text| ==>
      EncodeFrom(v, text[..m], 0, [], Prompt([], [])) == EncodeFrom(v, text[..m], offset, [], Prompt(tokens, []))
  }

  lemma EmptyOrdinary(v: Vocab)
    ensures EncodeOrdinary(v, []) == Ok([])
  {
    SplitNothing();
  }

  /** Encoding the text up to the next added token yields exactly the tokens so far. */
  lemma CutAtHit(v: Vocab, text: Str, offset: nat, tokens: seq<nat>, hit: Hit, ids: seq<nat>)
    requires Advancing(v) && offset < |text| && PassesThrough(v, text, offset, tokens)
    requires NextAdded(v.added, text, offset) == Some(hit) && offset <= hit.at <= |text|
    requires EncodeOrdinary(v, text[offset..hit.at]) == Ok(ids)
    ensures Encode(v, text[..hit.at]) == Ok(tokens + ids)
  {
    hide NextAdded, EncodeOrdinary;
    var cut := text[..hit.at];
    assert EncodeFrom(v, cut, 0, [], Prompt([], [])) == EncodeFrom(v, cut, offset, [], Prompt(tokens, []));
    if offset == hit.at {
      EmptyOrdinary(v);
      assert text[offset..hit.at] == [];
      assert tokens + [] == tokens;
    } else {
      NextCutBefore(v, text, offset, hit);
      assert cut[offset..] == text[offset..hit.at];
    }
  }

  lemma PassesOn(v: Vocab, text: Str, offset: nat, tokens: seq<nat>, hit: Hit, ids: seq<nat>)
    requires Advancing(v) && offset < |text| && PassesThrough(v, text, offset, tokens)
    requires NextAdded(v.added, text, offset) == Some(hit) && hit.token < |v.added|
    requires offset <= hit.at && hit.at + |v.added[hit.token].0| <= |text|
    requires EncodeOrdinary(v, text[offset..hit.at]) == Ok(ids)
    ensures PassesThrough(v, text, hit.at + |v.added[hit.token].0|, tokens + ids + [v.added[hit.token].1])
  {
    hide NextAdded, EncodeOrdinary;
    var next := hit.at + |v.added[hit.token].0|;
    forall m | next <= m <= |text|
      ensures EncodeFrom(v, text[..m], 0, [], Prompt([], []))
           == EncodeFrom(v, text[..m], next, [], Prompt(tokens + ids + [v.added[hit.token].1], []))
    {
      NextCutBehind(v, text, offset, m, hit);
      assert text[..m][offset..hit.at] == text[offset..hit.at];
      assert v.added[hit.token].0 != [];
    }
  }

  // ---------------------------------------------------------------- soundness

  /** The first n tokens are the encoding of the text up to one of the requested offsets. */
  ghost predicate CheckpointOk(v: Vocab, text: Str, offsets: seq<nat>, tokens: seq<nat>, n: nat)
    requires Advancing(v)
  {
    0 < n < |tokens| && exists o :: o in offsets && o <= |text| && Encode(v, text[..o]) == Ok(tokens[..n])
  }

  ghost predicate CheckpointsOk(v: Vocab, text: Str, offsets: seq<nat>, p: Prompt)
    requires Advancing(v)
  {
    && Sequences.Increasing(p.checkpoints)
    && forall i :: 0 <= i < |p.checkpoints| ==> CheckpointOk(v, text, offsets, p.tokens, p.checkpoints[i])
  }

  lemma CheckpointStays(v: Vocab, text: Str, offsets: seq<nat>, tokens: seq<nat>, more: seq<nat>, n: nat)
    requires Advancing(v) && CheckpointOk(v, text, offsets, tokens, n) && tokens <= more
    ensures CheckpointOk(v, text, offsets, more, n)
  {
    assert more[..n] == tokens[..n];
  }

  lemma CheckpointsStay(v: Vocab, text: Str, offsets: seq<nat>, p: Prompt, more: seq<nat>)
    requires Advancing(v) && CheckpointsOk(v, text, offsets, p) && p.tokens <= more
    ensures CheckpointsOk(v, text, offsets, p.(tokens := more))
  {
    hide CheckpointOk;
    forall i | 0 <= i < |p.checkpoints| ensures CheckpointOk(v, text, offsets, more, p.checkpoints[i]) {
      CheckpointStays(v, text, offsets, p.tokens, more, p.checkpoints[i]);
    }
  }

  lemma CheckpointRecorded(v: Vocab, text: Str, offsets: seq<nat>, p: Prompt, ids: seq<nat>, at: nat, id: nat)
    requires Advancing(v) && CheckpointsOk(v, text, offsets, p)
    requires at <= |text| && Encode(v, text[..at]) == Ok(p.tokens + ids)
    ensures var q := p.(tokens := p.tokens + ids);
            CheckpointsOk(v, text, offsets, Prompt(q.tokens + [id], Marked(q, offsets, at)))
  {
    hide Encode;
    var q := p.(tokens := p.tokens + ids);
    var more := q.tokens + [id];
    CheckpointsStay(v, text, offsets, p, more);
    var marked := Marked(q, offsets, at);
    forall i | 0 <= i < |marked| ensures CheckpointOk(v, text, offsets, more, marked[i]) {
      if i == |p.checkpoints| {
        assert more[..|q.tokens|] == q.tokens;
      } else {
        assert CheckpointOk(v, text, offsets, more, p.checkpoints[i]);
      }
    }
    LastBelow(v, text, offsets, p);
  }

  lemma LastBelow(v: Vocab, text: Str, offsets: seq<nat>, p: Prompt)
    requires Advancing(v) && CheckpointsOk(v, text, offsets, p)
    ensures forall i :: 0 <= i < |p.checkpoints| ==> p.checkpoints[i] < |p.tokens|
  {
    forall i | 0 <= i < |p.checkpoints| ensures p.checkpoints[i] < |p.tokens| {
      assert CheckpointOk(v, text, offsets, p.tokens, p.checkpoints[i]);
    }
  }

  lemma {:induction false} CheckpointsSoundFrom(v: Vocab, text: Str, offset: nat, offsets: seq<nat>, p: Prompt)
    requires Advancing(v) && offset <= |text| && PassesThrough(v, text, offset, p.tokens)
    requires CheckpointsOk(v, text, offsets, p)
    ensures var r := EncodeFrom(v, text, offset, offsets, p); r.Ok? ==> CheckpointsOk(v, text, offsets, r.value)
    decreases |text| - offset
  {
    hide PassesThrough, CheckpointsOk, EncodeOrdinary, NextAdded, Occurs, Encode, Marked, Advancing;
    if offset < |text| {
      NextAddedIs(v.added, text, offset);
      match NextAdded(v.added, text, offset) {
        case None =>
          var ordinary := EncodeOrdinary(v, text[offset..]);
          if ordinary.Ok? {
            CheckpointsStay(v, text, offsets, p, p.tokens + ordinary.value);
          }
        case Some(hit) =>
          OccursIs(text, v.added[hit.token].0, hit.at);
          Nonempty(v, hit.token);
          var ordinary := EncodeOrdinary(v, text[offset..hit.at]);
          if ordinary.Ok? {
            CutAtHit(v, text, offset, p.tokens, hit, ordinary.value);
            PassesOn(v, text, offset, p.tokens, hit, ordinary.value);
            var q := p.(tokens := p.tokens + ordinary.value);
            var id, next := v.added[hit.token].1, hit.at + |v.added[hit.token].0|;
            CheckpointRecorded(v, text, offsets, p, ordinary.value, hit.at, id);
            CheckpointsSoundFrom(v, text, next, offsets, Prompt(q.tokens + [id], Marked(q, offsets, hit.at)));
          }
      }
    }
  }

  lemma Nonempty(v: Vocab, j: nat)
    requires Advancing(v) && j < |v.added|
    ensures v.added[j].0 != []
  {
  }

  /** The checkpoints of an encoded prompt are strictly increasing, strictly inside it, and each cuts it where the
      encoding of the text up to a requested offset ends. */
  lemma CheckpointsSound(v: Vocab, text: Str, offsets: seq<nat>)
    requires Advancing(v)
    ensures EncodePrompt(v, text, offsets).Ok? ==> CheckpointsOk(v, text, offsets, EncodePrompt(v, text, offsets).value)
  {
    hide EncodeFrom;
    CheckpointsSoundFrom(v, text, 0, offsets, Prompt([], []));
  }

  /** So a sequence made from an encoded prompt and its checkpoints is accepted. */
  lemma SequenceAccepts(v: Vocab, text: Str, offsets: seq<nat>, id: nat, params: Sequences.Params)
    requires Advancing(v) && EncodePrompt(v, text, offsets).Ok?
    requires EncodePrompt(v, text, offsets).value.tokens != [] && params.maxNewTokens != 0
    ensures var p := EncodePrompt(v, text, offsets).value;
            Sequences.Make(id, p.tokens, params, p.checkpoints).Ok?
  {
    hide EncodePrompt, Sequences.Make;
    CheckpointsSound(v, text, offsets);
    var p := EncodePrompt(v, text, offsets).value;
    forall c | c in p.checkpoints ensures 0 < c < |p.tokens| && multiset(p.checkpoints)[c] == 1 {
      var i :| 0 <= i < |p.checkpoints| && p.checkpoints[i] == c;
      assert CheckpointOk(v, text, offsets, p.tokens, p.checkpoints[i]);
      Sequences.OnceInIncreasing(p.checkpoints, c);
    }
    Sequences.MakeAcceptsExactly(id, p.tokens, params, p.checkpoints);
  }

  // ---------------------------------------------------------------- decoding is a homomorphism

  /** The tokenizer as the streaming decoders see it. */
  function Streamed(v: Vocab): TextDecoders.Vocabulary {
    (token: int) => match DecodeOne(v, token, true) case Ok(bytes) => Some(bytes) case Err(_) => None
  }

  /** Decoding a list of tokens is decoding each and joining the results, and fails when one of them fails. */
  lemma {:induction false} DecodeIsStreamed(v: Vocab, ids: seq<int>)
    ensures match Decode(v, ids, true)
            case Ok(text) => TextDecoders.Decode(Streamed(v), ids) == Some(text)
            case Err(_) => TextDecoders.Decode(Streamed(v), ids) == None
  {
    hide DecodeOne, TextDecoders.Decode;
    if ids == [] {
      StreamedNothing(v);
    } else {
      DecodeIsStreamed(v, ids[1..]);
      assert [ids[0]] + ids[1..] == ids;
      TextDecoders.DecodeConcat(Streamed(v), [ids[0]], ids[1..]);
      StreamedOne(v, ids[0]);
    }
  }

  lemma StreamedNothing(v: Vocab)
    ensures TextDecoders.Decode(Streamed(v), []) == Some([])
  {
  }

  lemma StreamedOne(v: Vocab, id: int)
    ensures TextDecoders.Decode(Streamed(v), [id]) == Streamed(v)(id)
  {
    assert [id][..0] == [];
    StreamedNothing(v);
    if Streamed(v)(id).Some? {
      assert [] + Streamed(v)(id).value == Streamed(v)(id).value;
    }
  }
}

/** What encode_prompt reads in a text, token by token, and which checkpoints it must record:
    src/qwen/qwen_tokenizer.cc:566-618. */
module Readings {
  import opened Wrappers
  import opened Utf8Units
  import opened PairMerging
  import opened Tokenizing
  import opened Sequences

  /** An added token in the text: where it stands, which one it is, and all tokens before it. */
  datatype Stop = Stop(at: nat, token: nat, before: seq<nat>)

  /** From `offset` on, with these tokens so far, the text holds these added tokens, and in the end these are all tokens: each
      stop is the earliest added token, the first listed of those; what lies between is ordinary text. */
  ghost predicate Reads(v: Vocab, text: Str, offset: nat, tokens: seq<nat>, stops: seq<Stop>, all: seq<nat>)
    decreases |stops|
  {
    if stops == [] then
      if offset >= |text| then all == tokens
      else IsNext(v.added, text, offset, |v.added|, None) && Ordinary(v, text[offset..], tokens, all)
    else
      && offset < |text|
      && IsNext(v.added, text, offset, |v.added|, Some(Hit(stops[0].at, stops[0].token)))
      && stops[0].at <= |text|
      && Ordinary(v, text[offset..stops[0].at], tokens, stops[0].before)
      && var added := v.added[stops[0].token];
         Reads(v, text, stops[0].at + |added.0|, stops[0].before + [added.1], stops[1..], all)
  }

  /** Ordinary text adds its own encoding. */
  ghost predicate Ordinary(v: Vocab, text: Str, tokens: seq<nat>, more: seq<nat>) {
    EncodeOrdinary(v, text).Ok? && more == tokens + EncodeOrdinary(v, text).value
  }

  /** A place that must be recorded: tokens so far, and a requested offset. */
  ghost predicate Wanted(offsets: seq<nat>, stop: Stop, count: nat) {
    0 < count == |stop.before| && stop.at in offsets
  }

  ghost predicate Recorded(offsets: seq<nat>, stops: seq<Stop>, checkpoints: seq<nat>) {
    forall c :: c in checkpoints <==> exists i :: 0 <= i < |stops| && Wanted(offsets, stops[i], c)
  }

  /** What a reading from here on adds to the checkpoints. */
  ghost predicate RecordedFrom(offsets: seq<nat>, stops: seq<Stop>, before: seq<nat>, after: seq<nat>) {
    forall c :: c in after <==> c in before || exists i :: 0 <= i < |stops| && Wanted(offsets, stops[i], c)
  }

  /** Increasing, and below the number of tokens. */
  ghost predicate Below(p: Prompt) {
    Increasing(p.checkpoints) && forall c :: c in p.checkpoints ==> c < |p.tokens|
  }

  lemma MarkedIs(q: Prompt, offsets: seq<nat>, stop: Stop, id: nat)
    requires Increasing(q.checkpoints) && (forall c :: c in q.checkpoints ==> c < |q.tokens|) && stop.before == q.tokens
    ensures var marked := Marked(q, offsets, stop.at);
            && Below(Prompt(q.tokens + [id], marked))
            && forall c :: c in marked <==> c in q.checkpoints || Wanted(offsets, stop, c)
  {
    var marked := Marked(q, offsets, stop.at);
    if q.checkpoints != [] {
      assert q.checkpoints[|q.checkpoints| - 1] in q.checkpoints;
    }
    assert forall i :: 0 <= i < |q.checkpoints| ==> q.checkpoints[i] in q.checkpoints;
  }

  lemma RecordedMore(offsets: seq<nat>, stops: seq<Stop>, before: seq<nat>, marked: seq<nat>, after: seq<nat>)
    requires stops != [] && RecordedFrom(offsets, stops[1..], marked, after)
    requires forall c :: c in marked <==> c in before || Wanted(offsets, stops[0], c)
    ensures RecordedFrom(offsets, stops, before, after)
  {
    hide Wanted;
    forall c ensures c in after <==> c in before || exists i :: 0 <= i < |stops| && Wanted(offsets, stops[i], c) {
      if i :| 0 <= i < |stops[1..]| && Wanted(offsets, stops[1..][i], c) {
        assert Wanted(offsets, stops[i + 1], c);
      }
      if i :| 0 <= i < |stops| && Wanted(offsets, stops[i], c) {
        assert i > 0 ==> stops[1..][i - 1] == stops[i];
      }
    }
  }

  /** Where the code finds the next added token is where a reading stops. */
  lemma StopIs(v: Vocab, text: Str, offset: nat, hit: Option<Hit>)
    requires IsNext(v.added, text, offset, |v.added|, hit)
    ensures NextAdded(v.added, text, offset) == hit
  {
    hide NextAdded, IsNext;
    NextAddedIs(v.added, text, offset);
    NextUnique(v.added, text, offset, hit, NextAdded(v.added, text, offset));
  }

  lemma HitInside(v: Vocab, text: Str, offset: nat, hit: Hit)
    requires IsNext(v.added, text, offset, |v.added|, Some(hit))
    ensures hit.token < |v.added| && offset <= hit.at && hit.at + |v.added[hit.token].0| <= |text|
  {
  }

  /** Any reading tells what the encoding of the text is. */
  lemma {:induction false} ReadingEncodes(v: Vocab, text: Str, offset: nat, offsets: seq<nat>, p: Prompt, stops: seq<Stop>,
                                          all: seq<nat>)
    requires Advancing(v) && Below(p) && Reads(v, text, offset, p.tokens, stops, all)
    ensures var r := EncodeFrom(v, text, offset, offsets, p);
            && r.Ok? && r.value.tokens == all
            && Increasing(r.value.checkpoints) && RecordedFrom(offsets, stops, p.checkpoints, r.value.checkpoints)
    decreases |stops|
  {
    hide IsNext, NextAdded, EncodeOrdinary, Marked, Wanted, Advancing, Increasing;
    if stops == [] {
      if offset < |text| {
        StopIs(v, text, offset, None);
      }
    } else {
      var stop := stops[0];
      var hit := Hit(stop.at, stop.token);
      StopIs(v, text, offset, Some(hit));
      HitInside(v, text, offset, hit);
      var q := p.(tokens := stop.before);
      var id := v.added[stop.token].1;
      MarkedIs(q, offsets, stop, id);
      var next := Prompt(q.tokens + [id], Marked(q, offsets, stop.at));
      ReadingEncodes(v, text, stop.at + |v.added[stop.token].0|, offsets, next, stops[1..], all);
      RecordedMore(offsets, stops, p.checkpoints, next.checkpoints, EncodeFrom(v, text, offset, offsets, p).value.checkpoints);
    }
  }

  /** Whatever is encoded can be read. */
  lemma {:induction false} EncodedReads(v: Vocab, text: Str, offset: nat, offsets: seq<nat>, p: Prompt)
    returns (stops: seq<Stop>, all: seq<nat>)
    requires Advancing(v) && EncodeFrom(v, text, offset, offsets, p).Ok?
    ensures Reads(v, text, offset, p.tokens, stops, all)
    decreases if offset < |text| then |text| - offset else 0
  {
    hide IsNext, NextAdded, EncodeOrdinary, Marked;
    stops, all := [], p.tokens;
    if offset < |text| {
      NextAddedIs(v.added, text, offset);
      var found := NextAdded(v.added, text, offset);
      if found == None {
        all := p.tokens + EncodeOrdinary(v, text[offset..]).value;
      } else {
        var hit := found.value;
        HitInside(v, text, offset, hit);
        var q := p.(tokens := p.tokens + EncodeOrdinary(v, text[offset..hit.at]).value);
        var added := v.added[hit.token];
        var next := Prompt(q.tokens + [added.1], Marked(q, offsets, hit.at));
        stops, all := EncodedReads(v, text, hit.at + |added.0|, offsets, next);
        stops := [Stop(hit.at, hit.token, q.tokens)] + stops;
      }
    }
  }

  ghost predicate Readable(v: Vocab, text: Str) {
    exists stops, all :: Reads(v, text, 0, [], stops, all)
  }

  /** encode_prompt succeeds exactly on text that can be read. Its tokens are those of the reading, and its checkpoints, in
      increasing order, are exactly the numbers of tokens before the added tokens that stand at requested offsets, none of
      them zero. */
  lemma CheckpointsComplete(v: Vocab, text: Str, offsets: seq<nat>)
    requires Advancing(v)
    ensures EncodePrompt(v, text, offsets).Ok? <==> Readable(v, text)
    ensures forall stops, all :: Reads(v, text, 0, [], stops, all) ==>
              var p := EncodePrompt(v, text, offsets).value;
              p.tokens == all && Increasing(p.checkpoints) && Recorded(offsets, stops, p.checkpoints)
  {
    hide Reads, EncodeFrom, Wanted;
    forall stops, all | Reads(v, text, 0, [], stops, all)
      ensures EncodePrompt(v, text, offsets).Ok?
      ensures var p := EncodePrompt(v, text, offsets).value;
              p.tokens == all && Increasing(p.checkpoints) && Recorded(offsets, stops, p.checkpoints)
    {
      ReadingEncodes(v, text, 0, offsets, Prompt([], []), stops, all);
    }
    if EncodePrompt(v, text, offsets).Ok? {
      var stops, all := EncodedReads(v, text, 0, offsets, Prompt([], []));
    }
  }
}

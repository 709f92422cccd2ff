/** When encode_prompt ends: src/qwen/qwen_tokenizer.cc:587-616. Loading accepts an empty added token
    (src/qwen/qwen_tokenizer.cc:397-413) and sorts the list longest first (src/qwen/qwen_tokenizer.cc:483-485). */
module EncodingEnds {
  import opened Wrappers
  import opened Utf8Units
  import opened Pretokenizing
  import opened PairMerging
  import opened Tokenizing

  ghost predicate LongestFirst(added: seq<(Str, nat)>) {
    forall i, j :: 0 <= i < j < |added| ==> |added[i].0| >= |added[j].0|
  }

  /** A non-empty added token stands at this offset. */
  ghost predicate Begins(added: seq<(Str, nat)>, text: Str, offset: nat) {
    exists j :: 0 <= j < |added| && added[j].0 != [] && Occurs(text, added[j].0, offset)
  }

  /** The first listed non-empty token at an offset. */
  function FirstAt(added: seq<(Str, nat)>, text: Str, offset: nat, j: nat): (r: Option<nat>)
    requires j <= |added|
    ensures r.Some? ==> j <= r.value < |added| && added[r.value].0 != [] && Occurs(text, added[r.value].0, offset)
    ensures r.Some? ==> forall i :: j <= i < r.value ==> added[i].0 == [] || !Occurs(text, added[i].0, offset)
    ensures r == None ==> forall i :: j <= i < |added| ==> added[i].0 == [] || !Occurs(text, added[i].0, offset)
    decreases |added| - j
  {
    if j == |added| then None
    else if added[j].0 != [] && Occurs(text, added[j].0, offset) then Some(j)
    else FirstAt(added, text, offset, j + 1)
  }

  lemma TileNonempty(added: seq<(Str, nat)>, text: Str, offset: nat)
    requires Begins(added, text, offset)
    ensures FirstAt(added, text, offset, 0).Some? && 0 < |added[FirstAt(added, text, offset, 0).value].0|
  {
  }

  /** From this offset on the text is tiled by non-empty added tokens, taking the longest one each time. */
  ghost predicate Tiled(added: seq<(Str, nat)>, text: Str, offset: nat)
    decreases if offset < |text| then |text| - offset else 0
  {
    offset >= |text|
    || (Begins(added, text, offset) && Tiled(added, text, offset + |added[FirstAt(added, text, offset, 0).value].0|))
  }

  /** With an empty token in the list, the search always stops where it started: at the longest token that stands there. */
  lemma HitHere(v: Vocab, text: Str, offset: nat)
    requires !Advancing(v) && LongestFirst(v.added) && offset < |text|
    ensures var hit := NextAdded(v.added, text, offset);
            && hit.Some? && hit.value.at == offset && hit.value.token < |v.added|
            && (if Begins(v.added, text, offset) then Some(hit.value.token) == FirstAt(v.added, text, offset, 0)
                else v.added[hit.value.token].0 == [])
  {
    var added := v.added;
    var e :| 0 <= e < |added| && added[e].0 == [];
    assert Occurs(text, added[e].0, offset);
    NextAddedIs(added, text, offset);
    var hit := NextAdded(added, text, offset).value;
    hide NextAdded, Occurs;
    if Begins(added, text, offset) {
      var j := FirstAt(added, text, offset, 0).value;
      assert hit.at == offset && hit.token <= j;
      assert |added[hit.token].0| >= |added[j].0|;
    }
  }

  lemma NothingOrdinary(v: Vocab)
    ensures EncodeOrdinary(v, []) == Ok([])
  {
    PretokenizePartitions([]);
    assert Pretokenize([]).Some?;
    hide Pretokenize;
    NoPieces(Pretokenize([]).value);
  }

  lemma NoPieces(pieces: seq<Str>)
    requires Concat(pieces) == [] && forall i :: 0 <= i < |pieces| ==> pieces[i] != []
    ensures pieces == []
  {
    LongerThanFirst(pieces);
  }

  lemma LongerThanFirst(pieces: seq<Str>)
    ensures pieces == [] || |pieces[0]| <= |Concat(pieces)|
  {
  }

  /** One pass over a vocabulary with an empty token: on to the end of the token that stands here, or nowhere. */
  lemma PassHere(v: Vocab, text: Str, offset: nat, offsets: seq<nat>, p: Prompt)
    requires !Advancing(v) && LongestFirst(v.added) && offset < |text|
    ensures var r := Iterate(v, text, offset, offsets, p);
            r.Again? && r.offset == if Begins(v.added, text, offset)
                                    then offset + |v.added[FirstAt(v.added, text, offset, 0).value].0| else offset
  {
    HitHere(v, text, offset);
    assert text[offset..offset] == [];
    NothingOrdinary(v);
    hide NextAdded, EncodeOrdinary, Marked, Begins;
  }

  /** A pass that goes nowhere is followed by another one. */
  lemma {:induction false} Stalls(v: Vocab, text: Str, offset: nat, offsets: seq<nat>, p: Prompt, n: nat)
    requires !Advancing(v) && LongestFirst(v.added) && !Tiled(v.added, text, offset)
    ensures Loop(v, text, offset, offsets, p, n).Again?
    decreases n
  {
    hide Iterate, FirstAt, Begins;
    if n > 0 {
      PassHere(v, text, offset, offsets, p);
      var r := Iterate(v, text, offset, offsets, p);
      Stalls(v, text, r.offset, offsets, r.prompt, n - 1);
    }
  }

  lemma {:induction false} TiledEnds(v: Vocab, text: Str, offset: nat, offsets: seq<nat>, p: Prompt) returns (n: nat)
    requires !Advancing(v) && LongestFirst(v.added) && Tiled(v.added, text, offset)
    ensures Loop(v, text, offset, offsets, p, n).Done?
    decreases if offset < |text| then |text| - offset else 0
  {
    hide Begins, Advancing, LongestFirst, EncodeOrdinary, NextAdded, Occurs;
    if offset >= |text| {
      n := 1;
    } else {
      PassHere(v, text, offset, offsets, p);
      TileNonempty(v.added, text, offset);
      var r := Iterate(v, text, offset, offsets, p);
      hide Iterate;
      var m := TiledEnds(v, text, r.offset, offsets, r.prompt);
      n := m + 1;
    }
  }

  /** encode_prompt ends exactly when no added token is empty, or when the whole text is tiled by non-empty ones. */
  lemma EndsExactly(v: Vocab, text: Str, offsets: seq<nat>)
    requires LongestFirst(v.added)
    ensures Ends(v, text, 0, offsets, Prompt([], [])) <==> Advancing(v) || Tiled(v.added, text, 0)
  {
    hide Loop, Tiled, Advancing;
    var p := Prompt([], []);
    if Advancing(v) {
      var n := AdvancingEnds(v, text, 0, offsets, p);
    } else if Tiled(v.added, text, 0) {
      var n := TiledEnds(v, text, 0, offsets, p);
    } else {
      forall n ensures !Loop(v, text, 0, offsets, p, n).Done? {
        Stalls(v, text, 0, offsets, p, n);
      }
    }
  }

  /** An empty added token and a text that no token tiles: the call never ends. */
  lemma NeverEnds(v: Vocab, offsets: seq<nat>)
    requires v.added == [([], 0)]
    ensures !Ends(v, [0x61], 0, offsets, Prompt([], []))
  {
    assert v.added[0].0 == [];
    assert !Begins(v.added, [0x61], 0);
    EndsExactly(v, [0x61], offsets);
  }
}

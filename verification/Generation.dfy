/** Whatever is scheduled, every sequence's tokens are its one-sequence greedy generation:
    the invariant behind it, and the completion of a batch. */
module Generation {
  import opened Wrappers
  import opened Sequences
  import opened PrefixCaching
  import opened Kernels
  import opened Batches
  import opened HybridStates
  import opened Residence
  import opened Execution
  import opened Scheduling
  import opened Invariants
  import opened Completion
  import opened Building

  /** The tokens whose work is committed. */
  ghost function Behind(s: Sched): History {
    map id | id in s.state.sequences && id in s.sequences :: Slice(s.sequences[id].tokens, 0, s.sequences[id].processed)
  }

  /** The tokens whose work is committed once the batch in flight is. */
  ghost function Ahead(s: Sched): History {
    map id | id in s.state.sequences && id in s.sequences ::
      Slice(s.sequences[id].tokens, 0, s.sequences[id].processed + s.sequences[id].scheduled)
  }

  /** The state has committed these histories, and its pages and recurrent memories hold their replay. */
  ghost predicate Housed(k: Kernel, h: Hybrid, hist: History) {
    h.shape.zero == k.zero && InStep(h, hist) && Lodged(k, h, hist)
  }

  /** Every stored checkpoint is what a dedicated run over its key would save. */
  ghost predicate CacheFaithful(k: Kernel, c: Cache<Payload>) {
    forall i :: 0 <= i < |c.entries| ==> Faithful(k, c.entries[i].state, c.entries[i].tokens)
  }

  /** What the tokens of one sequence are: the greedy generation so far, or the reference answer once it stopped by itself. */
  ghost predicate Told(k: Kernel, q: SeqData, eos: Token) {
    && 0 < q.promptCount <= |q.tokens| && 0 < q.params.maxNewTokens
    && if q.reason == Eos || q.reason == LenLimit
       then Greedy(k, q.Prompt(), q.params, eos) == Outcome(q.tokens, q.reason)
       else Unstopped(k, q.Prompt(), q.tokens, q.params, eos)
  }

  ghost predicate AllTold(k: Kernel, s: Sched) {
    forall id :: id in s.sequences ==> Told(k, s.sequences[id], s.eos)
  }

  /** The greedy tokens that the sampled items ask for, in order. */
  ghost function Wanted(k: Kernel, sequences: map<nat, SeqData>, items: seq<Item>): seq<Token> {
    if items == [] then []
    else Asked(k, sequences, items[0]) + Wanted(k, sequences, items[1..])
  }

  ghost function Asked(k: Kernel, sequences: map<nat, SeqData>, item: Item): seq<Token> {
    if item.sample && item.id in sequences && sequences[item.id].tokens != []
    then [Next(k, sequences[item.id].tokens)] else []
  }

  // ---------------------------------------------------------------- one item

  /** Stopping is decided as in the reference loop. */
  lemma StopsAlike(q: SeqData, token: Token, eos: Token)
    requires 0 < q.promptCount <= |q.tokens|
    ensures Sampled(q, token).EvaluateStop(eos) == StopAfter(token, |q.tokens| - q.promptCount, q.params, eos)
  {
  }

  /** A live sequence that gets its greedy token still tells the greedy story. */
  lemma SettleTold(k: Kernel, q: SeqData, sample: bool, token: Token, eos: Token)
    requires Told(k, q, eos) && LiveOk(q)
    requires sample ==> token == Next(k, q.tokens)
    ensures Told(k, Settle(q, sample, token, eos).0, eos)
  {
    hide Unstopped, Greedy, Next;
    if sample {
      StopsAlike(q, token, eos);
      var grown := Sampled(q, token);
      assert grown.Prompt() == q.Prompt();
      if grown.EvaluateStop(eos) == NoReason {
        UnstoppedLength(k, q, eos);
        GreedyGrows(k, q.Prompt(), q.tokens, q.params, eos);
      } else {
        UnstoppedLength(k, q, eos);
        GreedyStops(k, q.Prompt(), q.tokens, q.params, eos);
      }
    }
  }

  lemma UnstoppedLength(k: Kernel, q: SeqData, eos: Token)
    requires Told(k, q, eos) && q.reason == NoReason
    ensures |q.Prompt()| <= |q.tokens| < |q.Prompt()| + q.params.maxNewTokens
  {
  }

  lemma {:induction false} WantedSame(k: Kernel, a: map<nat, SeqData>, b: map<nat, SeqData>, items: seq<Item>)
    requires forall i :: 0 <= i < |items| ==>
               (items[i].id in a <==> items[i].id in b) && (items[i].id in a ==> a[items[i].id].tokens == b[items[i].id].tokens)
    ensures Wanted(k, a, items) == Wanted(k, b, items)
  {
    if items != [] {
      assert forall i :: 0 <= i < |items| - 1 ==> items[1..][i] == items[i + 1];
      WantedSame(k, a, b, items[1..]);
    }
  }

  /** Two values of a sequence with the same history ahead. */
  ghost predicate SameAhead(a: SeqData, b: SeqData) {
    Slice(b.tokens, 0, b.processed + b.scheduled) == Slice(a.tokens, 0, a.processed + a.scheduled)
  }

  lemma KeptHoused(k: Kernel, s: Sched, q: SeqData, t: Sched)
    requires Housed(k, s.state, Ahead(s)) && q.id in s.sequences && SameAhead(s.sequences[q.id], q)
    requires t.state == s.state && t.sequences == s.sequences[q.id := q]
    ensures Housed(k, t.state, Ahead(t))
  {
    hide Housed;
    assert Ahead(t) == Ahead(s);
  }

  lemma LeftHoused(k: Kernel, s: Sched, q: SeqData, t: Sched)
    requires Housed(k, s.state, Ahead(s)) && !s.state.open && q.id in s.sequences
    requires t.state == s.state.Release(q.id) && t.sequences == s.sequences[q.id := q]
    ensures Housed(k, t.state, Ahead(t))
  {
    hide LodgedAt;
    assert Ahead(t) == Ahead(s) - {q.id};
    forall id | id in Ahead(t) ensures LodgedAt(k, t.state, id, Ahead(t)[id]) {
      LodgedReleased(k, s.state, q.id, id, Ahead(s)[id]);
    }
  }

  /** The history ahead does not change when an item settles, except that a finished sequence leaves. */
  lemma ShiftedHoused(k: Kernel, s: Sched, phase: Phase, q: SeqData, place: Place, t: Sched)
    requires Housed(k, s.state, Ahead(s)) && !s.state.open
    requires q.id in s.sequences && Shifted(s, phase, q, place, t)
    requires q.scheduled == 0 && q.processed == s.sequences[q.id].processed + s.sequences[q.id].scheduled
    requires s.sequences[q.id].tokens <= q.tokens && q.processed <= |s.sequences[q.id].tokens|
    ensures Housed(k, t.state, Ahead(t))
  {
    hide Housed, Cache.Valid, Hybrid.Release;
    if place == Gone {
      LeftHoused(k, s, q, t);
    } else {
      SlicePrefix(s.sequences[q.id].tokens, q.tokens, 0, q.processed);
      KeptHoused(k, s, q, t);
    }
  }

  // ---------------------------------------------------------------- checkpoints made on the way

  lemma InsertFaithful(k: Kernel, c: Cache<Payload>, tokens: nat, stateBytes: nat, prefix: seq<Token>, saved: Saved<Payload>)
    requires c.Valid() && CacheFaithful(k, c) && Faithful(k, saved, prefix)
    ensures CacheFaithful(k, c.MakeRoom(tokens, stateBytes).Insert(prefix, saved))
    ensures CacheFaithful(k, c.MakeRoom(tokens, stateBytes))
  {
    hide Faithful;
    MakeRoomKeepsLongest(c, tokens, stateBytes);
    var roomy := c.MakeRoom(tokens, stateBytes);
    assert forall i :: 0 <= i < |roomy.entries| ==> roomy.entries[i] == c.entries[i];
    InsertedFaithful(k, roomy, prefix, saved);
  }

  lemma InsertedFaithful(k: Kernel, c: Cache<Payload>, prefix: seq<Token>, saved: Saved<Payload>)
    requires c.Valid() && CacheFaithful(k, c) && Faithful(k, saved, prefix)
    ensures CacheFaithful(k, c.Insert(prefix, saved))
  {
    hide Faithful;
    MakeRoomKeepsLongest(c, |prefix|, saved.bytes);
    var roomy := c.MakeRoom(|prefix|, saved.bytes);
    var r := c.Insert(prefix, saved);
    if r != c {
      forall i | 0 <= i < |r.entries| ensures Faithful(k, r.entries[i].state, r.entries[i].tokens) {
        if i > 0 {
          assert r.entries[i] == roomy.entries[i - 1] == c.entries[i - 1];
        }
      }
    }
  }

  lemma RoomFaithful(k: Kernel, c: Cache<Payload>, tokens: nat, stateBytes: nat)
    requires c.Valid() && CacheFaithful(k, c)
    ensures CacheFaithful(k, c.MakeRoom(tokens, stateBytes))
  {
    MakeRoomKeepsLongest(c, tokens, stateBytes);
    var roomy := c.MakeRoom(tokens, stateBytes);
    assert forall i :: 0 <= i < |roomy.entries| ==> roomy.entries[i] == c.entries[i];
  }

  /** The checkpoint taken of a sequence's state after its committed tokens is faithful to its key. */
  lemma CachePrefixFaithful(k: Kernel, s: Sched, q: SeqData, saves: bool)
    requires s.prefixes.Valid() && CacheFaithful(k, s.prefixes)
    requires q.promptCount <= |q.tokens| && LodgedAt(k, s.state, q.id, Slice(q.tokens, 0, q.processed))
    ensures CacheFaithful(k, s.CachePrefix(q, saves).prefixes)
  {
    hide LodgedAt, Faithful, Cache.Valid, Cache.MakeRoom, Cache.Insert, Hybrid.Checkpoint;
    var count := q.processed;
    if count <= q.promptCount {
      var prefix := q.Prompt()[..count];
      assert prefix == Slice(q.tokens, 0, count);
      var saved := s.state.Checkpoint(q.id, count, saves);
      RoomFaithful(k, s.prefixes, count, s.state.CheckpointBytes(count));
      if saved.Ok? {
        CheckpointFaithful(k, s.state, q.id, prefix, saves);
        InsertFaithful(k, s.prefixes, count, s.state.CheckpointBytes(count), prefix, saved.value);
      }
    }
  }

  lemma ItemPrefixes(s: Sched, phase: Phase, items: seq<Item>, token: Token, saves: bool)
    requires Inv(s, phase, items) && items != [] && items[0].id in s.sequences
    ensures var q := Worked(s.sequences[items[0].id]);
            q.promptCount <= |q.tokens| && q.id == items[0].id
            && s.CompleteItem(phase, items[0], token, saves).0.prefixes
               == if phase == Prefill then s.(sequences := s.sequences[q.id := q]).CachePrefix(q, saves).prefixes
                  else s.prefixes
  {
    hide ResourcesOk, Sched.CachePrefix, Hybrid.Release;
    assert ItemOk(s, phase, items, 0);
    assert items[0].id in s.Queue(phase);
    assert MemberOk(s, items[0].id);
  }

  // ---------------------------------------------------------------- the completion loop

  /** The state of a completion in progress. */
  ghost predicate Telling(k: Kernel, s: Sched) {
    Housed(k, s.state, Ahead(s)) && CacheFaithful(k, s.prefixes) && AllTold(k, s)
  }

  lemma ItemFacts(s: Sched, phase: Phase, items: seq<Item>)
    requires Inv(s, phase, items) && items != []
    ensures var id := items[0].id;
            && id in s.sequences && id in s.state.sequences && s.sequences[id].id == id && LiveOk(s.sequences[id])
            && 0 < s.sequences[id].scheduled && s.sequences[id].reason == NoReason
            && s.sequences[id].processed + s.sequences[id].scheduled <= |s.sequences[id].tokens|
            && (items[0].sample <==> s.sequences[id].processed + s.sequences[id].scheduled == |s.sequences[id].tokens|)
    ensures forall i :: 0 < i < |items| ==> items[i].id != items[0].id
  {
    hide Hybrid.Sound, Cache.Valid;
    assert ItemOk(s, phase, items, 0);
    var id := items[0].id;
    assert id in s.Queue(phase);
    assert MemberOk(s, id);
    forall i | 0 < i < |items| ensures items[i].id != id {
      DistinctScheduled(s, phase, items, 0, i);
    }
  }

  lemma CompleteItemTells(k: Kernel, s: Sched, phase: Phase, items: seq<Item>, token: Token, saves: bool,
                          r: (Sched, Result<Option<Update>, SchedError>))
    requires Inv(s, phase, items) && items != [] && !s.state.open
    requires Telling(k, s)
    requires r == s.CompleteItem(phase, items[0], token, saves)
    requires items[0].sample ==> [token] == Asked(k, s.sequences, items[0])
    ensures Telling(k, r.0)
    ensures Wanted(k, r.0.sequences, items[1..]) == Wanted(k, s.sequences, items[1..])
  {
    hide Inv, Housed, Told, CacheFaithful, Sched.CompleteItem, Settle, LiveOk, Cache.Valid;
    ItemFacts(s, phase, items);
    CompleteItemShifts(s, phase, items, token, saves);
    var q := s.sequences[items[0].id];
    var settled := Settle(q, items[0].sample, token, s.eos);
    SettleTold(k, q, items[0].sample, token, s.eos);
    SettleExtends(q, items[0].sample, token, s.eos);
    ShiftedHoused(k, s, phase, settled.0, settled.1, r.0);
    forall i | 0 <= i < |items[1..]| ensures items[1..][i].id != items[0].id {
      assert items[1..][i] == items[i + 1];
    }
    WantedSame(k, r.0.sequences, s.sequences, items[1..]);
    ItemCacheFaithful(k, s, phase, items, token, saves, r.0);
  }

  lemma SettleExtends(q: SeqData, sample: bool, token: Token, eos: Token)
    ensures q.tokens <= Settle(q, sample, token, eos).0.tokens
  {
  }

  lemma ItemCacheFaithful(k: Kernel, s: Sched, phase: Phase, items: seq<Item>, token: Token, saves: bool, t: Sched)
    requires Inv(s, phase, items) && items != []
    requires Housed(k, s.state, Ahead(s)) && CacheFaithful(k, s.prefixes)
    requires t == s.CompleteItem(phase, items[0], token, saves).0
    ensures CacheFaithful(k, t.prefixes)
  {
    hide Inv, LodgedAt, CacheFaithful, Sched.CompleteItem, Sched.CachePrefix;
    ItemFacts(s, phase, items);
    var id := items[0].id;
    ItemPrefixes(s, phase, items, token, saves);
    if phase == Prefill {
      var q := Worked(s.sequences[id]);
      assert id in Ahead(s) && LodgedAt(k, s.state, id, Ahead(s)[id]);
      assert s.prefixes.Valid() by {
        PrefixesOk(s, phase, items);
      }
      var u := s.(sequences := s.sequences[id := q]);
      CachePrefixFaithful(k, u, q, saves);
    }
  }

  lemma PrefixesOk(s: Sched, phase: Phase, items: seq<Item>)
    requires Inv(s, phase, items)
    ensures s.prefixes.Valid()
  {
  }

  lemma {:induction false} CompleteItemsTell(k: Kernel, s: Sched, phase: Phase, items: seq<Item>, samples: seq<Token>,
                                             updates: seq<Update>, saves: set<nat>,
                                             r: (Sched, Result<seq<Update>, SchedError>))
    requires Inv(s, phase, items) && !s.state.open
    requires Telling(k, s) && samples == Wanted(k, s.sequences, items)
    requires r == s.CompleteItems(phase, items, samples, updates, saves)
    ensures Telling(k, r.0)
    decreases |items|
  {
    hide Inv, Telling, Sched.CompleteItem, Next;
    if items != [] {
      ItemFacts(s, phase, items);
      var token := if items[0].sample then samples[0] else 0;
      var done := s.CompleteItem(phase, items[0], token, items[0].id in saves);
      CompleteItemTells(k, s, phase, items, token, items[0].id in saves, done);
      CompleteItemKeeps(s, phase, items, token, items[0].id in saves, done);
      var rest := if items[0].sample then samples[1..] else samples;
      var more := if done.1.value.Some? then updates + [done.1.value.value] else updates;
      CompleteItemsTell(k, done.0, phase, items[1..], rest, more, saves, r);
    }
  }
}

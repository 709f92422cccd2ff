/** Which checkpoints completing a batch stores: src/scheduler.cc:376-414 and src/scheduler.cc:524-541. */
module Storing {
  import opened Wrappers
  import opened Sequences
  import opened Kernels
  import opened PrefixCaching
  import opened Batches
  import opened HybridStates
  import opened Scheduling
  import opened Invariants
  import opened Completion
  import opened Protocol
  import opened Generation
  import opened Engine
  import opened Steps
  import Building
  import Choosing
  import Execution
  import Paging
  import Residence
  import Selection

  // ---------------------------------------------------------------- one item

  /** What a completed item does to the cache. A prefill that ended on a checkpoint worth storing leaves it in front of the longest
      recent part that fits beside it, or makes that room for nothing if the copy cannot be made; anything else leaves all as is. */
  ghost predicate StepRecorded(s: Sched, phase: Phase, item: Item, saved: bool, a: Cache<Payload>, b: Cache<Payload>) {
    item.id in s.sequences &&
    var q := s.sequences[item.id];
    var count := q.processed + q.scheduled;
    var bytes := Choosing.StateBytes(s, count);
    if phase == Prefill && Choosing.Worthwhile(s.(prefixes := a), q, count) then
      if saved then
        && b.entries != [] && b.entries[0].tokens == q.tokens[..count]
        && b.entries[0].state.tokenCount == count && b.entries[0].state.bytes == bytes
        && b.bytes == Sum(b.entries)
        && LongestFitting(a, 4 * count + bytes, Cache(b.capacity, Sum(b.entries[1..]), b.entries[1..]))
      else LongestFitting(a, 4 * count + bytes, b)
    else b == a
  }

  lemma WorthCaching(s: Sched, q: SeqData, count: nat)
    requires q.Valid() && count in q.checkpoints
    ensures count <= q.promptCount && q.Prompt()[..count] == q.tokens[..count]
    ensures Choosing.Worthwhile(s, q, count) <==> s.Cacheable(count) && !s.prefixes.Contains(q.Prompt()[..count])
    ensures Choosing.StateBytes(s, count) == s.state.CheckpointBytes(count)
  {
    Choosing.Room(s.prefixes.capacity, count, Choosing.StateBytes(s, count));
    assert q.Prompt()[..count] == q.tokens[..count];
  }

  lemma Committed(s: Sched, q: SeqData, saves: bool)
    requires s.state.Sound() && !s.state.open && q.id in s.state.sequences
    requires s.state.sequences[q.id].committed == q.processed && 0 < Choosing.StateBytes(s, q.processed)
    ensures var saved := s.state.Checkpoint(q.id, q.processed, saves);
            && (saved.Ok? <==> saves)
            && (saves ==> saved.value.tokenCount == q.processed && saved.value.bytes == Choosing.StateBytes(s, q.processed))
  {
    var reserved := s.state.sequences[q.id].reserved;
    assert s.state.Proportioned(q.id);
    Paging.BlocksForMonotone(q.processed, reserved, s.state.pages.size);
    var table := s.state.pages.Table(q.id);
    forall i | 0 <= i < |table| ensures table[i] < s.state.pages.count {
      assert table[i] in table;
    }
  }

  lemma CacheStored(s: Sched, q: SeqData, saves: bool)
    requires s.prefixes.Valid() && q.Valid() && s.state.Sound() && !s.state.open && q.id in s.state.sequences
    requires s.state.sequences[q.id].committed == q.processed && Choosing.Worthwhile(s, q, q.processed)
    ensures var count, t := q.processed, s.CachePrefix(q, saves);
            var bytes := Choosing.StateBytes(s, count);
            if saves then
              && t.prefixes.entries != [] && t.prefixes.entries[0].tokens == q.tokens[..count]
              && t.prefixes.entries[0].state.tokenCount == count && t.prefixes.entries[0].state.bytes == bytes
              && t.prefixes.bytes == Sum(t.prefixes.entries)
              && LongestFitting(s.prefixes, 4 * count + bytes,
                                Cache(t.prefixes.capacity, Sum(t.prefixes.entries[1..]), t.prefixes.entries[1..]))
            else LongestFitting(s.prefixes, 4 * count + bytes, t.prefixes)
  {
    hide Hybrid.Sound, Hybrid.Checkpoint, Cache.MakeRoom, Cache.Insert, LongestFitting, Choosing.StateBytes, Choosing.Worthwhile,
      Sched.Cacheable, Hybrid.CheckpointBytes;
    WorthMeans(s, q, q.processed);
    WorthCaching(s, q, q.processed);
    Committed(s, q, saves);
    RoomMade(s, q.processed);
    if saves {
      StoredInRoom(s.prefixes, s.prefixes.MakeRoom(q.processed, s.state.CheckpointBytes(q.processed)), q.Prompt()[..q.processed],
                   s.state.Checkpoint(q.id, q.processed, saves).value);
    }
  }

  lemma WorthMeans(s: Sched, q: SeqData, count: nat)
    requires Choosing.Worthwhile(s, q, count)
    ensures count in q.checkpoints && 0 < Choosing.StateBytes(s, count)
  {
  }

  lemma RoomMade(s: Sched, count: nat)
    requires s.prefixes.Valid() && s.Cacheable(count)
    ensures var r := s.prefixes.MakeRoom(count, s.state.CheckpointBytes(count));
            && r.Valid() && LongestFitting(s.prefixes, 4 * count + s.state.CheckpointBytes(count), r)
            && s.prefixes.Fits(count, s.state.CheckpointBytes(count))
  {
    hide Cache.MakeRoom, LongestFitting, Hybrid.CheckpointBytes;
    MakeRoomKeepsLongest(s.prefixes, count, s.state.CheckpointBytes(count));
  }

  /** With the room made already, inserting puts the entry in front and forgets nothing more. */
  lemma StoredInRoom(c: Cache<Payload>, roomy: Cache<Payload>, prefix: seq<Token>, saved: Saved<Payload>)
    requires c.Valid() && roomy.Valid() && !c.Contains(prefix) && saved.tokenCount == |prefix|
    requires c.Fits(|prefix|, saved.bytes) && LongestFitting(c, 4 * |prefix| + saved.bytes, roomy)
    ensures var r := roomy.Insert(prefix, saved);
            && r.entries == [Entry(prefix, saved)] + roomy.entries && r.bytes == Sum(r.entries) && r.capacity == c.capacity
            && r.entries[1..] == roomy.entries
            && LongestFitting(c, 4 * |prefix| + saved.bytes, Cache(r.capacity, Sum(r.entries[1..]), r.entries[1..]))
  {
    FitsMeans(roomy, |prefix|, saved.bytes);
    forall i | 0 <= i < |roomy.entries| ensures roomy.entries[i].tokens != prefix {
      assert roomy.entries[i] == c.entries[i];
    }
    assert roomy.MakeRoom(|prefix|, saved.bytes) == roomy;
    FrontSum(Entry(prefix, saved), roomy.entries);
    assert ([Entry(prefix, saved)] + roomy.entries)[1..] == roomy.entries;
  }

  lemma ItemRecords(s: Sched, phase: Phase, items: seq<Item>, token: Token, saves: bool,
                    r: (Sched, Result<Option<Update>, SchedError>))
    requires Inv(s, phase, items) && items != [] && !s.state.open
    requires items[0].id in s.sequences && items[0].id in s.state.sequences
    requires s.state.sequences[items[0].id].committed == s.sequences[items[0].id].processed + s.sequences[items[0].id].scheduled
    requires r == s.CompleteItem(phase, items[0], token, saves)
    ensures StepRecorded(s, phase, items[0], saves, s.prefixes, r.0.prefixes)
  {
    hide Inv, Choosing.Worthwhile, LongestFitting, Choosing.StateBytes;
    ItemFacts(s, phase, items);
    var q := s.sequences[items[0].id];
    var c := Worked(q);
    var committed := s.(sequences := s.sequences[q.id := c]);
    RetiredCache(s, phase, items[0], token, saves);
    WorkedValid(s, phase, items);
    SameWorth(s, committed, q, c);
    if phase == Prefill {
      if Choosing.Worthwhile(committed, c, c.processed) {
        CacheStored(committed, c, saves);
      } else {
        NothingStored(committed, c, saves);
      }
    }
  }

  /** Only the checkpoint of the item touches the cache. */
  lemma RetiredCache(s: Sched, phase: Phase, item: Item, token: Token, saves: bool)
    requires item.id in s.sequences && s.sequences[item.id].id == item.id && LiveOk(s.sequences[item.id])
    requires 0 < s.sequences[item.id].scheduled
    ensures var c := Worked(s.sequences[item.id]);
            var committed := s.(sequences := s.sequences[item.id := c]);
            (s.CompleteItem(phase, item, token, saves).0.prefixes
          == if phase == Prefill then committed.CachePrefix(c, saves).prefixes else s.prefixes)
  {
    hide Hybrid.Release, Sched.CachePrefix, SeqData.EvaluateStop;
    assert s.sequences[item.id].CommitScheduled() == Ok(Worked(s.sequences[item.id]));
  }

  lemma WorkedValid(s: Sched, phase: Phase, items: seq<Item>)
    requires Inv(s, phase, items) && items != [] && items[0].id in s.sequences
    ensures Worked(s.sequences[items[0].id]).Valid() && s.state.Sound() && s.prefixes.Valid()
  {
    hide ResourcesOk, PendingOk;
    assert MemberOk(s, items[0].id);
    SoundOf(s, phase, items);
  }

  lemma SameWorth(s: Sched, t: Sched, q: SeqData, c: SeqData)
    requires t == s.(sequences := t.sequences) && c == Worked(q)
    ensures Choosing.StateBytes(t, c.processed) == Choosing.StateBytes(s, q.processed + q.scheduled)
    ensures Choosing.Worthwhile(t, c, c.processed) <==>
            Choosing.Worthwhile(s.(prefixes := s.prefixes), q, q.processed + q.scheduled)
  {
  }

  lemma NothingStored(s: Sched, q: SeqData, saves: bool)
    requires q.Valid() && !Choosing.Worthwhile(s, q, q.processed)
    ensures s.CachePrefix(q, saves) == s
  {
    hide Choosing.Worthwhile, Sched.Cacheable, Cache.MakeRoom, Hybrid.Checkpoint;
    if q.processed in q.checkpoints {
      WorthCaching(s, q, q.processed);
    }
  }

  // ---------------------------------------------------------------- the whole batch

  /** The cache after the items in order, each seen as it was before the call. */
  ghost predicate Recorded(s: Sched, phase: Phase, items: seq<Item>, saves: set<nat>, a: Cache<Payload>, b: Cache<Payload>)
    decreases |items|
  {
    if items == [] then b == a
    else exists mid :: StepRecorded(s, phase, items[0], items[0].id in saves, a, mid)
                       && Recorded(s, phase, items[1..], saves, mid, b)
  }

  /** The items still to complete are as they were before the call. */
  ghost predicate Ahead(s: Sched, t: Sched, items: seq<Item>) {
    && t.config == s.config && t.state.shape == s.state.shape
    && t.state.pages.count == s.state.pages.count && t.state.pages.size == s.state.pages.size
    && forall i :: 0 <= i < |items| ==> Untouched(s, t, items[i].id)
  }

  ghost predicate Untouched(s: Sched, t: Sched, id: nat) {
    && id in s.sequences && id in t.sequences && t.sequences[id] == s.sequences[id]
    && id in s.state.sequences && id in t.state.sequences
    && t.state.sequences[id].committed == s.state.sequences[id].committed
  }

  /** Every item's work is committed. */
  ghost predicate AllCommitted(s: Sched, items: seq<Item>) {
    forall i :: 0 <= i < |items| ==> ItemCommitted(s, items[i].id)
  }

  ghost predicate ItemCommitted(s: Sched, id: nat) {
    && id in s.sequences && id in s.state.sequences
    && s.state.sequences[id].committed == s.sequences[id].processed + s.sequences[id].scheduled
  }

  lemma AheadRecorded(s: Sched, t: Sched, phase: Phase, item: Item, saved: bool, a: Cache<Payload>, b: Cache<Payload>)
    requires t.config == s.config && t.state.shape == s.state.shape
    requires t.state.pages.count == s.state.pages.count && t.state.pages.size == s.state.pages.size
    requires Untouched(s, t, item.id) && StepRecorded(t, phase, item, saved, a, b)
    ensures StepRecorded(s, phase, item, saved, a, b)
  {
    hide LongestFitting;
    var q := s.sequences[item.id];
    assert Choosing.Worthwhile(t.(prefixes := a), q, q.processed + q.scheduled)
      <==> Choosing.Worthwhile(s.(prefixes := a), q, q.processed + q.scheduled);
  }

  /** Completing the first item touches none of the others. */
  lemma AheadNext(s: Sched, t: Sched, phase: Phase, items: seq<Item>, token: Token, saves: bool, u: Sched)
    requires Inv(t, phase, items) && items != [] && !t.state.open && Ahead(s, t, items)
    requires u == t.CompleteItem(phase, items[0], token, saves).0
    ensures Ahead(s, u, items[1..])
  {
    hide Inv, Sched.CompleteItem, Cache.Valid, Settle;
    CompleteItemShifts(t, phase, items, token, saves);
    HeadOnce(t, phase, items);
    forall i | 0 <= i < |items[1..]| ensures Untouched(s, u, items[1..][i].id) {
      assert Untouched(s, t, items[i + 1].id);
      assert items[1..][i] == items[i + 1];
    }
  }

  lemma HeadOnce(s: Sched, phase: Phase, items: seq<Item>)
    requires Inv(s, phase, items) && items != []
    ensures forall i :: 0 < i < |items| ==> items[i].id != items[0].id
  {
    hide ResourcesOk;
    assert ItemOk(s, phase, items, 0);
    forall i | 0 < i < |items| ensures items[i].id != items[0].id {
      assert ItemOk(s, phase, items, i);
    }
  }

  lemma {:induction false} ItemsRecord(s: Sched, t: Sched, phase: Phase, items: seq<Item>, samples: seq<Token>,
                                       updates: seq<Update>, saves: set<nat>, r: (Sched, Result<seq<Update>, SchedError>))
    requires Inv(t, phase, items) && !t.state.open && |samples| == CountSamples(items)
    requires Ahead(s, t, items) && AllCommitted(s, items)
    requires r == t.CompleteItems(phase, items, samples, updates, saves)
    ensures Recorded(s, phase, items, saves, t.prefixes, r.0.prefixes)
    decreases |items|
  {
    hide Inv, Sched.CompleteItem, StepRecorded, Ahead, Untouched;
    if items != [] {
      CountSamplesCons(items);
      var token := if items[0].sample then samples[0] else 0;
      var done := t.CompleteItem(phase, items[0], token, items[0].id in saves);
      CompleteItemKeeps(t, phase, items, token, items[0].id in saves, done);
      HeadCommitted(s, t, items);
      ItemRecords(t, phase, items, token, items[0].id in saves, done);
      HeadRecorded(s, t, phase, items, items[0].id in saves, done.0.prefixes);
      AheadNext(s, t, phase, items, token, items[0].id in saves, done.0);
      var rest := if items[0].sample then samples[1..] else samples;
      var more := if done.1.value.Some? then updates + [done.1.value.value] else updates;
      assert AllCommitted(s, items[1..]);
      ItemsRecord(s, done.0, phase, items[1..], rest, more, saves, r);
    }
  }

  lemma HeadCommitted(s: Sched, t: Sched, items: seq<Item>)
    requires items != [] && Ahead(s, t, items) && AllCommitted(s, items)
    ensures ItemCommitted(t, items[0].id)
  {
    assert Untouched(s, t, items[0].id) && ItemCommitted(s, items[0].id);
  }

  lemma HeadRecorded(s: Sched, t: Sched, phase: Phase, items: seq<Item>, saved: bool, b: Cache<Payload>)
    requires items != [] && Ahead(s, t, items) && StepRecorded(t, phase, items[0], saved, t.prefixes, b)
    ensures StepRecorded(s, phase, items[0], saved, t.prefixes, b)
  {
    hide StepRecorded, Untouched;
    assert Untouched(s, t, items[0].id);
    AheadRecorded(s, t, phase, items[0], saved, t.prefixes, b);
  }

  lemma CountSamplesCons(items: seq<Item>)
    requires items != []
    ensures CountSamples(items) == (if items[0].sample then 1 else 0) + CountSamples(items[1..])
  {
  }

  lemma CommittedAhead(k: Kernel, s: Sched, phase: Phase, items: seq<Item>)
    requires Inv(s, phase, items) && Telling(k, s)
    ensures AllCommitted(s, items)
  {
    hide Residence.Lodged, CacheFaithful, AllTold;
    forall i | 0 <= i < |items| ensures ItemCommitted(s, items[i].id) {
      AheadCommitted(k, s, phase, items, i);
    }
  }

  lemma AheadCommitted(k: Kernel, s: Sched, phase: Phase, items: seq<Item>, i: nat)
    requires Inv(s, phase, items) && Telling(k, s) && i < |items|
    ensures ItemCommitted(s, items[i].id)
  {
    hide Residence.Lodged, CacheFaithful, AllTold, Inv;
    var id := items[i].id;
    ItemLive(s, phase, items, i);
    assert id in Generation.Ahead(s);
    assert |Generation.Ahead(s)[id]| == s.sequences[id].processed + s.sequences[id].scheduled;
  }

  lemma ItemLive(s: Sched, phase: Phase, items: seq<Item>, i: nat)
    requires Inv(s, phase, items) && i < |items|
    ensures items[i].id in s.sequences && items[i].id in s.state.sequences && s.sequences[items[i].id].Valid()
  {
    hide Hybrid.Sound, Budgets;
    assert ItemOk(s, phase, items, i);
    assert items[i].id in s.Queue(phase);
    assert MemberOk(s, items[i].id);
  }

  /** complete with the samples of a pass records exactly the checkpoints that its prefills ended on. */
  lemma CompleteRecords(k: Kernel, s: Sched, t: Sched, b: Batch, samples: seq<Token>, saves: set<nat>)
    requires SchedInv(t) && t.active == Some(b) && |samples| == CountSamples(b.items) && Telling(k, Closed(t, true))
    requires s.config == t.config && s.state.shape == t.state.shape && s.sequences == t.sequences
    requires s.state.pages.count == t.state.pages.count && s.state.pages.size == t.state.pages.size
    ensures Recorded(s, b.phase, b.items, saves, t.prefixes, t.Complete(b.id, samples, saves).0.prefixes)
  {
    hide Inv, Telling, Sched.CompleteItems, Hybrid.CommitBatch, StepRecorded, Recorded;
    ClosedKeeps(t, b.phase, b.items, true);
    var c := Closed(t, true);
    CommittedAhead(k, c, b.phase, b.items);
    CommittedAheadRefl(c, b.items);
    CompleteItemsKeeps(c, b.phase, b.items, samples, [], saves, c.CompleteItems(b.phase, b.items, samples, [], saves));
    ItemsRecord(c, c, b.phase, b.items, samples, [], saves, c.CompleteItems(b.phase, b.items, samples, [], saves));
    ClosedPool(t);
    SameRecorded(c, s, b.phase, b.items, saves, t.prefixes, t.Complete(b.id, samples, saves).0.prefixes);
  }

  lemma ClosedPool(t: Sched)
    ensures var c := Closed(t, true);
            c.state.pages == t.state.pages && c.state.shape == t.state.shape && c.config == t.config && c.sequences == t.sequences
  {
  }

  lemma CommittedAheadRefl(s: Sched, items: seq<Item>)
    requires AllCommitted(s, items)
    ensures Ahead(s, s, items)
  {
    forall i | 0 <= i < |items| ensures Untouched(s, s, items[i].id) {
      assert ItemCommitted(s, items[i].id);
    }
  }

  lemma {:induction false} SameRecorded(s: Sched, t: Sched, phase: Phase, items: seq<Item>, saves: set<nat>,
                                        a: Cache<Payload>, b: Cache<Payload>)
    requires Recorded(s, phase, items, saves, a, b)
    requires t.config == s.config && t.state.shape == s.state.shape && t.sequences == s.sequences
    requires t.state.pages.count == s.state.pages.count && t.state.pages.size == s.state.pages.size
    ensures Recorded(t, phase, items, saves, a, b)
    decreases |items|
  {
    hide StepRecorded;
    if items != [] {
      var mid :| StepRecorded(s, phase, items[0], items[0].id in saves, a, mid) && Recorded(s, phase, items[1..], saves, mid, b);
      SameStep(s, t, phase, items[0], items[0].id in saves, a, mid);
      SameRecorded(s, t, phase, items[1..], saves, mid, b);
    }
  }

  lemma SameStep(s: Sched, t: Sched, phase: Phase, item: Item, saved: bool, a: Cache<Payload>, b: Cache<Payload>)
    requires StepRecorded(s, phase, item, saved, a, b)
    requires t.config == s.config && t.state.shape == s.state.shape && t.sequences == s.sequences
    requires t.state.pages.count == s.state.pages.count && t.state.pages.size == s.state.pages.size
    ensures StepRecorded(t, phase, item, saved, a, b)
  {
    hide LongestFitting;
    var q := s.sequences[item.id];
    assert Choosing.Worthwhile(t.(prefixes := a), q, q.processed + q.scheduled)
      <==> Choosing.Worthwhile(s.(prefixes := a), q, q.processed + q.scheduled);
  }

  // ---------------------------------------------------------------- the engine's step

  lemma PassRecords(k: Kernel, s: Sched, b: Batch, m: ModelBatch, t: Sched, env: StepEnv)
    requires Begun(k, s, b, m, t) && !s.state.open && SchedInv(t)
    requires Finish(t, b, m, Execution.Execute(k, t.state, m, env.fault), env).1.Ok?
    ensures Recorded(s, b.phase, b.items, env.saves, s.prefixes,
                     Finish(t, b, m, Execution.Execute(k, t.state, m, env.fault), env).0.prefixes)
  {
    hide SchedInv, BuildModelBatch, Execution.RunItems, Resting, Sched.Complete, Sched.Abort, Wanted, Telling,
      Recorded, CountSamples, Closed, Hybrid.Startable;
    var run := Execution.RunItems(k, t.state, m, |m.items|, |m.tokens|);
    var u := t.(state := run.0);
    CommittedPassTells(k, s, b, m, t, run, u);
    Execution.RunItemsFrame(k, t.state, m, |m.items|, |m.tokens|);
    ExecuteKeeps(t, u.state);
    CompleteRecords(k, s, u, b, run.1, env.saves);
  }

  /** A successful step records exactly the checkpoints that the prefills of its batch ended on, as far as they can be copied; a
      failed one leaves the cache alone. */
  lemma StepRecords(k: Kernel, s: Sched, env: StepEnv)
    requires EngineInv(k, s)
    ensures if Step(k, s, env).1.Ok? then
              s.Schedule().1.Ok?
              && Recorded(s.Schedule().0, s.Schedule().1.value.phase, s.Schedule().1.value.items, env.saves, s.prefixes,
                          Step(k, s, env).0.prefixes)
            else Step(k, s, env).0.prefixes == s.prefixes
  {
    hide Inv, Resting, Sched.Schedule, BuildModelBatch, Sched.BeginExecution, Finish, Recorded, Unharmed,
      Selection.PositionsFit, Residence.Grew, Hybrid.Startable;
    if Step(k, s, env).1.Err? {
      StepKeeps(k, s, env);
    } else {
      ScheduledRests(k, s);
      var t, b := s.Schedule().0, s.Schedule().1.value;
      StepBegins(k, s, env);
      var m := BuildModelBatch(b, t.sequences, t.state.pages).value;
      ActiveNonempty(t, b);
      Building.InvParts(t, b.phase, b.items);
      Building.BuildSucceedsExactly(t, b);
      BeginIs(k, t, b, m);
      BeginKeeps(t, m);
      PassRecords(k, t, b, m, t.BeginExecution(m).0, env);
    }
  }

  /** What a successful step went through. */
  lemma StepBegins(k: Kernel, s: Sched, env: StepEnv)
    requires Step(k, s, env).1.Ok?
    ensures s.Schedule().1.Ok?
    ensures var t, b := s.Schedule().0, s.Schedule().1.value;
            var built := BuildModelBatch(b, t.sequences, t.state.pages);
            && built.Ok? && t.BeginExecution(built.value).1.Ok?
            && var u := t.BeginExecution(built.value).0;
               Step(k, s, env) == Finish(u, b, built.value, Execution.Execute(k, u.state, built.value, env.fault), env)
  {
    hide Sched.Schedule, BuildModelBatch, Sched.BeginExecution, Finish, Sched.Abort;
  }
}

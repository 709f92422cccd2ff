/** One engine step: schedule, build, begin, execute, then complete or abort: src/inference_engine.cc:73-151. */
module Engine {
  import opened Wrappers
  import opened Sequences
  import opened Kernels
  import opened Batches
  import opened HybridStates
  import opened Residence
  import opened Execution
  import opened Transactions
  import opened Scheduling
  import opened Invariants
  import opened Selection
  import opened Protocol
  import opened Lifecycle
  import opened Building
  import opened Generation

  datatype StepError =
    | SchedulingFailed(why: SchedError)
    | BuildFailed(fault: BatchError)
    | BeginFailed(why: SchedError)
    | RunnerFailed
    | CountMismatch
    | CompletionFailed(why: SchedError)
    | AbortFailed(why: SchedError)

  /** How the runner's pass ends, and which sequences' checkpoints can be allocated. */
  datatype StepEnv = StepEnv(fault: Fault, saves: set<nat>)

  function FailAfterAbort(s: Sched, id: nat, error: StepError): (r: (Sched, Result<seq<Update>, StepError>)) {
    var aborted := s.Abort(id);
    (aborted.0, Err(if aborted.1.Err? then AbortFailed(aborted.1.error) else error))
  }

  ghost function Step(k: Kernel, s: Sched, env: StepEnv): (r: (Sched, Result<seq<Update>, StepError>)) {
    var scheduled := s.Schedule();
    if scheduled.1.Err? then (scheduled.0, Err(SchedulingFailed(scheduled.1.error)))
    else RunBatch(k, scheduled.0, scheduled.1.value, env)
  }

  ghost function RunBatch(k: Kernel, s: Sched, b: Batch, env: StepEnv): (r: (Sched, Result<seq<Update>, StepError>)) {
    var built := BuildModelBatch(b, s.sequences, s.state.pages);
    if built.Err? then FailAfterAbort(s, b.id, BuildFailed(built.error))
    else
      var begun := s.BeginExecution(built.value);
      if begun.1.Err? then FailAfterAbort(begun.0, b.id, BeginFailed(begun.1.error))
      else Finish(begun.0, b, built.value, Execute(k, begun.0.state, built.value, env.fault), env)
  }

  ghost function Finish(s: Sched, b: Batch, m: ModelBatch, ran: (Hybrid, Option<seq<Token>>), env: StepEnv)
    : (r: (Sched, Result<seq<Update>, StepError>))
  {
    var t := s.(state := ran.0);
    if ran.1 == None then FailAfterAbort(t, b.id, RunnerFailed)
    else if |ran.1.value| != m.SampleCount() then FailAfterAbort(t, b.id, CountMismatch)
    else
      var done := t.Complete(b.id, ran.1.value, env.saves);
      match done.1
      case Err(e) => FailAfterAbort(done.0, b.id, CompletionFailed(e))
      case Ok(updates) => (done.0, Ok(updates))
  }

  /** Committed histories are resident, checkpoints faithful, tokens greedy. */
  ghost predicate Resting(k: Kernel, s: Sched) {
    Housed(k, s.state, Behind(s)) && CacheFaithful(k, s.prefixes) && AllTold(k, s)
  }

  /** The invariant of the engine between steps. */
  ghost predicate EngineInv(k: Kernel, s: Sched) {
    SchedInv(s) && s.active == None && Resting(k, s)
  }

  // ---------------------------------------------------------------- the batch as the state sees it

  lemma BuiltInput(s: Sched, b: Batch, m: ModelBatch, i: nat)
    requires Inv(s, b.phase, b.items) && Built(m, b.items, s.sequences, s.state.pages) && i < |b.items|
    ensures i < |m.items| && m.items[i].id == b.items[i].id && b.items[i].id in Behind(s)
    ensures ItemInput(m, i) != [] && Behind(s)[b.items[i].id] + ItemInput(m, i) == Ahead(s)[b.items[i].id]
    ensures m.items[i].logits.Some? <==> b.items[i].sample
    ensures b.items[i].sample ==> Ahead(s)[b.items[i].id] == s.sequences[b.items[i].id].tokens
  {
    hide Inv;
    assert BuiltItem(m, b.items, i, s.sequences, s.state.pages);
    ItemReserved(s, b.phase, b.items, i);
    var q := s.sequences[b.items[i].id];
    ItemSamples(s, b.phase, b.items, i);
    assert q.tokens[..q.processed] + q.tokens[q.processed..q.processed + q.scheduled] == q.tokens[..q.processed + q.scheduled];
  }

  lemma ItemSamples(s: Sched, phase: Phase, items: seq<Item>, i: nat)
    requires Inv(s, phase, items) && i < |items|
    ensures items[i].id in s.sequences
    ensures var q := s.sequences[items[i].id];
            q.processed + q.scheduled <= |q.tokens| && (items[i].sample <==> q.processed + q.scheduled == |q.tokens|)
  {
    assert ItemOk(s, phase, items, i);
    assert MemberOk(s, items[i].id);
  }

  lemma BuiltDistinct(s: Sched, b: Batch, m: ModelBatch)
    requires Inv(s, b.phase, b.items) && Built(m, b.items, s.sequences, s.state.pages)
    ensures |m.items| == |b.items| && forall i, j :: 0 <= i < j < |m.items| ==> m.items[i].id != m.items[j].id
  {
    hide Inv;
    forall i, j | 0 <= i < j < |m.items| ensures m.items[i].id != m.items[j].id {
      BuiltInput(s, b, m, i);
      BuiltInput(s, b, m, j);
      DistinctScheduled(s, b.phase, b.items, i, j);
    }
  }

  /** Advancing the committed histories by the batch gives the histories ahead. */
  lemma AdvanceIsAhead(s: Sched, b: Batch, m: ModelBatch)
    requires Inv(s, b.phase, b.items) && Built(m, b.items, s.sequences, s.state.pages)
    ensures Advance(Behind(s), m, |m.items|) == Ahead(s)
  {
    hide Inv, Built;
    BuiltDistinct(s, b, m);
    AdvanceKeys(Behind(s), m, |m.items|);
    assert Behind(s).Keys == Ahead(s).Keys;
    forall id | id in Behind(s) ensures Advance(Behind(s), m, |m.items|)[id] == Ahead(s)[id] {
      if i :| 0 <= i < |m.items| && m.items[i].id == id {
        BuiltInput(s, b, m, i);
        AdvanceOnce(Behind(s), m, |m.items|, i);
      } else {
        AdvanceOnly(Behind(s), m, |m.items|, id);
        NotListed(s, b, m, id);
      }
    }
  }

  lemma NotListed(s: Sched, b: Batch, m: ModelBatch, id: nat)
    requires Inv(s, b.phase, b.items) && Built(m, b.items, s.sequences, s.state.pages) && id in s.sequences
    requires forall i :: 0 <= i < |m.items| ==> m.items[i].id != id
    ensures s.sequences[id].scheduled == 0
  {
    forall i | 0 <= i < |b.items| ensures b.items[i].id != id {
      assert BuiltItem(m, b.items, i, s.sequences, s.state.pages);
    }
  }

  lemma {:induction false} WantedAppend(k: Kernel, sequences: map<nat, SeqData>, items: seq<Item>, item: Item)
    ensures Wanted(k, sequences, items + [item]) == Wanted(k, sequences, items) + Asked(k, sequences, item)
  {
    hide Next;
    if items != [] {
      assert (items + [item])[1..] == items[1..] + [item];
      WantedAppend(k, sequences, items[1..], item);
    } else {
      assert items + [item] == [item];
      assert [item][1..] == [];
    }
  }

  /** The state's greedy samples are the ones the scheduler's items ask for. */
  lemma {:induction false} SamplesAreWanted(k: Kernel, s: Sched, b: Batch, m: ModelBatch, n: nat)
    requires Inv(s, b.phase, b.items) && Built(m, b.items, s.sequences, s.state.pages)
    requires n <= |m.items| && |m.items| == |b.items|
    ensures GreedySamples(k, Behind(s), m, n) == Wanted(k, s.sequences, b.items[..n])
    ensures |GreedySamples(k, Behind(s), m, n)| == CountLogits(m.items[..n])
  {
    hide Inv, Built, Next, Behind, Ahead;
    if n > 0 {
      SamplesAreWanted(k, s, b, m, n - 1);
      BuiltInput(s, b, m, n - 1);
      ItemSamples(s, b.phase, b.items, n - 1);
      assert b.items[..n] == b.items[..n - 1] + [b.items[n - 1]];
      WantedAppend(k, s.sequences, b.items[..n - 1], b.items[n - 1]);
      assert m.items[..n][..n - 1] == m.items[..n - 1];
    }
  }

  lemma {:induction false} WantedCount(k: Kernel, s: Sched, items: seq<Item>)
    requires forall i :: 0 <= i < |items| && items[i].sample ==>
               items[i].id in s.sequences && s.sequences[items[i].id].tokens != []
    ensures |Wanted(k, s.sequences, items)| == CountSamples(items)
  {
    hide Next;
    if items != [] {
      assert forall i :: 0 <= i < |items| - 1 ==> items[1..][i] == items[i + 1];
      WantedCount(k, s, items[1..]);
    }
  }

  /** A correct pass returns the greedy token of every sampled item, as many as both counts say. */
  lemma PassAnswers(k: Kernel, s: Sched, b: Batch, m: ModelBatch)
    requires Inv(s, b.phase, b.items) && Built(m, b.items, s.sequences, s.state.pages) && |m.items| == |b.items|
    ensures GreedySamples(k, Behind(s), m, |m.items|) == Wanted(k, s.sequences, b.items)
    ensures |Wanted(k, s.sequences, b.items)| == m.SampleCount() == CountSamples(b.items)
  {
    hide Inv, Built;
    SamplesAreWanted(k, s, b, m, |m.items|);
    assert b.items[..|m.items|] == b.items && m.items[..|m.items|] == m.items;
    forall i | 0 <= i < |b.items| ensures b.items[i].id in s.sequences && s.sequences[b.items[i].id].tokens != [] {
      BuiltInput(s, b, m, i);
      ItemReserved(s, b.phase, b.items, i);
      ItemSamples(s, b.phase, b.items, i);
    }
    WantedCount(k, s, b.items);
  }

  // ---------------------------------------------------------------- scheduling and rolling back

  lemma HousedGrows(k: Kernel, h: Hybrid, g: Hybrid, hist: History)
    requires Housed(k, h, hist) && Grew(h, g) && g.sequences.Keys == h.sequences.Keys
    ensures Housed(k, g, hist)
  {
    hide LodgedAt;
    forall id | id in hist ensures LodgedAt(k, g, id, hist[id]) {
      LodgedGrows(k, h, g, id, hist[id]);
    }
  }

  lemma RestsWhileReserving(k: Kernel, s: Sched, t: Sched)
    requires Resting(k, s) && OnlyReservations(s, t)
    ensures Resting(k, t) && Behind(t) == Behind(s)
  {
    hide Housed, Grew, CacheFaithful, Told;
    forall id | id in s.sequences
      ensures t.sequences[id].tokens == s.sequences[id].tokens && t.sequences[id].processed == s.sequences[id].processed
      ensures Told(k, t.sequences[id], t.eos)
    {
      assert SameWork(s.sequences[id], t.sequences[id]);
      ToldSameWork(k, s.sequences[id], t.sequences[id], s.eos);
    }
    assert Behind(t) == Behind(s);
    HousedGrows(k, s.state, t.state, Behind(s));
  }

  lemma ToldSameWork(k: Kernel, a: SeqData, b: SeqData, eos: Token)
    requires Told(k, a, eos) && SameWork(a, b)
    ensures Told(k, b, eos)
  {
    hide Greedy, Unstopped;
    if a.promptCount <= |a.tokens| {
      assert a.Prompt() == b.Prompt();
    }
  }

  lemma RestsAlike(k: Kernel, s: Sched, t: Sched)
    requires Resting(k, s)
    requires t.state == s.state && t.sequences == s.sequences && t.prefixes == s.prefixes && t.eos == s.eos
    ensures Resting(k, t) && Behind(t) == Behind(s)
  {
    hide Housed, CacheFaithful, Told;
    assert Behind(t) == Behind(s);
  }

  lemma CountsFollow(k: Kernel, s: Sched)
    requires Resting(k, s) && QueuesOk(s)
    ensures CountsInStep(s)
  {
    hide Lodged, CacheFaithful, Told;
    forall id | id in s.state.sequences && id in s.sequences
      ensures s.state.sequences[id].committed == s.sequences[id].processed
    {
      assert MemberOk(s, id);
      assert id in Behind(s);
    }
  }

  /** A failed step aborts its batch: the engine rests again. */
  lemma AbortRests(k: Kernel, s: Sched, b: Batch, error: StepError, r: (Sched, Result<seq<Update>, StepError>))
    requires SchedInv(s) && s.active == Some(b) && Resting(k, Closed(s, false))
    requires r == FailAfterAbort(s, b.id, error)
    ensures EngineInv(k, r.0) && r.1 == Err(error)
    ensures r.0.state == Closed(s, false).state
    ensures OnlyReservations(Closed(s, false).(active := None), r.0)
    ensures forall id :: id in r.0.sequences ==> r.0.sequences[id].scheduled == 0
  {
    hide Inv, Resting, Grew, Closed, Sched.RollBack, Sched.Abort;
    AbortKeeps(s, b.id);
    ClosedKeeps(s, b.phase, b.items, false);
    var back := Closed(s, false).RollBack(b.items);
    RollBackKeeps(Closed(s, false), b.phase, b.items, back);
    RestsWhileReserving(k, Closed(s, false), back);
    RestsAlike(k, back, r.0);
  }

  // ---------------------------------------------------------------- running and closing

  lemma ExecuteFrame(k: Kernel, h: Hybrid, m: ModelBatch, fault: Fault)
    ensures SameFrame(h, Execute(k, h, m, fault).0)
  {
    hide SameFrame, RunItems;
    RunItemsFrame(k, h, m, |m.items|, |m.tokens|);
    if fault.FailAfter? {
      RunItemsFrame(k, h, m, |m.items|, fault.rows);
    }
  }

  /** A scheduler with a batch begun on its state. */
  ghost predicate Begun(k: Kernel, s: Sched, b: Batch, m: ModelBatch, t: Sched) {
    && SchedInv(s) && s.active == Some(b) && !s.transaction && Resting(k, s)
    && BuildModelBatch(b, s.sequences, s.state.pages) == Ok(m)
    && Began(s.state, m, t.state) && t == s.(transaction := true, state := t.state)
  }

  lemma BegunParts(k: Kernel, s: Sched, b: Batch, m: ModelBatch, t: Sched)
    requires Begun(k, s, b, m, t)
    ensures s.state.Sound() && Inv(s, b.phase, b.items) && Housed(k, s.state, Behind(s)) && CountsInStep(s)
    ensures Built(m, b.items, s.sequences, s.state.pages) && |m.items| == |b.items|
    ensures m.SampleCount() == CountSamples(b.items) == |Wanted(k, s.sequences, b.items)|
    ensures GreedySamples(k, Behind(s), m, |m.items|) == Wanted(k, s.sequences, b.items)
    ensures Advance(Behind(s), m, |m.items|) == Ahead(s)
    ensures forall id :: id in s.state.sequences ==> id in s.sequences
  {
    hide Inv, Hybrid.Sound, Housed, CacheFaithful, AllTold, BuildModelBatch, Built, Began;
    InvParts(s, b.phase, b.items);
    SoundOf(s, b.phase, b.items);
    CountsFollow(k, s);
    ActiveNonempty(s, b);
    BuildSucceedsExactly(s, b);
    BuiltLength(m, b.items, s.sequences, s.state.pages);
    PassAnswers(k, s, b, m);
    AdvanceIsAhead(s, b, m);
    HoldersAreMembers(s);
  }

  lemma ActiveNonempty(s: Sched, b: Batch)
    requires SchedInv(s) && s.active == Some(b)
    ensures b.items != [] && Inv(s, b.phase, b.items)
  {
  }

  /** However far a pass got, closing its transaction by an abort leaves the engine at rest. */
  lemma AbortedPassRests(k: Kernel, s: Sched, b: Batch, m: ModelBatch, t: Sched, limit: nat, u: Sched)
    requires Begun(k, s, b, m, t)
    requires u == t.(state := RunItems(k, t.state, m, |m.items|, limit).0)
    ensures Resting(k, Closed(u, false))
    ensures Closed(u, false).state == s.state.(slots := Closed(u, false).state.slots, snapshots := [])
    ensures Closed(u, false) == s.(state := Closed(u, false).state)
  {
    hide Inv, Hybrid.Sound, Lodged, CacheFaithful, Told, BuildModelBatch, Built, Began, Hybrid.AbortBatch;
    BegunParts(k, s, b, m, t);
    var after := u.state.AbortBatch();
    TransactionAborts(k, s.state, Behind(s), m, t.state, limit, u.state, after);
    var c := Closed(u, false);
    assert Behind(c) == Behind(s);
  }

  /** A pass that went well, once committed: histories ahead are resident, and the samples are the wanted ones. */
  lemma CommittedPassTells(k: Kernel, s: Sched, b: Batch, m: ModelBatch, t: Sched, run: (Hybrid, seq<Token>), u: Sched)
    requires Begun(k, s, b, m, t)
    requires run == RunItems(k, t.state, m, |m.items|, |m.tokens|) && u == t.(state := run.0)
    ensures Telling(k, Closed(u, true))
    ensures run.1 == Wanted(k, u.sequences, b.items) && |run.1| == m.SampleCount() == CountSamples(b.items)
  {
    hide Inv, Hybrid.Sound, Lodged, CacheFaithful, Told, BuildModelBatch, Built, Began, InStep, Hybrid.CommitBatch,
      Ahead, Behind;
    BegunParts(k, s, b, m, t);
    var after := run.0.CommitBatch();
    TransactionCommits(k, s.state, Behind(s), m, t.state, run, after);
    AheadKept(k, s, Closed(u, true));
  }

  lemma AheadKept(k: Kernel, s: Sched, t: Sched)
    requires t.sequences == s.sequences && Housed(k, t.state, Ahead(s))
    requires forall id :: id in s.state.sequences ==> id in s.sequences
    ensures Ahead(t) == Ahead(s)
  {
    hide Lodged;
    assert t.state.sequences.Keys == Ahead(s).Keys;
  }
}

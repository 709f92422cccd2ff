/** The engine's step on objects: batch building, the forward pass, and the commit-or-abort protocol around it:
    src/model_batch.cc:34-125 and src/inference_engine.cc:73-151. */
module EngineObjects {
  import opened Wrappers
  import opened Sequences
  import opened Paging
  import opened Kernels
  import opened Batches
  import opened HybridStates
  import opened Residence
  import opened Execution
  import opened Transactions
  import opened Scheduling
  import opened Invariants
  import opened Protocol
  import opened Building
  import opened Generation
  import opened Engine
  import opened Steps
  import opened ModelStates
  import opened SchedulerObjects

  // ---------------------------------------------------------------- build_model_batch

  /** The validation loop. */
  method FindFault(b: Batch, s: Scheduler) returns (r: Option<BatchError>)
    ensures r == FirstFault(b, s.View().sequences, 0)
  {
    hide ItemFault;
    var i := 0;
    while i < |b.items|
      invariant i <= |b.items|
      invariant FirstFault(b, s.View().sequences, i) == FirstFault(b, s.View().sequences, 0)
    {
      var repeated := Repeated(b.items, i);
      var fault := CheckItem(b.items[i], b.phase, repeated, s);
      if fault.Some? {
        return fault;
      }
      i := i + 1;
    }
    return None;
  }

  method Repeated(items: seq<Item>, i: nat) returns (r: bool)
    requires i < |items|
    ensures r == Listed(items[..i], items[i].id)
  {
    var j := 0;
    while j < i
      invariant j <= i
      invariant forall k :: 0 <= k < j ==> items[k].id != items[i].id
    {
      if items[j].id == items[i].id {
        assert items[..i][j].id == items[i].id;
        return true;
      }
      j := j + 1;
    }
    return false;
  }

  method CheckItem(item: Item, phase: Phase, repeated: bool, s: Scheduler) returns (r: Option<BatchError>)
    ensures r == ItemFault(item, phase, repeated, s.View().sequences)
  {
    if item.count == 0 {
      return Some(ZeroTokenCount);
    }
    if repeated {
      return Some(DuplicateSequenceId);
    }
    if item.id !in s.sequences {
      return Some(UnknownSequence);
    }
    var q := s.sequences[item.id];
    if q.status != ExpectedStatus(phase) {
      return Some(InvalidSequenceState);
    }
    if item.count != q.scheduled {
      return Some(ScheduledTokenCountMismatch);
    }
    if q.processed > |q.tokens| || item.count > |q.tokens| - q.processed {
      return Some(TokenRangeOutOfBounds);
    }
    if q.processed > MAX_U32 || item.count - 1 > MAX_U32 - q.processed {
      return Some(PositionOutOfRange);
    }
    return None;
  }

  /** The positions of one item's rows. */
  method CountUp(from: nat, n: nat) returns (r: seq<nat>)
    ensures r == Consecutive(from, n)
  {
    r := [];
    var index := 0;
    while index < n
      invariant index <= n && r == Consecutive(from, index)
    {
      r := r + [from + index];
      index := index + 1;
    }
  }

  lemma AssembleStep(m: ModelBatch, items: seq<Item>, sequences: map<nat, SeqData>, pages: Pages, i: nat)
    requires Buildable(items, sequences) && i < |items|
    ensures Buildable([items[i]], sequences) && Buildable(items[..i], sequences) && Buildable(items[..i + 1], sequences)
    ensures Assemble(m, items[..i + 1], sequences, pages)
         == AddItem(Assemble(m, items[..i], sequences, pages), items[i], sequences, pages)
  {
    assert [items[i]][0] == items[i];
    assert items[..i + 1][..i] == items[..i];
  }

  lemma AssembleNone(m: ModelBatch, items: seq<Item>, sequences: map<nat, SeqData>, pages: Pages)
    ensures Buildable(items[..0], sequences) && Assemble(m, items[..0], sequences, pages) == m
  {
  }

  /** The construction loop over the items of a valid batch. */
  method BuildItems(empty: ModelBatch, items: seq<Item>, s: Scheduler) returns (m: ModelBatch)
    requires Buildable(items, s.View().sequences)
    ensures m == Assemble(empty, items, s.View().sequences, s.View().state.pages)
  {
    hide Assemble, Buildable, AddItem;
    ghost var sequences, pages := s.View().sequences, s.View().state.pages;
    m := empty;
    var i := 0;
    AssembleNone(empty, items, sequences, pages);
    while i < |items|
      invariant i <= |items|
      invariant Buildable(items[..i], sequences)
      invariant m == Assemble(empty, items[..i], sequences, pages)
    {
      AssembleStep(empty, items, sequences, pages, i);
      m := BuildItem(m, items[i], s);
      i := i + 1;
    }
    assert items[..i] == items;
  }

  method Build(b: Batch, s: Scheduler) returns (r: Result<ModelBatch, BatchError>)
    ensures r == BuildModelBatch(b, s.View().sequences, s.View().state.pages)
  {
    hide ItemFault, Assemble;
    if b.items == [] {
      return Err(EmptyBatch);
    }
    var fault := FindFault(b, s);
    if fault.Some? {
      return Err(fault.value);
    }
    NoFaultBuildable(b, s.View().sequences, 0);
    AllBuildable(b, s.View().sequences);
    hide Listed, Buildable, FirstFault;
    var m := BuildItems(ModelBatch(b.id, b.phase, s.state.pages.blockSize, [], [], []), b.items, s);
    return Ok(m);
  }

  lemma AllBuildable(b: Batch, sequences: map<nat, SeqData>)
    requires forall j :: 0 <= j < |b.items| ==>
               ItemFault(b.items[j], b.phase, Listed(b.items[..j], b.items[j].id), sequences) == None
    ensures Buildable(b.items, sequences)
  {
  }

  method BuildItem(m: ModelBatch, item: Item, s: Scheduler) returns (r: ModelBatch)
    requires Buildable([item], s.View().sequences)
    ensures r == AddItem(m, item, s.View().sequences, s.View().state.pages)
  {
    assert [item][0] == item;
    var q, offset := s.sequences[item.id], |m.tokens|;
    var positions := CountUp(q.processed, item.count);
    r := m.(tokens := m.tokens + q.tokens[q.processed..q.processed + item.count],
            positions := m.positions + positions,
            items := m.items + [ModelItem(item.id, offset, item.count,
                                          if item.sample then Some(offset + item.count - 1) else None,
                                          s.state.pages.Resources(item.id))]);
  }

  // ---------------------------------------------------------------- the forward pass

  method GatherCells(state: ModelState, table: seq<nat>, n: nat) returns (cells: seq<Cell>)
    requires Reaches(state.slots.Length, table, state.pages.blockSize, n)
    ensures cells == Gather(state.slots[..], table, state.pages.blockSize, n)
  {
    cells := [];
    var p := 0;
    while p < n
      invariant p <= n
      invariant cells == Gather(state.slots[..], table, state.pages.blockSize, p)
    {
      cells := cells + [state.slots[Slot(table, state.pages.blockSize, p)]];
      p := p + 1;
    }
  }

  /** The rows of one sequence, each writing its slot and advancing the recurrent memory. */
  method RunRowsOf(k: Kernel, state: ModelState, table: seq<nat>, start: nat, tokens: seq<Token>, memory: Memory)
    returns (after: Memory, sample: Token)
    requires Reaches(state.slots.Length, table, state.pages.blockSize, start + |tokens|)
    modifies state.slots
    ensures Ran(state.slots[..], after, sample)
         == RunRows(k, old(state.slots[..]), table, state.pages.blockSize, start, tokens, memory)
  {
    after, sample := memory, 0;
    var n := 0;
    assert tokens[..0] == [];
    while n < |tokens|
      invariant n <= |tokens|
      invariant Ran(state.slots[..], after, sample)
             == RunRows(k, old(state.slots[..]), table, state.pages.blockSize, start, tokens[..n], memory)
    {
      assert tokens[..n + 1][..n] == tokens[..n];
      ReachesLess(state.slots.Length, table, state.pages.blockSize, start + |tokens|, start + n);
      var cells := GatherCells(state, table, start + n);
      var out := k.row(after, cells, tokens[n]);
      state.slots[Slot(table, state.pages.blockSize, start + n)] := out.cell;
      after, sample := out.memory, out.sample;
      n := n + 1;
    }
    assert tokens[..n] == tokens;
  }

  /** Every row of the batch has its slot. */
  ghost predicate Reachable(slots: nat, size: Positive, b: ModelBatch) {
    forall i :: 0 <= i < |b.items| ==> Reaches(slots, b.items[i].table, size, Start(b, b.items[i]) + b.items[i].count)
  }

  method RunBatchRows(k: Kernel, state: ModelState, b: ModelBatch, limit: nat) returns (samples: seq<Token>)
    requires Reachable(state.slots.Length, state.pages.blockSize, b)
    modifies state.slots, state`sequences
    ensures (state.View(), samples) == RunItems(k, old(state.View()), b, |b.items|, limit)
  {
    hide RunRows, RowsWithin, Reaches;
    samples := [];
    var i, before := 0, 0;
    while i < |b.items|
      invariant i <= |b.items| && before == RowsBefore(b.items, i)
      invariant (state.View(), samples) == RunItems(k, old(state.View()), b, i, limit)
    {
      samples := RunOne(k, state, b, i, limit, before, samples);
      before := before + b.items[i].count;
      i := i + 1;
    }
  }

  method RunOne(k: Kernel, state: ModelState, b: ModelBatch, i: nat, limit: nat, before: nat, samples: seq<Token>)
    returns (more: seq<Token>)
    requires i < |b.items| && before == RowsBefore(b.items, i)
    requires Reachable(state.slots.Length, state.pages.blockSize, b)
    modifies state.slots, state`sequences
    ensures (state.View(), more) == RunItem(k, (old(state.View()), samples), b, i, RowsWithin(b, i, limit))
  {
    hide RunRows;
    var item := b.items[i];
    if item.id !in state.sequences {
      return samples;
    }
    var rows := if limit <= before then 0 else if limit - before < item.count then limit - before else item.count;
    var tokens := Slice(b.tokens, item.offset, rows);
    ReachesLess(state.slots.Length, item.table, state.pages.blockSize, Start(b, item) + item.count, Start(b, item) + |tokens|);
    var memory, sample := RunRowsOf(k, state, item.table, Start(b, item), tokens, state.sequences[item.id].memory);
    state.sequences := state.sequences[item.id := state.sequences[item.id].(memory := memory)];
    return samples + (if item.logits.Some? then [sample] else []);
  }

  method ExecuteBatch(k: Kernel, state: ModelState, b: ModelBatch, fault: Fault) returns (r: Option<seq<Token>>)
    requires Reachable(state.slots.Length, state.pages.blockSize, b)
    modifies state.slots, state`sequences
    ensures (state.View(), r) == Execute(k, old(state.View()), b, fault)
  {
    hide RunItems, Reachable;
    var samples := RunBatchRows(k, state, b, if fault.FailAfter? then fault.rows else |b.tokens|);
    match fault {
      case NoFault => return Some(samples);
      case FailAfter(rows) => return None;
      case Miscount(other) => return Some(if |other| == |samples| then samples else other);
    }
  }

  // ---------------------------------------------------------------- the step

  lemma BegunReachable(k: Kernel, s: Sched, b: Batch, m: ModelBatch, t: Sched)
    requires Begun(k, s, b, m, t)
    ensures Reachable(|t.state.slots|, t.state.pages.size, m)
  {
    hide SchedInv, Resting, Hybrid.Sound, BuildModelBatch, Housed, Reaches, Behind, Ahead, Built, CountsInStep,
      Hybrid.Startable, Inv, InStep;
    BegunParts(k, s, b, m, t);
    BeganMeans(s.state, m, t.state);
    HousedCounts(k, s.state, Behind(s));
    StartableContinues(s.state, Behind(s), m);
    forall i | 0 <= i < |m.items|
      ensures Reaches(|t.state.slots|, m.items[i].table, t.state.pages.size, Start(m, m.items[i]) + m.items[i].count)
    {
      assert ItemContinues(s.state, Behind(s), m, i);
    }
  }

  lemma HousedCounts(k: Kernel, h: Hybrid, hist: History)
    requires Housed(k, h, hist)
    ensures InStep(h, hist)
  {
  }

  class InferenceEngine {
    const scheduler: Scheduler

    constructor (scheduler: Scheduler)
      ensures this.scheduler == scheduler
    {
      this.scheduler := scheduler;
    }

    method Abandon(id: nat, error: StepError) returns (r: Result<seq<Update>, StepError>)
      requires scheduler.Apart()
      modifies scheduler, scheduler.state, scheduler.sequences.Values
      ensures scheduler.Apart() && scheduler.sequences == old(scheduler.sequences)
      ensures (scheduler.View(), r) == FailAfterAbort(old(scheduler.View()), id, error)
    {
      hide Sched.Abort;
      var aborted := scheduler.Abort(id);
      return Err(if aborted.Err? then AbortFailed(aborted.error) else error);
    }

    /** The forward pass, seen by the scheduler. */
    method Forward(k: Kernel, m: ModelBatch, fault: Fault) returns (r: Option<seq<Token>>)
      requires Reachable(scheduler.state.slots.Length, scheduler.state.pages.blockSize, m)
      modifies scheduler.state.slots, scheduler.state`sequences
      ensures var ran := Execute(k, old(scheduler.View()).state, m, fault);
              scheduler.View() == old(scheduler.View()).(state := ran.0) && r == ran.1
    {
      hide Execute, Reachable;
      r := ExecuteBatch(k, scheduler.state, m, fault);
    }

    /** What follows a forward pass. */
    method Conclude(b: Batch, m: ModelBatch, samples: Option<seq<Token>>, ghost env: StepEnv, saves: set<nat>)
      returns (r: Result<seq<Update>, StepError>)
      requires scheduler.Apart() && SchedInv(scheduler.View()) && saves == env.saves
      modifies scheduler, scheduler.state, scheduler.state.pages, scheduler.prefixes, scheduler.sequences.Values
      ensures scheduler.Apart() && scheduler.sequences == old(scheduler.sequences)
      ensures (scheduler.View(), r) == Finish(old(scheduler.View()), b, m, (old(scheduler.View()).state, samples), env)
    {
      hide Sched.Complete, FailAfterAbort, SchedInv;
      ghost var before := scheduler.View();
      assert before.(state := before.state) == before;
      if samples == None {
        r := Abandon(b.id, RunnerFailed);
        return;
      }
      if |samples.value| != m.SampleCount() {
        r := Abandon(b.id, CountMismatch);
        return;
      }
      var completed := scheduler.Complete(b.id, samples.value, saves);
      if completed.Err? {
        r := Abandon(b.id, CompletionFailed(completed.error));
        return;
      }
      return Ok(completed.value);
    }

    /** inference_engine::step computes exactly the step proved correct on values. */
    method Step(k: Kernel, env: StepEnv) returns (r: Result<seq<Update>, StepError>)
      requires scheduler.Apart() && EngineInv(k, scheduler.View())
      modifies scheduler, scheduler.state, scheduler.state.pages, scheduler.state.slots, scheduler.prefixes,
               scheduler.sequences.Values
      ensures scheduler.Apart() && scheduler.sequences == old(scheduler.sequences)
      ensures (scheduler.View(), r) == Engine.Step(k, old(scheduler.View()), env)
      ensures EngineInv(k, scheduler.View())
    {
      hide EngineInv, SchedInv, Resting, Sched.Schedule, RunBatch, Hybrid.Sound, Unharmed;
      StepKeeps(k, scheduler.View(), env);
      ghost var before := scheduler.View();
      var scheduled := scheduler.Schedule();
      if scheduled.Err? {
        return Err(SchedulingFailed(scheduled.error));
      }
      ScheduledRests(k, before);
      r := RunScheduled(k, scheduled.value, env);
    }

    method RunScheduled(k: Kernel, b: Batch, env: StepEnv) returns (r: Result<seq<Update>, StepError>)
      requires scheduler.Apart() && SchedInv(scheduler.View()) && scheduler.active == Some(b)
      requires !scheduler.transaction && !scheduler.state.open && Resting(k, scheduler.View())
      modifies scheduler, scheduler.state, scheduler.state.pages, scheduler.state.slots, scheduler.prefixes,
               scheduler.sequences.Values
      ensures scheduler.Apart() && scheduler.sequences == old(scheduler.sequences)
      ensures (scheduler.View(), r) == RunBatch(k, old(scheduler.View()), b, env)
    {
      hide Inv, Resting, BuildModelBatch, FailAfterAbort, Finish, Execute, Sched.BeginExecution, Reachable, Hybrid.Sound,
        Built, Begun;
      ghost var before := scheduler.View();
      var built := Build(b, scheduler);
      if built.Err? {
        r := Abandon(b.id, BuildFailed(built.error));
        return;
      }
      var m := built.value;
      ActiveNonempty(before, b);
      InvParts(before, b.phase, b.items);
      SoundOf(before, b.phase, b.items);
      BuildSucceedsExactly(before, b);
      var begun := scheduler.BeginExecution(m);
      if begun.Err? {
        r := Abandon(b.id, BeginFailed(begun.error));
        return;
      }
      BeginIs(k, before, b, m);
      BeginKeeps(before, m);
      ghost var t := scheduler.View();
      BegunReachable(k, before, b, m, t);
      var samples := Forward(k, m, env.fault);
      ExecuteFrame(k, t.state, m, env.fault);
      BegunActive(k, before, b, m, t);
      ExecuteKeeps(t, scheduler.View().state);
      r := Conclude(b, m, samples, env, env.saves);
      FinishFrom(t, b, m, Execute(k, t.state, m, env.fault), env);
    }
  }

  lemma BegunActive(k: Kernel, s: Sched, b: Batch, m: ModelBatch, t: Sched)
    requires Begun(k, s, b, m, t)
    ensures t.active == Some(b)
  {
  }

  lemma FinishFrom(s: Sched, b: Batch, m: ModelBatch, ran: (Hybrid, Option<seq<Token>>), env: StepEnv)
    ensures Finish(s.(state := ran.0), b, m, ran, env) == Finish(s, b, m, ran, env)
  {
    hide Sched.Complete, FailAfterAbort;
  }
}

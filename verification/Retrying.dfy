/** Steps succeed whenever the runner does, and an abandoned batch is scheduled again with the same items. */
module Retrying {
  import opened Wrappers
  import opened Sequences
  import opened Paging
  import opened Kernels
  import opened Batches
  import opened HybridStates
  import opened Residence
  import opened Scheduling
  import opened Invariants
  import opened Selection
  import opened Protocol
  import opened Building
  import opened Engine
  import opened Steps
  import opened Execution
  import AcceptedBatches

  // ---------------------------------------------------------------- lockstep

  lemma PositionsNarrow(s: Sched, b: Batch)
    requires Inv(s, b.phase, b.items) && s.state.shape.maxPositions <= MAX_U32 + 1
    ensures PositionsInWidth(b.items, s.sequences)
  {
    hide Inv;
    forall i | 0 <= i < |b.items| && b.items[i].id in s.sequences
      ensures s.sequences[b.items[i].id].processed + b.items[i].count - 1 <= MAX_U32
    {
      ItemReserved(s, b.phase, b.items, i);
    }
  }

  /** The slots and table entries of the batch that schedule chooses now fit 32 bits. */
  ghost predicate NextNarrow(s: Sched) {
    s.Schedule().1.Ok? ==>
      var t, built := s.Schedule().0, BuildModelBatch(s.Schedule().1.value, s.Schedule().0.sequences, s.Schedule().0.state.pages);
      built.Ok? ==> Narrow(built.value, t.state.pages.size)
  }

  /** Scheduler and state are in lockstep: as long as anything is live and positions fit the model, a step whose forward pass
      succeeds succeeds itself, exactly when its batch fits the 32 bits of the batch format. */
  lemma StepSucceeds(k: Kernel, s: Sched, env: StepEnv)
    requires EngineInv(k, s) && !(s.waiting == [] && s.running == [])
    requires PositionsFit(s) && s.state.shape.maxPositions <= MAX_U32 + 1
    requires env.fault == NoFault
    ensures Step(k, s, env).1.Ok? <==> NextNarrow(s)
  {
    hide Inv, Resting, PositionsFit, Sched.Schedule, BuildModelBatch, Finish, Grew, Hybrid.BeginBatch, Narrow;
    ScheduleKeeps(s);
    ScheduledRests(k, s);
    var t, b := s.Schedule().0, s.Schedule().1.value;
    ActiveNonempty(t, b);
    InvParts(t, b.phase, b.items);
    SmallScheduled(s, t, b);
    PositionsNarrow(t, b);
    BuildSucceedsExactly(t, b);
    var m := BuildModelBatch(b, t.sequences, t.state.pages).value;
    CountsFollow(k, t);
    BeginSucceeds(t, b, m);
    if Narrow(m, t.state.pages.size) {
      BeginIs(k, t, b, m);
      BeginKeeps(t, m);
      PassRan(k, t, b, m, t.BeginExecution(m).0, env);
    } else {
      RefusedFails(k, t, b, m, env);
    }
  }

  /** A batch that the state refuses fails the step. */
  lemma RefusedFails(k: Kernel, t: Sched, b: Batch, m: ModelBatch, env: StepEnv)
    requires BuildModelBatch(b, t.sequences, t.state.pages) == Ok(m) && t.state.BeginBatch(m).1.Err?
    ensures RunBatch(k, t, b, env).1.Err?
    ensures t.active.Some? && t.active.value.id == m.id && !t.transaction ==>
              Tells(RunBatch(k, t, b, env).1.error, BeginFailed(BlockManagerFailure(t.state.BeginBatch(m).1.error)))
  {
    hide BuildModelBatch, Hybrid.BeginBatch, Finish, Sched.Abort;
  }

  /** The error tells this cause, unless the batch could not even be aborted. */
  ghost predicate Tells(error: StepError, cause: StepError) {
    error.AbortFailed? || error == cause
  }

  /** A pass cut short, or one that returns too few or too many samples, fails the step and says so. */
  lemma FaultTells(k: Kernel, t: Sched, b: Batch, m: ModelBatch, env: StepEnv)
    requires BuildModelBatch(b, t.sequences, t.state.pages) == Ok(m) && t.BeginExecution(m).1.Ok?
    ensures var r := RunBatch(k, t, b, env).1;
            && (env.fault.FailAfter? ==> r.Err? && Tells(r.error, RunnerFailed))
            && (env.fault.Miscount? && r.Err? ==> Tells(r.error, CountMismatch) || r.error.CompletionFailed?)
  {
    hide BuildModelBatch, Sched.BeginExecution, Sched.Abort, Sched.Complete, RunItems;
  }

  lemma BeginMeans(t: Sched, b: Batch, m: ModelBatch)
    requires t.active == Some(b) && m.id == b.id && !t.transaction
    ensures t.BeginExecution(m).1.Ok? <==> t.state.BeginBatch(m).1.Ok?
    ensures t.state.BeginBatch(m).1.Err? ==> t.state.BeginBatch(m).1.error == InvalidReservation
  {
    hide Hybrid.Startable;
  }

  /** A step that fails tells why: nothing is live, the batch does not fit 32 bits, the pass was cut short, or it returned a
      wrong number of samples. */
  lemma StepTells(k: Kernel, s: Sched, env: StepEnv)
    requires EngineInv(k, s) && PositionsFit(s) && s.state.shape.maxPositions <= MAX_U32 + 1
    ensures var r := Step(k, s, env).1;
            if s.waiting == [] && s.running == [] then r == Err(SchedulingFailed(NoRunnableSequences))
            else if !NextNarrow(s) then r == Err(BeginFailed(BlockManagerFailure(InvalidReservation)))
            else if env.fault.FailAfter? then r == Err(RunnerFailed)
            else r.Ok? || (env.fault.Miscount? && r == Err(CountMismatch))
  {
    hide Inv, Resting, PositionsFit, Sched.Schedule, BuildModelBatch, Finish, Grew, Hybrid.BeginBatch, Narrow, RunBatch, Survived,
      Sched.BeginExecution;
    StepKeeps(k, s, env);
    ScheduleKeeps(s);
    if !(s.waiting == [] && s.running == []) {
      ScheduledRests(k, s);
      var t, b := s.Schedule().0, s.Schedule().1.value;
      ActiveNonempty(t, b);
      InvParts(t, b.phase, b.items);
      SmallScheduled(s, t, b);
      PositionsNarrow(t, b);
      BuildSucceedsExactly(t, b);
      var m := BuildModelBatch(b, t.sequences, t.state.pages).value;
      CountsFollow(k, t);
      BeginSucceeds(t, b, m);
      BuiltFor(t, b, m);
      BeginMeans(t, b, m);
      if Narrow(m, t.state.pages.size) {
        FaultTells(k, t, b, m, env);
        if env.fault.NoFault? {
          StepSucceeds(k, s, env);
        }
      } else {
        RefusedFails(k, t, b, m, env);
      }
    } else {
      NothingScheduled(k, s, env);
    }
  }

  lemma BuiltFor(t: Sched, b: Batch, m: ModelBatch)
    requires BuildModelBatch(b, t.sequences, t.state.pages) == Ok(m)
    ensures m.id == b.id
  {
    AcceptedBatches.BuildsExactly(b, t.sequences, t.state.pages);
  }

  lemma NothingScheduled(k: Kernel, s: Sched, env: StepEnv)
    requires s.active == None && s.waiting == [] && s.running == []
    ensures Step(k, s, env).1 == Err(SchedulingFailed(NoRunnableSequences))
  {
    hide RunBatch;
  }

  lemma SmallScheduled(s: Sched, t: Sched, b: Batch)
    requires OnlyReservations(s.Opening().(active := Some(b), nextBatch := s.nextBatch + 1), t)
    ensures Small(t.state) <==> Small(s.state)
    ensures t.state.shape == s.state.shape
  {
  }

  /** In a small pool every batch fits. */
  lemma SmallNext(k: Kernel, s: Sched)
    requires EngineInv(k, s) && Small(s.state)
    ensures NextNarrow(s)
  {
    hide Inv, Resting, Sched.Schedule, PositionsFit, BuildModelBatch, Grew, Narrow, Small;
    if s.Schedule().1.Ok? {
      ScheduleKeeps(s);
      ScheduledRests(k, s);
      var t, b := s.Schedule().0, s.Schedule().1.value;
      SmallScheduled(s, t, b);
      ActiveNonempty(t, b);
      InvParts(t, b.phase, b.items);
      BuildSucceedsExactly(t, b);
      if BuildModelBatch(b, t.sequences, t.state.pages).Ok? {
        SmallNarrow(t, b, BuildModelBatch(b, t.sequences, t.state.pages).value);
      }
    }
  }

  // ---------------------------------------------------------------- retries

  /** The same scheduler up to what its state holds. */
  ghost predicate Alike(s: Sched, t: Sched) {
    && t == s.(state := t.state, nextBatch := t.nextBatch)
    && t.state.shape == s.state.shape && t.state.pages.count == s.state.pages.count
    && t.state.pages.size == s.state.pages.size
  }

  lemma {:induction false} CutAgrees(s: Sched, t: Sched, q: SeqData, count: nat, j: nat)
    requires Alike(s, t) && q.promptCount <= |q.tokens| && j <= |q.checkpoints|
    ensures s.Cut(q, count, j) == t.Cut(q, count, j)
    decreases |q.checkpoints| - j
  {
    if j < |q.checkpoints| {
      CutAgrees(s, t, q, count, j + 1);
    }
  }

  lemma CountAgrees(s: Sched, t: Sched, phase: Phase, q: SeqData, quantum: nat, used: nat)
    requires Alike(s, t) && q.promptCount <= |q.tokens| && used <= s.config.maxBatchTokens
    ensures s.ItemCount(phase, q, quantum, used) == t.ItemCount(phase, q, quantum, used)
  {
    hide Alike, Sched.Cut;
    var count := Min(q.Schedulable(), Min(quantum, s.config.maxBatchTokens - used));
    if count >= 0 {
      CutAgrees(s, t, q, count, 0);
    }
    AlikeConfig(s, t);
  }

  lemma AlikeConfig(s: Sched, t: Sched)
    requires Alike(s, t)
    ensures t.config == s.config && t.sequences == s.sequences && t.waiting == s.waiting && t.running == s.running
  {
  }

  lemma JoinedAlike(s: Sched, t: Sched, id: nat, count: nat, a: (Sched, Result<(), SchedError>), b: (Sched, Result<(), SchedError>))
    requires Alike(s, t) && Joined(s, id, count, a) && Joined(t, id, count, b)
    requires s.state.Sound() && t.state.Sound()
    ensures a.1 == b.1 && Alike(a.0, b.0)
  {
    hide Hybrid.Sound, Hybrid.Reserve, Budget;
    if a.1.Ok? {
      ReserveGrows(s.state, id, s.sequences[id].processed + count, true);
      ReserveGrows(t.state, id, t.sequences[id].processed + count, true);
    }
  }

  lemma EntriesAlike(s: Sched, t: Sched, phase: Phase, items: seq<Item>, id: nat, count: nat,
                     a: (Sched, Result<(), SchedError>), b: (Sched, Result<(), SchedError>), more: seq<Item>)
    requires Inv(s, phase, items) && !s.state.open && Inv(t, phase, items) && !t.state.open && Alike(s, t)
    requires |items| < |s.Queue(phase)| && id == s.Queue(phase)[|items|] && id in s.sequences
    requires 0 < count <= s.sequences[id].Schedulable()
    requires a == s.Reserving(id, count) && b == t.Reserving(id, count)
    requires more == items + [Item(id, count, count == s.sequences[id].Schedulable())]
    ensures a.1 == b.1
    ensures a.1.Ok? ==>
              && Inv(a.0, phase, more) && !a.0.state.open && Inv(b.0, phase, more) && !b.0.state.open
              && Alike(a.0, b.0) && a.0.Queue(phase) == s.Queue(phase) && a.0.config == s.config
  {
    hide Inv, Alike, Grew, PositionsFit, Sched.Reserving, Joined;
    AlikeConfig(s, t);
    SelectStep(s, phase, items, id, count, a, more);
    SelectStep(t, phase, items, id, count, b, more);
    ReservingJoins(s, phase, items, id, count);
    ReservingJoins(t, phase, items, id, count);
    SoundOf(s, phase, items);
    SoundOf(t, phase, items);
    JoinedAlike(s, t, id, count, a, b);
    if a.1.Ok? {
      SameQueues(s, a.0);
    }
  }

  /** Selection looks at queues, sequences, limits and cache only: page tables do not matter. */
  lemma {:induction false} SelectAgrees(s: Sched, t: Sched, phase: Phase, queue: seq<nat>, limit: nat, quantum: nat, used: nat,
                                        items: seq<Item>,
                                        r: (Sched, seq<Item>, Option<SchedError>), u: (Sched, seq<Item>, Option<SchedError>))
    requires Inv(s, phase, items) && !s.state.open && Inv(t, phase, items) && !t.state.open && Alike(s, t)
    requires queue == s.Queue(phase) && |items| <= |queue| && 0 < quantum
    requires r == s.Select(phase, queue, limit, quantum, |items|, used, items)
    requires u == t.Select(phase, queue, limit, quantum, |items|, used, items)
    ensures r.1 == u.1 && r.2 == u.2
    decreases |queue| - |items|
  {
    hide Inv, Alike, PositionsFit, Sched.Reserving, Sched.ItemCount;
    AlikeConfig(s, t);
    if |items| < |queue| && |items| < limit && used < s.config.maxBatchTokens {
      hide Sched.Select, OnlyReservations;
      var id := queue[|items|];
      SelectEntry(s, phase, items, id, quantum, used);
      SelectEntry(t, phase, items, id, quantum, used);
      CountAgrees(s, t, phase, s.sequences[id], quantum, used);
      var count := s.ItemCount(phase, s.sequences[id], quantum, used);
      var a, b := s.Reserving(id, count), t.Reserving(id, count);
      var more := items + [Item(id, count, count == s.sequences[id].Schedulable())];
      SelectUnfolds(s, phase, queue, limit, quantum, |items|, used, items, count);
      SelectUnfolds(t, phase, queue, limit, quantum, |items|, used, items, count);
      EntriesAlike(s, t, phase, items, id, count, a, b, more);
      if a.1.Ok? {
        SelectAgrees(a.0, b.0, phase, queue, limit, quantum, used + count, more, r, u);
      }
    }
  }

  /** Two schedulers that differ in their state, or in a round that one of them has opened already, choose alike. */
  lemma SchedulesAlike(s: Sched, t: Sched)
    requires SchedInv(s) && SchedInv(t) && s.active == None
    requires Alike(s.(turn := t.turn), t) && (t.turn == s.turn || t.turn == s.Opening().turn)
    ensures s.Schedule().1.Ok? <==> t.Schedule().1.Ok?
    ensures s.Schedule().1.Ok? ==>
              t.Schedule().1.value.items == s.Schedule().1.value.items
              && t.Schedule().1.value.phase == s.Schedule().1.value.phase
  {
    hide Inv, Sched.Select, Sched.RollBack;
    if !(s.waiting == [] && s.running == []) {
      OpeningKeeps(s);
      OpeningKeeps(t);
      var o, p := s.Opening(), t.Opening();
      assert Alike(o, p);
      SelectAgrees(o, p, o.PhaseNow(), o.Queue(o.PhaseNow()), o.ItemLimit(), o.Quantum(), 0, [],
                   o.Select(o.PhaseNow(), o.Queue(o.PhaseNow()), o.ItemLimit(), o.Quantum(), 0, 0, []),
                   p.Select(p.PhaseNow(), p.Queue(p.PhaseNow()), p.ItemLimit(), p.Quantum(), 0, 0, []));
    }
  }

  /** schedule; abort; schedule yields the same items. */
  lemma AbortedBatchComesBack(s: Sched, scheduled: (Sched, Result<Batch, SchedError>), aborted: (Sched, Result<(), SchedError>))
    requires SchedInv(s) && s.active == None
    requires scheduled == s.Schedule() && scheduled.1.Ok?
    requires aborted == scheduled.0.Abort(scheduled.1.value.id)
    ensures aborted.0.Schedule().1.Ok? && aborted.0.Schedule().1.value.items == scheduled.1.value.items
    ensures aborted.0.Schedule().1.value.phase == scheduled.1.value.phase
  {
    hide Inv, Sched.Schedule, Sched.Abort;
    ScheduleKeeps(s);
    AbortKeeps(scheduled.0, scheduled.1.value.id);
    ScheduleThenAbort(s, scheduled, aborted);
    SchedulesAlike(s, aborted.0);
  }

  /** After a failed step, the next one tries the same items again. */
  lemma FailedStepComesBack(k: Kernel, s: Sched, env: StepEnv)
    requires EngineInv(k, s) && Step(k, s, env).1.Err?
    ensures var t := Step(k, s, env).0;
            && (s.Schedule().1.Ok? <==> t.Schedule().1.Ok?)
            && (s.Schedule().1.Ok? ==> t.Schedule().1.value.items == s.Schedule().1.value.items)
  {
    hide Inv, Resting, Sched.Schedule, Step;
    StepKeeps(k, s, env);
    SchedulesAlike(s, Step(k, s, env).0);
  }
}

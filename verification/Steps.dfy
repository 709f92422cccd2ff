/** The engine step as a whole: it keeps the invariant, a failure undoes itself, and nothing but the runner can fail. */
module Steps {
  import opened Wrappers
  import opened Sequences
  import opened Kernels
  import opened Batches
  import opened HybridStates
  import opened Residence
  import opened Execution
  import opened Transactions
  import opened Scheduling
  import opened Invariants
  import opened Selection
  import opened Completion
  import opened Protocol
  import opened Building
  import opened Generation
  import opened Engine

  /** Page capacity may have grown and uncommitted slots may have been written; nothing else of the state changed. */
  ghost predicate Unharmed(h: Hybrid, g: Hybrid) {
    && g.shape == h.shape && !g.open && g.pages.size == h.pages.size && g.pages.count == h.pages.count
    && g.sequences.Keys == h.sequences.Keys
    && forall id :: id in h.sequences ==>
         && g.sequences[id].memory == h.sequences[id].memory
         && g.sequences[id].committed == h.sequences[id].committed
         && h.pages.Table(id) <= g.pages.Table(id)
  }

  /** Everything a failed step leaves as it was: queues, sequences, prefix cache, recurrent memory. With anything live the
      turn is the one that schedule opened. */
  ghost predicate Survived(s: Sched, t: Sched) {
    && t == s.(turn := t.turn, nextBatch := t.nextBatch, state := t.state)
    && t.turn == (if s.waiting == [] && s.running == [] then s.turn else s.Opening().turn)
    && Unharmed(s.state, t.state)
  }

  lemma UnharmedGrown(h: Hybrid, g: Hybrid, f: Hybrid)
    requires Grew(h, g) && g.sequences.Keys == h.sequences.Keys && Unharmed(g, f)
    ensures Unharmed(h, f)
  {
    forall id | id in h.sequences ensures h.pages.Table(id) <= f.pages.Table(id) {
      assert h.pages.Table(id) <= g.pages.Table(id) <= f.pages.Table(id);
    }
  }

  lemma GrewUnharmed(h: Hybrid, g: Hybrid)
    requires Grew(h, g) && g.sequences.Keys == h.sequences.Keys && !h.open
    ensures Unharmed(h, g)
  {
  }

  // ---------------------------------------------------------------- the paths of a step

  /** A pass over the batch went well: it wrote the state and returned the greedy token of every sampled item. */
  ghost predicate Passed(k: Kernel, s: Sched, b: Batch, t: Sched, samples: seq<Token>) {
    && SchedInv(t) && t == s.(transaction := true, state := t.state) && t.state.shape == s.state.shape
    && samples == Wanted(k, s.sequences, b.items) && |samples| == CountSamples(b.items)
  }

  /** What running a scheduled batch leads to. */
  ghost predicate BatchRan(k: Kernel, s: Sched, b: Batch, r: (Sched, Result<seq<Update>, StepError>)) {
    && EngineInv(k, r.0)
    && match r.1
       case Ok(updates) =>
         exists t, samples, saves :: r == Completed(t, b, samples, saves) && Passed(k, s, b, t, samples)
       case Err(e) =>
         && (e.BuildFailed? || e.BeginFailed? || e.RunnerFailed? || e.CountMismatch?)
         && r.0 == s.(state := r.0.state, sequences := r.0.sequences, active := None)
         && Unharmed(s.state, r.0.state)
         && r.0.sequences.Keys == s.sequences.Keys
         && (forall id :: id in s.sequences ==> r.0.sequences[id] == s.sequences[id].(scheduled := 0))
  }

  /** A completed batch, seen as a step's result. */
  ghost function Completed(t: Sched, b: Batch, samples: seq<Token>, saves: set<nat>): (Sched, Result<seq<Update>, StepError>) {
    var done := t.Complete(b.id, samples, saves);
    (done.0, if done.1.Ok? then Ok(done.1.value) else Err(CompletionFailed(done.1.error)))
  }

  lemma FailureRan(k: Kernel, s: Sched, b: Batch, t: Sched, e: StepError)
    requires SchedInv(t) && t.active == Some(b) && s.active == Some(b) && !s.transaction
    requires Resting(k, Closed(t, false))
    requires Closed(t, false) == s.(state := Closed(t, false).state) && Unharmed(s.state, Closed(t, false).state)
    requires e.BuildFailed? || e.BeginFailed? || e.RunnerFailed? || e.CountMismatch?
    ensures BatchRan(k, s, b, FailAfterAbort(t, b.id, e))
  {
    hide SchedInv, Resting, Unharmed, Closed, FailAfterAbort, Grew;
    var r := FailAfterAbort(t, b.id, e);
    AbortRests(k, t, b, e, r);
    forall id | id in s.sequences ensures r.0.sequences[id] == s.sequences[id].(scheduled := 0) {
      assert SameWork(Closed(t, false).sequences[id], r.0.sequences[id]);
    }
  }

  lemma AtRest(s: Sched)
    requires !s.transaction && !s.state.open
    ensures Closed(s, false) == s && Unharmed(s.state, s.state)
  {
  }

  lemma BuildFailureRan(k: Kernel, s: Sched, b: Batch, e: BatchError)
    requires SchedInv(s) && s.active == Some(b) && !s.transaction && !s.state.open && Resting(k, s)
    ensures BatchRan(k, s, b, FailAfterAbort(s, b.id, BuildFailed(e)))
  {
    hide SchedInv, Resting, Unharmed, FailAfterAbort, BatchRan;
    AtRest(s);
    FailureRan(k, s, b, s, BuildFailed(e));
  }

  lemma BeginFailureRan(k: Kernel, s: Sched, b: Batch, m: ModelBatch)
    requires SchedInv(s) && s.active == Some(b) && !s.transaction && !s.state.open && Resting(k, s)
    requires m.id == b.id && s.BeginExecution(m).1.Err?
    ensures BatchRan(k, s, b, FailAfterAbort(s.BeginExecution(m).0, b.id, BeginFailed(s.BeginExecution(m).1.error)))
  {
    hide Inv, Resting, Unharmed, FailAfterAbort, BatchRan, Hybrid.Startable;
    var t := s.BeginExecution(m).0;
    BeginKeeps(s, m);
    assert t == s.(transaction := true);
    assert Closed(t, false) == s;
    AtRest(s);
    FailureRan(k, s, b, t, BeginFailed(s.BeginExecution(m).1.error));
  }

  lemma BeginIs(k: Kernel, s: Sched, b: Batch, m: ModelBatch)
    requires SchedInv(s) && s.active == Some(b) && !s.transaction && !s.state.open && Resting(k, s)
    requires m.id == b.id && BuildModelBatch(b, s.sequences, s.state.pages) == Ok(m)
    requires s.BeginExecution(m).1.Ok?
    ensures Begun(k, s, b, m, s.BeginExecution(m).0)
  {
    hide SchedInv, Resting, Hybrid.Startable, BuildModelBatch;
  }

  lemma RanUnharmed(h: Hybrid, g: Hybrid)
    requires !h.open && g == h.(slots := g.slots, snapshots := [])
    ensures Unharmed(h, g)
  {
  }

  /** A pass that failed after some rows. */
  lemma PassFailureRan(k: Kernel, s: Sched, b: Batch, m: ModelBatch, t: Sched, limit: nat, e: StepError)
    requires Begun(k, s, b, m, t) && !s.state.open && SchedInv(t) && (e.RunnerFailed? || e.CountMismatch?)
    ensures BatchRan(k, s, b, FailAfterAbort(t.(state := RunItems(k, t.state, m, |m.items|, limit).0), b.id, e))
  {
    hide SchedInv, Resting, Unharmed, FailAfterAbort, BatchRan, BuildModelBatch, Began, RunItems, Closed;
    var u := t.(state := RunItems(k, t.state, m, |m.items|, limit).0);
    AbortedPassRests(k, s, b, m, t, limit, u);
    RunItemsFrame(k, t.state, m, |m.items|, limit);
    ExecuteKeeps(t, u.state);
    RanUnharmed(s.state, Closed(u, false).state);
    FailureRan(k, s, b, u, e);
  }

  lemma CompletedRests(k: Kernel, t: Sched, b: Batch, samples: seq<Token>, saves: set<nat>)
    requires SchedInv(t) && t.active == Some(b)
    requires Telling(k, Closed(t, true))
    requires samples == Wanted(k, t.sequences, b.items) && |samples| == CountSamples(b.items)
    ensures EngineInv(k, Completed(t, b, samples, saves).0) && Completed(t, b, samples, saves).1.Ok?
  {
    hide Inv, Telling, Sched.CompleteItems, QueuesAdvance;
    CompleteKeeps(t, b.id, samples, saves);
    ClosedKeeps(t, b.phase, b.items, true);
    var closed := Closed(t, true);
    var done := closed.CompleteItems(b.phase, b.items, samples, [], saves);
    CompleteItemsTell(k, closed, b.phase, b.items, samples, [], saves, done);
    CompleteItemsKeeps(closed, b.phase, b.items, samples, [], saves, done);
    var r := t.Complete(b.id, samples, saves);
    assert r.0.state == done.0.state && r.0.sequences == done.0.sequences && r.0.prefixes == done.0.prefixes
           && r.0.eos == done.0.eos;
    TellingRests(k, done.0, r.0);
  }

  /** With no batch in flight nothing is ahead of what is committed. */
  lemma TellingRests(k: Kernel, s: Sched, t: Sched)
    requires Telling(k, s)
    requires t.state == s.state && t.sequences == s.sequences && t.prefixes == s.prefixes && t.eos == s.eos
    requires SchedInv(t) && t.active == None
    ensures Resting(k, t)
  {
    hide Inv, Housed, CacheFaithful, Told;
    Idle(t);
    assert Behind(t) == Ahead(s);
  }

  lemma MiscountRan(k: Kernel, s: Sched, b: Batch, m: ModelBatch, t: Sched)
    requires Begun(k, s, b, m, t) && !s.state.open && SchedInv(t)
    ensures var u := t.(state := RunItems(k, t.state, m, |m.items|, |m.tokens|).0);
            BatchRan(k, s, b, FailAfterAbort(u, b.id, CountMismatch))
  {
    PassFailureRan(k, s, b, m, t, |m.tokens|, CountMismatch);
  }

  lemma RunShape(k: Kernel, s: Sched, b: Batch, m: ModelBatch, t: Sched, g: Hybrid)
    requires Begun(k, s, b, m, t) && SameFrame(t.state, g)
    ensures g.shape == s.state.shape
  {
    hide SchedInv, Resting, BuildModelBatch, Hybrid.Startable;
  }

  lemma PassRan(k: Kernel, s: Sched, b: Batch, m: ModelBatch, t: Sched, env: StepEnv)
    requires Begun(k, s, b, m, t) && !s.state.open && SchedInv(t)
    ensures BatchRan(k, s, b, Finish(t, b, m, Execute(k, t.state, m, env.fault), env))
    ensures env.fault == NoFault ==> Finish(t, b, m, Execute(k, t.state, m, env.fault), env).1.Ok?
  {
    hide SchedInv, BatchRan, BuildModelBatch, Began, RunItems, Resting, FailAfterAbort, EngineInv, Sched.Complete, Wanted;
    match env.fault {
      case FailAfter(rows) =>
        PassFailureRan(k, s, b, m, t, rows, RunnerFailed);
      case _ =>
        var run := RunItems(k, t.state, m, |m.items|, |m.tokens|);
        var u := t.(state := run.0);
        CommittedPassTells(k, s, b, m, t, run, u);
        RunItemsFrame(k, t.state, m, |m.items|, |m.tokens|);
        ExecuteKeeps(t, u.state);
        RunShape(k, s, b, m, t, u.state);
        var samples := Execute(k, t.state, m, env.fault).1.value;
        CompletedRests(k, u, b, run.1, env.saves);
        CompletionRan(k, s, b, u, run.1, env.saves);
        if env.fault.Miscount? && |samples| != m.SampleCount() {
          MiscountRan(k, s, b, m, t);
        }
    }
  }

  lemma CompletionRan(k: Kernel, s: Sched, b: Batch, u: Sched, samples: seq<Token>, saves: set<nat>)
    requires EngineInv(k, Completed(u, b, samples, saves).0) && Completed(u, b, samples, saves).1.Ok?
    requires Passed(k, s, b, u, samples)
    ensures BatchRan(k, s, b, Completed(u, b, samples, saves))
  {
    hide EngineInv, Passed, Completed;
  }

  lemma RunBatchRan(k: Kernel, s: Sched, b: Batch, env: StepEnv)
    requires SchedInv(s) && s.active == Some(b) && !s.transaction && !s.state.open && Resting(k, s)
    ensures BatchRan(k, s, b, RunBatch(k, s, b, env))
  {
    hide Inv, Resting, BatchRan, FailAfterAbort, Finish, BuildModelBatch, Sched.BeginExecution, Execute;
    var built := BuildModelBatch(b, s.sequences, s.state.pages);
    if built.Err? {
      BuildFailureRan(k, s, b, built.error);
    } else {
      var m := built.value;
      ActiveNonempty(s, b);
      InvParts(s, b.phase, b.items);
      BuildSucceedsExactly(s, b);
      if s.BeginExecution(m).1.Err? {
        BeginFailureRan(k, s, b, m);
      } else {
        BeginIs(k, s, b, m);
        BeginKeeps(s, m);
        PassRan(k, s, b, m, s.BeginExecution(m).0, env);
      }
    }
  }

  // ---------------------------------------------------------------- the step

  lemma ScheduledRests(k: Kernel, s: Sched)
    requires EngineInv(k, s) && s.Schedule().1.Ok?
    ensures var t, b := s.Schedule().0, s.Schedule().1.value;
            && SchedInv(t) && t.active == Some(b) && !t.transaction && !t.state.open && Resting(k, t)
            && OnlyReservations(s.Opening().(active := Some(b), nextBatch := s.nextBatch + 1), t)
  {
    hide Inv, Resting, Grew, PositionsFit, Sched.Schedule;
    ScheduleKeeps(s);
    var t, b := s.Schedule().0, s.Schedule().1.value;
    var o := s.Opening().(active := Some(b), nextBatch := s.nextBatch + 1);
    RestsAlike(k, s, o);
    RestsWhileReserving(k, o, t);
    assert !s.state.open;
    assert t.state.open == s.state.open by {
      GrewOpen(o.state, t.state);
    }
  }

  lemma GrewOpen(h: Hybrid, g: Hybrid)
    requires Grew(h, g)
    ensures g.open == h.open
  {
  }

  /** A step keeps the engine's invariant. When it fails, no batch is in flight and queues, tokens, counts, cache and
      recurrent memory are those from before the step; aborting never fails, and neither does completing. */
  lemma StepKeeps(k: Kernel, s: Sched, env: StepEnv)
    requires EngineInv(k, s)
    ensures EngineInv(k, Step(k, s, env).0)
    ensures var r := Step(k, s, env);
            r.1.Err? ==> Survived(s, r.0) && !r.1.error.AbortFailed? && !r.1.error.CompletionFailed?
  {
    hide Inv, Resting, Unharmed, Sched.Schedule, RunBatch;
    var scheduled := s.Schedule();
    ScheduleKeeps(s);
    if scheduled.1.Err? {
      ScheduleFailureSurvives(k, s, scheduled);
    } else {
      ScheduledRests(k, s);
      RunBatchRan(k, scheduled.0, scheduled.1.value, env);
      var r := RunBatch(k, scheduled.0, scheduled.1.value, env);
      if r.1.Err? {
        BatchFailureSurvives(k, s, scheduled, r);
      }
    }
  }

  lemma ScheduleFailureSurvives(k: Kernel, s: Sched, r: (Sched, Result<Batch, SchedError>))
    requires EngineInv(k, s) && ScheduleOutcome(s, r) && r.1.Err? && SchedInv(r.0)
    ensures Survived(s, r.0) && EngineInv(k, r.0)
  {
    hide Inv, Resting, PositionsFit;
    if r.0 == s {
      AtRest(s);
    } else {
      hide Grew;
      GrewUnharmed(s.state, r.0.state);
      RestsUndone(k, s, r.0);
    }
  }

  lemma RestsUndone(k: Kernel, s: Sched, t: Sched)
    requires Resting(k, s) && Undone(s, t)
    ensures Resting(k, t)
  {
    hide Resting, Grew;
    var u := s.(turn := t.turn);
    RestsAlike(k, s, u);
    assert OnlyReservations(u, t) by {
      assert forall id :: id in u.sequences ==> SameWork(u.sequences[id], t.sequences[id]);
    }
    RestsWhileReserving(k, u, t);
  }

  lemma BatchFailureSurvives(k: Kernel, s: Sched, scheduled: (Sched, Result<Batch, SchedError>),
                             r: (Sched, Result<seq<Update>, StepError>))
    requires EngineInv(k, s) && scheduled.1.Ok?
    requires OnlyReservations(s.Opening().(active := Some(scheduled.1.value), nextBatch := s.nextBatch + 1), scheduled.0)
    requires BatchRan(k, scheduled.0, scheduled.1.value, r) && r.1.Err?
    ensures Survived(s, r.0)
  {
    hide Inv, Resting, Unharmed, Grew;
    UnharmedGrown(s.state, scheduled.0.state, r.0.state);
    Idle(s);
    forall id | id in s.sequences ensures r.0.sequences[id] == s.sequences[id] {
      assert SameWork(s.sequences[id], scheduled.0.sequences[id]);
    }
    assert r.0.sequences == s.sequences;
  }
}

/** Begin, complete and abort keep the scheduler's invariant; completion and abort close what schedule opened. */
module Protocol {
  import opened Wrappers
  import opened Sequences
  import opened Paging
  import opened Batches
  import opened HybridStates
  import opened Execution
  import opened Residence
  import opened Scheduling
  import opened Invariants
  import opened Selection
  import opened Completion

  // ---------------------------------------------------------------- begin

  /** Changing only slot contents, recurrent memories and the transaction leaves the accounts alone. */
  lemma SameFrameKeeps(s: Sched, phase: Phase, items: seq<Item>, t: Sched)
    requires Inv(s, phase, items)
    requires t == s.(state := t.state, transaction := t.transaction)
    requires t.state.pages == s.state.pages && t.state.shape == s.state.shape && |t.state.slots| == |s.state.slots|
    requires t.state.sequences.Keys == s.state.sequences.Keys
    requires forall id :: id in s.state.sequences ==>
               && t.state.sequences[id].reserved == s.state.sequences[id].reserved
               && t.state.sequences[id].committed <= s.state.sequences[id].reserved
    ensures Inv(t, phase, items)
  {
    hide QueuesOk, PendingOk, ResourcesOk;
    TurnIrrelevant(s, phase, items, s.turn, s.active, t.transaction, s.nextBatch);
    var u := s.(transaction := t.transaction);
    CommittedKeeps(s.(transaction := true), phase, items, t.(transaction := false)) by {
      TurnIrrelevant(s, phase, items, s.turn, s.active, true, s.nextBatch);
    }
    TurnIrrelevant(t.(transaction := false), phase, items, t.turn, t.active, t.transaction, t.nextBatch);
    assert t == t.(transaction := false).(turn := t.turn, active := t.active, transaction := t.transaction,
                                          nextBatch := t.nextBatch);
  }

  lemma CommittedWithinReserved(h: Hybrid)
    requires h.Sound()
    ensures forall id :: id in h.sequences ==> h.sequences[id].committed <= h.sequences[id].reserved
  {
    forall id | id in h.sequences ensures h.sequences[id].committed <= h.sequences[id].reserved {
      assert h.Proportioned(id);
    }
  }

  lemma BeginSnapshots(h: Hybrid, b: ModelBatch)
    requires h.BeginBatch(b).1.Ok?
    ensures SnapshotsOk(h.BeginBatch(b).0)
    ensures h.BeginBatch(b).0 == h.(snapshots := h.BeginBatch(b).0.snapshots, open := true)
  {
    assert h.Startable(b);
    forall i | 0 <= i < |b.items| ensures b.items[i].id in h.sequences && h.ItemStartable(b, i) {
      assert h.ItemStartable(b, i);
    }
  }

  lemma BeginKeeps(s: Sched, b: ModelBatch)
    requires SchedInv(s)
    ensures SchedInv(s.BeginExecution(b).0)
    ensures s.BeginExecution(b).0 == s.(transaction := s.BeginExecution(b).0.transaction,
                                        state := s.BeginExecution(b).0.state)
  {
    hide QueuesOk, PendingOk, ResourcesOk, Hybrid.Startable;
    var r := s.BeginExecution(b);
    if s.active.Some? && s.active.value.id == b.id && !s.transaction {
      if s.state.BeginBatch(b).1.Ok? {
        BeginSnapshots(s.state, b);
      }
      SoundOf(s, s.active.value.phase, s.active.value.items);
      CommittedWithinReserved(s.state);
      SameFrameKeeps(s, s.active.value.phase, s.active.value.items, r.0);
    }
  }

  lemma SoundOf(s: Sched, phase: Phase, items: seq<Item>)
    requires Inv(s, phase, items)
    ensures s.state.Sound()
  {
  }

  /** Running a batch on the state keeps the scheduler's invariant, whatever the pass writes. */
  lemma ExecuteKeeps(s: Sched, g: Hybrid)
    requires SchedInv(s) && s.active.Some? && SameFrame(s.state, g)
    ensures SchedInv(s.(state := g))
  {
    hide QueuesOk, PendingOk, ResourcesOk, Partition;
    SoundOf(s, s.active.value.phase, s.active.value.items);
    CommittedWithinReserved(s.state);
    SameFrameKeeps(s, s.active.value.phase, s.active.value.items, s.(state := g));
  }

  // ---------------------------------------------------------------- complete

  lemma {:induction false} CommitAllBounded(now: map<nat, SequenceState>, snapshots: seq<Snapshot>)
    requires forall id :: id in now ==> now[id].committed <= now[id].reserved
    requires forall i :: 0 <= i < |snapshots| && snapshots[i].id in now ==> snapshots[i].end <= now[snapshots[i].id].reserved
    ensures forall id :: id in now ==>
              && CommitAll(now, snapshots)[id].reserved == now[id].reserved
              && CommitAll(now, snapshots)[id].committed <= now[id].reserved
  {
    if snapshots != [] {
      CommitAllBounded(now, snapshots[..|snapshots| - 1]);
    }
  }

  lemma {:induction false} RollBackAllBounded(now: map<nat, SequenceState>, snapshots: seq<Snapshot>)
    ensures forall id :: id in now ==>
              && RollBackAll(now, snapshots)[id].reserved == now[id].reserved
              && RollBackAll(now, snapshots)[id].committed == now[id].committed
  {
    if snapshots != [] {
      RollBackAllBounded(now, snapshots[..|snapshots| - 1]);
    }
  }

  /** The state after closing the transaction of the batch in flight. */
  ghost function Closed(s: Sched, commit: bool): Sched {
    if s.transaction
    then s.(state := if commit then s.state.CommitBatch() else s.state.AbortBatch(), transaction := false)
    else s
  }

  lemma ClosedKeeps(s: Sched, phase: Phase, items: seq<Item>, commit: bool)
    requires Inv(s, phase, items) && (s.state.open ==> s.transaction && SnapshotsOk(s.state))
    ensures Inv(Closed(s, commit), phase, items)
    ensures !Closed(s, commit).state.open && !Closed(s, commit).transaction
    ensures Closed(s, commit) == s.(state := Closed(s, commit).state, transaction := false)
    ensures Closed(s, commit).state.shape == s.state.shape
  {
    hide QueuesOk, PendingOk, Partition;
    CommittedWithinReserved(s.state);
    if s.state.open {
      CommitAllBounded(s.state.sequences, s.state.snapshots);
    }
    RollBackAllBounded(s.state.sequences, s.state.snapshots);
    SameFrameKeeps(s, phase, items, Closed(s, commit));
  }

  /** When and how complete succeeds. */
  ghost predicate CompleteOutcome(s: Sched, id: nat, samples: seq<Token>, r: (Sched, Result<seq<Update>, SchedError>)) {
    if s.active == None then r == (s, Err(NoBatchInFlight))
    else if s.active.value.id != id then r == (s, Err(BatchIdMismatch))
    else if |samples| != CountSamples(s.active.value.items) then r == (s, Err(ResultCountMismatch))
    else
      && r.1.Ok? && r.0.active == None && r.0.state.shape == s.state.shape
      && QueuesAdvance(s, s.active.value.phase, |s.active.value.items|, r.0)
      && r.0.turn == (if s.active.value.phase == Prefill then
                        if r.0.running != [] then DecodeRound(|r.0.running|) else PrefillTurn
                      else if s.turn.DecodeRound? && s.turn.remaining > |s.active.value.items|
                      then DecodeRound(s.turn.remaining - |s.active.value.items|) else PrefillTurn)
  }

  lemma CompleteKeeps(s: Sched, id: nat, samples: seq<Token>, saves: set<nat>)
    requires SchedInv(s)
    ensures SchedInv(s.Complete(id, samples, saves).0)
    ensures CompleteOutcome(s, id, samples, s.Complete(id, samples, saves))
  {
    hide Inv, Sched.CompleteItems;
    if s.active.Some? && s.active.value.id == id && |samples| == CountSamples(s.active.value.items) {
      var b := s.active.value;
      var closed := Closed(s, true);
      ClosedKeeps(s, b.phase, b.items, true);
      var done := closed.CompleteItems(b.phase, b.items, samples, [], saves);
      CompleteItemsKeeps(closed, b.phase, b.items, samples, [], saves, done);
      NoItems(done.0, b.phase, Prefill);
      TurnIrrelevant(done.0, Prefill, [], done.0.NextTurn(b.phase, |b.items|), None, done.0.transaction, done.0.nextBatch);
    }
  }

  // ---------------------------------------------------------------- abort

  ghost predicate AbortOutcome(s: Sched, id: nat, r: (Sched, Result<(), SchedError>)) {
    if s.active == None then r == (s, Err(NoBatchInFlight))
    else if s.active.value.id != id then r == (s, Err(BatchIdMismatch))
    else r.1 == Ok(()) && r.0 == Closed(s, false).RollBack(s.active.value.items).(active := None)
  }

  lemma AbortKeeps(s: Sched, id: nat)
    requires SchedInv(s)
    ensures SchedInv(s.Abort(id).0) && AbortOutcome(s, id, s.Abort(id))
  {
    hide Inv, Sched.RollBack, Grew;
    if s.active.Some? && s.active.value.id == id {
      var b := s.active.value;
      ClosedKeeps(s, b.phase, b.items, false);
      var back := Closed(s, false).RollBack(b.items);
      RollBackKeeps(Closed(s, false), b.phase, b.items, back);
      TurnIrrelevant(back, Prefill, [], back.turn, None, back.transaction, back.nextBatch);
    }
  }

  /** schedule then abort leaves queues, sequences and cache exactly as before; only page capacity may have grown. */
  lemma ScheduleThenAbort(s: Sched, scheduled: (Sched, Result<Batch, SchedError>), aborted: (Sched, Result<(), SchedError>))
    requires SchedInv(s) && s.active == None
    requires scheduled == s.Schedule() && scheduled.1.Ok?
    requires aborted == scheduled.0.Abort(scheduled.1.value.id)
    ensures aborted.1 == Ok(())
    ensures Undone(s, aborted.0.(nextBatch := s.nextBatch))
  {
    hide Inv, Grew, Sched.Schedule, Sched.RollBack, Sched.Abort, PositionsFit;
    ScheduleKeeps(s);
    AbortKeeps(scheduled.0, scheduled.1.value.id);
    var b := scheduled.1.value;
    assert !scheduled.0.transaction by {
      assert scheduled.0.transaction == s.transaction;
    }
    var back := scheduled.0.RollBack(b.items);
    RollBackKeeps(scheduled.0, b.phase, b.items, back);
    var o := s.Opening().(active := Some(b), nextBatch := s.nextBatch + 1);
    OnlyReservationsTransitive(o, scheduled.0, back);
    Idle(s);
    BackToStart(o, back);
  }

  lemma Idle(s: Sched)
    requires SchedInv(s) && s.active == None
    ensures forall id :: id in s.sequences ==> s.sequences[id].scheduled == 0
  {
    hide QueuesOk, ResourcesOk;
  }
}

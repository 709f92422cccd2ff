/** Scheduling keeps the invariant, never runs out of pages, and a rollback undoes it. */
module Selection {
  import opened Wrappers
  import opened Sequences
  import opened Paging
  import opened Batches
  import opened HybridStates
  import opened Residence
  import opened Scheduling
  import opened Invariants

  // ---------------------------------------------------------------- rollback

  /** The same sequence up to its reservation. */
  ghost predicate SameWork(a: SeqData, b: SeqData) {
    b == a.(scheduled := b.scheduled)
  }

  /** Only reservations and page capacity differ. */
  ghost predicate OnlyReservations(s: Sched, t: Sched) {
    && t == s.(state := t.state, sequences := t.sequences)
    && t.sequences.Keys == s.sequences.Keys
    && (forall id :: id in s.sequences ==> SameWork(s.sequences[id], t.sequences[id]))
    && Grew(s.state, t.state) && t.state.sequences.Keys == s.state.sequences.Keys
  }

  lemma GrewTransitive(a: Hybrid, b: Hybrid, c: Hybrid)
    requires Grew(a, b) && Grew(b, c)
    ensures Grew(a, c)
  {
    forall i | i in a.sequences ensures a.pages.Table(i) <= c.pages.Table(i) {
      assert a.pages.Table(i) <= b.pages.Table(i) <= c.pages.Table(i);
    }
  }

  lemma OnlyReservationsTransitive(a: Sched, b: Sched, c: Sched)
    requires OnlyReservations(a, b) && OnlyReservations(b, c)
    ensures OnlyReservations(a, c)
  {
    GrewTransitive(a.state, b.state, c.state);
    forall id | id in a.sequences ensures SameWork(a.sequences[id], c.sequences[id]) {
      assert SameWork(a.sequences[id], b.sequences[id]) && SameWork(b.sequences[id], c.sequences[id]);
    }
  }

  lemma OnlyReservationsRefl(s: Sched)
    ensures OnlyReservations(s, s)
  {
  }

  /** What a rollback leaves: the reservations of the items are gone, the rest is as it was. */
  lemma {:induction false} RollBackIs(s: Sched, items: seq<Item>)
    ensures s.RollBack(items) == s.(sequences := s.RollBack(items).sequences)
    ensures s.RollBack(items).sequences.Keys == s.sequences.Keys
    ensures forall id :: id in s.sequences ==>
              s.RollBack(items).sequences[id]
              == if Listed(items, id) then s.sequences[id].CancelScheduled() else s.sequences[id]
  {
    if items != [] {
      var n := |items| - 1;
      RollBackIs(s, items[..n]);
      forall id | id in s.sequences ensures Listed(items, id) <==> Listed(items[..n], id) || items[n].id == id {
        ListedSplit(items, id);
      }
    }
  }

  lemma ListedSplit(items: seq<Item>, id: nat)
    requires items != []
    ensures Listed(items, id) <==> Listed(items[..|items| - 1], id) || items[|items| - 1].id == id
  {
    var n := |items| - 1;
    if Listed(items, id) {
      var i :| 0 <= i < |items| && items[i].id == id;
      assert i < n ==> items[..n][i].id == id;
    }
    if Listed(items[..n], id) {
      var i :| 0 <= i < n && items[..n][i].id == id;
      assert items[i].id == id;
    }
  }

  lemma RollBackKeeps(s: Sched, phase: Phase, items: seq<Item>, t: Sched)
    requires Inv(s, phase, items) && t == s.RollBack(items)
    ensures Inv(t, Prefill, [])
    ensures forall id :: id in t.sequences ==> t.sequences[id].scheduled == 0
    ensures OnlyReservations(s, t) && t.state == s.state
  {
    RollBackIs(s, items);
    RolledBackQueues(s, phase, items, t);
    RolledBackResources(s, t);
  }

  lemma RolledBackQueues(s: Sched, phase: Phase, items: seq<Item>, t: Sched)
    requires QueuesOk(s) && PendingOk(s, phase, items)
    requires t == s.(sequences := t.sequences) && t.sequences.Keys == s.sequences.Keys
    requires forall id :: id in s.sequences ==>
               t.sequences[id] == if Listed(items, id) then s.sequences[id].CancelScheduled() else s.sequences[id]
    ensures QueuesOk(t) && PendingOk(t, Prefill, [])
    ensures forall id :: id in t.sequences ==> t.sequences[id] == s.sequences[id].(scheduled := 0)
  {
    forall id | id in t.sequences ensures MemberOk(t, id) && t.sequences[id] == s.sequences[id].(scheduled := 0) {
      assert MemberOk(s, id);
    }
  }

  lemma RolledBackResources(s: Sched, t: Sched)
    requires ResourcesOk(s)
    requires t == s.(sequences := t.sequences) && t.sequences.Keys == s.sequences.Keys
    requires forall id :: id in s.sequences ==>
               SameWork(s.sequences[id], t.sequences[id]) && t.sequences[id].scheduled <= s.sequences[id].scheduled
    ensures ResourcesOk(t)
  {
    hide Hybrid.Sound, Budget;
    BudgetsKept(s, t);
    forall id | id in t.state.sequences ensures HoldingOk(t, id) {
      assert HoldingOk(s, id);
      SmallerHolding(s, t, id);
    }
  }

  lemma SmallerHolding(s: Sched, t: Sched, id: nat)
    requires HoldingOk(s, id) && id in t.sequences && t.state == s.state && t.config == s.config
    requires SameWork(s.sequences[id], t.sequences[id]) && t.sequences[id].scheduled <= s.sequences[id].scheduled
    ensures HoldingOk(t, id)
  {
  }

  // ---------------------------------------------------------------- the selection loop

  lemma {:induction false} CutBounds(s: Sched, q: SeqData, count: nat, j: nat)
    requires q.promptCount <= |q.tokens| && j <= |q.checkpoints| && 0 < count
    ensures 0 < s.Cut(q, count, j) <= count
    decreases |q.checkpoints| - j
  {
  }

  lemma ItemCountBounds(s: Sched, phase: Phase, q: SeqData, quantum: nat, used: nat)
    requires LiveOk(q) && q.scheduled == 0 && 0 < quantum && used < s.config.maxBatchTokens
    ensures 0 < s.ItemCount(phase, q, quantum, used) <= q.Schedulable()
    ensures s.ItemCount(phase, q, quantum, used) <= s.config.maxBatchTokens - used
    ensures RunningOk(q) ==> s.ItemCount(phase, q, quantum, used) == 1 == q.Schedulable()
  {
    var count := Min(q.Schedulable(), Min(quantum, s.config.maxBatchTokens - used));
    CutBounds(s, q, count, 0);
  }

  ghost predicate Tight(limit: nat, queue: seq<nat>, from: nat, used: nat, room: nat, items: seq<Item>) {
    from < |queue| && from < limit && used < room ==> from < |items|
  }

  /** The end of a selection: the invariant for the chosen items, and no failure but the position limit. */
  ghost predicate Chose(s: Sched, phase: Phase, limit: nat, i: nat, r: (Sched, seq<Item>, Option<SchedError>)) {
    && Inv(r.0, phase, r.1) && !r.0.state.open
    && OnlyReservations(s, r.0)
    && i <= |r.1| && (|r.1| <= limit || |r.1| == i)
    && (r.2 == None || r.2 == Some(BlockManagerFailure(InvalidReservation)))
  }

  ghost predicate PositionsFit(s: Sched) {
    forall id :: id in s.sequences && s.sequences[id].status != Finished ==>
                   Horizon(s.sequences[id]) <= s.state.shape.maxPositions
  }

  lemma SelectUnfolds(s: Sched, phase: Phase, queue: seq<nat>, limit: nat, quantum: nat, i: nat, used: nat,
                      items: seq<Item>, count: nat)
    requires i < |queue| && |items| < limit && used < s.config.maxBatchTokens
    requires queue[i] in s.sequences && LiveOk(s.sequences[queue[i]])
    requires 0 < s.sequences[queue[i]].Schedulable()
    requires phase == Decode ==> s.sequences[queue[i]].Schedulable() == 1
    requires count == s.ItemCount(phase, s.sequences[queue[i]], quantum, used)
    ensures var joined := s.Reserving(queue[i], count);
            s.Select(phase, queue, limit, quantum, i, used, items)
            == if joined.1.Err? then (joined.0, items, Some(joined.1.error))
               else joined.0.Select(phase, queue, limit, quantum, i + 1, used + count,
                                    items + [Item(queue[i], count, count == s.sequences[queue[i]].Schedulable())])
  {
    hide Sched.Reserving, Sched.ItemCount;
  }

  /** One entry of the queue: it joins the batch, or it does not fit the model's positions. */
  ghost predicate Stepped(s: Sched, phase: Phase, items: seq<Item>, joined: (Sched, Result<(), SchedError>), more: seq<Item>) {
    && (PositionsFit(s) ==> joined.1.Ok?)
    && if joined.1.Ok? then Inv(joined.0, phase, more) && !joined.0.state.open && OnlyReservations(s, joined.0)
       else joined == (s, Err(BlockManagerFailure(InvalidReservation)))
  }

  lemma SelectStep(s: Sched, phase: Phase, items: seq<Item>, id: nat, count: nat,
                   joined: (Sched, Result<(), SchedError>), more: seq<Item>)
    requires Inv(s, phase, items) && !s.state.open
    requires |items| < |s.Queue(phase)| && id == s.Queue(phase)[|items|] && id in s.sequences
    requires 0 < count <= s.sequences[id].Schedulable()
    requires joined == s.Reserving(id, count)
    requires more == items + [Item(id, count, count == s.sequences[id].Schedulable())]
    ensures Stepped(s, phase, items, joined, more)
  {
    hide Hybrid.Sound, Budget, Sched.Reserving, Grew, OnlyReservations, BlocksFor;
    ReservingJoins(s, phase, items, id, count);
    NextEntry(s, phase, items, id);
    if joined.1.Ok? {
      hide LiveOk, HoldingOk, PendingOk, MemberOk;
      JoinedKeeps(s, phase, items, id, count, joined, more);
      JoinedOnly(s, id, count, joined);
    } else {
      BudgetCovers(s.sequences[id], s.config.kvBlockSize, s.sequences[id].processed + count);
    }
  }

  lemma {:induction false} SelectKeeps(s: Sched, phase: Phase, queue: seq<nat>, limit: nat, quantum: nat, used: nat,
                                       items: seq<Item>, r: (Sched, seq<Item>, Option<SchedError>))
    requires Inv(s, phase, items) && !s.state.open
    requires queue == s.Queue(phase) && |items| <= |queue| && 0 < quantum
    requires r == s.Select(phase, queue, limit, quantum, |items|, used, items)
    ensures Chose(s, phase, limit, |items|, r)
    ensures PositionsFit(s) ==> r.2 == None
    ensures r.2 == None ==> Tight(limit, queue, |items|, used, s.config.maxBatchTokens, r.1)
    decreases |queue| - |items|
  {
    hide QueuesOk, PendingOk, ResourcesOk, Grew, PositionsFit, Sched.Reserving, Sched.ItemCount;
    if |items| < |queue| && |items| < limit && used < s.config.maxBatchTokens {
      hide Sched.Select, OnlyReservations;
      var id := queue[|items|];
      SelectEntry(s, phase, items, id, quantum, used);
      var count := s.ItemCount(phase, s.sequences[id], quantum, used);
      var joined := s.Reserving(id, count);
      var more := items + [Item(id, count, count == s.sequences[id].Schedulable())];
      SelectUnfolds(s, phase, queue, limit, quantum, |items|, used, items, count);
      SelectStep(s, phase, items, id, count, joined, more);
      if joined.1.Ok? {
        SameQueues(s, joined.0);
        SelectKeeps(joined.0, phase, queue, limit, quantum, used + count, more, r);
        OnlyReservationsTransitive(s, joined.0, r.0);
        PositionsStillFit(s, joined.0);
      } else {
        OnlyReservationsRefl(s);
      }
    } else {
      OnlyReservationsRefl(s);
    }
  }

  lemma SameQueues(s: Sched, t: Sched)
    requires OnlyReservations(s, t)
    ensures t.waiting == s.waiting && t.running == s.running && t.config == s.config
  {
  }

  lemma SelectEntry(s: Sched, phase: Phase, items: seq<Item>, id: nat, quantum: nat, used: nat)
    requires Inv(s, phase, items)
    requires |items| < |s.Queue(phase)| && id == s.Queue(phase)[|items|]
    requires 0 < quantum && used < s.config.maxBatchTokens
    ensures id in s.sequences && LiveOk(s.sequences[id])
    ensures phase == Decode ==> s.sequences[id].Schedulable() == 1
    ensures 0 < s.ItemCount(phase, s.sequences[id], quantum, used) <= s.sequences[id].Schedulable()
  {
    hide ResourcesOk, PendingOk;
    NextEntry(s, phase, items, id) by {
      hide ResourcesOk;
    }
    ItemCountBounds(s, phase, s.sequences[id], quantum, used);
  }

  lemma JoinedOnly(s: Sched, id: nat, count: nat, r: (Sched, Result<(), SchedError>))
    requires Joined(s, id, count, r) && r.1.Ok? && s.state.Sound() && id in s.state.sequences
    ensures OnlyReservations(s, r.0)
  {
    hide Hybrid.Sound, Hybrid.Reserve, Budget;
    ReserveGrows(s.state, id, s.sequences[id].processed + count, true);
  }

  lemma PositionsStillFit(s: Sched, t: Sched)
    requires OnlyReservations(s, t)
    ensures PositionsFit(s) <==> PositionsFit(t)
  {
    forall id | id in s.sequences
      ensures t.sequences[id].status == s.sequences[id].status
      ensures Horizon(t.sequences[id]) == Horizon(s.sequences[id])
    {
      assert SameWork(s.sequences[id], t.sequences[id]);
    }
  }

  // ---------------------------------------------------------------- schedule

  lemma NoItems(s: Sched, phase: Phase, other: Phase)
    requires Inv(s, phase, [])
    ensures Inv(s, other, [])
  {
    hide QueuesOk, ResourcesOk;
  }

  lemma TurnIrrelevant(s: Sched, phase: Phase, items: seq<Item>, turn: Turn, active: Option<Batch>, transaction: bool, next: nat)
    requires Inv(s, phase, items)
    ensures Inv(s.(turn := turn, active := active, transaction := transaction, nextBatch := next), phase, items)
  {
    hide Hybrid.Sound, Budget;
    var t := s.(turn := turn, active := active, transaction := transaction, nextBatch := next);
    assert forall id :: MemberOk(s, id) ==> MemberOk(t, id);
    assert forall i :: ItemOk(s, phase, items, i) ==> ItemOk(t, phase, items, i);
    assert forall id :: HoldingOk(s, id) ==> HoldingOk(t, id);
    assert Budgets(t) == Budgets(s);
  }

  lemma OpeningKeeps(s: Sched)
    requires SchedInv(s) && s.active == None && !(s.waiting == [] && s.running == [])
    ensures SchedInv(s.Opening()) && Inv(s.Opening(), s.Opening().PhaseNow(), [])
    ensures 0 < s.Opening().ItemLimit() <= |s.Queue(s.Opening().PhaseNow())| && 0 < s.Opening().Quantum()
    ensures s.Opening() == s.(turn := s.Opening().turn)
    ensures s.Opening().turn.DecodeRound? ==> s.Opening().ItemLimit() <= s.Opening().turn.remaining
  {
    hide QueuesOk, PendingOk, ResourcesOk;
    TurnIrrelevant(s, Prefill, [], s.Opening().turn, s.active, s.transaction, s.nextBatch);
    NoItems(s.Opening(), Prefill, s.Opening().PhaseNow());
    QueueRoom(s);
  }

  lemma QueueRoom(s: Sched)
    requires QueuesOk(s)
    ensures |s.waiting| <= s.config.maxSequences && |s.running| <= s.config.maxSequences
  {
  }

  /** A failed schedule changes nothing but page capacity and, when nothing waits, the turn. */
  ghost predicate Undone(s: Sched, t: Sched) {
    && t == s.(turn := t.turn, state := t.state)
    && t.turn == s.Opening().turn
    && Grew(s.state, t.state) && t.state.sequences.Keys == s.state.sequences.Keys
  }

  lemma BackToStart(s: Sched, t: Sched)
    requires OnlyReservations(s, t)
    requires forall id :: id in s.sequences ==> s.sequences[id].scheduled == 0 && t.sequences[id].scheduled == 0
    ensures t == s.(state := t.state)
  {
    forall id | id in s.sequences ensures t.sequences[id] == s.sequences[id] {
      assert SameWork(s.sequences[id], t.sequences[id]);
    }
    assert t.sequences == s.sequences;
  }

  /** How a call of schedule ends. */
  ghost predicate ScheduleOutcome(s: Sched, r: (Sched, Result<Batch, SchedError>)) {
    match r.1
    case Ok(b) =>
      && s.active == None
      && b == Batch(s.nextBatch, s.Opening().PhaseNow(), b.items) && b.items != []
      && r.0.active == Some(b)
      && OnlyReservations(s.Opening().(active := Some(b), nextBatch := s.nextBatch + 1), r.0)
    case Err(BatchInFlight) => s.active.Some? && r.0 == s
    case Err(NoRunnableSequences) => s.active == None && s.waiting == [] && s.running == [] && r.0 == s
    case Err(BlockManagerFailure(InvalidReservation)) => !PositionsFit(s) && s.active == None && Undone(s, r.0)
    case Err(_) => false
  }

  /** schedule() keeps the invariant. Without a batch in flight it fails only when nothing is live or the model's
      positions are exceeded; running out of pages is impossible. */
  lemma ScheduleKeeps(s: Sched)
    requires SchedInv(s)
    ensures SchedInv(s.Schedule().0)
    ensures ScheduleOutcome(s, s.Schedule())
  {
    hide Inv, Grew, OnlyReservations, PositionsFit, Sched.Select, Sched.RollBack;
    if s.active == None && !(s.waiting == [] && s.running == []) {
      OpeningKeeps(s);
      var o := s.Opening();
      var r := o.Select(o.PhaseNow(), o.Queue(o.PhaseNow()), o.ItemLimit(), o.Quantum(), 0, 0, []);
      SelectKeeps(o, o.PhaseNow(), o.Queue(o.PhaseNow()), o.ItemLimit(), o.Quantum(), 0, [], r);
      OpeningPositions(s);
      if r.2.Some? {
        ScheduleFails(s, o, r);
      } else {
        ScheduleChooses(s, o, r);
      }
    }
  }

  lemma OpeningPositions(s: Sched)
    ensures PositionsFit(s) <==> PositionsFit(s.Opening())
  {
  }

  lemma ScheduleFails(s: Sched, o: Sched, r: (Sched, seq<Item>, Option<SchedError>))
    requires SchedInv(s) && s.active == None && o == s.Opening() && SchedInv(o) && Inv(o, o.PhaseNow(), [])
    requires Chose(o, o.PhaseNow(), o.ItemLimit(), 0, r)
    ensures SchedInv(r.0.RollBack(r.1)) && Undone(s, r.0.RollBack(r.1))
  {
    hide QueuesOk, ResourcesOk, Grew;
    var t := r.0.RollBack(r.1);
    RollBackKeeps(r.0, o.PhaseNow(), r.1, t);
    OnlyReservationsTransitive(o, r.0, t);
    BackToStart(o, t) by {
      Unreserved(o);
    }
  }

  lemma Unreserved(s: Sched)
    requires Inv(s, s.PhaseNow(), [])
    ensures forall id :: id in s.sequences ==> s.sequences[id].scheduled == 0
  {
  }

  lemma ScheduleChooses(s: Sched, o: Sched, r: (Sched, seq<Item>, Option<SchedError>))
    requires SchedInv(s) && s.active == None && o == s.Opening() && SchedInv(o) && o == s.(turn := o.turn)
    requires Chose(o, o.PhaseNow(), o.ItemLimit(), 0, r) && r.2 == None
    requires o.turn.DecodeRound? ==> o.ItemLimit() <= o.turn.remaining
    requires r.1 != []
    ensures var b := Batch(s.nextBatch, o.PhaseNow(), r.1);
            var t := r.0.(active := Some(b), nextBatch := s.nextBatch + 1);
            SchedInv(t) && OnlyReservations(o.(active := Some(b), nextBatch := s.nextBatch + 1), t)
  {
    hide QueuesOk, PendingOk, ResourcesOk, Grew;
    var b := Batch(s.nextBatch, o.PhaseNow(), r.1);
    TurnIrrelevant(r.0, o.PhaseNow(), r.1, r.0.turn, Some(b), r.0.transaction, s.nextBatch + 1);
  }
}

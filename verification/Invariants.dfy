/** What every scheduler operation keeps. */
module Invariants {
  import opened Wrappers
  import opened Sums
  import opened Sequences
  import opened Paging
  import opened Batches
  import opened HybridStates
  import opened Residence
  import opened Scheduling

  /** Waiting for prefill: at least one prompt token left to process. */
  ghost predicate WaitingOk(q: SeqData) {
    q.Valid() && q.status == Waiting && |q.tokens| == q.promptCount && q.processed < q.promptCount
  }

  /** Ready for decode: exactly one unprocessed token, and fewer completions than allowed. */
  ghost predicate RunningOk(q: SeqData) {
    && q.Valid() && q.status == Running
    && q.promptCount < |q.tokens| < q.promptCount + q.params.maxNewTokens
    && q.processed == |q.tokens| - 1
  }

  ghost predicate LiveOk(q: SeqData) {
    WaitingOk(q) || RunningOk(q)
  }

  ghost predicate MemberOk(s: Sched, id: nat) {
    id in s.sequences &&
    var q := s.sequences[id];
    && q.id == id && q.Valid()
    && (id in s.waiting ==> WaitingOk(q))
    && (id in s.running ==> RunningOk(q))
    && (id !in s.waiting && id !in s.running ==> q.status == Finished)
  }

  /** Both queues list live sequences once, and every live sequence is in one of them. */
  ghost predicate QueuesOk(s: Sched) {
    && NoDup(s.waiting) && NoDup(s.running) && Disjoint(s.waiting, s.running)
    && |s.waiting| + |s.running| <= s.config.maxSequences
    && (forall id :: id in s.waiting || id in s.running ==> id in s.sequences)
    && (forall id :: id in s.sequences ==> MemberOk(s, id))
  }

  ghost predicate ItemOk(s: Sched, phase: Phase, items: seq<Item>, i: nat) {
    && i < |items| && i < |s.Queue(phase)| && items[i].id == s.Queue(phase)[i]
    && items[i].id in s.sequences
    && 0 < items[i].count == s.sequences[items[i].id].scheduled
    && items[i].sample == (s.sequences[items[i].id].processed + items[i].count == |s.sequences[items[i].id].tokens|)
  }

  /** The items reserve the first entries of their queue, and nothing else is reserved. */
  ghost predicate PendingOk(s: Sched, phase: Phase, items: seq<Item>) {
    && (forall i :: 0 <= i < |items| ==> ItemOk(s, phase, items, i))
    && (forall id :: id in s.sequences && !Listed(items, id) ==> s.sequences[id].scheduled == 0)
  }

  ghost function Budgets(s: Sched): map<nat, nat> {
    map id | id in s.state.sequences && id in s.sequences :: Budget(s.sequences[id], s.config.kvBlockSize)
  }

  ghost predicate HoldingOk(s: Sched, id: nat) {
    && id in s.sequences && id in s.state.sequences
    && |s.state.pages.Table(id)| <= Budget(s.sequences[id], s.config.kvBlockSize)
    && s.sequences[id].processed + s.sequences[id].scheduled <= s.state.sequences[id].reserved
  }

  /** Pages are held by live sequences only, within budgets that together fit the pool. */
  ghost predicate ResourcesOk(s: Sched) {
    && s.state.Sound()
    && s.state.pages.count == s.config.kvBlockCount && s.state.pages.size == s.config.kvBlockSize
    && (forall id :: id in s.state.sequences <==> id in s.waiting || id in s.running)
    && (forall id :: id in s.state.sequences ==> HoldingOk(s, id))
    && Total(Budgets(s)) <= s.config.kvBlockCount
  }

  ghost predicate Inv(s: Sched, phase: Phase, items: seq<Item>) {
    && QueuesOk(s)
    && PendingOk(s, phase, items)
    && ResourcesOk(s)
    && s.prefixes.Valid()
  }

  ghost predicate TurnOk(s: Sched) {
    && 0 < s.config.maxSequences && 0 < s.config.maxBatchTokens && 0 < s.config.chunk
    && (s.turn.DecodeRound? ==> 0 < s.turn.remaining <= |s.running|)
  }

  ghost predicate ActiveOk(s: Sched) {
    match s.active
    case None => !s.transaction && Inv(s, Prefill, [])
    case Some(b) =>
      && b.items != [] && Inv(s, b.phase, b.items)
      && (b.phase == Decode <==> s.turn.DecodeRound?)
      && (s.turn.DecodeRound? ==> |b.items| <= s.turn.remaining)
  }

  /** The invariant of every reachable scheduler, batch in flight or not. */
  ghost predicate SchedInv(s: Sched) {
    TurnOk(s) && ActiveOk(s) && (s.state.open ==> s.transaction && SnapshotsOk(s.state))
  }

  /** An open transaction will commit no sequence beyond its reservation. */
  ghost predicate SnapshotsOk(h: Hybrid) {
    forall i :: 0 <= i < |h.snapshots| && h.snapshots[i].id in h.sequences ==>
                  h.snapshots[i].end <= h.sequences[h.snapshots[i].id].reserved
  }

  // ---------------------------------------------------------------- budgets

  lemma BudgetCovers(q: SeqData, size: Positive, tokens: nat)
    requires LiveOk(q) && 0 < tokens <= |q.tokens|
    ensures BlocksFor(tokens, size) <= Budget(q, size)
    ensures tokens <= Horizon(q)
  {
    BlocksForMonotone(tokens, Horizon(q), size);
  }

  /** Changing anything but prompt length and limit of a sequence leaves the budgets alone. */
  lemma BudgetsKept(s: Sched, t: Sched)
    requires t.config == s.config && t.state.sequences.Keys == s.state.sequences.Keys
    requires forall id :: id in s.state.sequences ==>
               && (id in s.sequences <==> id in t.sequences)
               && (id in s.sequences ==> t.sequences[id].promptCount == s.sequences[id].promptCount
                                         && t.sequences[id].params == s.sequences[id].params)
    ensures Budgets(t) == Budgets(s)
  {
  }

  // ---------------------------------------------------------------- one reservation

  /** The sequence's reservation becomes `count`; pages and sequences are all that may change. */
  ghost predicate Reserved(s: Sched, id: nat, count: nat, t: Sched) {
    && id in s.sequences
    && t == s.(state := t.state, sequences := s.sequences[id := s.sequences[id].(scheduled := count)])
  }

  ghost predicate WithinBudget(s: Sched, id: nat, g: Hybrid) {
    id in s.sequences && |g.pages.Table(id)| <= Budget(s.sequences[id], s.config.kvBlockSize)
  }

  lemma ReserveFitsBudget(s: Sched, id: nat, tokens: nat)
    requires ResourcesOk(s) && MemberOk(s, id) && id in s.state.sequences && !s.state.open
    requires 0 < tokens <= |s.sequences[id].tokens| && LiveOk(s.sequences[id])
    requires tokens <= s.state.shape.maxPositions
    ensures s.state.Reserve(id, tokens, true).1.Ok?
    ensures WithinBudget(s, id, s.state.Reserve(id, tokens, true).0)
  {
    hide Hybrid.Sound, Hybrid.Reserve, Budget, BlocksFor;
    BudgetCovers(s.sequences[id], s.config.kvBlockSize, tokens);
    assert Budgets(s).Keys == s.state.sequences.Keys by {
      forall i | i in s.state.sequences ensures i in s.sequences {
        assert HoldingOk(s, i);
      }
    }
    forall i | i in s.state.sequences ensures |s.state.pages.Table(i)| <= Budgets(s)[i] {
      assert HoldingOk(s, i);
    }
    ReserveSucceeds(s.state, id, tokens, true, Budgets(s));
  }

  lemma ReservingIs(s: Sched, id: nat, count: nat)
    requires ResourcesOk(s) && MemberOk(s, id) && id in s.state.sequences && !s.state.open
    requires LiveOk(s.sequences[id]) && s.sequences[id].scheduled == 0
    requires 0 < count <= s.sequences[id].Schedulable()
    ensures var r := s.Reserving(id, count);
            var tokens := s.sequences[id].processed + count;
            if tokens <= s.state.shape.maxPositions
            then && r.1.Ok? && Reserved(s, id, count, r.0) && WithinBudget(s, id, r.0.state)
                 && s.state.Reserve(id, tokens, true) == (r.0.state, Ok(()))
            else r.1 == Err(BlockManagerFailure(InvalidReservation)) && r.0 == s
  {
    hide ResourcesOk, Budget, BlocksFor;
    if s.sequences[id].processed + count <= s.state.shape.maxPositions {
      hide Hybrid.Reserve;
      ReserveFitsBudget(s, id, s.sequences[id].processed + count);
    }
  }

  lemma ReservedQueues(s: Sched, id: nat, count: nat, t: Sched)
    requires QueuesOk(s) && Reserved(s, id, count, t)
    requires s.sequences[id].scheduled == 0 && count <= s.sequences[id].Schedulable()
    requires s.sequences[id].status != Finished
    ensures QueuesOk(t)
  {
    forall i | i in t.sequences ensures MemberOk(t, i) {
      assert MemberOk(s, i);
    }
  }

  /** One member's pages grew and its accounting entry changed, its prompt and limit did not. */
  ghost predicate Adjusted(s: Sched, id: nat, t: Sched) {
    && id in s.sequences && id in t.sequences
    && t == s.(state := t.state, sequences := s.sequences[id := t.sequences[id]])
    && t.sequences[id].promptCount == s.sequences[id].promptCount
    && t.sequences[id].params == s.sequences[id].params
    && Grew(s.state, t.state)
    && t.state.sequences.Keys == s.state.sequences.Keys
    && (forall i :: i in s.state.sequences && i != id ==> t.state.pages.Table(i) == s.state.pages.Table(i))
  }

  lemma AdjustedResources(s: Sched, id: nat, t: Sched)
    requires ResourcesOk(s) && Adjusted(s, id, t)
    requires t.state.Sound() && HoldingOk(t, id)
    ensures ResourcesOk(t)
  {
    hide Hybrid.Sound, Budget;
    BudgetsKept(s, t);
    forall i | i in t.state.sequences ensures HoldingOk(t, i) {
      assert HoldingOk(s, i);
    }
  }

  lemma ReservedResources(s: Sched, id: nat, count: nat, t: Sched)
    requires ResourcesOk(s) && Reserved(s, id, count, t) && id in s.state.sequences
    requires s.state.Reserve(id, s.sequences[id].processed + count, true) == (t.state, Ok(()))
    requires WithinBudget(s, id, t.state)
    ensures ResourcesOk(t)
    ensures t.state.open == s.state.open && t.state.shape == s.state.shape
  {
    hide Hybrid.Reserve, Budget, Partition;
    ReserveGrows(s.state, id, s.sequences[id].processed + count, true);
    ReserveKeepsSound(s.state, id, s.sequences[id].processed + count, true);
    ReservedHolding(s, id, count, t);
    AdjustedResources(s, id, t);
  }

  lemma ReservedHolding(s: Sched, id: nat, count: nat, t: Sched)
    requires Reserved(s, id, count, t) && id in t.state.sequences && WithinBudget(s, id, t.state)
    requires s.sequences[id].processed + count <= t.state.sequences[id].reserved
    ensures HoldingOk(t, id)
  {
  }

  lemma ReservedPending(s: Sched, phase: Phase, items: seq<Item>, count: nat, t: Sched, more: seq<Item>)
    requires PendingOk(s, phase, items) && |items| < |s.Queue(phase)| && NoDup(s.Queue(phase))
    requires Reserved(s, s.Queue(phase)[|items|], count, t) && 0 < count
    requires more == items + [Item(s.Queue(phase)[|items|], count,
                                   count == s.sequences[s.Queue(phase)[|items|]].Schedulable())]
    requires s.sequences[s.Queue(phase)[|items|]].scheduled == 0
    ensures PendingOk(t, phase, more)
  {
    forall i | 0 <= i < |more| ensures ItemOk(t, phase, more, i) {
      if i < |items| {
        assert ItemOk(s, phase, items, i);
      }
    }
    forall id | id in t.sequences && !Listed(more, id) ensures t.sequences[id].scheduled == 0 {
      assert id != more[|items|].id;
      if Listed(items, id) {
        ListedAppend(items, more, id);
      }
    }
  }

  lemma ListedAppend(items: seq<Item>, more: seq<Item>, id: nat)
    requires items <= more && Listed(items, id)
    ensures Listed(more, id)
  {
    var i :| 0 <= i < |items| && items[i].id == id;
    assert more[i].id == id;
  }

  lemma ListedMeans(s: Sched, phase: Phase, items: seq<Item>, id: nat)
    requires PendingOk(s, phase, items)
    ensures |items| <= |s.Queue(phase)|
    ensures Listed(items, id) <==> id in s.Queue(phase)[..|items|]
  {
    if |items| > 0 {
      assert ItemOk(s, phase, items, |items| - 1);
    }
    if Listed(items, id) {
      var i :| 0 <= i < |items| && items[i].id == id;
      assert ItemOk(s, phase, items, i);
      assert s.Queue(phase)[..|items|][i] == id;
    }
    if id in s.Queue(phase)[..|items|] {
      var i :| 0 <= i < |items| && s.Queue(phase)[..|items|][i] == id;
      assert ItemOk(s, phase, items, i);
    }
  }

  /** The queue entry after the items is unreserved, live and holds pages. */
  lemma NextEntry(s: Sched, phase: Phase, items: seq<Item>, id: nat)
    requires QueuesOk(s) && PendingOk(s, phase, items)
    requires |items| < |s.Queue(phase)| && id == s.Queue(phase)[|items|]
    ensures NoDup(s.Queue(phase)) && id in s.Queue(phase) && MemberOk(s, id)
    ensures (if phase == Prefill then WaitingOk(s.sequences[id]) else RunningOk(s.sequences[id]))
    ensures s.sequences[id].scheduled == 0 && !Listed(items, id)
  {
    ListedMeans(s, phase, items, id);
    assert id in s.Queue(phase);
    assert MemberOk(s, id);
  }

  /** What one turn of the selection loop does: reserve, or fail on the position limit and change nothing. */
  ghost predicate Joined(s: Sched, id: nat, count: nat, r: (Sched, Result<(), SchedError>)) {
    && id in s.sequences
    && (if s.sequences[id].processed + count <= s.state.shape.maxPositions
        then && r.1 == Ok(()) && Reserved(s, id, count, r.0) && WithinBudget(s, id, r.0.state)
             && s.state.Reserve(id, s.sequences[id].processed + count, true) == (r.0.state, Ok(()))
        else r == (s, Err(BlockManagerFailure(InvalidReservation))))
  }

  lemma ReservingJoins(s: Sched, phase: Phase, items: seq<Item>, id: nat, count: nat)
    requires Inv(s, phase, items) && !s.state.open
    requires |items| < |s.Queue(phase)| && id == s.Queue(phase)[|items|] && id in s.sequences
    requires 0 < count <= s.sequences[id].Schedulable()
    ensures Joined(s, id, count, s.Reserving(id, count))
  {
    hide Hybrid.Sound, Budget;
    NextEntry(s, phase, items, id);
    ReservingIs(s, id, count);
  }

  lemma QueuedHolds(s: Sched, phase: Phase, id: nat)
    requires ResourcesOk(s) && id in s.Queue(phase)
    ensures id in s.state.sequences
  {
  }

  /** The next queue entry joins the batch: the invariant moves on by one item. */
  lemma JoinedKeeps(s: Sched, phase: Phase, items: seq<Item>, id: nat, count: nat,
                    r: (Sched, Result<(), SchedError>), more: seq<Item>)
    requires Inv(s, phase, items) && !s.state.open
    requires |items| < |s.Queue(phase)| && id == s.Queue(phase)[|items|] && id in s.sequences
    requires 0 < count <= s.sequences[id].Schedulable()
    requires Joined(s, id, count, r) && r.1.Ok?
    requires more == items + [Item(id, count, count == s.sequences[id].Schedulable())]
    ensures Inv(r.0, phase, more) && !r.0.state.open && r.0.state.shape == s.state.shape
  {
    hide QueuesOk, PendingOk, ResourcesOk, Hybrid.Sound, Hybrid.Reserve, Budget, WithinBudget;
    NextEntry(s, phase, items, id);
    QueuedHolds(s, phase, id);
    ReservedQueues(s, id, count, r.0);
    ReservedResources(s, id, count, r.0);
    ReservedPending(s, phase, items, count, r.0, more);
  }
}

/** Completing a batch keeps the invariant, item by item. */
module Completion {
  import opened Wrappers
  import opened Sums
  import opened Sequences
  import opened Paging
  import opened PrefixCaching
  import opened Batches
  import opened HybridStates
  import opened Residence
  import opened Scheduling
  import opened Invariants

  datatype Place = ToWaiting | ToRunning | Gone

  /** The sequence after its reserved tokens went through the model. */
  function Worked(q: SeqData): SeqData {
    q.(processed := q.processed + q.scheduled, scheduled := 0)
  }

  function Sampled(q: SeqData, token: Token): SeqData {
    Worked(q).(status := Running, tokens := q.tokens + [token])
  }

  /** Where an item ends up: back in prefill, on to decode, or finished. */
  function Settle(q: SeqData, sample: bool, token: Token, eos: Token): (r: (SeqData, Place)) {
    if !sample then (Worked(q), ToWaiting)
    else
      var grown := Sampled(q, token);
      var reason := grown.EvaluateStop(eos);
      if reason == NoReason then (grown, ToRunning)
      else (grown.(status := Finished, reason := reason), Gone)
  }

  function Moved(queue: seq<nat>, popped: bool, id: nat, appended: bool): seq<nat> {
    (if popped && queue != [] then queue[1..] else queue) + (if appended then [id] else [])
  }

  /** One entry left the front of its queue with a new value, and went to its place. */
  ghost predicate Shifted(s: Sched, phase: Phase, q: SeqData, place: Place, t: Sched) {
    && t == s.(prefixes := t.prefixes,
               sequences := s.sequences[q.id := q],
               waiting := Moved(s.waiting, phase == Prefill, q.id, place == ToWaiting),
               running := Moved(s.running, phase == Decode, q.id, place == ToRunning),
               state := if place == Gone then s.state.Release(q.id) else s.state)
    && t.prefixes.Valid()
  }

  // ---------------------------------------------------------------- prefix checkpoints

  ghost predicate OnlyCache(s: Sched, t: Sched) {
    t == s.(prefixes := t.prefixes) && t.prefixes.Valid()
  }

  lemma CachePrefixOnly(s: Sched, q: SeqData, saves: bool)
    requires s.prefixes.Valid() && q.promptCount <= |q.tokens|
    ensures OnlyCache(s, s.CachePrefix(q, saves))
  {
    var count := q.processed;
    MakeRoomKeepsLongest(s.prefixes, count, s.state.CheckpointBytes(count));
    if count in q.checkpoints && s.Cacheable(count) && count <= q.promptCount {
      var roomy := s.prefixes.MakeRoom(count, s.state.CheckpointBytes(count));
      var saved := s.state.Checkpoint(q.id, count, saves);
      if saved.Ok? {
        InsertKeepsBound(roomy, q.Prompt()[..count], saved.value);
      }
    }
  }

  // ---------------------------------------------------------------- one item

  /** The value and place of a completed item fit the invariant. */
  ghost predicate Settled(q: SeqData, phase: Phase, r: (SeqData, Place)) {
    && r.0.id == q.id && r.0.promptCount == q.promptCount && r.0.params == q.params
    && r.0.scheduled == 0 && r.0.processed == q.processed + q.scheduled
    && match r.1
       case ToWaiting => phase == Prefill && WaitingOk(r.0)
       case ToRunning => RunningOk(r.0)
       case Gone => r.0.Valid() && r.0.status == Finished
  }

  lemma SettleFits(q: SeqData, phase: Phase, sample: bool, token: Token, eos: Token)
    requires if phase == Prefill then WaitingOk(q) else RunningOk(q)
    requires 0 < q.scheduled && (sample <==> q.processed + q.scheduled == |q.tokens|)
    ensures Settled(q, phase, Settle(q, sample, token, eos))
  {
  }

  lemma CompleteItemShifts(s: Sched, phase: Phase, items: seq<Item>, token: Token, saves: bool)
    requires Inv(s, phase, items) && items != []
    ensures items[0].id in s.sequences && s.sequences[items[0].id].id == items[0].id
    ensures var q := s.sequences[items[0].id];
            var settled := Settle(q, items[0].sample, token, s.eos);
            var r := s.CompleteItem(phase, items[0], token, saves);
            && Settled(q, phase, settled)
            && Shifted(s, phase, settled.0, settled.1, r.0)
            && r.1 == Ok(if settled.1 == ToWaiting then None
                         else Some(Update(q.id, token, settled.0.reason)))
  {
    hide ResourcesOk;
    assert ItemOk(s, phase, items, 0);
    var id := items[0].id;
    assert id in s.Queue(phase);
    assert MemberOk(s, id);
    var q := s.sequences[id];
    SettleFits(q, phase, items[0].sample, token, s.eos);
    ItemDelivers(s, phase, items[0], token, saves);
  }

  lemma ItemDelivers(s: Sched, phase: Phase, item: Item, token: Token, saves: bool)
    requires item.id in s.sequences && s.prefixes.Valid()
    requires s.Queue(phase) != []
    requires s.sequences[item.id].id == item.id
    requires if phase == Prefill then WaitingOk(s.sequences[item.id]) else RunningOk(s.sequences[item.id])
    requires 0 < s.sequences[item.id].scheduled
    requires item.sample <==> s.sequences[item.id].processed + s.sequences[item.id].scheduled == |s.sequences[item.id].tokens|
    ensures var q := s.sequences[item.id];
            var settled := Settle(q, item.sample, token, s.eos);
            var r := s.CompleteItem(phase, item, token, saves);
            && Shifted(s, phase, settled.0, settled.1, r.0)
            && r.1 == Ok(if settled.1 == ToWaiting then None
                         else Some(Update(q.id, token, settled.0.reason)))
  {
    hide Hybrid.Release;
    var q := s.sequences[item.id];
    var c := Worked(q);
    assert q.CommitScheduled() == Ok(c);
    var committed := s.(sequences := s.sequences[item.id := c]);
    CachePrefixOnly(committed, c, saves);
  }

  // ---------------------------------------------------------------- keeping the invariant

  lemma ShiftedQueues(s: Sched, phase: Phase, items: seq<Item>, q: SeqData, place: Place, t: Sched)
    requires QueuesOk(s) && PendingOk(s, phase, items) && items != []
    requires q.id == items[0].id && q.id in s.sequences
    requires Settled(s.sequences[q.id], phase, (q, place)) && Shifted(s, phase, q, place, t)
    ensures QueuesOk(t)
  {
    assert ItemOk(s, phase, items, 0);
    var w, r := s.waiting, s.running;
    if phase == Prefill {
      PoppedNoDup(w, q.id);
    } else {
      PoppedNoDup(r, q.id);
    }
    MovedMembers(s, phase, q, place, t);
    MovedNoDup(s, phase, q, place, t);
    forall id | id in t.sequences ensures MemberOk(t, id) {
      assert id in s.sequences && MemberOk(s, id);
    }
  }

  lemma PoppedNoDup(queue: seq<nat>, id: nat)
    requires NoDup(queue) && queue != [] && queue[0] == id
    ensures NoDup(queue[1..]) && id !in queue[1..]
    ensures forall x :: x in queue <==> x == id || x in queue[1..]
  {
    assert queue == [id] + queue[1..];
  }

  lemma MovedMembers(s: Sched, phase: Phase, q: SeqData, place: Place, t: Sched)
    requires s.Queue(phase) != [] && s.Queue(phase)[0] == q.id && NoDup(s.Queue(phase))
    requires Shifted(s, phase, q, place, t)
    ensures forall id :: id != q.id ==> (id in t.waiting <==> id in s.waiting) && (id in t.running <==> id in s.running)
    ensures phase == Prefill ==> (q.id in t.waiting <==> place == ToWaiting)
    ensures phase == Decode ==> (q.id in t.running <==> place == ToRunning)
    ensures phase == Prefill ==> (q.id in t.running <==> q.id in s.running || place == ToRunning)
    ensures phase == Decode ==> (q.id in t.waiting <==> q.id in s.waiting || place == ToWaiting)
  {
    PoppedNoDup(s.Queue(phase), q.id);
  }

  lemma AppendNoDup(queue: seq<nat>, id: nat)
    requires NoDup(queue) && id !in queue
    ensures NoDup(queue + [id])
  {
  }

  lemma MovedNoDup(s: Sched, phase: Phase, q: SeqData, place: Place, t: Sched)
    requires s.Queue(phase) != [] && s.Queue(phase)[0] == q.id
    requires NoDup(s.waiting) && NoDup(s.running) && Disjoint(s.waiting, s.running)
    requires Shifted(s, phase, q, place, t)
    requires place == ToWaiting ==> phase == Prefill
    ensures NoDup(t.waiting) && NoDup(t.running)
    ensures |t.waiting| + |t.running| <= |s.waiting| + |s.running|
    ensures Disjoint(t.waiting, t.running)
  {
    hide Cache.Valid;
    PoppedNoDup(s.Queue(phase), q.id);
    MovedMembers(s, phase, q, place, t);
    var rest := s.Queue(phase)[1..];
    AppendNoDup(rest, q.id);
    if phase == Prefill && place == ToRunning {
      AppendNoDup(s.running, q.id);
    }
    if phase == Decode {
      forall x | x in t.waiting ensures x !in t.running {
        assert x in s.waiting;
      }
    } else {
      forall x | x in t.waiting ensures x !in t.running {
        assert x != q.id ==> x in s.waiting;
      }
    }
  }

  lemma ShiftedPending(s: Sched, phase: Phase, items: seq<Item>, q: SeqData, place: Place, t: Sched)
    requires QueuesOk(s) && PendingOk(s, phase, items) && items != []
    requires q.id == items[0].id && q.id in s.sequences && q.scheduled == 0
    requires Shifted(s, phase, q, place, t)
    ensures PendingOk(t, phase, items[1..])
  {
    assert ItemOk(s, phase, items, 0);
    var queue, rest := s.Queue(phase), items[1..];
    PoppedNoDup(queue, q.id);
    forall i | 0 <= i < |rest| ensures ItemOk(t, phase, rest, i) {
      assert ItemOk(s, phase, items, i + 1);
      assert t.Queue(phase)[i] == queue[1..][i] == queue[i + 1];
    }
    forall id | id in t.sequences && !Listed(rest, id) ensures t.sequences[id].scheduled == 0 {
      if id != q.id {
        ListedTail(items, id);
      }
    }
  }

  lemma ListedTail(items: seq<Item>, id: nat)
    requires items != [] && items[0].id != id
    ensures Listed(items, id) ==> Listed(items[1..], id)
  {
    if Listed(items, id) {
      var i :| 0 <= i < |items| && items[i].id == id;
      assert items[1..][i - 1].id == id;
    }
  }

  /** The live identifiers after an item settled. */
  ghost predicate LiveAfter(s: Sched, id: nat, gone: bool, t: Sched) {
    && (id in s.waiting || id in s.running)
    && (forall i :: i != id ==> (i in t.waiting || i in t.running <==> i in s.waiting || i in s.running))
    && (id in t.waiting || id in t.running <==> !gone)
  }

  lemma ShiftedLive(s: Sched, phase: Phase, q: SeqData, place: Place, t: Sched)
    requires QueuesOk(s) && s.Queue(phase) != [] && s.Queue(phase)[0] == q.id
    requires Shifted(s, phase, q, place, t)
    ensures LiveAfter(s, q.id, place == Gone, t)
  {
    hide MemberOk, Cache.Valid;
    MovedMembers(s, phase, q, place, t);
    assert Disjoint(s.waiting, s.running);
    assert q.id in s.Queue(phase);
  }

  lemma KeptResources(s: Sched, q: SeqData, t: Sched)
    requires ResourcesOk(s) && q.id in s.sequences
    requires t.state == s.state && t.config == s.config && t.sequences == s.sequences[q.id := q]
    requires q.promptCount == s.sequences[q.id].promptCount && q.params == s.sequences[q.id].params
    requires q.processed + q.scheduled == s.sequences[q.id].processed + s.sequences[q.id].scheduled
    requires LiveAfter(s, q.id, false, t)
    ensures ResourcesOk(t)
  {
    hide Hybrid.Sound;
    BudgetsKept(s, t);
    forall id | id in t.state.sequences ensures HoldingOk(t, id) {
      assert HoldingOk(s, id);
    }
  }

  lemma ShiftedResources(s: Sched, phase: Phase, q: SeqData, place: Place, t: Sched)
    requires ResourcesOk(s) && QueuesOk(s) && !s.state.open
    requires s.Queue(phase) != [] && s.Queue(phase)[0] == q.id && q.id in s.sequences
    requires Settled(s.sequences[q.id], phase, (q, place)) && Shifted(s, phase, q, place, t)
    ensures ResourcesOk(t) && !t.state.open
  {
    hide ResourcesOk, Hybrid.Release;
    ShiftedLive(s, phase, q, place, t);
    if place == Gone {
      ReleasedResources(s, q, t);
    } else {
      KeptResources(s, q, t);
    }
  }

  /** Releasing a finished sequence returns its budget. */
  lemma ReleasedResources(s: Sched, q: SeqData, t: Sched)
    requires ResourcesOk(s) && !s.state.open && q.id in s.sequences
    requires t.state == s.state.Release(q.id) && t.config == s.config && t.sequences == s.sequences[q.id := q]
    requires LiveAfter(s, q.id, true, t)
    ensures ResourcesOk(t) && !t.state.open
  {
    hide Hybrid.Sound, Budget;
    ReleaseKeepsSound(s.state, q.id);
    assert q.id in s.state.sequences && HoldingOk(s, q.id);
    assert Budgets(t) == Budgets(s) - {q.id};
    TotalRemove(Budgets(s), q.id);
    forall id | id in t.state.sequences ensures HoldingOk(t, id) {
      assert HoldingOk(s, id);
    }
  }

  /** Completing the first item moves the invariant on to the remaining items. */
  lemma CompleteItemKeeps(s: Sched, phase: Phase, items: seq<Item>, token: Token, saves: bool,
                          r: (Sched, Result<Option<Update>, SchedError>))
    requires Inv(s, phase, items) && items != [] && !s.state.open
    requires r == s.CompleteItem(phase, items[0], token, saves)
    ensures r.1.Ok? && (r.1.value.Some? <==> items[0].sample)
    ensures Inv(r.0, phase, items[1..]) && !r.0.state.open
    ensures r.0 == s.(state := r.0.state, prefixes := r.0.prefixes, sequences := r.0.sequences,
                      waiting := r.0.waiting, running := r.0.running)
    ensures r.0.state.shape == s.state.shape
  {
    hide Hybrid.Sound, Budget, Sched.CompleteItem, Cache.Valid, MemberOk, HoldingOk;
    CompleteItemShifts(s, phase, items, token, saves);
    var settled := Settle(s.sequences[items[0].id], items[0].sample, token, s.eos);
    assert ItemOk(s, phase, items, 0);
    ShiftedQueues(s, phase, items, settled.0, settled.1, r.0);
    ShiftedPending(s, phase, items, settled.0, settled.1, r.0);
    ShiftedResources(s, phase, settled.0, settled.1, r.0);
  }

  // ---------------------------------------------------------------- the whole batch

  /** How the queues change while a batch completes: n entries leave the front, and newcomers only join at the back. */
  ghost predicate QueuesAdvance(s: Sched, phase: Phase, n: nat, t: Sched) {
    && n <= |s.Queue(phase)|
    && s.Queue(phase)[n..] <= t.Queue(phase)
    && (phase == Prefill ==> s.running <= t.running)
    && (phase == Decode ==> s.waiting == t.waiting)
  }

  lemma AdvanceOne(s: Sched, phase: Phase, q: SeqData, place: Place, t: Sched)
    requires s.Queue(phase) != [] && Shifted(s, phase, q, place, t)
    requires place == ToWaiting ==> phase == Prefill
    ensures QueuesAdvance(s, phase, 1, t)
  {
  }

  lemma AdvanceMore(s: Sched, t: Sched, u: Sched, phase: Phase, n: nat)
    requires QueuesAdvance(s, phase, 1, t) && QueuesAdvance(t, phase, n, u)
    requires n + 1 <= |s.Queue(phase)|
    ensures QueuesAdvance(s, phase, n + 1, u)
  {
    var a, b, c := s.Queue(phase), t.Queue(phase), u.Queue(phase);
    assert a[1..] == b[..|a| - 1];
    assert a[n + 1..] == a[1..][n..];
    assert b[n..] == c[..|b| - n];
    forall i | 0 <= i < |a| - n - 1 ensures a[n + 1..][i] == c[i] {
      assert a[n + 1..][i] == a[1..][n + i] == b[n + i] == b[n..][i];
    }
  }

  ghost predicate OnlyWork(s: Sched, t: Sched) {
    t == s.(state := t.state, prefixes := t.prefixes, sequences := t.sequences,
            waiting := t.waiting, running := t.running)
  }

  lemma CountSamplesCons(items: seq<Item>)
    requires items != []
    ensures CountSamples(items) == (if items[0].sample then 1 else 0) + CountSamples(items[1..])
  {
  }

  ghost predicate AllDone(s: Sched, phase: Phase, n: nat, r: (Sched, Result<seq<Update>, SchedError>)) {
    && r.1.Ok? && Inv(r.0, phase, []) && !r.0.state.open
    && OnlyWork(s, r.0) && QueuesAdvance(s, phase, n, r.0) && r.0.state.shape == s.state.shape
  }

  lemma {:induction false} CompleteItemsKeeps(s: Sched, phase: Phase, items: seq<Item>, samples: seq<Token>,
                                              updates: seq<Update>, saves: set<nat>,
                                              r: (Sched, Result<seq<Update>, SchedError>))
    requires Inv(s, phase, items) && !s.state.open
    requires |samples| == CountSamples(items)
    requires r == s.CompleteItems(phase, items, samples, updates, saves)
    ensures AllDone(s, phase, |items|, r)
    decreases |items|
  {
    hide QueuesOk, PendingOk, ResourcesOk, Sched.CompleteItem, Cache.Valid;
    if items != [] {
      CountSamplesCons(items);
      var token := if items[0].sample then samples[0] else 0;
      var done := s.CompleteItem(phase, items[0], token, items[0].id in saves);
      CompleteItemKeeps(s, phase, items, token, items[0].id in saves, done);
      CompleteItemAdvances(s, phase, items, token, items[0].id in saves, done);
      var rest := if items[0].sample then samples[1..] else samples;
      var more := if done.1.value.Some? then updates + [done.1.value.value] else updates;
      CompleteItemsKeeps(done.0, phase, items[1..], rest, more, saves, r);
      AdvanceMore(s, done.0, r.0, phase, |items| - 1);
    }
  }

  lemma CompleteItemAdvances(s: Sched, phase: Phase, items: seq<Item>, token: Token, saves: bool,
                             r: (Sched, Result<Option<Update>, SchedError>))
    requires Inv(s, phase, items) && items != []
    requires r == s.CompleteItem(phase, items[0], token, saves)
    ensures QueuesAdvance(s, phase, 1, r.0) && |items| <= |s.Queue(phase)|
  {
    hide QueuesOk, ResourcesOk, Sched.CompleteItem, Cache.Valid;
    CompleteItemShifts(s, phase, items, token, saves);
    assert ItemOk(s, phase, items, |items| - 1) && ItemOk(s, phase, items, 0);
    var settled := Settle(s.sequences[items[0].id], items[0].sample, token, s.eos);
    AdvanceOne(s, phase, settled.0, settled.1, r.0);
  }

  lemma CommittedKeeps(s: Sched, phase: Phase, items: seq<Item>, t: Sched)
    requires Inv(s, phase, items)
    requires t == s.(state := t.state, transaction := false)
    requires t.state.pages == s.state.pages && t.state.shape == s.state.shape && |t.state.slots| == |s.state.slots|
    requires t.state.sequences.Keys == s.state.sequences.Keys
    requires forall id :: id in s.state.sequences ==>
               && t.state.sequences[id].reserved == s.state.sequences[id].reserved
               && t.state.sequences[id].committed <= s.state.sequences[id].reserved
    ensures Inv(t, phase, items)
  {
    hide Partition, Budget, Cache.Valid;
    assert forall id :: MemberOk(s, id) ==> MemberOk(t, id);
    assert forall i :: ItemOk(s, phase, items, i) ==> ItemOk(t, phase, items, i);
    BudgetsKept(s, t);
    forall id | id in t.state.sequences ensures HoldingOk(t, id) && t.state.Proportioned(id) {
      assert HoldingOk(s, id) && s.state.Proportioned(id);
    }
  }
}

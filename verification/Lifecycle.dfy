/** Admission, cancellation and removal keep the scheduler's invariant. */
module Lifecycle {
  import opened Wrappers
  import opened Sums
  import opened Sequences
  import opened Paging
  import opened PrefixCaching
  import opened Batches
  import opened HybridStates
  import opened Residence
  import opened Scheduling
  import opened Invariants
  import opened Completion

  // ---------------------------------------------------------------- promised pages

  lemma {:induction false} PromisedAlong(s: Sched, queue: seq<nat>, m: map<nat, nat>)
    requires forall id :: id in queue ==>
               id in s.sequences && id in m && m[id] == Budget(s.sequences[id], s.config.kvBlockSize)
    ensures s.Promised(queue) == Along(queue, m)
  {
    hide Budget;
    if queue != [] {
      assert queue[0] in queue;
      PromisedAlong(s, queue[1..], m);
    }
  }

  lemma {:induction false} AlongConcat(a: seq<nat>, b: seq<nat>, m: map<nat, nat>)
    requires forall id :: id in a || id in b ==> id in m
    ensures forall id :: id in a + b ==> id in m
    ensures Along(a + b, m) == Along(a, m) + Along(b, m)
  {
    if a == [] {
      assert a + b == b;
    } else {
      assert (a + b)[1..] == a[1..] + b && (a + b)[0] == a[0];
      assert a[0] in a;
      AlongConcat(a[1..], b, m);
    }
  }

  /** The sum the admission loop takes over both queues is the sum of all budgets. */
  lemma PromisedIsTotal(s: Sched)
    requires QueuesOk(s) && ResourcesOk(s)
    ensures s.Promised(s.waiting) + s.Promised(s.running) == Total(Budgets(s))
  {
    hide Hybrid.Sound, Budget, MemberOk;
    var m := Budgets(s);
    forall id | id in s.state.sequences ensures id in m {
      assert HoldingOk(s, id);
    }
    assert forall id :: id in s.waiting || id in s.running ==> id in s.state.sequences;
    PromisedAlong(s, s.waiting, m);
    PromisedAlong(s, s.running, m);
    AlongConcat(s.waiting, s.running, m);
    JoinNoDup(s.waiting, s.running);
    assert m.Keys == set id | id in s.waiting + s.running;
    AlongIsTotal(s.waiting + s.running, m);
  }

  // ---------------------------------------------------------------- the new member's state

  /** The state gained (or lost) one sequence; nothing of the others changed but where free pages are listed. */
  ghost predicate ApartFrom(h: Hybrid, g: Hybrid, id: nat) {
    && g.shape == h.shape && g.open == h.open && g.snapshots == h.snapshots
    && g.pages.size == h.pages.size && g.pages.count == h.pages.count && |g.slots| == |h.slots|
    && (forall i :: i != id ==> (i in g.sequences <==> i in h.sequences))
    && forall i :: i in h.sequences && i != id ==>
         i in g.sequences && g.sequences[i] == h.sequences[i] && g.pages.Table(i) == h.pages.Table(i)
  }

  lemma ApartTransitive(a: Hybrid, b: Hybrid, c: Hybrid, id: nat)
    requires ApartFrom(a, b, id) && ApartFrom(b, c, id)
    ensures ApartFrom(a, c, id)
  {
  }

  /** The reserved and committed tokens of one member. */
  ghost predicate Counts(h: Hybrid, id: nat, reserved: nat, committed: nat) {
    id in h.sequences && h.sequences[id].reserved == reserved && h.sequences[id].committed == committed
  }

  /** A reservation for a member that had none: it starts empty, or the state is as before. */
  lemma FirstReserveApart(h: Hybrid, id: nat, tokens: nat, created: bool, r: (Hybrid, Result<(), StateError>))
    requires h.Sound() && id !in h.sequences && r == h.Reserve(id, tokens, created)
    ensures r.0.Sound() && r.0.slots == h.slots && ApartFrom(h, r.0, id)
    ensures if r.1.Ok? then Counts(r.0, id, tokens, 0) else r.0 == h
  {
    hide Hybrid.Sound, Hybrid.Reserve;
    ReserveKeepsSound(h, id, tokens, created);
    ReserveGrows(h, id, tokens, created);
    ReserveRaises(h, id, tokens, created);
  }

  lemma ReleaseApart(h: Hybrid, id: nat)
    requires h.Sound() && !h.open
    ensures ApartFrom(h, h.Release(id), id) && h.Release(id).Sound() && id !in h.Release(id).sequences
    ensures h.Release(id).slots == h.slots
  {
    hide Hybrid.Sound;
    ReleaseKeepsSound(h, id);
  }

  lemma MemberReserveApart(h: Hybrid, id: nat, tokens: nat, created: bool, r: (Hybrid, Result<(), StateError>))
    requires h.Sound() && Counts(h, id, 1, 0) && r == h.Reserve(id, tokens, created)
    ensures r.0.Sound() && ApartFrom(h, r.0, id)
    ensures if r.1.Ok? && 1 < tokens then Counts(r.0, id, tokens, 0) else r.0 == h
  {
    hide Hybrid.Sound, Hybrid.Reserve;
    ReserveKeepsSound(h, id, tokens, created);
    ReserveGrows(h, id, tokens, created);
    ReserveRaises(h, id, tokens, created);
  }

  /** A restore into an empty member commits exactly the checkpoint's tokens, or leaves the member to be released. */
  lemma RestoreApart(h: Hybrid, id: nat, saved: Saved<Payload>, restores: bool, r: (Hybrid, Result<(), StateError>))
    requires h.Sound() && Counts(h, id, 1, 0) && r == h.Restore(id, saved, restores)
    ensures r.0.Sound() && ApartFrom(h, r.0, id)
    ensures r.1.Ok? ==> 0 < saved.tokenCount && Counts(r.0, id, saved.tokenCount, saved.tokenCount)
  {
    hide Hybrid.Sound, Hybrid.Reserve, Hybrid.Restore, ApartFrom;
    RestoreKeepsSound(h, id, saved, restores);
    RestoreIs(h, id, saved, restores);
    RestoreNonempty(h, id, saved, restores);
    var grown := h.Reserve(id, saved.tokenCount, restores);
    MemberReserveApart(h, id, saved.tokenCount, restores, grown);
    ApartRefl(h, id);
    if r.1.Ok? {
      RestoredApart(h, grown.0, r.0, id, saved);
    }
  }

  lemma ApartRefl(h: Hybrid, id: nat)
    ensures ApartFrom(h, h, id)
  {
  }

  lemma RestoredApart(h: Hybrid, grown: Hybrid, g: Hybrid, id: nat, saved: Saved<Payload>)
    requires ApartFrom(h, grown, id) && Restored(grown, g, id, saved)
    ensures ApartFrom(h, g, id)
  {
  }

  lemma RestoreNonempty(h: Hybrid, id: nat, saved: Saved<Payload>, restores: bool)
    ensures h.Restore(id, saved, restores).1.Ok? ==> 0 < saved.tokenCount
  {
    hide Hybrid.Reserve;
  }

  /** What admission leaves when it succeeds: the sequence at the back of the queue, with its own small reservation. */
  ghost predicate Entered(s: Sched, q: SeqData, t: Sched) {
    && t == s.(state := t.state, prefixes := t.prefixes, sequences := s.sequences[q.id := q], waiting := s.waiting + [q.id])
    && t.prefixes.Valid()
    && ApartFrom(s.state, t.state, q.id) && t.state.Sound() && q.id in t.state.sequences
    && WaitingOk(q) && q.scheduled == 0
    && q.processed <= t.state.sequences[q.id].reserved <= Horizon(q)
    && t.state.sequences[q.id].committed == q.processed
  }

  /** What a failed admission leaves: other sequences untouched, possibly a different order in free list and cache. */
  ghost predicate Refused(s: Sched, id: nat, t: Sched) {
    && t == s.(state := t.state, prefixes := t.prefixes)
    && t.prefixes.Valid()
    && ApartFrom(s.state, t.state, id) && t.state.Sound() && id !in t.state.sequences
  }

  /** The value under which a sequence enters the queue. */
  function Resumed(q: SeqData, count: nat): SeqData {
    q.(processed := count, cached := count)
  }

  /** The same request, possibly resuming after a cached prefix. */
  ghost predicate SameRequest(q: SeqData, p: SeqData) {
    p == q.(processed := p.processed, cached := p.cached)
  }

  /** How an admission with room ends: entered, resuming at the checkpoint found or at the start; or refused. */
  ghost predicate Admitting(s: Sched, q: SeqData, r: (Sched, Result<Admission, SchedError>)) {
    if r.1.Ok? then
      && r.1 == Ok(Admitted)
      && q.id in r.0.sequences && SameRequest(q, r.0.sequences[q.id])
      && Entered(s, r.0.sequences[q.id], r.0)
    else r.1.error.BlockManagerFailure? && Refused(s, q.id, r.0)
  }

  /** The paths of an admission after the first reservation. */
  ghost function Hit(s: Sched, q: SeqData, env: AdmitEnv, h: Hybrid, cache: Cache<Payload>, saved: Saved<Payload>)
    : (Sched, Result<Admission, SchedError>)
  {
    var t := s.(prefixes := cache);
    var restored := h.Restore(q.id, saved, env.restored);
    if restored.1.Ok? then (t.Enqueue(Resumed(q, saved.tokenCount), restored.0), Ok(Admitted))
    else Retry(t, q, env, restored.0)
  }

  ghost function Retry(s: Sched, q: SeqData, env: AdmitEnv, h: Hybrid): (Sched, Result<Admission, SchedError>) {
    var again := h.Release(q.id).Reserve(q.id, 1, env.recreated);
    if again.1.Err? then (s.(state := again.0.Release(q.id)), Err(BlockManagerFailure(again.1.error)))
    else (s.Enqueue(q, again.0), Ok(Admitted))
  }

  ghost predicate CanEnter(s: Sched, q: SeqData) {
    s.state.Sound() && !s.state.open && s.prefixes.Valid() && Pristine(q) && q.id !in s.state.sequences
  }

  lemma AdmitPaths(s: Sched, q: SeqData, env: AdmitEnv)
    requires Pristine(q) && s.prefixes.Valid()
    ensures var first := s.state.Reserve(q.id, 1, env.created);
            var found := s.prefixes.Find(q.Prompt());
            s.Admit(q, env) ==
              if first.1.Err? then (s.(state := first.0.Release(q.id)), Err(BlockManagerFailure(first.1.error)))
              else if found.1 == None then (s.(prefixes := found.0).Enqueue(q, first.0), Ok(Admitted))
              else Hit(s, q, env, first.0, found.0, found.1.value)
  {
    hide Hybrid.Reserve, Hybrid.Release, Cache.Find, Sched.Enqueue;
    var first := s.state.Reserve(q.id, 1, env.created);
    var found := s.prefixes.Find(q.Prompt());
    if first.1.Ok? && found.1.Some? && first.0.Restore(q.id, found.1.value, env.restored).1.Ok? {
      RestoreNonempty(first.0, q.id, found.1.value, env.restored);
      RestoredPrefix(s.prefixes, q);
      hide Hybrid.Restore;
      assert q.RestorePrefix(found.1.value.tokenCount) == Ok(Resumed(q, found.1.value.tokenCount));
    } else {
      hide Hybrid.Restore;
    }
  }

  /** The restored sequence resumes strictly inside its prompt. */
  lemma RestoredPrefix(c: Cache<Payload>, q: SeqData)
    requires c.Valid() && Pristine(q) && c.Find(q.Prompt()).1.Some?
    ensures c.Find(q.Prompt()).1.value.tokenCount < q.promptCount
  {
    FindAnswers(c, q.Prompt());
  }

  lemma EnqueueEnters(s: Sched, q: SeqData, p: SeqData, h: Hybrid, cache: Cache<Payload>, reserved: nat)
    requires CanEnter(s, q) && cache.Valid() && SameRequest(q, p)
    requires p.processed < q.promptCount && p.processed <= reserved <= q.promptCount
    requires ApartFrom(s.state, h, q.id) && h.Sound() && Counts(h, q.id, reserved, p.processed)
    ensures Admitting(s, q, (s.(prefixes := cache).Enqueue(p, h), Ok(Admitted)))
  {
    hide Hybrid.Sound, Cache.Valid, ApartFrom;
  }

  lemma RetryEnds(s: Sched, q: SeqData, env: AdmitEnv, h: Hybrid, cache: Cache<Payload>)
    requires CanEnter(s, q) && cache.Valid()
    requires h.Sound() && !h.open && ApartFrom(s.state, h, q.id)
    ensures Admitting(s, q, Retry(s.(prefixes := cache), q, env, h))
  {
    hide Hybrid.Sound, Hybrid.Reserve, Hybrid.Release, Cache.Valid, ApartFrom;
    var released := h.Release(q.id);
    ReleaseApart(h, q.id);
    ApartTransitive(s.state, h, released, q.id);
    StillClosed(h, released, q.id);
    var again := released.Reserve(q.id, 1, env.recreated);
    FirstReserveApart(released, q.id, 1, env.recreated, again);
    ApartTransitive(s.state, released, again.0, q.id);
    if again.1.Err? {
      ReleaseApart(again.0, q.id);
      ApartTransitive(s.state, again.0, again.0.Release(q.id), q.id);
    } else {
      EnqueueEnters(s, q, q, again.0, cache, 1);
    }
  }

  lemma StillClosed(h: Hybrid, g: Hybrid, id: nat)
    requires ApartFrom(h, g, id)
    ensures g.open == h.open
  {
  }

  lemma AdmitEnds(s: Sched, q: SeqData, env: AdmitEnv)
    requires CanEnter(s, q)
    ensures Admitting(s, q, s.Admit(q, env))
  {
    hide Hybrid.Sound, Hybrid.Reserve, Hybrid.Release, Hybrid.Restore, Cache.Find, Cache.Valid, ApartFrom, Admitting,
      Sched.Admit, Answers;
    AdmitPaths(s, q, env);
    var first := s.state.Reserve(q.id, 1, env.created);
    FirstReserveApart(s.state, q.id, 1, env.created, first);
    FindAnswers(s.prefixes, q.Prompt());
    var found := s.prefixes.Find(q.Prompt());
    if first.1.Err? {
      RefusedAtOnce(s, q, first.1.error);
    } else if found.1 == None {
      EnqueueEnters(s, q, q, first.0, found.0, 1);
    } else {
      StillClosed(s.state, first.0, q.id);
      var restored := first.0.Restore(q.id, found.1.value, env.restored);
      RestoreApart(first.0, q.id, found.1.value, env.restored, restored);
      RestoredPrefix(s.prefixes, q);
      ApartTransitive(s.state, first.0, restored.0, q.id);
      StillClosed(s.state, restored.0, q.id);
      if restored.1.Ok? {
        var count := found.1.value.tokenCount;
        EnqueueEnters(s, q, Resumed(q, count), restored.0, found.0, count);
      } else {
        RetryEnds(s, q, env, restored.0, found.0);
      }
    }
  }

  lemma RefusedAtOnce(s: Sched, q: SeqData, e: StateError)
    requires CanEnter(s, q)
    ensures Admitting(s, q, (s.(state := s.state.Release(q.id)), Err(BlockManagerFailure(e))))
  {
    ReleaseApart(s.state, q.id);
  }

  // ---------------------------------------------------------------- admission keeps the invariant

  /** Only members hold pages. */
  lemma HoldersAreMembers(s: Sched)
    requires ResourcesOk(s)
    ensures forall id :: id in s.state.sequences ==> id in s.sequences
  {
    hide Hybrid.Sound;
    forall id | id in s.state.sequences ensures id in s.sequences {
      assert HoldingOk(s, id);
    }
  }

  /** A live sequence's account does not depend on where the free pages are listed. */
  lemma EnteredHolding(s: Sched, q: SeqData, t: Sched, id: nat)
    requires Entered(s, q, t) && (id != q.id ==> HoldingOk(s, id))
    requires t.state.pages.size == t.config.kvBlockSize
    ensures HoldingOk(t, id)
  {
    hide Partition;
    if id == q.id {
      assert t.state.Proportioned(id);
      BlocksForMonotone(t.state.sequences[id].reserved, Horizon(q), t.config.kvBlockSize);
    }
  }

  lemma EnteredBudgets(s: Sched, q: SeqData, t: Sched)
    requires Entered(s, q, t) && q.id !in s.sequences
    requires forall id :: id in s.state.sequences ==> HoldingOk(s, id)
    ensures Total(Budgets(t)) == Total(Budgets(s)) + Budget(q, s.config.kvBlockSize)
  {
    hide Hybrid.Sound, Budget, Cache.Valid;
    forall id | id in s.state.sequences ensures id in s.sequences && id != q.id {
      assert HoldingOk(s, id);
    }
    assert t.state.sequences.Keys == s.state.sequences.Keys + {q.id};
    assert Budgets(t) == Budgets(s)[q.id := Budget(q, s.config.kvBlockSize)];
    TotalUpdate(Budgets(s), q.id, Budget(q, s.config.kvBlockSize));
  }

  lemma EnteredResources(s: Sched, q: SeqData, t: Sched)
    requires ResourcesOk(s) && Entered(s, q, t) && q.id !in s.sequences
    requires Total(Budgets(s)) + Budget(q, s.config.kvBlockSize) <= s.config.kvBlockCount
    ensures ResourcesOk(t)
  {
    hide Hybrid.Sound, Budget, Cache.Valid, WaitingOk;
    HoldersAreMembers(s);
    EnteredBudgets(s, q, t);
    forall id | id in t.state.sequences ensures HoldingOk(t, id) {
      if id != q.id {
        assert HoldingOk(s, id);
      }
      EnteredHolding(s, q, t, id);
    }
  }

  lemma EnteredQueues(s: Sched, q: SeqData, t: Sched)
    requires QueuesOk(s) && PendingOk(s, Prefill, []) && Entered(s, q, t) && q.id !in s.sequences
    requires |s.waiting| + |s.running| < s.config.maxSequences
    ensures QueuesOk(t) && PendingOk(t, Prefill, [])
  {
    hide ApartFrom, Cache.Valid, Hybrid.Sound;
    AppendNoDup(s.waiting, q.id);
    forall id | id in t.sequences ensures MemberOk(t, id) {
      if id != q.id {
        assert MemberOk(s, id);
      } else {
        assert q.id !in s.running;
      }
    }
  }

  lemma EnteredKeeps(s: Sched, q: SeqData, t: Sched)
    requires SchedInv(s) && s.active == None && Entered(s, q, t) && q.id !in s.sequences
    requires |s.waiting| + |s.running| < s.config.maxSequences
    requires Total(Budgets(s)) + Budget(q, s.config.kvBlockSize) <= s.config.kvBlockCount
    ensures SchedInv(t)
  {
    EnteredQueues(s, q, t);
    EnteredResources(s, q, t);
    hide QueuesOk, PendingOk, ResourcesOk;
  }

  lemma RefusedKeeps(s: Sched, id: nat, t: Sched)
    requires SchedInv(s) && s.active == None && Refused(s, id, t) && id !in s.sequences
    ensures SchedInv(t)
  {
    hide Hybrid.Sound, Cache.Valid, Budget;
    HoldersAreMembers(s);
    assert forall i :: MemberOk(s, i) ==> MemberOk(t, i);
    assert t.state.sequences.Keys == s.state.sequences.Keys;
    BudgetsKept(s, t);
    forall i | i in t.state.sequences ensures HoldingOk(t, i) {
      assert HoldingOk(s, i);
    }
  }

  /** Room for one more: a place among the live sequences, and pages that nobody was promised. */
  ghost predicate HasRoom(s: Sched, q: SeqData) {
    && |s.waiting| + |s.running| < s.config.maxSequences
    && Total(Budgets(s)) + Budget(q, s.config.kvBlockSize) <= s.config.kvBlockCount
  }

  /** How try_add ends, in order of its tests. */
  ghost predicate TryAddOutcome(s: Sched, q: SeqData, r: (Sched, Result<Admission, SchedError>)) {
    if s.active.Some? then r == (s, Err(BatchInFlight))
    else if q.id in s.sequences then r == (s, Err(DuplicateId))
    else if !Pristine(q) then r == (s, Err(InvalidState))
    else if !s.FitsCache(q) then r == (s, Ok(TooLarge))
    else if !HasRoom(s, q) then r == (s, Ok(Deferred))
    else Admitting(s, q, r)
  }

  lemma SameBudget(q: SeqData, p: SeqData, size: Positive)
    requires SameRequest(q, p)
    ensures Budget(p, size) == Budget(q, size)
  {
  }

  /** Admission keeps the invariant; it defers exactly when there is no room, and otherwise fails only with the backend. */
  lemma TryAddKeeps(s: Sched, q: SeqData, env: AdmitEnv)
    requires SchedInv(s) && q.Valid()
    ensures SchedInv(s.TryAdd(q, env).0)
    ensures TryAddOutcome(s, q, s.TryAdd(q, env))
  {
    hide Sched.Admit, Entered, Refused, Hybrid.Sound, Budget;
    var r := s.TryAdd(q, env);
    if s.active == None && q.id !in s.sequences && Pristine(q) && s.FitsCache(q) {
      PromisedIsTotal(s);
      if HasRoom(s, q) {
        HoldersAreMembers(s);
        AdmitEnds(s, q, env);
        if r.1.Ok? {
          SameBudget(q, r.0.sequences[q.id], s.config.kvBlockSize);
          EnteredKeeps(s, r.0.sequences[q.id], r.0);
        } else {
          RefusedKeeps(s, q.id, r.0);
        }
      }
    }
  }

  lemma {:induction false} NoBudgets(s: Sched)
    requires ResourcesOk(s) && s.waiting == [] && s.running == []
    ensures Total(Budgets(s)) == 0
  {
    hide Hybrid.Sound;
    assert Budgets(s) == map[];
  }

  /** Whatever fits the cache at all is never deferred by an idle scheduler, so deferral cannot last forever. */
  lemma IdleNeverDefers(s: Sched, q: SeqData, env: AdmitEnv)
    requires SchedInv(s) && q.Valid() && s.waiting == [] && s.running == []
    ensures s.TryAdd(q, env).1 != Ok(Deferred)
  {
    hide Sched.Admit, Hybrid.Sound, Budget;
    TryAddKeeps(s, q, env);
    if s.active == None {
      NoBudgets(s);
    }
  }

  // ---------------------------------------------------------------- cancellation and removal

  lemma WithoutIs(queue: seq<nat>, id: nat)
    requires NoDup(queue)
    ensures NoDup(Without(queue, id))
    ensures forall x :: x in Without(queue, id) <==> x in queue && x != id
    ensures |Without(queue, id)| == if id in queue then |queue| - 1 else |queue|
  {
    var i := IndexOf(queue, id);
    if i < |queue| {
      var rest := queue[..i] + queue[i + 1..];
      assert queue == queue[..i] + [id] + queue[i + 1..];
      assert forall j :: 0 <= j < |rest| ==> rest[j] == queue[if j < i then j else j + 1];
    }
  }

  /** Erasing from the unvisited part of the running queue erases from it and shortens it; erasing behind it does neither. */
  lemma {:induction false} WithoutPrefix(queue: seq<nat>, id: nat, n: nat)
    requires NoDup(queue) && n <= |queue|
    ensures IndexOf(queue, id) < n ==> Without(queue, id)[..n - 1] == Without(queue[..n], id)
    ensures n <= IndexOf(queue, id) < |queue| ==> Without(queue, id)[..n] == queue[..n]
    ensures IndexOf(queue, id) < n <==> id in queue[..n]
  {
    var i := IndexOf(queue, id);
    if i < n {
      assert queue[..n][i] == id;
      IndexOfUnique(queue[..n], id, i);
    }
  }

  lemma {:induction false} IndexOfUnique(queue: seq<nat>, id: nat, i: nat)
    requires NoDup(queue) && i < |queue| && queue[i] == id
    ensures IndexOf(queue, id) == i
  {
  }

  /** The sequence as cancellation leaves it. */
  function Stopped(q: SeqData): SeqData {
    q.(status := Finished, reason := Cancelled)
  }

  /** A cancelled member left its queue, its pages went back, and an open round lost one unvisited member at most. */
  ghost predicate CancelledIs(s: Sched, id: nat, t: Sched) {
    && id in s.sequences
    && t == s.(turn := if id in s.running then s.TurnWithout(id) else s.turn,
               state := s.state.Release(id),
               sequences := s.sequences[id := Stopped(s.sequences[id])],
               waiting := Without(s.waiting, id),
               running := Without(s.running, id))
  }

  ghost predicate CancelOutcome(s: Sched, id: nat, r: (Sched, Result<(), SchedError>)) {
    if s.active.Some? then r == (s, Err(BatchInFlight))
    else if id !in s.sequences then r == (s, Err(UnknownId))
    else if s.sequences[id].status == Finished then r == (s, Ok(()))
    else r.1 == Ok(()) && CancelledIs(s, id, r.0)
  }

  lemma CancelIs(s: Sched, id: nat)
    requires SchedInv(s)
    ensures CancelOutcome(s, id, s.Cancel(id))
  {
    hide Hybrid.Release, ResourcesOk, Cache.Valid, Sched.TurnWithout;
    if s.active == None && id in s.sequences {
      assert MemberOk(s, id);
      assert id in s.waiting ==> id !in s.running;
    }
  }

  lemma CancelledQueues(s: Sched, id: nat, t: Sched)
    requires QueuesOk(s) && PendingOk(s, Prefill, []) && CancelledIs(s, id, t)
    ensures QueuesOk(t) && PendingOk(t, Prefill, [])
  {
    hide Hybrid.Release, Without, Sched.TurnWithout;
    WithoutIs(s.waiting, id);
    WithoutIs(s.running, id);
    forall i | i in t.sequences ensures MemberOk(t, i) {
      assert MemberOk(s, i);
    }
  }

  lemma CancelledLive(s: Sched, id: nat, t: Sched)
    requires QueuesOk(s) && CancelledIs(s, id, t)
    requires id in s.waiting || id in s.running
    ensures LiveAfter(s, id, true, t)
  {
    hide Hybrid.Release, Without, Sched.TurnWithout, MemberOk;
    WithoutIs(s.waiting, id);
    WithoutIs(s.running, id);
  }

  lemma CancelledTurn(s: Sched, id: nat, t: Sched)
    requires QueuesOk(s) && TurnOk(s) && CancelledIs(s, id, t)
    ensures TurnOk(t)
  {
    hide Hybrid.Release, MemberOk;
    WithoutIs(s.running, id);
  }

  lemma CancelKeeps(s: Sched, id: nat)
    requires SchedInv(s)
    ensures SchedInv(s.Cancel(id).0)
    ensures CancelOutcome(s, id, s.Cancel(id))
  {
    CancelIs(s, id);
    var t := s.Cancel(id).0;
    if t != s {
      CancelledKeeps(s, id, t);
    }
  }

  lemma CancelledKeeps(s: Sched, id: nat, t: Sched)
    requires SchedInv(s) && s.active == None && CancelledIs(s, id, t)
    requires s.sequences[id].status != Finished
    ensures SchedInv(t)
  {
    hide ResourcesOk, PendingOk, Without, Sched.TurnWithout;
    CancelledQueues(s, id, t);
    CancelledTurn(s, id, t);
    assert MemberOk(s, id);
    CancelledLive(s, id, t);
    ReleasedResources(s, Stopped(s.sequences[id]), t);
  }

  lemma RemoveKeeps(s: Sched, id: nat)
    requires SchedInv(s)
    ensures SchedInv(s.Remove(id).0)
    ensures var r := s.Remove(id);
            if s.active.Some? then r == (s, Err(BatchInFlight))
            else if id !in s.sequences then r == (s, Err(UnknownId))
            else if s.sequences[id].status != Finished then r == (s, Err(InvalidState))
            else r == (s.(sequences := s.sequences - {id}), Ok(())) && id !in s.waiting && id !in s.running
  {
    hide Hybrid.Sound, Cache.Valid, Budget;
    var t := s.Remove(id).0;
    if t != s {
      RemovedQueues(s, id, t);
      RemovedResources(s, id, t);
    }
  }

  lemma RemovedQueues(s: Sched, id: nat, t: Sched)
    requires QueuesOk(s) && PendingOk(s, Prefill, [])
    requires id in s.sequences && s.sequences[id].status == Finished && t == s.(sequences := s.sequences - {id})
    ensures QueuesOk(t) && PendingOk(t, Prefill, []) && id !in s.waiting && id !in s.running
  {
    assert MemberOk(s, id);
    forall i | i in t.sequences ensures MemberOk(t, i) {
      assert MemberOk(s, i);
    }
  }

  lemma RemovedResources(s: Sched, id: nat, t: Sched)
    requires ResourcesOk(s) && id !in s.waiting && id !in s.running && t == s.(sequences := s.sequences - {id})
    ensures ResourcesOk(t)
  {
    hide Hybrid.Sound, Budget;
    BudgetsKept(s, t);
    forall i | i in t.state.sequences ensures HoldingOk(t, i) {
      assert HoldingOk(s, i);
    }
  }
}

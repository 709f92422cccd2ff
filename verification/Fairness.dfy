/** Fairness over whole runs: bounded service in first-come order, and decode rounds that visit every member once. */
module Fairness {
  import opened Wrappers
  import opened Sums
  import opened Sequences
  import opened Paging
  import opened PrefixCaching
  import opened Kernels
  import opened Batches
  import opened HybridStates
  import opened Residence
  import opened Scheduling
  import opened Invariants
  import opened Selection
  import opened Completion
  import opened Protocol
  import opened Lifecycle
  import opened Generation
  import opened Engine
  import opened Steps
  import opened Runs

  // ---------------------------------------------------------------- one completed batch

  /** What a completed batch did to the queues and to the turn. */
  ghost predicate Completes(s: Sched, b: Batch, t: Sched) {
    && b.items != [] && b.phase == s.Opening().PhaseNow()
    && |b.items| <= |s.Queue(b.phase)|
    && (forall i :: 0 <= i < |b.items| ==> b.items[i].id == s.Queue(b.phase)[i])
    && QueuesAdvance(s, b.phase, |b.items|, t)
    && (if b.phase == Prefill then t.turn == if t.running != [] then DecodeRound(|t.running|) else PrefillTurn
        else
          && s.Opening().turn.DecodeRound? && |b.items| <= s.Opening().turn.remaining
          && t.turn == if s.Opening().turn.remaining > |b.items|
                       then DecodeRound(s.Opening().turn.remaining - |b.items|) else PrefillTurn)
  }

  lemma ItemsLead(s: Sched, b: Batch)
    requires Inv(s, b.phase, b.items)
    ensures |b.items| <= |s.Queue(b.phase)|
    ensures forall i :: 0 <= i < |b.items| ==> b.items[i].id == s.Queue(b.phase)[i]
  {
    hide QueuesOk, ResourcesOk, Cache.Valid;
    forall i | 0 <= i < |b.items| ensures i < |s.Queue(b.phase)| && b.items[i].id == s.Queue(b.phase)[i] {
      assert ItemOk(s, b.phase, b.items, i);
    }
    if b.items != [] {
      assert ItemOk(s, b.phase, b.items, |b.items| - 1);
    }
  }

  lemma StepCompletes(k: Kernel, s: Sched, env: StepEnv)
    requires EngineInv(k, s) && Step(k, s, env).1.Ok?
    ensures s.Schedule().1.Ok? && Completes(s, s.Schedule().1.value, Step(k, s, env).0)
  {
    hide Inv, Resting, Unharmed, Grew, Sched.Schedule, RunBatch, Wanted, Sched.Complete, QueuesAdvance, PositionsFit;
    ScheduleKeeps(s);
    ScheduledRests(k, s);
    var t, b := s.Schedule().0, s.Schedule().1.value;
    var r := Step(k, s, env);
    RunBatchRan(k, t, b, env);
    var u, samples, saves :| r == Completed(u, b, samples, saves) && Passed(k, t, b, u, samples);
    CompleteKeeps(u, b.id, samples, saves);
    ActiveNonempty(t, b);
    ItemsLead(t, b);
    SameQueuesAdvance(u, s, b.phase, |b.items|, r.0);
  }

  lemma SameQueuesAdvance(u: Sched, s: Sched, phase: Phase, n: nat, t: Sched)
    requires QueuesAdvance(u, phase, n, t) && u.waiting == s.waiting && u.running == s.running
    ensures QueuesAdvance(s, phase, n, t)
  {
  }

  // ---------------------------------------------------------------- bounded service

  /** Batches that may complete before the sequence is served: the rounds ahead of it, and the open one. */
  function Rank(s: Sched, id: nat): nat {
    IndexOf(s.waiting, id) * s.config.maxSequences + (if s.turn.DecodeRound? then s.turn.remaining else 0)
  }

  /** The sequence still waits, and nobody stands before it who did not already. */
  ghost predicate StillWaits(s: Sched, t: Sched, id: nat) {
    && id in t.waiting && t.config == s.config
    && IndexOf(t.waiting, id) <= IndexOf(s.waiting, id)
    && Before(t.waiting, IndexOf(t.waiting, id), s.waiting[..IndexOf(s.waiting, id)])
  }

  /** The first n of a queue are all among the given ones. */
  ghost predicate Before(queue: seq<nat>, n: nat, others: seq<nat>) {
    n <= |queue| && forall j :: 0 <= j < n ==> queue[j] in others
  }

  lemma {:induction false} IndexInPrefix(a: seq<nat>, b: seq<nat>, id: nat)
    requires a <= b && id in a
    ensures IndexOf(b, id) == IndexOf(a, id)
  {
    if a[0] != id {
      IndexInPrefix(a[1..], b[1..], id);
    }
  }

  lemma {:induction false} IndexAfterDrop(a: seq<nat>, n: nat, id: nat)
    requires n <= IndexOf(a, id) < |a|
    ensures IndexOf(a[n..], id) == IndexOf(a, id) - n && id in a[n..]
  {
    if n > 0 {
      IndexAfterDrop(a[1..], n - 1, id);
      assert a[1..][n - 1..] == a[n..];
    } else {
      assert a[0..] == a;
    }
  }

  lemma RankBound(s: Sched, id: nat)
    requires SchedInv(s) && s.active == None && id in s.waiting
    ensures Rank(s, id) < (IndexOf(s.waiting, id) + 1) * s.config.maxSequences
    ensures |s.running| < s.config.maxSequences
  {
    hide ResourcesOk, PendingOk, MemberOk;
    assert |s.waiting| > 0;
    assert (IndexOf(s.waiting, id) + 1) * s.config.maxSequences
        == IndexOf(s.waiting, id) * s.config.maxSequences + s.config.maxSequences;
  }

  lemma LeadersListed(queue: seq<nat>, items: seq<Item>, id: nat)
    requires |items| <= |queue| && forall i :: 0 <= i < |items| ==> items[i].id == queue[i]
    requires id in queue
    ensures IndexOf(queue, id) < |items| ==> Listed(items, id)
  {
    var p := IndexOf(queue, id);
    if p < |items| {
      assert items[p].id == id;
    }
  }

  /** A prefill batch that passes the sequence by brings it forward. */
  lemma PassedBy(s: Sched, b: Batch, t: Sched, id: nat)
    requires Completes(s, b, t) && b.phase == Prefill && id in s.waiting && NoDup(s.waiting)
    requires !Listed(b.items, id) && t.config == s.config
    ensures StillWaits(s, t, id) && IndexOf(t.waiting, id) == IndexOf(s.waiting, id) - |b.items|
  {
    var n, p := |b.items|, IndexOf(s.waiting, id);
    LeadersListed(s.waiting, b.items, id);
    IndexAfterDrop(s.waiting, n, id);
    IndexInPrefix(s.waiting[n..], t.waiting, id);
    forall j | 0 <= j < p - n ensures t.waiting[j] in s.waiting[..p] {
      assert t.waiting[j] == s.waiting[n..][j] == s.waiting[..p][n + j];
    }
  }

  lemma MulStep(p: nat, n: nat, m: nat)
    requires 0 < n <= p
    ensures (p - n) * m + m <= p * m
  {
    MulStrict(p - n, p, m);
  }

  /** The step serves the sequence: it completes a prefill batch in which the sequence takes part. */
  ghost predicate Serves(k: Kernel, s: Sched, op: Op, id: nat) {
    && op.StepOp? && Step(k, s, op.env).1.Ok? && s.Schedule().1.Ok?
    && s.Schedule().1.value.phase == Prefill && Listed(s.Schedule().1.value.items, id)
  }

  lemma CompletedRank(k: Kernel, s: Sched, env: StepEnv, id: nat)
    requires EngineInv(k, s) && id in s.waiting && Step(k, s, env).1.Ok? && !Serves(k, s, StepOp(env), id)
    ensures var t := Step(k, s, env).0; StillWaits(s, t, id) && Rank(t, id) < Rank(s, id)
  {
    hide Inv, Resting, Step, Sched.Schedule, Follows;
    StepCompletes(k, s, env);
    StepWorks(k, s, env);
    StepKeeps(k, s, env);
    var t, b := Step(k, s, env).0, s.Schedule().1.value;
    WaitingNoDup(s);
    if b.phase == Prefill {
      PassedBy(s, b, t, id);
      RankBound(t, id);
      MulStep(IndexOf(s.waiting, id), |b.items|, s.config.maxSequences);
    }
  }

  lemma WaitingNoDup(s: Sched)
    requires SchedInv(s) && s.active == None
    ensures NoDup(s.waiting) && NoDup(s.running) && Disjoint(s.waiting, s.running)
  {
    hide ResourcesOk, PendingOk, MemberOk;
  }

  lemma {:induction false} IndexInAppend(a: seq<nat>, b: seq<nat>, id: nat)
    requires id in a
    ensures IndexOf(a + b, id) == IndexOf(a, id) && Before(a + b, IndexOf(a, id), a[..IndexOf(a, id)])
  {
    IndexInPrefix(a, a + b, id);
    forall j | 0 <= j < IndexOf(a, id) ensures (a + b)[j] in a[..IndexOf(a, id)] {
      assert (a + b)[j] == a[..IndexOf(a, id)][j];
    }
  }

  lemma WithoutIndex(queue: seq<nat>, other: nat, id: nat)
    requires NoDup(queue) && id in queue && other != id
    ensures id in Without(queue, other) && IndexOf(Without(queue, other), id) <= IndexOf(queue, id)
    ensures Before(Without(queue, other), IndexOf(Without(queue, other), id), queue[..IndexOf(queue, id)])
  {
    var i, p := IndexOf(queue, other), IndexOf(queue, id);
    var w := Without(queue, other);
    WithoutIs(queue, other);
    if i < |queue| {
      assert forall j :: 0 <= j < |w| ==> w[j] == queue[if j < i then j else j + 1];
      var at := if p < i then p else p - 1;
      assert w[at] == id;
      IndexOfUnique(w, id, at);
      forall j | 0 <= j < at ensures w[j] in queue[..p] {
        assert queue[..p][if j < i then j else j + 1] == w[j];
      }
    }
  }

  lemma AddRank(s: Sched, q: SeqData, env: AdmitEnv, id: nat)
    requires SchedInv(s) && q.Valid() && id in s.waiting
    ensures var t := s.TryAdd(q, env).0; StillWaits(s, t, id) && Rank(t, id) == Rank(s, id)
  {
    hide StillWaits, Rank;
    AddJoinsBack(s, q, env);
    AppendedRank(s, s.TryAdd(q, env).0, q.id, id);
    WaitsRefl(s, id);
  }

  /** Newcomers join at the back. */
  lemma AddJoinsBack(s: Sched, q: SeqData, env: AdmitEnv)
    requires SchedInv(s) && q.Valid()
    ensures var t := s.TryAdd(q, env).0;
            t.turn == s.turn && t.config == s.config && t.running == s.running
            && (t.waiting == s.waiting || t.waiting == s.waiting + [q.id])
  {
    hide SchedInv, Sched.TryAdd, Hybrid.Sound, Cache.Valid, HasRoom, Sched.FitsCache, Pristine, ApartFrom;
    TryAddKeeps(s, q, env);
  }

  lemma AppendedRank(s: Sched, t: Sched, newcomer: nat, id: nat)
    requires t.turn == s.turn && t.config == s.config && id in s.waiting
    requires t.waiting == s.waiting || t.waiting == s.waiting + [newcomer]
    ensures StillWaits(s, t, id) && Rank(t, id) == Rank(s, id)
  {
    IndexInAppend(s.waiting, [newcomer], id);
  }

  lemma CancelRank(s: Sched, other: nat, id: nat)
    requires SchedInv(s) && s.active == None && id in s.waiting && other != id
    ensures var t := s.Cancel(other).0; StillWaits(s, t, id) && Rank(t, id) <= Rank(s, id)
  {
    hide Inv, Sched.Cancel, Without;
    CancelKeeps(s, other);
    WaitingNoDup(s);
    WithoutIndex(s.waiting, other, id);
    var p, q := IndexOf(Without(s.waiting, other), id), IndexOf(s.waiting, id);
    if p < q {
      MulStrict(p, q, s.config.maxSequences);
    }
  }

  lemma FailedRank(k: Kernel, s: Sched, env: StepEnv, id: nat)
    requires EngineInv(k, s) && id in s.waiting && Step(k, s, env).1.Err?
    ensures var t := Step(k, s, env).0; StillWaits(s, t, id) && Rank(t, id) == Rank(s, id)
  {
    hide Inv, Resting, Step, Unharmed;
    StepKeeps(k, s, env);
  }

  /** 1 for a completed batch, 0 for anything else. */
  ghost function Gained(k: Kernel, s: Sched, op: Op): nat {
    if op.StepOp? && Step(k, s, op.env).1.Ok? then 1 else 0
  }

  lemma DoRank(k: Kernel, s: Sched, op: Op, id: nat)
    requires EngineInv(k, s) && id in s.waiting && op != CancelOp(id) && !Serves(k, s, op, id)
    ensures var t := Do(k, s, op); StillWaits(s, t, id) && Rank(t, id) + Gained(k, s, op) <= Rank(s, id)
  {
    hide EngineInv, Step, Sched.TryAdd, Sched.Cancel, Sched.Remove, StillWaits, Serves, Rank;
    match op {
      case AddOp(q, env) =>
        if q.Valid() {
          EngineScheduled(k, s);
          AddRank(s, q, env, id);
        } else {
          WaitsRefl(s, id);
        }
      case StepOp(env) =>
        if Step(k, s, env).1.Ok? {
          CompletedRank(k, s, env, id);
        } else {
          FailedRank(k, s, env, id);
        }
      case CancelOp(other) =>
        EngineScheduled(k, s);
        CancelRank(s, other, id);
      case RemoveOp(other) =>
        EngineScheduled(k, s);
        RemoveKeeps(s, other);
        RemoveRank(s, other, id);
    }
  }

  lemma EngineScheduled(k: Kernel, s: Sched)
    requires EngineInv(k, s)
    ensures SchedInv(s) && s.active == None
  {
  }

  lemma WaitsRefl(s: Sched, id: nat)
    requires id in s.waiting
    ensures StillWaits(s, s, id)
  {
  }

  lemma RemoveRank(s: Sched, other: nat, id: nat)
    requires id in s.waiting
    ensures var t := s.Remove(other).0; StillWaits(s, t, id) && Rank(t, id) == Rank(s, id)
  {
  }

  ghost predicate ServedDuring(k: Kernel, s: Sched, ops: seq<Op>, id: nat)
    decreases |ops|
  {
    ops != [] && (Serves(k, s, ops[0], id) || ServedDuring(k, Do(k, s, ops[0]), ops[1..], id))
  }

  ghost function BatchesDuring(k: Kernel, s: Sched, ops: seq<Op>): nat
    decreases |ops|
  {
    if ops == [] then 0 else Gained(k, s, ops[0]) + BatchesDuring(k, Do(k, s, ops[0]), ops[1..])
  }

  lemma {:induction false} RanksBound(k: Kernel, s: Sched, ops: seq<Op>, id: nat)
    requires EngineInv(k, s) && id in s.waiting && CancelOp(id) !in ops
    requires !ServedDuring(k, s, ops, id)
    ensures BatchesDuring(k, s, ops) <= Rank(s, id)
    ensures StillWaits(s, Run(k, s, ops), id)
    decreases |ops|
  {
    hide EngineInv, Do, Rank, Serves, Gained, IndexOf;
    if ops != [] {
      var t := Do(k, s, ops[0]);
      DoKeeps(k, s, ops[0]);
      DoRank(k, s, ops[0], id);
      RanksBound(k, t, ops[1..], id);
    } else {
      WaitsRefl(s, id);
    }
  }

  /** A sequence at index p of the waiting queue that is not cancelled is served within (p + 1) * max_sequences
      completed batches, whatever is added, cancelled, aborted or retried meanwhile; until then it never falls back,
      and nobody who was behind it or came later gets before it. */
  lemma BoundedService(k: Kernel, s: Sched, ops: seq<Op>, id: nat)
    requires EngineInv(k, s) && id in s.waiting && CancelOp(id) !in ops
    ensures (IndexOf(s.waiting, id) + 1) * s.config.maxSequences <= BatchesDuring(k, s, ops) ==> ServedDuring(k, s, ops, id)
    ensures !ServedDuring(k, s, ops, id) ==> StillWaits(s, Run(k, s, ops), id)
  {
    hide EngineInv, Run, BatchesDuring, ServedDuring, IndexOf;
    EngineScheduled(k, s);
    RankBound(s, id);
    if !ServedDuring(k, s, ops, id) {
      RanksBound(k, s, ops, id);
    }
  }

  // ---------------------------------------------------------------- decode rounds

  /** The members of the open round that were not decoded yet: the first `remaining` of the running queue. */
  function Unvisited(s: Sched): seq<nat> {
    if s.turn.DecodeRound? && s.turn.remaining <= |s.running| then s.running[..s.turn.remaining] else []
  }

  function Ids(items: seq<Item>): seq<nat> {
    if items == [] then [] else Ids(items[..|items| - 1]) + [items[|items| - 1].id]
  }

  lemma {:induction false} IdsAre(items: seq<Item>, queue: seq<nat>)
    requires |items| <= |queue| && forall i :: 0 <= i < |items| ==> items[i].id == queue[i]
    ensures Ids(items) == queue[..|items|]
  {
    if items != [] {
      IdsAre(items[..|items| - 1], queue);
      assert queue[..|items|] == queue[..|items| - 1] + [queue[|items| - 1]];
    }
  }

  /** What a step decodes: the members of its batch in order, or nobody when it fails. */
  ghost function Decodes(k: Kernel, s: Sched, op: Op): seq<nat> {
    if op.StepOp? && Step(k, s, op.env).1.Ok? && s.Schedule().1.Ok? then Ids(s.Schedule().1.value.items) else []
  }

  lemma RoundShrinks(s: Sched, b: Batch, t: Sched)
    requires Completes(s, b, t) && s.turn.DecodeRound? && s.turn.remaining <= |s.running|
    requires t.turn.DecodeRound? ==> t.turn.remaining <= |t.running|
    ensures b.phase == Decode && Unvisited(s) == Ids(b.items) + Unvisited(t)
  {
    var n, r := |b.items|, s.turn.remaining;
    IdsAre(b.items, s.running);
    if t.turn.DecodeRound? {
      assert s.running[n..] == t.running[..|s.running| - n];
      assert t.running[..r - n] == s.running[n..][..r - n] == s.running[n..r];
    }
    assert s.running[..r] == s.running[..n] + s.running[n..r];
  }

  lemma RoundTurn(s: Sched)
    requires SchedInv(s) && s.active == None
    ensures s.turn.DecodeRound? ==> 0 < s.turn.remaining <= |s.running|
  {
    hide Inv;
  }

  /** While a round is open, a step decodes its next members and nobody else; in particular it never prefills. */
  lemma RoundStep(k: Kernel, s: Sched, env: StepEnv)
    requires EngineInv(k, s) && s.turn.DecodeRound?
    ensures Unvisited(s) == Decodes(k, s, StepOp(env)) + Unvisited(Step(k, s, env).0)
    ensures s.Schedule().1.Ok? ==> s.Schedule().1.value.phase == Decode
  {
    hide Inv, Resting, Unharmed, Step, Sched.Schedule, QueuesAdvance;
    RoundTurn(s);
    StepKeeps(k, s, env);
    RoundTurn(Step(k, s, env).0);
    RoundPhase(s);
    if Step(k, s, env).1.Ok? {
      StepCompletes(k, s, env);
      RoundShrinks(s, s.Schedule().1.value, Step(k, s, env).0);
    }
  }

  lemma RoundPhase(s: Sched)
    requires SchedInv(s) && s.turn.DecodeRound?
    ensures s.Schedule().1.Ok? ==> s.Schedule().1.value.phase == Decode
  {
    hide Inv, Grew, Sched.Schedule, PositionsFit, OnlyReservations;
    ScheduleKeeps(s);
  }

  /** Erases every member of a set from a list. */
  function Except(q: seq<nat>, gone: set<nat>): seq<nat> {
    if q == [] then [] else Except(q[..|q| - 1], gone) + (if q[|q| - 1] in gone then [] else [q[|q| - 1]])
  }

  lemma {:induction false} ExceptConcat(a: seq<nat>, b: seq<nat>, gone: set<nat>)
    ensures Except(a + b, gone) == Except(a, gone) + Except(b, gone)
    decreases |b|
  {
    if b == [] {
      assert a + b == a;
    } else {
      var n := |b| - 1;
      assert (a + b)[..|a + b| - 1] == a + b[..n];
      ExceptConcat(a, b[..n], gone);
    }
  }

  lemma {:induction false} ExceptTwice(q: seq<nat>, a: set<nat>, b: set<nat>)
    ensures Except(Except(q, a), b) == Except(q, a + b)
  {
    if q != [] {
      var n := |q| - 1;
      ExceptTwice(q[..n], a, b);
      ExceptConcat(Except(q[..n], a), if q[n] in a then [] else [q[n]], b);
      assert [q[n]][..0] == [];
    }
  }

  lemma {:induction false} ExceptNone(q: seq<nat>, gone: set<nat>)
    requires forall i :: 0 <= i < |q| ==> q[i] !in gone
    ensures Except(q, gone) == q
  {
    if q != [] {
      ExceptNone(q[..|q| - 1], gone);
      assert q == q[..|q| - 1] + [q[|q| - 1]];
    }
  }

  lemma WithoutIsExcept(q: seq<nat>, id: nat)
    requires NoDup(q)
    ensures Without(q, id) == Except(q, {id})
  {
    var i := IndexOf(q, id);
    if i == |q| {
      assert forall j :: 0 <= j < |q| ==> q[j] in q;
      ExceptNone(q, {id});
    } else {
      assert q == q[..i] + [id] + q[i + 1..];
      ExceptAround(q[..i], id, q[i + 1..], {id});
    }
  }

  lemma ExceptAround(a: seq<nat>, id: nat, b: seq<nat>, gone: set<nat>)
    requires forall i :: 0 <= i < |a| ==> a[i] !in gone
    requires forall i :: 0 <= i < |b| ==> b[i] !in gone
    requires id in gone
    ensures Except(a + [id] + b, gone) == a + b
  {
    ExceptNone(a, gone);
    ExceptNone(b, gone);
    ExceptOne(id, gone);
    hide Except;
    ExceptConcat(a, [id], gone);
    ExceptConcat(a + [id], b, gone);
    assert a + [] == a;
  }

  lemma ExceptOne(id: nat, gone: set<nat>)
    requires id in gone
    ensures Except([id], gone) == []
  {
    assert [id][..0] == [];
  }

  lemma PrefixNoDup(q: seq<nat>, n: nat)
    requires NoDup(q) && n <= |q|
    ensures NoDup(q[..n])
  {
  }

  /** A running request is live, so cancelling it changes the scheduler. */
  lemma RunningCancelled(s: Sched, id: nat)
    requires SchedInv(s) && s.active == None && id in s.running
    ensures s.Cancel(id).0 != s
  {
    hide PendingOk, ResourcesOk, Sched.Cancel, Without, Hybrid.Release, Sched.TurnWithout;
    CancelKeeps(s, id);
    assert MemberOk(s, id);
    assert id in s.waiting ==> id !in s.running;
  }

  lemma NotInPrefix(q: seq<nat>, r: nat, id: nat)
    requires r <= |q| && id !in q[..r]
    ensures Except(q[..r], {id}) == q[..r]
  {
    hide Except;
    forall i | 0 <= i < r ensures q[..r][i] !in {id} {
      assert q[..r][i] in q[..r];
    }
    ExceptNone(q[..r], {id});
  }

  /** Cancelling during a round removes exactly that request from the members still to be visited. */
  lemma RoundCancel(s: Sched, id: nat)
    requires SchedInv(s) && s.active == None && s.turn.DecodeRound?
    ensures Unvisited(s.Cancel(id).0) == Except(Unvisited(s), {id})
  {
    hide Inv, Sched.Cancel, Without, Except, IndexOf;
    CancelKeeps(s, id);
    RoundTurn(s);
    WaitingNoDup(s);
    var t, r := s.Cancel(id).0, s.turn.remaining;
    if id !in s.running[..r] {
      NotInPrefix(s.running, r, id);
    } else {
      RunningCancelled(s, id);
    }
    if t != s {
      WithoutPrefix(s.running, id, r);
      WithoutIs(s.running, id);
      PrefixNoDup(s.running, r);
      WithoutIsExcept(s.running[..r], id);
      if id !in s.running {
        WithoutAbsent(s.running, id);
      }
      CancelledRound(s, id, t);
    }
  }

  lemma WithoutAbsent(q: seq<nat>, id: nat)
    requires id !in q
    ensures Without(q, id) == q
  {
  }

  lemma CancelledRound(s: Sched, id: nat, t: Sched)
    requires CancelledIs(s, id, t) && s.turn.DecodeRound? && 0 < s.turn.remaining <= |s.running|
    requires id in s.running ==> |t.running| == |s.running| - 1
    requires id !in s.running ==> t.running == s.running
    ensures Unvisited(t) == if IndexOf(s.running, id) < s.turn.remaining then t.running[..s.turn.remaining - 1]
                            else t.running[..s.turn.remaining]
  {
    hide Without, Hybrid.Release;
  }

  /** A run during which the round stays open: it may be closed by its last operation. */
  ghost predicate InRound(k: Kernel, s: Sched, ops: seq<Op>)
    decreases |ops|
  {
    ops == [] || (s.turn.DecodeRound? && InRound(k, Do(k, s, ops[0]), ops[1..]))
  }

  ghost function DecodedDuring(k: Kernel, s: Sched, ops: seq<Op>): seq<nat>
    decreases |ops|
  {
    if ops == [] then [] else Decodes(k, s, ops[0]) + DecodedDuring(k, Do(k, s, ops[0]), ops[1..])
  }

  ghost predicate NeverPrefills(k: Kernel, s: Sched, ops: seq<Op>)
    decreases |ops|
  {
    ops == []
    || ((ops[0].StepOp? && s.Schedule().1.Ok? ==> s.Schedule().1.value.phase == Decode)
        && NeverPrefills(k, Do(k, s, ops[0]), ops[1..]))
  }

  function Gone(op: Op): set<nat> {
    if op.CancelOp? then {op.id} else {}
  }

  function CancelledIn(ops: seq<Op>): set<nat> {
    if ops == [] then {} else Gone(ops[0]) + CancelledIn(ops[1..])
  }

  /** One operation inside a round: who it decodes comes off the front, who it cancels is left out. */
  ghost predicate RoundMoves(before: seq<nat>, decoded: seq<nat>, gone: set<nat>, after: seq<nat>) {
    && Except(before, gone) == Except(decoded + after, gone)
    && (NoDup(before) ==> NoDup(decoded + after))
    && forall x :: x in decoded + after ==> x in before
  }

  lemma {:induction false} ExceptSubset(q: seq<nat>, gone: set<nat>)
    ensures forall x :: x in Except(q, gone) ==> x in q
    ensures NoDup(q) ==> NoDup(Except(q, gone))
  {
    if q != [] {
      var n := |q| - 1;
      ExceptSubset(q[..n], gone);
      if NoDup(q) {
        PrefixNoDup(q, n);
        assert q[n] !in q[..n];
        AppendNoDup(Except(q[..n], gone), q[n]);
      }
    }
  }

  lemma RoundStays(s: Sched, t: Sched)
    requires Unvisited(t) == Unvisited(s)
    ensures RoundMoves(Unvisited(s), [], {}, Unvisited(t))
  {
    assert [] + Unvisited(t) == Unvisited(t);
  }

  lemma RoundNoDup(s: Sched)
    requires SchedInv(s) && s.active == None
    ensures NoDup(Unvisited(s))
  {
    hide Inv;
    WaitingNoDup(s);
  }

  lemma RoundDoes(k: Kernel, s: Sched, op: Op)
    requires EngineInv(k, s) && s.turn.DecodeRound?
    ensures RoundMoves(Unvisited(s), Decodes(k, s, op), Gone(op), Unvisited(Do(k, s, op)))
  {
    hide SchedInv, Resting, Step, Sched.TryAdd, Sched.Cancel, Sched.Remove, Sched.Schedule, RoundMoves, Unvisited;
    var t := Do(k, s, op);
    match op {
      case AddOp(q, env) =>
        if q.Valid() {
          AddJoinsBack(s, q, env);
        }
        UnvisitedSame(s, t);
        RoundStays(s, t);
      case StepOp(env) =>
        RoundStep(k, s, env);
        RoundSplit(Unvisited(s), Decodes(k, s, op), Unvisited(t));
      case CancelOp(id) =>
        RoundCancel(s, id);
        RoundNoDup(s);
        RoundLoses(Unvisited(s), id, Unvisited(t));
      case RemoveOp(id) =>
        RemoveKeeps(s, id);
        UnvisitedSame(s, t);
        RoundStays(s, t);
    }
  }

  lemma UnvisitedSame(s: Sched, t: Sched)
    requires t.turn == s.turn && t.running == s.running
    ensures Unvisited(t) == Unvisited(s)
  {
  }

  lemma RoundSplit(before: seq<nat>, decoded: seq<nat>, after: seq<nat>)
    requires before == decoded + after
    ensures RoundMoves(before, decoded, {}, after)
  {
  }

  lemma RoundLoses(before: seq<nat>, id: nat, after: seq<nat>)
    requires NoDup(before) && after == Except(before, {id})
    ensures RoundMoves(before, [], {id}, after)
  {
    hide Except;
    ExceptTwice(before, {id}, {id});
    assert {id} + {id} == {id};
    ExceptSubset(before, {id});
    assert [] + after == after;
  }

  lemma RoundComposes(a: seq<nat>, d1: seq<nat>, g1: set<nat>, b: seq<nat>, d2: seq<nat>, g2: set<nat>, c: seq<nat>)
    requires NoDup(a) && RoundMoves(a, d1, g1, b) && RoundMoves(b, d2, g2, c)
    ensures RoundMoves(a, d1 + d2, g1 + g2, c)
  {
    ComposedOrder(a, d1, g1, b, d2, g2, c);
    ComposedOnce(a, d1, b, d2, c);
  }

  lemma ComposedOrder(a: seq<nat>, d1: seq<nat>, g1: set<nat>, b: seq<nat>, d2: seq<nat>, g2: set<nat>, c: seq<nat>)
    requires Except(a, g1) == Except(d1 + b, g1) && Except(b, g2) == Except(d2 + c, g2)
    ensures Except(a, g1 + g2) == Except(d1 + d2 + c, g1 + g2)
  {
    hide Except;
    var g := g1 + g2;
    ExceptTwice(a, g1, g2);
    ExceptTwice(d1 + b, g1, g2);
    ExceptConcat(d1, b, g);
    ExceptTwice(b, g2, g1);
    ExceptTwice(d2 + c, g2, g1);
    assert g2 + g1 == g;
    ExceptConcat(d1, d2 + c, g);
    assert d1 + (d2 + c) == d1 + d2 + c;
  }

  lemma ComposedOnce(a: seq<nat>, d1: seq<nat>, b: seq<nat>, d2: seq<nat>, c: seq<nat>)
    requires NoDup(d1 + b) && (NoDup(b) ==> NoDup(d2 + c))
    requires forall x :: x in d1 + b ==> x in a
    requires forall x :: x in d2 + c ==> x in b
    ensures NoDup(d1 + d2 + c)
    ensures forall x :: x in d1 + d2 + c ==> x in a
  {
    SplitNoDup(d1 + b, |d1|);
    assert (d1 + b)[..|d1|] == d1 && (d1 + b)[|d1|..] == b;
    JoinNoDup(d1, d2 + c);
    assert d1 + (d2 + c) == d1 + d2 + c;
  }

  /** From any point of an open round until it closes: no prefill runs, whoever is decoded or still unvisited was a
      member, nobody is decoded twice, and but for the cancelled ones the members are decoded in queue order. */
  lemma {:induction false} OpenRoundCovers(k: Kernel, s: Sched, ops: seq<Op>)
    requires EngineInv(k, s) && InRound(k, s, ops)
    ensures RoundMoves(Unvisited(s), DecodedDuring(k, s, ops), CancelledIn(ops), Unvisited(Run(k, s, ops)))
    ensures NeverPrefills(k, s, ops)
    decreases |ops|
  {
    hide EngineInv, Do, RoundMoves, Unvisited, Decodes, Sched.Schedule;
    if ops == [] {
      RoundStays(s, s);
    } else {
      var t := Do(k, s, ops[0]);
      DoKeeps(k, s, ops[0]);
      RoundDoes(k, s, ops[0]);
      OpenRoundCovers(k, t, ops[1..]);
      EngineScheduled(k, s);
      RoundNoDup(s);
      RoundPhase(s);
      RoundComposes(Unvisited(s), Decodes(k, s, ops[0]), Gone(ops[0]), Unvisited(t),
                    DecodedDuring(k, t, ops[1..]), CancelledIn(ops[1..]), Unvisited(Run(k, t, ops[1..])));
    }
  }

  // ---------------------------------------------------------------- rounds from their opening step on

  /** schedule is about to open a round: the turn is prefill, nothing waits and something runs. */
  predicate Opens(s: Sched) {
    s.turn.PrefillTurn? && s.waiting == [] && s.running != []
  }

  /** A run inside one round, from any point after its opening, or from the step that opens it inside schedule. */
  ghost predicate RoundRun(k: Kernel, s: Sched, ops: seq<Op>) {
    && (s.turn.DecodeRound? || (Opens(s) && ops != [] && ops[0].StepOp?))
    && InRound(k, s.Opening(), ops)
  }

  /** Opening the round first makes no difference to schedule. */
  lemma OpeningSchedules(s: Sched)
    requires s.active == None && (s.turn.DecodeRound? || Opens(s))
    ensures s.Opening().Schedule() == s.Schedule()
  {
    hide Sched.Select;
    assert s.Opening().Opening() == s.Opening();
  }

  lemma OpeningSteps(k: Kernel, s: Sched, op: Op)
    requires s.active == None && (s.turn.DecodeRound? || (Opens(s) && op.StepOp?))
    ensures Do(k, s.Opening(), op) == Do(k, s, op) && Decodes(k, s.Opening(), op) == Decodes(k, s, op)
  {
    hide Sched.Schedule, RunBatch, Ids;
    OpeningSchedules(s);
  }

  lemma OpeningRests(k: Kernel, s: Sched)
    requires EngineInv(k, s) && (s.turn.DecodeRound? || Opens(s))
    ensures EngineInv(k, s.Opening())
  {
    hide Resting, Inv;
    OpeningKeeps(s);
    RestsAlike(k, s, s.Opening());
  }

  lemma OpeningRuns(k: Kernel, s: Sched, ops: seq<Op>)
    requires EngineInv(k, s) && RoundRun(k, s, ops)
    ensures EngineInv(k, s.Opening()) && InRound(k, s.Opening(), ops)
    ensures DecodedDuring(k, s.Opening(), ops) == DecodedDuring(k, s, ops)
    ensures ops != [] ==> Run(k, s.Opening(), ops) == Run(k, s, ops)
    ensures ops == [] ==> s.Opening() == s
    ensures NeverPrefills(k, s.Opening(), ops) ==> NeverPrefills(k, s, ops)
  {
    hide EngineInv, Do, Decodes, Sched.Schedule;
    EngineScheduled(k, s);
    OpeningRests(k, s);
    OpeningSchedules(s);
    if ops != [] {
      OpeningSteps(k, s, ops[0]);
    }
  }

  /** From the step that opens a round, or any later point, until it closes: no prefill runs, whoever is decoded or still
      unvisited was a member, nobody is decoded twice, and but for the cancelled ones the members are decoded in order. */
  lemma RoundCovers(k: Kernel, s: Sched, ops: seq<Op>)
    requires EngineInv(k, s) && RoundRun(k, s, ops)
    ensures RoundMoves(Unvisited(s.Opening()), DecodedDuring(k, s, ops), CancelledIn(ops), Unvisited(Run(k, s, ops)))
    ensures NeverPrefills(k, s, ops)
  {
    hide EngineInv, RoundRun, RoundMoves, Unvisited, DecodedDuring, NeverPrefills, InRound;
    OpeningRuns(k, s, ops);
    OpenRoundCovers(k, s.Opening(), ops);
  }

  /** A round that closed decoded every member that was not cancelled, exactly once and in order. */
  lemma ClosedRoundDecodedAll(k: Kernel, s: Sched, ops: seq<Op>)
    requires EngineInv(k, s) && RoundRun(k, s, ops) && !Run(k, s, ops).turn.DecodeRound?
    ensures NoDup(DecodedDuring(k, s, ops))
    ensures Except(DecodedDuring(k, s, ops), CancelledIn(ops)) == Except(Unvisited(s.Opening()), CancelledIn(ops))
  {
    hide EngineInv, Run, DecodedDuring, Except, InRound;
    RoundCovers(k, s, ops);
    OpeningRests(k, s);
    EngineScheduled(k, s.Opening());
    RoundNoDup(s.Opening());
    assert DecodedDuring(k, s, ops) + [] == DecodedDuring(k, s, ops);
  }
}

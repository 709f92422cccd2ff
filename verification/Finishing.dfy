/** How long an admitted request can take, whatever else happens: a bound on the completed batches from any state to its end,
    in terms of its own remaining tokens and max_sequences. src/scheduler.cc:237-429 and src/scheduler.cc:454-490. */
module Finishing {
  import opened Wrappers
  import opened Sums
  import opened Sequences
  import opened Paging
  import opened PrefixCaching
  import opened Kernels
  import opened Batches
  import opened HybridStates
  import opened Scheduling
  import opened Invariants
  import opened Selection
  import opened Completion
  import opened Protocol
  import opened Lifecycle
  import opened Generation
  import opened Engine
  import opened Steps
  import opened Runs
  import opened Delivery
  import opened Fairness

  // ---------------------------------------------------------------- what a batch does to one request

  /** The request finished, or fewer of its tokens are left. */
  ghost predicate Advanced(a: SeqData, b: SeqData) {
    b.status == Finished || Left(b) < Left(a)
  }

  lemma ItemAdvances(s: Sched, phase: Phase, items: seq<Item>, token: Token, saves: bool,
                     r: (Sched, Result<Option<Update>, SchedError>), id: nat)
    requires Inv(s, phase, items) && items != [] && id in s.sequences
    requires r == s.CompleteItem(phase, items[0], token, saves)
    ensures id in r.0.sequences
    ensures if id == items[0].id then Advanced(s.sequences[id], r.0.sequences[id]) else r.0.sequences[id] == s.sequences[id]
  {
    hide Inv, Sched.CompleteItem, Settle, Cache.Valid, Left, LiveOk, Settled, Follows;
    ItemFacts(s, phase, items);
    CompleteItemShifts(s, phase, items, token, saves);
    var q := s.sequences[items[0].id];
    SettleLeaves(q, items[0].sample, token, s.eos);
    SettledId(q, phase, Settle(q, items[0].sample, token, s.eos));
  }

  lemma {:induction false} ItemsAdvance(s: Sched, phase: Phase, items: seq<Item>, samples: seq<Token>, updates: seq<Update>,
                                        saves: set<nat>, r: (Sched, Result<seq<Update>, SchedError>), id: nat)
    requires Inv(s, phase, items) && !s.state.open && |samples| == CountSamples(items) && id in s.sequences
    requires r == s.CompleteItems(phase, items, samples, updates, saves)
    ensures id in r.0.sequences
    ensures if Listed(items, id) then Advanced(s.sequences[id], r.0.sequences[id]) else r.0.sequences[id] == s.sequences[id]
    decreases |items|
  {
    hide Inv, Sched.CompleteItem, Advanced;
    if items != [] {
      CountSamplesCons(items);
      var token := if items[0].sample then samples[0] else 0;
      var done := s.CompleteItem(phase, items[0], token, items[0].id in saves);
      CompleteItemKeeps(s, phase, items, token, items[0].id in saves, done);
      ItemAdvances(s, phase, items, token, items[0].id in saves, done, id);
      HeadListedOnce(s, phase, items);
      var rest := if items[0].sample then samples[1..] else samples;
      var more := if done.1.value.Some? then updates + [done.1.value.value] else updates;
      ItemsAdvance(done.0, phase, items[1..], rest, more, saves, r, id);
      ListedHeadOrTail(items, id);
    }
  }

  lemma ListedHeadOrTail(items: seq<Item>, id: nat)
    requires items != []
    ensures Listed(items, id) <==> items[0].id == id || Listed(items[1..], id)
  {
    if Listed(items[1..], id) {
      var i :| 0 <= i < |items[1..]| && items[1..][i].id == id;
      assert items[i + 1].id == id;
    }
    if items[0].id != id {
      ListedTail(items, id);
    }
  }

  lemma CompletedAdvances(t: Sched, b: Batch, samples: seq<Token>, saves: set<nat>, id: nat)
    requires SchedInv(t) && t.active == Some(b) && |samples| == CountSamples(b.items) && id in t.sequences
    ensures var u := Completed(t, b, samples, saves).0;
            && id in u.sequences
            && if Listed(b.items, id) then Advanced(t.sequences[id], u.sequences[id]) else u.sequences[id] == t.sequences[id]
  {
    hide Inv, Sched.CompleteItems, Advanced;
    ClosedKeeps(t, b.phase, b.items, true);
    CompleteKeeps(t, b.id, samples, saves);
    var closed := Closed(t, true);
    ItemsAdvance(closed, b.phase, b.items, samples, [], saves, closed.CompleteItems(b.phase, b.items, samples, [], saves), id);
  }

  /** The request is as it was, up to a reservation. */
  ghost predicate Idled(a: SeqData, b: SeqData) {
    Left(b) == Left(a) && b.status == a.status
  }

  /** A completed batch advances the requests that it lists and leaves the others alone. */
  lemma StepAdvances(k: Kernel, s: Sched, env: StepEnv, id: nat)
    requires EngineInv(k, s) && Step(k, s, env).1.Ok? && id in s.sequences
    ensures s.Schedule().1.Ok? && id in Step(k, s, env).0.sequences
    ensures var b := Step(k, s, env).0.sequences[id];
            if Listed(s.Schedule().1.value.items, id) then Advanced(s.sequences[id], b) else Idled(s.sequences[id], b)
  {
    hide Inv, Resting, Sched.Schedule, RunBatch, Completed, Wanted, Left;
    ScheduledRests(k, s);
    var t, b := s.Schedule().0, s.Schedule().1.value;
    RunBatchRan(k, t, b, env);
    var u, samples, saves :| Step(k, s, env) == Completed(u, b, samples, saves) && Passed(k, t, b, u, samples);
    ActiveNonempty(u, b);
    var o := s.Opening().(active := Some(b), nextBatch := s.nextBatch + 1);
    assert OnlyReservations(o, t);
    assert SameWork(o.sequences[id], t.sequences[id]);
    LeftSame(o.sequences[id], t.sequences[id]);
    CompletedAdvances(u, b, samples, saves, id);
  }

  // ---------------------------------------------------------------- how long a request can be passed by

  /** Batches that may complete before a waiting or running request takes part in one. */
  function Delay(s: Sched, id: nat): nat {
    if id in s.waiting then Rank(s, id)
    else if id in s.running then
      IndexOf(s.running, id) + if s.turn.DecodeRound? && IndexOf(s.running, id) < s.turn.remaining then 1 else 2
    else 0
  }

  /** More than any delay. */
  function Patience(s: Sched): nat {
    s.config.maxSequences * s.config.maxSequences + s.config.maxSequences + 2
  }

  lemma DelayBound(s: Sched, id: nat)
    requires SchedInv(s) && s.active == None
    ensures Delay(s, id) < Patience(s)
  {
    hide ResourcesOk, PendingOk, MemberOk;
    var n := s.config.maxSequences;
    if id in s.waiting {
      RankBound(s, id);
      AtMost(IndexOf(s.waiting, id) + 1, n, n);
    }
  }

  lemma AtMost(a: nat, b: nat, n: nat)
    requires a <= b
    ensures a * n <= b * n
  {
    if a < b {
      MulStrict(a, b, n);
    }
  }

  /** A running request that a completed batch passes by moves up. */
  lemma RunningMoves(s: Sched, b: Batch, t: Sched, id: nat)
    requires Completes(s, b, t) && id in s.running && NoDup(s.running) && !Listed(b.items, id)
    requires s.turn.DecodeRound? ==> s.turn.remaining <= |s.running|
    requires Disjoint(s.waiting, s.running) && Disjoint(t.waiting, t.running) && b.items != []
    ensures id in t.running && id !in t.waiting && Delay(t, id) < Delay(s, id)
  {
    var n := |b.items|;
    if b.phase == Prefill {
      IndexInPrefix(s.running, t.running, id);
      assert id in t.running;
    } else {
      LeadersListed(s.running, b.items, id);
      IndexAfterDrop(s.running, n, id);
      IndexInPrefix(s.running[n..], t.running, id);
    }
  }

  lemma CompletedDelay(k: Kernel, s: Sched, env: StepEnv, id: nat)
    requires EngineInv(k, s) && (id in s.waiting || id in s.running) && Step(k, s, env).1.Ok?
    requires s.Schedule().1.Ok? && !Listed(s.Schedule().1.value.items, id)
    ensures var t := Step(k, s, env).0;
            Delay(t, id) < Delay(s, id) && (id in t.waiting || id in t.running)
  {
    hide Inv, Resting, Step, Sched.Schedule, Unharmed, IndexOf, QueuesAdvance;
    var t, b := Step(k, s, env).0, s.Schedule().1.value;
    StepCompletes(k, s, env);
    StepKeeps(k, s, env);
    WaitingNoDup(s);
    WaitingNoDup(t);
    RoundTurn(s);
    if id in s.waiting {
      CompletedRank(k, s, env, id);
    } else {
      RunningMoves(s, b, t, id);
    }
  }

  lemma FailedDelay(k: Kernel, s: Sched, env: StepEnv, id: nat)
    requires EngineInv(k, s) && (id in s.waiting || id in s.running) && Step(k, s, env).1.Err?
    ensures var t := Step(k, s, env).0;
            Delay(t, id) <= Delay(s, id) && t.sequences == s.sequences && (id in t.waiting || id in t.running)
  {
    hide Inv, Resting, Step, Unharmed, IndexOf;
    StepKeeps(k, s, env);
  }

  lemma AddedDelay(s: Sched, q: SeqData, env: AdmitEnv, id: nat)
    requires SchedInv(s) && s.active == None && q.Valid() && (id in s.waiting || id in s.running)
    ensures var t := s.TryAdd(q, env).0; Delay(t, id) == Delay(s, id) && (id in t.waiting || id in t.running)
  {
    hide SchedInv, Sched.TryAdd, IndexOf, StillWaits;
    AddJoinsBack(s, q, env);
    var t := s.TryAdd(q, env).0;
    if id in s.waiting {
      AddRank(s, q, env, id);
      assert id in t.waiting;
    } else {
      NewcomerApart(s, q, env, id);
    }
  }

  lemma NewcomerApart(s: Sched, q: SeqData, env: AdmitEnv, id: nat)
    requires SchedInv(s) && s.active == None && q.Valid() && id in s.running
    ensures id !in s.TryAdd(q, env).0.waiting
  {
    hide Inv, Sched.TryAdd;
    TryAddKeeps(s, q, env);
    AddJoinsBack(s, q, env);
    StaysIdle(s, q, env);
    WaitingNoDup(s.TryAdd(q, env).0);
  }

  lemma StaysIdle(s: Sched, q: SeqData, env: AdmitEnv)
    requires SchedInv(s) && s.active == None && q.Valid()
    ensures s.TryAdd(q, env).0.active == None
  {
    hide SchedInv, Sched.TryAdd, Hybrid.Sound, Cache.Valid, HasRoom, Sched.FitsCache, Pristine, ApartFrom;
    TryAddKeeps(s, q, env);
  }

  /** Erasing somebody else moves nobody back. */
  lemma WithoutMoves(queue: seq<nat>, other: nat, id: nat)
    requires NoDup(queue) && id in queue && other != id
    ensures id in Without(queue, other)
    ensures IndexOf(Without(queue, other), id)
         == IndexOf(queue, id) - if IndexOf(queue, other) < IndexOf(queue, id) then 1 else 0
    ensures other in queue ==> IndexOf(queue, other) != IndexOf(queue, id)
  {
    var i, p := IndexOf(queue, other), IndexOf(queue, id);
    var w := Without(queue, other);
    WithoutIs(queue, other);
    if i < |queue| {
      assert forall j :: 0 <= j < |w| ==> w[j] == queue[if j < i then j else j + 1];
      IndexOfUnique(w, id, if p < i then p else p - 1);
    }
  }

  lemma CancelledDelay(s: Sched, other: nat, id: nat)
    requires SchedInv(s) && s.active == None && (id in s.waiting || id in s.running) && other != id
    ensures var t := s.Cancel(other).0; Delay(t, id) <= Delay(s, id) && (id in t.waiting || id in t.running)
  {
    hide Inv, Sched.Cancel, Without, IndexOf, StillWaits;
    CancelKeeps(s, other);
    WaitingNoDup(s);
    RoundTurn(s);
    var t := s.Cancel(other).0;
    if id in s.waiting {
      CancelRank(s, other, id);
      WaitsOn(s, t, id);
    } else if t != s {
      WithoutMoves(s.running, other, id);
      WithoutIs(s.waiting, other);
      RunningLess(s, other, t, id);
    }
  }

  lemma WaitsOn(s: Sched, t: Sched, id: nat)
    requires StillWaits(s, t, id)
    ensures id in t.waiting
  {
  }

  lemma RunningLess(s: Sched, other: nat, t: Sched, id: nat)
    requires CancelledIs(s, other, t) && id in s.running && id !in s.waiting && id !in t.waiting && id in t.running
    requires s.turn.DecodeRound? ==> 0 < s.turn.remaining <= |s.running|
    requires IndexOf(t.running, id) == IndexOf(s.running, id) - if IndexOf(s.running, other) < IndexOf(s.running, id) then 1 else 0
    requires other in s.running ==> IndexOf(s.running, other) != IndexOf(s.running, id)
    ensures Delay(t, id) <= Delay(s, id)
  {
    hide Without, IndexOf, Hybrid.Release;
  }

  // ---------------------------------------------------------------- the bound

  /** A bound on the completed batches until the request finishes: 0 once it did. */
  ghost function Remaining(s: Sched, id: nat): nat {
    if id in s.sequences && s.sequences[id].status != Finished
    then Left(s.sequences[id]) * Patience(s) + Delay(s, id) else 0
  }

  lemma LiveQueued(k: Kernel, s: Sched, id: nat)
    requires EngineInv(k, s) && id in s.sequences && s.sequences[id].status != Finished
    ensures id in s.waiting || id in s.running
    ensures 0 < Left(s.sequences[id]) && s.sequences[id].reason == NoReason
  {
    hide Resting, PendingOk, ResourcesOk, Left;
    assert MemberOk(s, id);
    LiveLeft(s.sequences[id]);
  }

  lemma FewerLeft(a: nat, b: nat, patience: nat, delay: nat)
    requires b < a && delay < patience
    ensures b * patience + delay < a * patience
  {
    AtMost(b + 1, a, patience);
    assert (b + 1) * patience == b * patience + patience;
  }

  /** The same measure over plain numbers: a listed request has fewer tokens left, another one a shorter delay. */
  lemma RemainingFalls(s: Sched, t: Sched, id: nat, listed: bool)
    requires id in s.sequences && s.sequences[id].status != Finished && id in t.sequences && t.config == s.config
    requires 0 < Left(s.sequences[id]) && Delay(t, id) < Patience(t)
    requires listed ==> Advanced(s.sequences[id], t.sequences[id])
    requires !listed ==> Idled(s.sequences[id], t.sequences[id]) && Delay(t, id) < Delay(s, id)
    ensures Remaining(t, id) < Remaining(s, id)
  {
    hide Left, Delay;
    var a, b := s.sequences[id], t.sequences[id];
    if listed {
      if b.status != Finished {
        FewerLeft(Left(a), Left(b), Patience(s), Delay(t, id));
      } else {
        SomethingLeft(Left(a), Patience(s));
      }
    }
  }

  lemma CompletedRemaining(k: Kernel, s: Sched, env: StepEnv, id: nat)
    requires EngineInv(k, s) && id in s.sequences && s.sequences[id].status != Finished && Step(k, s, env).1.Ok?
    requires EngineInv(k, Step(k, s, env).0) && Step(k, s, env).0.config == s.config
    ensures id in Step(k, s, env).0.sequences && Remaining(Step(k, s, env).0, id) < Remaining(s, id)
  {
    hide EngineInv, Step, Sched.Schedule, Left, Delay, Remaining, Patience, Advanced, Idled;
    LiveQueued(k, s, id);
    StepAdvances(k, s, env, id);
    EngineScheduled(k, Step(k, s, env).0);
    DelayBound(Step(k, s, env).0, id);
    var listed := Listed(s.Schedule().1.value.items, id);
    if !listed {
      CompletedDelay(k, s, env, id);
    }
    RemainingFalls(s, Step(k, s, env).0, id, listed);
  }

  lemma FailedRemaining(k: Kernel, s: Sched, env: StepEnv, id: nat)
    requires EngineInv(k, s) && id in s.sequences && s.sequences[id].status != Finished && Step(k, s, env).1.Err?
    requires Step(k, s, env).0.config == s.config
    ensures id in Step(k, s, env).0.sequences && Remaining(Step(k, s, env).0, id) <= Remaining(s, id)
  {
    hide EngineInv, Step, Left, Delay;
    LiveQueued(k, s, id);
    FailedDelay(k, s, env, id);
  }

  lemma StepRemaining(k: Kernel, s: Sched, env: StepEnv, id: nat)
    requires EngineInv(k, s) && id in s.sequences && s.sequences[id].status != Finished
    ensures var r := Step(k, s, env);
            && id in r.0.sequences && r.0.config == s.config
            && if r.1.Ok? then Remaining(r.0, id) < Remaining(s, id) else Remaining(r.0, id) <= Remaining(s, id)
  {
    hide EngineInv, Step, Remaining, Follows, Unharmed;
    StepWorks(k, s, env);
    StepKeeps(k, s, env);
    if Step(k, s, env).1.Err? {
      FailedRemaining(k, s, env, id);
    } else {
      CompletedRemaining(k, s, env, id);
    }
  }

  lemma SomethingLeft(a: nat, patience: nat)
    requires 0 < a && 0 < patience
    ensures 0 < a * patience
  {
    AtMost(1, a, patience);
  }

  lemma AddRemaining(k: Kernel, s: Sched, q: SeqData, env: AdmitEnv, id: nat)
    requires EngineInv(k, s) && id in s.sequences && s.sequences[id].status != Finished && q.Valid()
    ensures var t := s.TryAdd(q, env).0; id in t.sequences && Remaining(t, id) == Remaining(s, id)
  {
    hide SchedInv, Resting, Sched.TryAdd, Left, Delay, Hybrid.Sound, Cache.Valid, HasRoom, Sched.FitsCache, Pristine, ApartFrom;
    LiveQueued(k, s, id);
    AddedDelay(s, q, env, id);
    TryAddKeeps(s, q, env);
  }

  lemma CancelRemaining(k: Kernel, s: Sched, other: nat, id: nat)
    requires EngineInv(k, s) && id in s.sequences && s.sequences[id].status != Finished && other != id
    ensures var t := s.Cancel(other).0; id in t.sequences && Remaining(t, id) <= Remaining(s, id)
  {
    hide SchedInv, Resting, Sched.Cancel, Left, Delay, Without, Sched.TurnWithout, Hybrid.Release;
    LiveQueued(k, s, id);
    CancelledDelay(s, other, id);
    CancelKeeps(s, other);
  }

  lemma RemoveRemaining(k: Kernel, s: Sched, other: nat, id: nat)
    requires EngineInv(k, s) && id in s.sequences && s.sequences[id].status != Finished && other != id
    ensures var t := s.Remove(other).0; id in t.sequences && Remaining(t, id) == Remaining(s, id)
  {
    hide SchedInv, Resting, Left, Without, IndexOf;
    RemoveKeeps(s, other);
  }

  /** No operation on the engine but its own cancellation or removal sets a live request back, and every completed batch
      brings it nearer to its end. */
  lemma DoRemaining(k: Kernel, s: Sched, op: Op, id: nat)
    requires EngineInv(k, s) && id in s.sequences && s.sequences[id].status != Finished
    requires op != CancelOp(id) && op != RemoveOp(id)
    ensures var t := Do(k, s, op); id in t.sequences && Remaining(t, id) + Gained(k, s, op) <= Remaining(s, id)
  {
    hide EngineInv, Step, Sched.TryAdd, Sched.Cancel, Sched.Remove, Remaining;
    match op {
      case AddOp(q, env) =>
        if q.Valid() {
          AddRemaining(k, s, q, env, id);
        }
      case StepOp(env) => StepRemaining(k, s, env, id);
      case CancelOp(other) => CancelRemaining(k, s, other, id);
      case RemoveOp(other) => RemoveRemaining(k, s, other, id);
    }
  }

  lemma {:induction false} RemainingBounds(k: Kernel, s: Sched, ops: seq<Op>, id: nat)
    requires EngineInv(k, s) && id in s.sequences && CancelOp(id) !in ops && RemoveOp(id) !in ops
    ensures var t := Run(k, s, ops);
            && id in t.sequences
            && (t.sequences[id].status != Finished ==> Remaining(t, id) + BatchesDuring(k, s, ops) <= Remaining(s, id))
    decreases |ops|
  {
    hide EngineInv, Do, Remaining, Gained, Follows;
    if ops != [] {
      var t := Do(k, s, ops[0]);
      DoKeeps(k, s, ops[0]);
      DoCarries(k, s, ops[0], id);
      if s.sequences[id].status != Finished {
        DoRemaining(k, s, ops[0], id);
        RemainingBounds(k, t, ops[1..], id);
      } else {
        RunCarries(k, s, ops, id);
        StaysFinished(s.sequences[id], Run(k, s, ops).sequences[id]);
      }
    }
  }

  lemma StaysFinished(a: SeqData, b: SeqData)
    requires Follows(a, b) && a.status == Finished
    ensures b == a
  {
  }

  lemma PositiveRemaining(k: Kernel, s: Sched, id: nat)
    requires EngineInv(k, s) && id in s.sequences && s.sequences[id].status != Finished
    ensures 0 < Remaining(s, id)
  {
    hide EngineInv, Left, Delay;
    LiveQueued(k, s, id);
    SomethingLeft(Left(s.sequences[id]), Patience(s));
  }

  /** An admitted request that is not cancelled finishes by the time that (remaining tokens + 1) * patience batches have
      completed, whatever is admitted, cancelled, aborted and retried meanwhile. */
  lemma FinishesWithin(k: Kernel, s: Sched, ops: seq<Op>, id: nat)
    requires EngineInv(k, s) && id in s.sequences && CancelOp(id) !in ops && RemoveOp(id) !in ops
    requires (Left(s.sequences[id]) + 1) * Patience(s) <= BatchesDuring(k, s, ops)
    ensures var t := Run(k, s, ops); id in t.sequences && t.sequences[id].status == Finished
  {
    hide EngineInv, Run, BatchesDuring, Left, Delay, Remaining;
    RemainingBounds(k, s, ops, id);
    EngineScheduled(k, s);
    RunKeeps(k, s, ops);
    RemainingBelow(k, s, id);
    var t := Run(k, s, ops);
    if t.sequences[id].status != Finished {
      PositiveRemaining(k, t, id);
    }
  }

  lemma RemainingBelow(k: Kernel, s: Sched, id: nat)
    requires EngineInv(k, s) && id in s.sequences
    ensures Remaining(s, id) <= (Left(s.sequences[id]) + 1) * Patience(s)
  {
    hide EngineInv, Left, Delay;
    EngineScheduled(k, s);
    DelayBound(s, id);
    assert (Left(s.sequences[id]) + 1) * Patience(s) == Left(s.sequences[id]) * Patience(s) + Patience(s);
  }
}

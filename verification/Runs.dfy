/** Whole runs of the engine: any interleaving of admissions, steps, cancellations and removals. */
module Runs {
  import opened Wrappers
  import opened Sums
  import opened Sequences
  import opened Paging
  import opened PrefixCaching
  import opened Kernels
  import opened Batches
  import opened HybridStates
  import opened Residence
  import opened Scheduling
  import opened Invariants
  import opened Selection
  import opened Completion
  import opened Protocol
  import opened Lifecycle
  import opened Building
  import opened Generation
  import opened Engine
  import opened Steps
  import opened Retrying
  import opened Admission

  datatype Op =
    | AddOp(q: SeqData, admit: AdmitEnv)
    | StepOp(env: StepEnv)
    | CancelOp(id: nat)
    | RemoveOp(id: nat)

  ghost function Do(k: Kernel, s: Sched, op: Op): Sched {
    match op
    case AddOp(q, env) => if q.Valid() then s.TryAdd(q, env).0 else s
    case StepOp(env) => Step(k, s, env).0
    case CancelOp(id) => s.Cancel(id).0
    case RemoveOp(id) => s.Remove(id).0
  }

  ghost function Run(k: Kernel, s: Sched, ops: seq<Op>): Sched
    decreases |ops|
  {
    if ops == [] then s else Run(k, Do(k, s, ops[0]), ops[1..])
  }

  /** scheduler::make over a fresh state. */
  function Fresh(config: Config, eos: Token, shape: Shape, slots: seq<Cell>, cacheBytes: nat): Sched {
    Sched(config, eos, PrefillTurn, Hybrid(shape, Initial(config.kvBlockCount, config.kvBlockSize), slots, map[], [], false),
          Cache(cacheBytes, 0, []), map[], [], [], None, false, 0)
  }

  lemma FreshRests(k: Kernel, config: Config, eos: Token, shape: Shape, slots: seq<Cell>, cacheBytes: nat)
    requires 0 < config.maxSequences && 0 < config.maxBatchTokens && 0 < config.chunk
    requires shape.zero == k.zero && |slots| == config.kvBlockCount * config.kvBlockSize
    ensures EngineInv(k, Fresh(config, eos, shape, slots, cacheBytes))
  {
    hide Partition;
    InitialPartition(config.kvBlockCount, config.kvBlockSize);
    var s := Fresh(config, eos, shape, slots, cacheBytes);
    assert Budgets(s) == map[];
    assert Behind(s) == map[];
  }

  lemma DoKeeps(k: Kernel, s: Sched, op: Op)
    requires EngineInv(k, s)
    ensures EngineInv(k, Do(k, s, op))
  {
    hide EngineInv, Step, Sched.TryAdd, Sched.Cancel, Sched.Remove;
    match op {
      case AddOp(q, env) =>
        if q.Valid() {
          TryAddRests(k, s, q, env);
        }
      case StepOp(env) => StepKeeps(k, s, env);
      case CancelOp(id) => CancelRests(k, s, id);
      case RemoveOp(id) => RemoveRests(k, s, id);
    }
  }

  /** The engine's invariant holds in every reachable state. */
  lemma {:induction false} RunKeeps(k: Kernel, s: Sched, ops: seq<Op>)
    requires EngineInv(k, s)
    ensures EngineInv(k, Run(k, s, ops))
    decreases |ops|
  {
    hide EngineInv, Do;
    if ops != [] {
      DoKeeps(k, s, ops[0]);
      RunKeeps(k, Do(k, s, ops[0]), ops[1..]);
    }
  }

  // ---------------------------------------------------------------- what a request keeps, and what work is left

  /** The same request later on: same prompt and parameters, tokens only appended. */
  ghost predicate Follows(a: SeqData, b: SeqData) {
    && b.id == a.id && b.promptCount == a.promptCount && b.params == a.params && a.tokens <= b.tokens
    && (a.status == Finished ==> b == a)
  }

  ghost predicate AllFollow(s: Sched, t: Sched) {
    && t.eos == s.eos && t.config == s.config && t.state.shape == s.state.shape
    && t.sequences.Keys == s.sequences.Keys
    && forall id :: id in s.sequences ==>
         && Follows(s.sequences[id], t.sequences[id])
         && (t.sequences[id].reason == Cancelled ==> s.sequences[id].reason == Cancelled)
  }

  lemma FollowTransitive(s: Sched, t: Sched, u: Sched)
    requires AllFollow(s, t) && AllFollow(t, u)
    ensures AllFollow(s, u)
  {
    forall id | id in s.sequences ensures Follows(s.sequences[id], u.sequences[id]) {
      assert Follows(s.sequences[id], t.sequences[id]) && Follows(t.sequences[id], u.sequences[id]);
    }
  }

  /** Tokens that still have to pass through the model for one sequence. */
  function Left(q: SeqData): nat {
    if q.processed < Horizon(q) then Horizon(q) - q.processed else 0
  }

  ghost function LeftOf(s: Sched): map<nat, nat> {
    map id | id in s.sequences && s.sequences[id].status != Finished :: Left(s.sequences[id])
  }

  /** The bound on the batches that can still complete. */
  ghost function Work(s: Sched): nat {
    Total(LeftOf(s))
  }

  lemma SettleLeaves(q: SeqData, sample: bool, token: Token, eos: Token)
    requires LiveOk(q) && 0 < q.scheduled
    ensures var r := Settle(q, sample, token, eos);
            && (r.1 == Gone <==> r.0.status == Finished)
            && (r.1 != Gone ==> Left(r.0) < Left(q))
            && 0 < Left(q) && Follows(q, r.0) && r.0.reason != Cancelled
  {
  }

  lemma ItemWork(s: Sched, phase: Phase, items: seq<Item>, token: Token, saves: bool,
                 r: (Sched, Result<Option<Update>, SchedError>))
    requires Inv(s, phase, items) && items != []
    requires r == s.CompleteItem(phase, items[0], token, saves)
    ensures Work(r.0) < Work(s) && AllFollow(s, r.0)
  {
    hide Inv, Sched.CompleteItem, Settle, Cache.Valid, Left, LiveOk, Settled, Follows;
    ItemFacts(s, phase, items);
    CompleteItemShifts(s, phase, items, token, saves);
    var q := s.sequences[items[0].id];
    var settled := Settle(q, items[0].sample, token, s.eos);
    SettleLeaves(q, items[0].sample, token, s.eos);
    ShiftedWork(s, phase, settled.0, settled.1, r.0) by {
      SettledId(q, phase, settled);
      LiveStatus(q);
    }
    ShiftedFollow(s, phase, settled.0, settled.1, r.0) by {
      SettledId(q, phase, settled);
    }
  }

  lemma SettledId(q: SeqData, phase: Phase, r: (SeqData, Place))
    requires Settled(q, phase, r)
    ensures r.0.id == q.id
  {
  }

  lemma LiveStatus(q: SeqData)
    requires LiveOk(q)
    ensures q.status != Finished
  {
  }

  lemma ShiftedWork(s: Sched, phase: Phase, q: SeqData, place: Place, t: Sched)
    requires q.id in s.sequences && s.sequences[q.id].status != Finished && Shifted(s, phase, q, place, t)
    requires place == Gone <==> q.status == Finished
    requires place != Gone ==> Left(q) < Left(s.sequences[q.id])
    requires 0 < Left(s.sequences[q.id])
    ensures Work(t) < Work(s)
  {
    hide Left, Cache.Valid;
    if place == Gone {
      assert LeftOf(t) == LeftOf(s) - {q.id};
      TotalRemove(LeftOf(s), q.id);
    } else {
      assert LeftOf(t) == LeftOf(s)[q.id := Left(q)];
      TotalUpdate(LeftOf(s), q.id, Left(q));
    }
  }

  lemma ShiftedFollow(s: Sched, phase: Phase, q: SeqData, place: Place, t: Sched)
    requires q.id in s.sequences && Follows(s.sequences[q.id], q) && q.reason != Cancelled && Shifted(s, phase, q, place, t)
    ensures AllFollow(s, t)
  {
    hide Cache.Valid;
  }

  lemma AllFollowRefl(s: Sched)
    ensures AllFollow(s, s)
  {
  }

  lemma {:induction false} ItemsWork(s: Sched, phase: Phase, items: seq<Item>, samples: seq<Token>,
                                     updates: seq<Update>, saves: set<nat>, r: (Sched, Result<seq<Update>, SchedError>))
    requires Inv(s, phase, items) && !s.state.open
    requires |samples| == CountSamples(items)
    requires r == s.CompleteItems(phase, items, samples, updates, saves)
    ensures Work(r.0) + |items| <= Work(s) && AllFollow(s, r.0)
    decreases |items|
  {
    hide Inv, Sched.CompleteItem, AllFollow, Work;
    if items != [] {
      CountSamplesCons(items);
      var token := if items[0].sample then samples[0] else 0;
      var done := s.CompleteItem(phase, items[0], token, items[0].id in saves);
      CompleteItemKeeps(s, phase, items, token, items[0].id in saves, done);
      ItemWork(s, phase, items, token, items[0].id in saves, done);
      var rest := if items[0].sample then samples[1..] else samples;
      var more := if done.1.value.Some? then updates + [done.1.value.value] else updates;
      ItemsWork(done.0, phase, items[1..], rest, more, saves, r);
      FollowTransitive(s, done.0, r.0);
    } else {
      AllFollowRefl(s);
    }
  }

  // ---------------------------------------------------------------- every operation

  /** Reserving changes no sequence's request or remaining work. */
  lemma ReservedFollow(s: Sched, t: Sched)
    requires OnlyReservations(s, t)
    requires forall id :: id in s.sequences && s.sequences[id].status == Finished ==>
               s.sequences[id].scheduled == t.sequences[id].scheduled
    ensures Work(t) == Work(s) && AllFollow(s, t)
  {
    hide Left;
    forall id | id in s.sequences
      ensures t.sequences[id].status == s.sequences[id].status && Left(t.sequences[id]) == Left(s.sequences[id])
      ensures Follows(s.sequences[id], t.sequences[id])
    {
      assert SameWork(s.sequences[id], t.sequences[id]);
      LeftSame(s.sequences[id], t.sequences[id]);
    }
    assert LeftOf(t) == LeftOf(s);
  }

  lemma LeftSame(a: SeqData, b: SeqData)
    requires SameWork(a, b)
    ensures Left(a) == Left(b)
  {
  }

  lemma FinishedUnscheduled(s: Sched, phase: Phase, items: seq<Item>)
    requires Inv(s, phase, items)
    ensures forall id :: id in s.sequences && s.sequences[id].status == Finished ==> s.sequences[id].scheduled == 0
  {
    forall id | id in s.sequences && s.sequences[id].status == Finished ensures s.sequences[id].scheduled == 0 {
      assert MemberOk(s, id);
    }
  }

  lemma SameSequencesFollow(s: Sched, t: Sched)
    requires t.sequences == s.sequences && t.eos == s.eos && t.config == s.config && t.state.shape == s.state.shape
    ensures AllFollow(s, t) && Work(t) == Work(s)
  {
    assert LeftOf(t) == LeftOf(s);
  }

  lemma CompleteWork(t: Sched, b: Batch, samples: seq<Token>, saves: set<nat>)
    requires SchedInv(t) && t.active == Some(b) && |samples| == CountSamples(b.items)
    ensures Work(Completed(t, b, samples, saves).0) + |b.items| <= Work(t)
    ensures AllFollow(t, Completed(t, b, samples, saves).0)
  {
    hide Inv, Sched.CompleteItems, AllFollow, Work;
    ClosedKeeps(t, b.phase, b.items, true);
    var closed := Closed(t, true);
    var done := closed.CompleteItems(b.phase, b.items, samples, [], saves);
    ItemsWork(closed, b.phase, b.items, samples, [], saves, done);
    SameSequencesFollow(t, closed);
    FollowTransitive(t, closed, done.0);
    var r := t.Complete(b.id, samples, saves);
    SameSequencesFollow(done.0, r.0);
    FollowTransitive(t, done.0, r.0);
  }

  lemma ScheduledFollow(k: Kernel, s: Sched)
    requires EngineInv(k, s) && s.Schedule().1.Ok?
    ensures Work(s.Schedule().0) == Work(s) && AllFollow(s, s.Schedule().0)
  {
    hide Inv, Resting, Grew, Sched.Schedule, AllFollow, Work;
    ScheduledRests(k, s);
    var t, b := s.Schedule().0, s.Schedule().1.value;
    var o := s.Opening().(active := Some(b), nextBatch := s.nextBatch + 1);
    ActiveNonempty(t, b);
    FinishedUnscheduled(t, b.phase, b.items);
    Idle(s);
    forall id | id in o.sequences && o.sequences[id].status == Finished
      ensures o.sequences[id].scheduled == t.sequences[id].scheduled
    {
      assert SameWork(o.sequences[id], t.sequences[id]);
    }
    ReservedFollow(o, t);
    SameSequencesFollow(s, o);
    FollowTransitive(s, o, t);
  }

  lemma UnharmedShape(h: Hybrid, g: Hybrid)
    requires Unharmed(h, g)
    ensures g.shape == h.shape
  {
  }

  /** A successful step strictly decreases the work left, by at least one per item; a failed one leaves it alone. */
  lemma StepWorks(k: Kernel, s: Sched, env: StepEnv)
    requires EngineInv(k, s)
    ensures AllFollow(s, Step(k, s, env).0)
    ensures if Step(k, s, env).1.Ok? then Work(Step(k, s, env).0) < Work(s) else Work(Step(k, s, env).0) == Work(s)
  {
    hide Inv, Resting, Unharmed, Sched.Schedule, RunBatch, AllFollow, Work, Completed, Wanted;
    var r := Step(k, s, env);
    if r.1.Err? {
      StepKeeps(k, s, env);
      UnharmedShape(s.state, r.0.state);
      SameSequencesFollow(s, r.0);
    } else {
      ScheduledRests(k, s);
      ScheduledFollow(k, s);
      var t, b := s.Schedule().0, s.Schedule().1.value;
      RunBatchRan(k, t, b, env);
      var u, samples, saves :| r == Completed(u, b, samples, saves) && Passed(k, t, b, u, samples);
      ActiveNonempty(u, b);
      SameSequencesFollow(t, u);
      CompleteWork(u, b, samples, saves);
      FollowTransitive(s, t, u);
      FollowTransitive(s, u, r.0);
    }
  }

  /** What one operation keeps of a request. */
  ghost predicate Carried(s: Sched, t: Sched, id: nat) {
    && t.eos == s.eos && t.config == s.config && t.state.shape == s.state.shape
    && (id in s.sequences ==> id in t.sequences && Follows(s.sequences[id], t.sequences[id]))
  }

  lemma AddCarries(s: Sched, q: SeqData, env: AdmitEnv, id: nat)
    requires SchedInv(s) && q.Valid()
    ensures Carried(s, s.TryAdd(q, env).0, id)
  {
    hide SchedInv, Sched.TryAdd, Hybrid.Sound, Cache.Valid, HasRoom, Sched.FitsCache, Pristine;
    TryAddKeeps(s, q, env);
    var r := s.TryAdd(q, env);
    if r.0 != s {
      if r.1.Ok? {
        EnteredShape(s, r.0.sequences[q.id], r.0);
      } else {
        RefusedShape(s, q.id, r.0);
      }
    }
  }

  lemma CancelCarries(s: Sched, other: nat, id: nat)
    requires SchedInv(s)
    ensures Carried(s, s.Cancel(other).0, id)
  {
    hide Inv, Sched.Cancel;
    CancelKeeps(s, other);
  }

  lemma DoCarries(k: Kernel, s: Sched, op: Op, id: nat)
    requires EngineInv(k, s) && op != RemoveOp(id)
    ensures Carried(s, Do(k, s, op), id)
  {
    hide SchedInv, Resting, Step, Sched.TryAdd, Sched.Cancel, Sched.Remove, Follows;
    match op {
      case AddOp(q, env) =>
        if q.Valid() {
          AddCarries(s, q, env, id);
        } else {
          AllFollowRefl(s);
        }
      case StepOp(env) => StepWorks(k, s, env);
      case CancelOp(other) => CancelCarries(s, other, id);
      case RemoveOp(other) =>
        RemoveKeeps(s, other);
        AllFollowRefl(s);
    }
  }

  /** A request that is not removed stays, with the prompt and the parameters it came with. */
  lemma {:induction false} RunCarries(k: Kernel, s: Sched, ops: seq<Op>, id: nat)
    requires EngineInv(k, s) && id in s.sequences && RemoveOp(id) !in ops
    ensures Carried(s, Run(k, s, ops), id)
    decreases |ops|
  {
    hide EngineInv, Do;
    if ops != [] {
      DoKeeps(k, s, ops[0]);
      DoCarries(k, s, ops[0], id);
      RunCarries(k, Do(k, s, ops[0]), ops[1..], id);
    } else {
      AllFollowRefl(s);
    }
  }

  // ---------------------------------------------------------------- the main results

  /** What a request's tokens look like from outside: its prompt, and greedy generation up to where it is. */
  ghost predicate Answered(k: Kernel, prompt: seq<Token>, params: Params, eos: Token, q: SeqData)
    requires prompt != [] && 0 < params.maxNewTokens
  {
    if q.reason == Eos || q.reason == LenLimit
    then Outcome(q.tokens, q.reason) == Greedy(k, prompt, params, eos)
    else Unstopped(k, prompt, q.tokens, params, eos)
  }

  /** Once admitted, whatever else is admitted, chunked, failed, retried, cancelled, restored or evicted meanwhile,
      a request's tokens are its prompt followed by its one-sequence greedy generation; and when it finishes by itself
      they are exactly the reference answer. */
  lemma RunsAnswerGreedily(k: Kernel, s: Sched, q: SeqData, env: AdmitEnv, ops: seq<Op>)
    requires EngineInv(k, s) && q.Valid() && s.TryAdd(q, env).1 == Ok(Admitted)
    requires RemoveOp(q.id) !in ops
    ensures var end := Run(k, s.TryAdd(q, env).0, ops);
            q.id in end.sequences && q.tokens != [] && Answered(k, q.tokens, q.params, s.eos, end.sequences[q.id])
  {
    hide SchedInv, Resting, Sched.TryAdd, Entered, HasRoom, Sched.FitsCache, Unstopped, Run, Follows;
    TryAddKeeps(s, q, env);
    TryAddRests(k, s, q, env);
    var t := s.TryAdd(q, env).0;
    var p := t.sequences[q.id];
    AddCarries(s, q, env, q.id);
    RunCarries(k, t, ops, q.id);
    RunKeeps(k, t, ops);
    var end := Run(k, t, ops);
    ToldAt(k, end, q.id);
    SamePrompt(q, p, end.sequences[q.id]);
  }

  lemma ToldAt(k: Kernel, s: Sched, id: nat)
    requires EngineInv(k, s) && id in s.sequences
    ensures Told(k, s.sequences[id], s.eos)
  {
    hide SchedInv, Told, Housed, CacheFaithful;
  }

  lemma SamePrompt(q: SeqData, p: SeqData, d: SeqData)
    requires Pristine(q) && SameRequest(q, p) && Follows(p, d) && d.promptCount <= |d.tokens|
    ensures d.Prompt() == q.tokens && d.params == q.params
  {
  }

  /** One generation is a prefix of the other; once both stopped by themselves, they are the same. */
  ghost predicate Agree(a: SeqData, b: SeqData) {
    && (a.tokens <= b.tokens || b.tokens <= a.tokens)
    && (a.reason in {Eos, LenLimit} && b.reason in {Eos, LenLimit} ==> a.tokens == b.tokens && a.reason == b.reason)
  }

  lemma AnswersAgree(k: Kernel, prompt: seq<Token>, params: Params, eos: Token, a: SeqData, b: SeqData)
    requires prompt != [] && 0 < params.maxNewTokens
    requires Answered(k, prompt, params, eos, a) && Answered(k, prompt, params, eos, b)
    ensures Agree(a, b)
  {
    hide Unstopped, GreedyFrom, Generated;
    AnswersGenerated(k, prompt, params, eos, a);
    AnswersGenerated(k, prompt, params, eos, b);
    var m, n := |a.tokens| - |prompt|, |b.tokens| - |prompt|;
    if m <= n {
      GeneratedPrefix(k, prompt, m, n);
    } else {
      GeneratedPrefix(k, prompt, n, m);
    }
  }

  /** Two engines with the same model answer a request alike, whatever their caches, loads and limits: warm equals cold. */
  lemma WarmEqualsCold(k: Kernel, s1: Sched, s2: Sched, q1: SeqData, q2: SeqData, env1: AdmitEnv, env2: AdmitEnv,
                       ops1: seq<Op>, ops2: seq<Op>)
    requires EngineInv(k, s1) && q1.Valid() && s1.TryAdd(q1, env1).1 == Ok(Admitted) && RemoveOp(q1.id) !in ops1
    requires EngineInv(k, s2) && q2.Valid() && s2.TryAdd(q2, env2).1 == Ok(Admitted) && RemoveOp(q2.id) !in ops2
    requires q1.tokens == q2.tokens && q1.params == q2.params && s1.eos == s2.eos
    ensures var end1, end2 := Run(k, s1.TryAdd(q1, env1).0, ops1), Run(k, s2.TryAdd(q2, env2).0, ops2);
            q1.id in end1.sequences && q2.id in end2.sequences
            && Agree(end1.sequences[q1.id], end2.sequences[q2.id])
  {
    hide EngineInv, Run, Sched.TryAdd, Answered, Agree;
    RunsAnswerGreedily(k, s1, q1, env1, ops1);
    RunsAnswerGreedily(k, s2, q2, env2, ops2);
    AnswersAgree(k, q1.tokens, q1.params, s1.eos,
                 Run(k, s1.TryAdd(q1, env1).0, ops1).sequences[q1.id],
                 Run(k, s2.TryAdd(q2, env2).0, ops2).sequences[q2.id]);
  }

  lemma {:induction false} GeneratedPrefix(k: Kernel, prompt: seq<Token>, m: nat, n: nat)
    requires prompt != [] && m <= n
    ensures Generated(k, prompt, m) <= Generated(k, prompt, n)
    decreases n
  {
    if m < n {
      GeneratedPrefix(k, prompt, m, n - 1);
    }
  }

  lemma {:induction false} GreedyFromGenerates(k: Kernel, prompt: seq<Token>, n: nat, params: Params, eos: Token)
    requires prompt != [] && n < params.maxNewTokens
    ensures var r := GreedyFrom(k, Generated(k, prompt, n), |prompt|, params, eos).tokens;
            |prompt| <= |r| && r == Generated(k, prompt, |r| - |prompt|)
    decreases params.maxNewTokens - n
  {
    hide Next;
    GeneratedStep(k, prompt, n);
    var token := Next(k, Generated(k, prompt, n));
    if !(!params.ignoreEos && token == eos) && n + 1 < params.maxNewTokens {
      GreedyFromGenerates(k, prompt, n + 1, params, eos);
    }
  }

  lemma AnswersGenerated(k: Kernel, prompt: seq<Token>, params: Params, eos: Token, q: SeqData)
    requires prompt != [] && 0 < params.maxNewTokens && Answered(k, prompt, params, eos, q)
    ensures |prompt| <= |q.tokens| && q.tokens == Generated(k, prompt, |q.tokens| - |prompt|)
  {
    hide Next, GreedyFrom;
    GreedyFromGenerates(k, prompt, 0, params, eos);
  }

  // ---------------------------------------------------------------- termination

  /** n steps whose forward passes all succeed. */
  ghost function Steady(k: Kernel, s: Sched, n: nat, saves: set<nat>): Sched
    decreases n
  {
    if n == 0 then s else Steady(k, Step(k, s, StepEnv(NoFault, saves)).0, n - 1, saves)
  }

  /** Limits under which no batch can be rejected. */
  ghost predicate Servable(s: Sched) {
    PositionsFit(s) && s.state.shape.maxPositions <= MAX_U32 + 1 && Small(s.state)
  }

  lemma NoWorkNoLive(k: Kernel, s: Sched)
    requires EngineInv(k, s) && !(s.waiting == [] && s.running == [])
    ensures 0 < Work(s)
  {
    hide Resting, PendingOk, ResourcesOk, Left;
    var id := if s.waiting != [] then s.waiting[0] else s.running[0];
    assert id in s.waiting || id in s.running;
    assert MemberOk(s, id);
    LiveLeft(s.sequences[id]);
    TotalRemove(LeftOf(s), id);
  }

  lemma LiveLeft(q: SeqData)
    requires LiveOk(q)
    ensures 0 < Left(q) && q.status != Finished
  {
  }

  lemma StepServable(k: Kernel, s: Sched, env: StepEnv)
    requires EngineInv(k, s) && Servable(s)
    ensures Servable(Step(k, s, env).0)
  {
    hide Inv, Resting, Step;
    StepKeeps(k, s, env);
    StepWorks(k, s, env);
    var t := Step(k, s, env).0;
    forall id | id in t.sequences && t.sequences[id].status != Finished
      ensures Horizon(t.sequences[id]) <= t.state.shape.maxPositions
    {
      assert Follows(s.sequences[id], t.sequences[id]);
    }
    assert s.state.pages.count == t.state.pages.count && s.state.pages.size == t.state.pages.size by {
      PoolIsConfigured(s);
      PoolIsConfigured(t);
    }
  }

  lemma PoolIsConfigured(s: Sched)
    requires SchedInv(s) && s.active == None
    ensures s.state.pages.count == s.config.kvBlockCount && s.state.pages.size == s.config.kvBlockSize
  {
    hide QueuesOk, PendingOk, Hybrid.Sound;
  }

  /** Every request that was live is finished, with exactly its reference answer; what was finished stays as it was. */
  ghost predicate AllAnswered(k: Kernel, s: Sched, t: Sched) {
    t.sequences.Keys == s.sequences.Keys
      && forall id :: id in s.sequences ==> AnsweredAt(k, s.sequences[id], t.sequences[id], s.eos)
  }

  ghost predicate AnsweredAt(k: Kernel, a: SeqData, b: SeqData, eos: Token) {
    if a.status == Finished then b == a
    else
      && 0 < a.promptCount <= |a.tokens| && 0 < a.params.maxNewTokens
      && b.status == Finished && b.reason in {Eos, LenLimit}
      && Outcome(b.tokens, b.reason) == Greedy(k, a.Prompt(), a.params, eos)
  }

  lemma NothingLeft(k: Kernel, s: Sched)
    requires EngineInv(k, s) && s.waiting == [] && s.running == []
    ensures Work(s) == 0
  {
    hide Resting, PendingOk, ResourcesOk, Left;
    forall id | id in s.sequences ensures s.sequences[id].status == Finished {
      assert MemberOk(s, id);
    }
    assert LeftOf(s) == map[];
  }

  lemma StepProgress(k: Kernel, s: Sched, env: StepEnv)
    requires EngineInv(k, s) && Servable(s) && env.fault == NoFault
    ensures Work(s) == 0 || Work(Step(k, s, env).0) < Work(s)
    ensures Work(s) == 0 ==> Work(Step(k, s, env).0) == 0
  {
    hide EngineInv, Step, Work, PositionsFit;
    StepWorks(k, s, env);
    if s.waiting == [] && s.running == [] {
      NothingLeft(k, s);
    } else {
      SmallNext(k, s);
      StepSucceeds(k, s, env);
    }
  }

  lemma {:induction false} SteadyFinishes(k: Kernel, s: Sched, n: nat, saves: set<nat>)
    requires EngineInv(k, s) && Servable(s) && Work(s) <= n
    ensures var t := Steady(k, s, n, saves); EngineInv(k, t) && AllFollow(s, t) && t.IsFinished()
    decreases n
  {
    hide EngineInv, Servable, AllFollow, Step, Work;
    if n > 0 {
      var env := StepEnv(NoFault, saves);
      var t := Step(k, s, env).0;
      StepKeeps(k, s, env);
      StepWorks(k, s, env);
      StepServable(k, s, env);
      StepProgress(k, s, env);
      SteadyFinishes(k, t, n - 1, saves);
      FollowTransitive(s, t, Steady(k, t, n - 1, saves));
    } else {
      AllFollowRefl(s);
      Drained(k, s);
    }
  }

  lemma Drained(k: Kernel, s: Sched)
    requires EngineInv(k, s) && Work(s) == 0
    ensures s.IsFinished()
  {
    hide SchedInv, Resting, Work;
    if !(s.waiting == [] && s.running == []) {
      NoWorkNoLive(k, s);
    }
  }

  /** Left alone, the engine finishes within as many steps as there are tokens left to process, and then every request
      holds exactly its one-sequence greedy answer. */
  lemma DrainsWithAnswers(k: Kernel, s: Sched, n: nat, saves: set<nat>)
    requires EngineInv(k, s) && Servable(s) && Work(s) <= n
    ensures Steady(k, s, n, saves).IsFinished()
    ensures AllAnswered(k, s, Steady(k, s, n, saves))
  {
    hide EngineInv, Servable, Steady, Follows, Work;
    SteadyFinishes(k, s, n, saves);
    var t := Steady(k, s, n, saves);
    forall id | id in s.sequences ensures AnsweredAt(k, s.sequences[id], t.sequences[id], s.eos) {
      ToldAt(k, t, id);
      FinishedMember(k, t, id);
      if s.sequences[id].status != Finished {
        LiveMember(k, s, id);
      }
      AnsweredFromTold(k, s.sequences[id], t.sequences[id], s.eos);
    }
  }

  lemma LiveMember(k: Kernel, s: Sched, id: nat)
    requires EngineInv(k, s) && id in s.sequences && s.sequences[id].status != Finished
    ensures s.sequences[id].reason == NoReason && s.sequences[id].promptCount <= |s.sequences[id].tokens|
  {
    hide Resting, PendingOk, ResourcesOk;
    assert MemberOk(s, id);
  }

  lemma FinishedMember(k: Kernel, s: Sched, id: nat)
    requires EngineInv(k, s) && s.IsFinished() && id in s.sequences
    ensures s.sequences[id].status == Finished && s.sequences[id].reason != NoReason
  {
    hide Resting, PendingOk, ResourcesOk;
    assert MemberOk(s, id);
  }

  lemma AnsweredFromTold(k: Kernel, a: SeqData, b: SeqData, eos: Token)
    requires Told(k, b, eos) && Follows(a, b) && b.status == Finished && b.reason != NoReason
    requires b.reason == Cancelled ==> a.reason == Cancelled
    requires a.status != Finished ==> a.reason == NoReason && a.promptCount <= |a.tokens|
    ensures AnsweredAt(k, a, b, eos)
  {
    hide Unstopped, Greedy;
    if a.status != Finished {
      assert b.Prompt() == a.Prompt();
    }
  }
}

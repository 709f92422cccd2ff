/** The scheduler's calls in any order, with any arguments and with a batch in flight or not: src/scheduler.cc:102-490.
    The engine takes a step as one piece; here every call is a step of its own. */
module Interleavings {
  import opened Wrappers
  import opened Sequences
  import opened Kernels
  import opened Batches
  import opened HybridStates
  import opened Execution
  import opened Scheduling
  import opened Invariants
  import opened Selection
  import opened Protocol
  import opened Lifecycle
  import opened Engine
  import opened Steps

  datatype Call =
    | AddCall(q: SeqData, env: AdmitEnv)
    | CancelCall(id: nat)
    | RemoveCall(id: nat)
    | ScheduleCall
    | BeginCall(b: ModelBatch)
    | WriteCall(g: Hybrid)
    | CompleteCall(id: nat, samples: seq<Token>, saves: set<nat>)
    | AbortCall(id: nat)

  /** Sequences come from make; the runner writes slots and memories, and only while a batch is in flight. */
  ghost function Made(s: Sched, c: Call): Sched {
    match c
    case AddCall(q, env) => if q.Valid() then s.TryAdd(q, env).0 else s
    case CancelCall(id) => s.Cancel(id).0
    case RemoveCall(id) => s.Remove(id).0
    case ScheduleCall => s.Schedule().0
    case BeginCall(b) => s.BeginExecution(b).0
    case WriteCall(g) => if s.active.Some? && SameFrame(s.state, g) then s.(state := g) else s
    case CompleteCall(id, samples, saves) => s.Complete(id, samples, saves).0
    case AbortCall(id) => s.Abort(id).0
  }

  ghost function Calls(s: Sched, calls: seq<Call>): Sched
    decreases |calls|
  {
    if calls == [] then s else Calls(Made(s, calls[0]), calls[1..])
  }

  lemma CallKeeps(s: Sched, c: Call)
    requires SchedInv(s)
    ensures SchedInv(Made(s, c))
  {
    hide SchedInv, Sched.TryAdd, Sched.Cancel, Sched.Remove, Sched.Schedule, Sched.BeginExecution, Sched.Complete, Sched.Abort,
      SameFrame;
    match c {
      case AddCall(q, env) =>
        if q.Valid() {
          TryAddKeeps(s, q, env);
        }
      case CancelCall(id) => CancelKeeps(s, id);
      case RemoveCall(id) => RemoveKeeps(s, id);
      case ScheduleCall => ScheduleKeeps(s);
      case BeginCall(b) => BeginKeeps(s, b);
      case WriteCall(g) =>
        if s.active.Some? && SameFrame(s.state, g) {
          ExecuteKeeps(s, g);
        }
      case CompleteCall(id, samples, saves) => CompleteKeeps(s, id, samples, saves);
      case AbortCall(id) => AbortKeeps(s, id);
    }
  }

  /** Queues, budgets, pages and cache stay consistent under every interleaving of calls, accepted or refused. */
  lemma {:induction false} CallsKeep(s: Sched, calls: seq<Call>)
    requires SchedInv(s)
    ensures SchedInv(Calls(s, calls))
    decreases |calls|
  {
    hide SchedInv, Made;
    if calls != [] {
      CallKeeps(s, calls[0]);
      CallsKeep(Made(s, calls[0]), calls[1..]);
    }
  }

  // ---------------------------------------------------------------- a batch in flight

  /** Ends this batch: its result with the right count, or its abort. */
  predicate Ends(b: Batch, c: Call) {
    || (c.AbortCall? && c.id == b.id)
    || (c.CompleteCall? && c.id == b.id && |c.samples| == CountSamples(b.items))
  }

  /** All but slots, memories, snapshots and the transaction: the page tables too. */
  ghost predicate Held(s: Sched, t: Sched) {
    && t == s.(state := t.state, transaction := t.transaction)
    && t.state.pages == s.state.pages && t.state.shape == s.state.shape
  }

  lemma BegunHeld(s: Sched, b: ModelBatch)
    requires SchedInv(s)
    ensures Held(s, s.BeginExecution(b).0)
  {
    hide SchedInv;
    BeginKeeps(s, b);
    hide Hybrid.Startable;
  }

  lemma CallHeld(s: Sched, b: Batch, c: Call)
    requires SchedInv(s) && s.active == Some(b) && !Ends(b, c)
    ensures Held(s, Made(s, c)) && Made(s, c).active == Some(b)
  {
    hide SchedInv, Sched.BeginExecution, Sched.Admit, CountSamples;
    if c.BeginCall? {
      BegunHeld(s, c.b);
    }
  }

  /** While a batch is in flight nothing but its own end touches queues, requests, turn, cache and page tables, so what the
      runner was told stays true: admissions, cancellations, removals, a second schedule and foreign results change nothing. */
  lemma {:induction false} NothingMovesInFlight(s: Sched, b: Batch, calls: seq<Call>)
    requires SchedInv(s) && s.active == Some(b) && forall c :: c in calls ==> !Ends(b, c)
    ensures Held(s, Calls(s, calls)) && Calls(s, calls).active == Some(b)
    decreases |calls|
  {
    hide SchedInv, Made, Ends;
    if calls != [] {
      CallKeeps(s, calls[0]);
      CallHeld(s, b, calls[0]);
      NothingMovesInFlight(Made(s, calls[0]), b, calls[1..]);
    }
  }

  // ---------------------------------------------------------------- a batch that is over

  /** No batch of that number is in flight, and none will be. */
  ghost predicate Over(s: Sched, id: nat) {
    id < s.nextBatch && (s.active.Some? ==> s.active.value.id != id)
  }

  lemma {:induction false} ItemsNumber(s: Sched, phase: Phase, items: seq<Item>, samples: seq<Token>, updates: seq<Update>,
                                       saves: set<nat>)
    ensures var t := s.CompleteItems(phase, items, samples, updates, saves).0; t.nextBatch == s.nextBatch && t.active == s.active
    decreases |items|
  {
    hide Sched.CompleteItem;
    if items != [] && !(items[0].sample && samples == []) {
      var token := if items[0].sample then samples[0] else 0;
      var done := s.CompleteItem(phase, items[0], token, items[0].id in saves);
      ItemNumber(s, phase, items[0], token, items[0].id in saves);
      if done.1.Ok? {
        ItemsNumber(done.0, phase, items[1..], if items[0].sample then samples[1..] else samples,
                    if done.1.value.Some? then updates + [done.1.value.value] else updates, saves);
      }
    }
  }

  lemma ItemNumber(s: Sched, phase: Phase, item: Item, token: Token, saves: bool)
    ensures var t := s.CompleteItem(phase, item, token, saves).0; t.nextBatch == s.nextBatch && t.active == s.active
  {
    hide Hybrid.Release;
  }

  lemma CompleteNumber(s: Sched, id: nat, samples: seq<Token>, saves: set<nat>)
    ensures var t := s.Complete(id, samples, saves).0; t.nextBatch == s.nextBatch && (t.active == s.active || t.active == None)
  {
    hide Sched.CompleteItems, Sched.NextTurn;
    if s.active.Some? {
      var b := s.active.value;
      ItemsNumber(if s.transaction then s.(state := s.state.CommitBatch(), transaction := false) else s,
                  b.phase, b.items, samples, [], saves);
    }
  }

  lemma AbortNumber(s: Sched, id: nat)
    requires SchedInv(s)
    ensures var t := s.Abort(id).0; t.nextBatch == s.nextBatch && (t.active == s.active || t.active == None)
  {
    hide Inv, Sched.RollBack, Residence.Grew;
    if s.active.Some? {
      var b := s.active.value;
      ClosedKeeps(s, b.phase, b.items, false);
      RollBackKeeps(Closed(s, false), b.phase, b.items, Closed(s, false).RollBack(b.items));
    }
  }

  lemma ScheduleNumber(s: Sched)
    requires SchedInv(s)
    ensures var t := s.Schedule().0;
            (t.active == s.active && t.nextBatch == s.nextBatch)
            || (t.active.Some? && t.active.value.id == s.nextBatch && t.nextBatch == s.nextBatch + 1)
  {
    hide SchedInv, Sched.Schedule, PositionsFit, Residence.Grew, SameWork;
    ScheduleKeeps(s);
  }

  lemma AddNumber(s: Sched, q: SeqData, env: AdmitEnv)
    requires SchedInv(s) && q.Valid()
    ensures var t := s.TryAdd(q, env).0; t.nextBatch == s.nextBatch && t.active == s.active
  {
    hide SchedInv, Sched.TryAdd, Hybrid.Sound, PrefixCaching.Cache.Valid, HasRoom, Sched.FitsCache, Pristine, ApartFrom;
    TryAddKeeps(s, q, env);
  }

  lemma CallOver(s: Sched, c: Call, id: nat)
    requires SchedInv(s) && Over(s, id)
    ensures Over(Made(s, c), id)
  {
    hide SchedInv, Sched.TryAdd, Sched.Schedule, Sched.BeginExecution, Sched.Complete, Sched.Abort, SameFrame, Sched.TurnWithout,
      Without, Hybrid.Release, SeqData.Finish;
    match c {
      case AddCall(q, env) =>
        if q.Valid() {
          AddNumber(s, q, env);
        }
      case ScheduleCall => ScheduleNumber(s);
      case BeginCall(b) => BeginKeeps(s, b);
      case CompleteCall(other, samples, saves) => CompleteNumber(s, other, samples, saves);
      case AbortCall(other) => AbortNumber(s, other);
      case _ =>
    }
  }

  lemma {:induction false} StaysOver(s: Sched, calls: seq<Call>, id: nat)
    requires SchedInv(s) && Over(s, id)
    ensures Over(Calls(s, calls), id)
    decreases |calls|
  {
    hide SchedInv, Made, Over;
    if calls != [] {
      CallKeeps(s, calls[0]);
      CallOver(s, calls[0], id);
      StaysOver(Made(s, calls[0]), calls[1..], id);
    }
  }

  /** Whatever was called since the end of a batch, a late result or a second abort is refused and changes nothing. */
  lemma LateCall(s: Sched, b: Batch, end: Call, calls: seq<Call>, late: Call)
    requires SchedInv(s) && s.active == Some(b) && b.id < s.nextBatch && Ends(b, end) && Ends(b, late)
    ensures var t := Calls(Made(s, end), calls); Made(t, late) == t
  {
    hide SchedInv, Sched.Complete, Sched.Abort, Calls;
    CallKeeps(s, end);
    CloseOver(s, b, end);
    StaysOver(Made(s, end), calls, b.id);
    CallsKeep(Made(s, end), calls);
    LateRefused(Calls(Made(s, end), calls), b, late);
  }

  lemma CloseOver(s: Sched, b: Batch, end: Call)
    requires SchedInv(s) && s.active == Some(b) && b.id < s.nextBatch && Ends(b, end)
    ensures Over(Made(s, end), b.id) && Made(s, end).active == None
  {
    hide SchedInv, Sched.Complete, Sched.Abort, CountSamples, Completion.QueuesAdvance, Sched.RollBack;
    if end.CompleteCall? {
      CompleteKeeps(s, b.id, end.samples, end.saves);
      CompleteNumber(s, b.id, end.samples, end.saves);
    } else {
      AbortKeeps(s, b.id);
      AbortNumber(s, b.id);
    }
  }

  lemma LateRefused(t: Sched, b: Batch, late: Call)
    requires Over(t, b.id) && Ends(b, late)
    ensures Made(t, late) == t
  {
    hide Sched.CompleteItems, Sched.RollBack, CountSamples;
  }

  /** A scheduled batch is completed or aborted at most once: after any calls in flight, its end, and any further calls, a late
      result or a second abort is refused and changes nothing, even when the same requests are in flight again. */
  lemma EndsOnce(s: Sched, during: seq<Call>, end: Call, calls: seq<Call>, late: Call)
    requires SchedInv(s) && s.Schedule().1.Ok?
    requires forall c :: c in during ==> !Ends(s.Schedule().1.value, c)
    requires Ends(s.Schedule().1.value, end) && Ends(s.Schedule().1.value, late)
    ensures var t := Calls(Made(Calls(s.Schedule().0, during), end), calls); Made(t, late) == t
  {
    hide SchedInv, Sched.Schedule, PositionsFit, OnlyReservations, Ends, Calls, Made;
    ScheduleKeeps(s);
    ScheduleNumber(s);
    var b := s.Schedule().1.value;
    NothingMovesInFlight(s.Schedule().0, b, during);
    CallsKeep(s.Schedule().0, during);
    LateCall(Calls(s.Schedule().0, during), b, end, calls, late);
  }

  // ---------------------------------------------------------------- a step with calls in between

  /** Refused because a batch is in flight. */
  predicate Deaf(s: Sched, c: Call) {
    s.active.Some? && (c.AddCall? || c.CancelCall? || c.RemoveCall? || c.ScheduleCall?)
  }

  lemma DeafSame(s: Sched, c: Call)
    requires Deaf(s, c)
    ensures Made(s, c) == s
  {
    hide Sched.Admit;
  }

  /** The calls that are not refused for that reason. */
  ghost function Heard(s: Sched, calls: seq<Call>): seq<Call>
    decreases |calls|
  {
    if calls == [] then []
    else if Deaf(s, calls[0]) then Heard(s, calls[1..])
    else [calls[0]] + Heard(Made(s, calls[0]), calls[1..])
  }

  lemma {:induction false} OnlyHeardCount(s: Sched, calls: seq<Call>)
    ensures Calls(s, calls) == Calls(s, Heard(s, calls))
    decreases |calls|
  {
    hide Made, Deaf;
    if calls != [] {
      if Deaf(s, calls[0]) {
        DeafSame(s, calls[0]);
        OnlyHeardCount(s, calls[1..]);
      } else {
        OnlyHeardCount(Made(s, calls[0]), calls[1..]);
        var heard := Heard(s, calls);
        assert heard[1..] == Heard(Made(s, calls[0]), calls[1..]);
      }
    }
  }

  lemma FirstCall(s: Sched, c: Call, rest: seq<Call>)
    ensures Calls(s, [c] + rest) == Calls(Made(s, c), rest)
  {
    hide Made;
    assert ([c] + rest)[1..] == rest;
  }

  lemma FourCalls(s: Sched, a: Call, b: Call, c: Call, d: Call)
    ensures Calls(s, [a, b, c, d]) == Made(Made(Made(Made(s, a), b), c), d)
  {
    hide Made;
    var t := Made(s, a);
    FirstCall(s, a, [b, c, d]);
    FirstCall(t, b, [c, d]);
    FirstCall(Made(t, b), c, [d]);
    FirstCall(Made(Made(t, b), c), d, []);
    assert [a] + [b, c, d] == [a, b, c, d] && [b] + [c, d] == [b, c, d] && [c] + [d] == [c, d] && [d] + [] == [d];
  }

  /** The engine's step, with any calls of others in between: schedule, begin, the pass and complete make the same state. */
  lemma InterruptedStep(k: Kernel, s: Sched, calls: seq<Call>, env: StepEnv, m: ModelBatch, g: Hybrid, samples: seq<Token>)
    requires EngineInv(k, s) && s.Schedule().1.Ok?
    requires var t, b := s.Schedule().0, s.Schedule().1.value;
             && BuildModelBatch(b, t.sequences, t.state.pages) == Ok(m) && t.BeginExecution(m).1.Ok?
             && Execute(k, t.BeginExecution(m).0.state, m, env.fault) == (g, Some(samples)) && |samples| == m.SampleCount()
             && Heard(s, calls) == [ScheduleCall, BeginCall(m), WriteCall(g), CompleteCall(b.id, samples, env.saves)]
    ensures Step(k, s, env).1.Ok? && Calls(s, calls) == Step(k, s, env).0
  {
    hide EngineInv, Calls, Heard, Made, Step, Sched.Schedule, Sched.BeginExecution, BuildModelBatch, Execute;
    var t, b := s.Schedule().0, s.Schedule().1.value;
    OnlyHeardCount(s, calls);
    FourCalls(s, ScheduleCall, BeginCall(m), WriteCall(g), CompleteCall(b.id, samples, env.saves));
    StillActive(k, s, m);
    ExecuteFrame(k, t.BeginExecution(m).0.state, m, env.fault);
    MadeInTurn(s, m, g, b, samples, env.saves);
    StepIs(k, s, env, m, g, samples);
    StepKeeps(k, s, env);
  }

  lemma MadeInTurn(s: Sched, m: ModelBatch, g: Hybrid, b: Batch, samples: seq<Token>, saves: set<nat>)
    requires var u := s.Schedule().0.BeginExecution(m).0; u.active.Some? && SameFrame(u.state, g)
    ensures Made(Made(Made(Made(s, ScheduleCall), BeginCall(m)), WriteCall(g)), CompleteCall(b.id, samples, saves))
         == s.Schedule().0.BeginExecution(m).0.(state := g).Complete(b.id, samples, saves).0
  {
    hide Sched.Schedule, Sched.BeginExecution, Sched.Complete, SameFrame;
  }

  lemma StepIs(k: Kernel, s: Sched, env: StepEnv, m: ModelBatch, g: Hybrid, samples: seq<Token>)
    requires s.Schedule().1.Ok?
    requires var t, b := s.Schedule().0, s.Schedule().1.value;
             && BuildModelBatch(b, t.sequences, t.state.pages) == Ok(m) && t.BeginExecution(m).1.Ok?
             && Execute(k, t.BeginExecution(m).0.state, m, env.fault) == (g, Some(samples)) && |samples| == m.SampleCount()
    ensures var u := s.Schedule().0.BeginExecution(m).0.(state := g);
            var r := Step(k, s, env);
            if r.1.Ok? then r.0 == u.Complete(s.Schedule().1.value.id, samples, env.saves).0
            else r.1.error.CompletionFailed? || r.1.error.AbortFailed?
  {
    hide Sched.Schedule, Sched.BeginExecution, BuildModelBatch, Execute, Sched.Complete, Sched.Abort;
  }

  lemma StillActive(k: Kernel, s: Sched, m: ModelBatch)
    requires EngineInv(k, s) && s.Schedule().1.Ok?
    ensures s.Schedule().0.BeginExecution(m).0.active.Some?
  {
    hide SchedInv, Resting, Sched.Schedule, Sched.BeginExecution, PositionsFit, OnlyReservations;
    ScheduleKeeps(s);
    BeginKeeps(s.Schedule().0, m);
  }
}

/** What a failed step, or an aborted batch, does to the turn: with an empty waiting queue schedule has opened a decode round
    (src/scheduler.cc:252-258), and neither abort (src/scheduler.cc:431-452) nor a failure inside schedule closes it. */
module OpenedRounds {
  import opened Wrappers
  import opened Sums
  import opened Sequences
  import opened Paging
  import opened PrefixCaching
  import opened Kernels
  import opened Batches
  import opened HybridStates
  import opened Execution
  import opened Scheduling
  import opened Invariants
  import opened Selection
  import opened Protocol
  import opened Lifecycle
  import opened Engine
  import opened Steps
  import opened Retrying
  import opened Admission
  import opened Runs
  import opened Delivery
  import opened Fairness

  /** The turn is as it was unless schedule had a round to open, and then that round is open, over everything that runs. */
  ghost predicate TurnAfter(s: Sched, t: Sched) {
    && (t.turn == s.turn <==> !Opens(s))
    && (Opens(s) ==> t.turn == DecodeRound(|s.running|))
  }

  lemma OpeningTurn(s: Sched, t: Sched)
    requires TurnOk(s)
    requires t.turn == if s.waiting == [] && s.running == [] then s.turn else s.Opening().turn
    ensures TurnAfter(s, t)
  {
  }

  /** A failed step leaves the turn alone exactly when it opened no round. */
  lemma FailedTurn(k: Kernel, s: Sched, env: StepEnv)
    requires EngineInv(k, s) && Step(k, s, env).1.Err?
    ensures TurnAfter(s, Step(k, s, env).0)
  {
    hide Inv, Resting, Step, Unharmed;
    StepKeeps(k, s, env);
    OpeningTurn(s, Step(k, s, env).0);
  }

  /** So does schedule followed by abort. */
  lemma AbortedTurn(s: Sched, scheduled: (Sched, Result<Batch, SchedError>), aborted: (Sched, Result<(), SchedError>))
    requires SchedInv(s) && s.active == None
    requires scheduled == s.Schedule() && scheduled.1.Ok?
    requires aborted == scheduled.0.Abort(scheduled.1.value.id)
    ensures TurnAfter(s, aborted.0)
  {
    hide Inv, Sched.Schedule, Sched.Abort;
    ScheduleThenAbort(s, scheduled, aborted);
    ScheduledLive(s);
    OpeningTurn(s, aborted.0);
  }

  lemma ScheduledLive(s: Sched)
    requires s.Schedule().1.Ok?
    ensures !(s.waiting == [] && s.running == [])
  {
  }

  // ---------------------------------------------------------------- a step that changes the turn

  const ID := 1

  /** One request for three tokens after a prompt of one. */
  function Request(): SeqData {
    Sequences.Fresh(ID, [7], Params(3, true), [])
  }

  function Empty(k: Kernel, cell: Cell): Sched {
    Runs.Fresh(Config(1, 1, 3, 1, 1, 0), 0, Shape(3, 0, 0, k.zero), [cell, cell, cell], 0)
  }

  /** The engine right after that request was admitted. */
  function Admitted(k: Kernel, cell: Cell): Sched {
    Empty(k, cell).TryAdd(Request(), AdmitEnv(true, true, true)).0
  }

  ghost predicate Asks(q: SeqData, n: nat) {
    && q.id == ID && q.promptCount == 1 && q.params == Params(3, true) && |q.tokens| == 1 + n && q.status != Finished
  }

  /** The engine holds this request alone, with n tokens generated. */
  ghost predicate Alone(k: Kernel, s: Sched, n: nat) {
    && EngineInv(k, s) && Servable(s) && s.config.maxSequences == 1
    && s.sequences.Keys == {ID} && Asks(s.sequences[ID], n)
  }

  lemma RequestValid()
    ensures Pristine(Request()) && Request().Prompt() == [7]
  {
  }

  lemma PageTaken(p: Pages)
    requires p.tables == map[] && 0 < |p.free|
    ensures var r := p.Reserve(ID, 1); r.1.Ok? && r.0.count == p.count && r.0.size == p.size
    ensures BlocksFor(1, p.size) == 1 && p.Table(ID) == []
  {
    BlocksForBounds(1, p.size);
    assert BlocksFor(1, p.size) == 1;
  }

  lemma StateTaken(h: Hybrid)
    requires !h.open && h.sequences == map[] && h.pages.tables == map[] && 0 < |h.pages.free| && 1 <= h.shape.maxPositions
    ensures var r := h.Reserve(ID, 1, true);
            r.1.Ok? && r.0.shape == h.shape && r.0.pages.count == h.pages.count && r.0.pages.size == h.pages.size
  {
    PageTaken(h.pages);
    hide Pages.Reserve, BlocksFor, Pages.Table;
  }

  /** The first reservation of the empty pool succeeds. */
  lemma FirstPage(k: Kernel, cell: Cell)
    ensures var r := Empty(k, cell).state.Reserve(ID, 1, true);
            r.1.Ok? && r.0.shape == Shape(3, 0, 0, k.zero) && r.0.pages.count == 3 && r.0.pages.size == 1
  {
    hide Hybrid.Reserve;
    StateTaken(Empty(k, cell).state);
  }

  /** Nothing is stored yet. */
  lemma NothingFound(k: Kernel, cell: Cell)
    ensures Empty(k, cell).prefixes.Find(Request().Prompt()).1 == None
  {
  }

  /** The request fits the budget of the empty pool. */
  lemma RequestFits(k: Kernel, cell: Cell)
    ensures var s := Empty(k, cell); s.TryAdd(Request(), AdmitEnv(true, true, true)) == s.Admit(Request(), AdmitEnv(true, true, true))
  {
    hide Sched.Admit;
    var s := Empty(k, cell);
    assert Budget(Request(), 1) == 3 by {
      assert Horizon(Request()) == 3;
      assert BlocksFor(3, 1) == 3;
    }
    hide Budget;
    assert s.Promised(s.waiting) == 0 && s.Promised(s.running) == 0;
  }

  lemma AdmittedNow(k: Kernel, cell: Cell)
    ensures var t := Admitted(k, cell);
            && t.sequences == map[ID := Request()] && t.turn == PrefillTurn && t.config == Empty(k, cell).config
            && t.state.shape == Shape(3, 0, 0, k.zero) && t.state.pages.count == 3 && t.state.pages.size == 1
  {
    RequestFits(k, cell);
    hide Sched.TryAdd;
    FirstPage(k, cell);
    NothingFound(k, cell);
    RequestValid();
    EmptyCache(k, cell);
    hide Hybrid.Reserve, Hybrid.Release, Cache.Find, Cache.Valid, Sched.Admit, Pristine;
    AdmitPaths(Empty(k, cell), Request(), AdmitEnv(true, true, true));
  }

  lemma EmptyCache(k: Kernel, cell: Cell)
    ensures Empty(k, cell).prefixes.Valid()
  {
  }

  lemma AdmittedServable(k: Kernel, cell: Cell)
    ensures Servable(Admitted(k, cell))
  {
    AdmittedNow(k, cell);
    hide Admitted;
    assert Horizon(Request()) == 3;
  }

  lemma AdmittedAlone(k: Kernel, cell: Cell)
    ensures Alone(k, Admitted(k, cell), 0) && Admitted(k, cell).turn == PrefillTurn
  {
    AdmittedServable(k, cell);
    AdmittedNow(k, cell);
    RequestValid();
    EmptyAdmits(k, cell);
    hide Admitted, EngineInv, Servable;
  }

  lemma EmptyAdmits(k: Kernel, cell: Cell)
    ensures EngineInv(k, Admitted(k, cell))
  {
    var s := Empty(k, cell);
    RequestValid();
    FreshRests(k, s.config, 0, s.state.shape, s.state.slots, 0);
    hide EngineInv, Sched.TryAdd, Runs.Fresh, Sequences.Fresh;
    TryAddRests(k, s, Request(), AdmitEnv(true, true, true));
  }

  /** Without EOS a generation has exactly the length asked for. */
  lemma {:induction false} GreedyLength(k: Kernel, tokens: seq<Token>, promptCount: nat, params: Params, eos: Token)
    requires tokens != [] && promptCount <= |tokens| < promptCount + params.maxNewTokens && params.ignoreEos
    ensures |GreedyFrom(k, tokens, promptCount, params, eos).tokens| == promptCount + params.maxNewTokens
    decreases promptCount + params.maxNewTokens - |tokens|
  {
    hide Next;
    var grown := tokens + [Next(k, tokens)];
    if |grown| - promptCount < params.maxNewTokens {
      GreedyLength(k, grown, promptCount, params, eos);
    }
  }

  /** With fewer than three tokens generated the request is live. */
  lemma NotYetFinished(k: Kernel, s: Sched, n: nat)
    requires EngineInv(k, s) && ID in s.sequences && n < 3
    requires s.sequences[ID].promptCount == 1 && s.sequences[ID].params == Params(3, true)
    requires |s.sequences[ID].tokens| == 1 + n && s.sequences[ID].reason != Cancelled
    ensures s.sequences[ID].reason == NoReason
  {
    hide SchedInv, Unstopped, GreedyFrom;
    ToldAt(k, s, ID);
    var q := s.sequences[ID];
    if q.reason == Eos || q.reason == LenLimit {
      GreedyLength(k, q.Prompt(), 1, q.params, s.eos);
    }
  }

  lemma AloneWork(s: Sched)
    requires s.sequences.Keys == {ID} && s.sequences[ID].status != Finished
    ensures Work(s) == Left(s.sequences[ID])
  {
    hide Left;
    assert LeftOf(s) == map[ID := Left(s.sequences[ID])];
    TotalRemove(LeftOf(s), ID);
    assert LeftOf(s) - {ID} == map[];
  }

  lemma Somewhere(k: Kernel, s: Sched, n: nat)
    requires Alone(k, s, n)
    ensures if n == 0 then s.waiting == [ID] && s.running == [] else s.waiting == [] && s.running == [ID]
    ensures LiveOk(s.sequences[ID]) && s.active == None && SchedInv(s)
    ensures n > 0 ==> s.sequences[ID].processed == n
  {
    hide Resting, PendingOk, ResourcesOk, Servable;
    assert MemberOk(s, ID);
    OnlyOne(s.waiting);
    OnlyOne(s.running);
  }

  lemma OnlyOne(queue: seq<nat>)
    requires NoDup(queue) && forall id :: id in queue ==> id == ID
    ensures queue == if ID in queue then [ID] else []
  {
    forall i | 0 <= i < |queue| ensures queue[i] == ID {
      assert queue[i] in queue;
    }
    TwoDiffer(queue);
  }

  lemma TwoDiffer(queue: seq<nat>)
    requires NoDup(queue)
    ensures |queue| >= 2 ==> queue[0] != queue[1]
    ensures |queue| == 1 ==> queue[0] in queue
  {
  }

  /** One good step gives the request its next token. */
  lemma AloneStep(k: Kernel, s: Sched, n: nat, saves: set<nat>)
    requires Alone(k, s, n) && n < 2
    ensures var r := Step(k, s, StepEnv(NoFault, saves)); r.1.Ok? && Alone(k, r.0, n + 1)
  {
    hide EngineInv, Step, Work, PositionsFit, LiveOk;
    var env := StepEnv(NoFault, saves);
    Somewhere(k, s, n);
    SmallNext(k, s);
    StepSucceeds(k, s, env);
    StepServable(k, s, env);
    StepKeeps(k, s, env);
    StepWorks(k, s, env);
    StepDelivers(k, s, env);
    var t := Step(k, s, env).0;
    AloneWork(s);
    GotNext(k, s, t, n, Step(k, s, env).1.value);
  }

  lemma GotNext(k: Kernel, s: Sched, t: Sched, n: nat, updates: seq<Update>)
    requires Alone(k, s, n) && n < 2 && EngineInv(k, t) && AllFollow(s, t)
    requires Delivered(s.sequences, t.sequences, updates) && Work(s) == Left(s.sequences[ID]) && Work(t) < Work(s)
    ensures Asks(t.sequences[ID], n + 1)
  {
    hide SchedInv, Resting, Work, Servable, Left, LiveOk;
    var a, b := s.sequences[ID], t.sequences[ID];
    NotCancelled(k, s);
    if Mentions(updates, ID) {
      var i :| 0 <= i < |updates| && updates[i].id == ID;
      assert Told1(s.sequences, t.sequences, updates[i]);
      NotYetFinished(k, t, n + 1);
    } else {
      AloneWork(t);
      Stuck(k, s, t, n);
    }
  }

  lemma NotCancelled(k: Kernel, s: Sched)
    requires EngineInv(k, s) && ID in s.sequences && s.sequences[ID].status != Finished
    ensures s.sequences[ID].reason == NoReason
  {
    hide Resting, PendingOk, ResourcesOk;
    assert MemberOk(s, ID);
  }

  /** Work done without a token would leave a prompt or a running request behind its own count. */
  lemma Stuck(k: Kernel, s: Sched, t: Sched, n: nat)
    requires Alone(k, s, n) && EngineInv(k, t) && AllFollow(s, t) && t.sequences[ID].status != Finished
    requires SameStory(s.sequences[ID], t.sequences[ID])
    ensures Left(t.sequences[ID]) >= Left(s.sequences[ID])
  {
    hide Resting, PendingOk, ResourcesOk, Servable;
    assert MemberOk(s, ID) && MemberOk(t, ID);
    assert Follows(s.sequences[ID], t.sequences[ID]);
  }

  /** A completed prefill of the only request opens a round for it, and the round closes with its next token. */
  lemma PrefillOpens(k: Kernel, s: Sched, saves: set<nat>)
    requires Alone(k, s, 0) && s.turn == PrefillTurn
    ensures Alone(k, Step(k, s, StepEnv(NoFault, saves)).0, 1)
    ensures Step(k, s, StepEnv(NoFault, saves)).0.turn == DecodeRound(1)
  {
    hide EngineInv, Step, Servable, Sched.Schedule;
    AloneStep(k, s, 0, saves);
    Somewhere(k, s, 0);
    var t := Step(k, s, StepEnv(NoFault, saves)).0;
    Somewhere(k, t, 1);
    StepCompletes(k, s, StepEnv(NoFault, saves));
  }

  lemma DecodeCloses(k: Kernel, s: Sched, saves: set<nat>)
    requires Alone(k, s, 1) && s.turn == DecodeRound(1)
    ensures Alone(k, Step(k, s, StepEnv(NoFault, saves)).0, 2)
    ensures Step(k, s, StepEnv(NoFault, saves)).0.turn == PrefillTurn
  {
    hide EngineInv, Step, Servable, Sched.Schedule;
    AloneStep(k, s, 1, saves);
    Somewhere(k, s, 1);
    StepCompletes(k, s, StepEnv(NoFault, saves));
  }

  /** A runner that fails fails the step. */
  lemma RunnerFails(k: Kernel, s: Sched, rows: nat, saves: set<nat>)
    ensures Step(k, s, StepEnv(FailAfter(rows), saves)).1.Err?
  {
    hide Sched.Schedule, BuildModelBatch, Sched.BeginExecution, RunItems, Sched.Abort;
  }

  /** After the prefill and the decode that closes its round, it is the prefills' turn, and nothing waits. */
  lemma TwoSteps(k: Kernel, cell: Cell, saves: set<nat>)
    ensures var good := StepOp(StepEnv(NoFault, saves));
            var s := Run(k, Admitted(k, cell), [good, good]);
            Alone(k, s, 2) && s.turn == PrefillTurn
  {
    hide Step, Admitted, Alone;
    var env := StepEnv(NoFault, saves);
    AdmittedAlone(k, cell);
    var s0 := Admitted(k, cell);
    PrefillOpens(k, s0, saves);
    var s1 := Step(k, s0, env).0;
    DecodeCloses(k, s1, saves);
    var good := StepOp(env);
    assert [good, good][1..] == [good] && [good][1..] == [];
    assert Run(k, s1, [good]) == Run(k, Step(k, s1, env).0, []);
  }

  lemma FailsOpening(k: Kernel, s: Sched, rows: nat, saves: set<nat>)
    requires Alone(k, s, 2) && s.turn == PrefillTurn
    ensures var r := Step(k, s, StepEnv(FailAfter(rows), saves)); r.1.Err? && r.0.turn == DecodeRound(1)
  {
    hide EngineInv, Step, Servable, Asks;
    Somewhere(k, s, 2);
    RunnerFails(k, s, rows, saves);
    FailedTurn(k, s, StepEnv(FailAfter(rows), saves));
  }

  /** One request admitted, a prefill, a decode that closes the round, a failing step: the turn is not the one before it. */
  lemma FailureMovesTurn(k: Kernel, cell: Cell, rows: nat, saves: set<nat>)
    ensures var good := StepOp(StepEnv(NoFault, saves));
            var s := Run(k, Admitted(k, cell), [good, good]);
            var r := Step(k, s, StepEnv(FailAfter(rows), saves));
            && EngineInv(k, s) && r.1.Err?
            && s.turn == PrefillTurn && r.0.turn == DecodeRound(1)
  {
    hide EngineInv, Step, Servable, Admitted, Asks, Run;
    TwoSteps(k, cell, saves);
    var good := StepOp(StepEnv(NoFault, saves));
    FailsOpening(k, Run(k, Admitted(k, cell), [good, good]), rows, saves);
  }
}

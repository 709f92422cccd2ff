/** The engine's share of a step as single calls, with the calls of others between any two of them: src/inference_engine.cc:73-151
    over src/scheduler.cc:162-510. What the engine keeps between its calls is the model batch and the samples of its pass. */
module Conversations {
  import opened Wrappers
  import opened Sequences
  import opened Kernels
  import opened Batches
  import opened HybridStates
  import opened Execution
  import opened Scheduling
  import opened Invariants
  import opened Selection
  import opened Completion
  import opened Protocol
  import opened Lifecycle
  import opened Building
  import opened Generation
  import opened Engine
  import opened Steps
  import opened Runs
  import opened Interleavings
  import Admission
  import Residence
  import Transactions

  /** A begun batch: the scheduler before it began, the rows of the pass that were run, and what the pass returned. */
  datatype Pass = Pass(base: Sched, m: ModelBatch, rows: Option<nat>, samples: Option<seq<Token>>)

  datatype Client = Client(s: Sched, pass: Option<Pass>)

  /** A call of anybody; or the engine begins the batch in flight, runs its pass once, completes with the samples of that pass. */
  datatype Act =
    | CallAct(c: Call)
    | BeginAct
    | RunAct(fault: Fault)
    | CompleteAct(saves: set<nat>)

  /** Calls that anybody may make at any time: all but a result or a begin for the very batch in flight, and writing the state. */
  predicate Foreign(s: Sched, c: Call) {
    match c
    case BeginCall(b) => s.active == None || s.active.value.id != b.id || s.transaction
    case WriteCall(_) => false
    case CompleteCall(_, _, _) => s.active == None || !Ends(s.active.value, c)
    case _ => true
  }

  /** With no batch in flight the engine has nothing in hand. */
  function Settled(s: Sched, pass: Option<Pass>): Client {
    Client(s, if s.active == None then None else pass)
  }

  function RowsOf(m: ModelBatch, fault: Fault): nat {
    if fault.FailAfter? then fault.rows else |m.tokens|
  }

  ghost function Acted(k: Kernel, c: Client, a: Act): Client {
    match a
    case CallAct(call) => if Foreign(c.s, call) then Settled(Made(c.s, call), c.pass) else c
    case BeginAct =>
      if c.s.active == None || c.s.transaction then c
      else
        var built := BuildModelBatch(c.s.active.value, c.s.sequences, c.s.state.pages);
        if built.Err? then c
        else
          var begun := c.s.BeginExecution(built.value);
          Client(begun.0, if begun.1.Ok? then Some(Pass(c.s, built.value, None, None)) else c.pass)
    case RunAct(fault) =>
      if c.pass == None || c.pass.value.rows.Some? then c
      else
        var p := c.pass.value;
        var ran := Execute(k, c.s.state, p.m, fault);
        Client(c.s.(state := ran.0), Some(p.(rows := Some(RowsOf(p.m, fault)), samples := ran.1)))
    case CompleteAct(saves) =>
      if c.pass == None || c.pass.value.samples == None then c
      else Settled(c.s.Complete(c.pass.value.m.id, c.pass.value.samples.value, saves).0, c.pass)
  }

  ghost function Talk(k: Kernel, c: Client, acts: seq<Act>): Client
    decreases |acts|
  {
    if acts == [] then c else Talk(k, Acted(k, c, acts[0]), acts[1..])
  }

  // ---------------------------------------------------------------- the invariant

  /** The scheduler right after the batch was begun. */
  function Begin(p: Pass): Sched {
    p.base.BeginExecution(p.m).0
  }

  /** The state after those rows. */
  ghost function Reached(k: Kernel, p: Pass): (Hybrid, seq<Token>) {
    RunItems(k, Begin(p).state, p.m, |p.m.items|, if p.rows.Some? then p.rows.value else 0)
  }

  /** Chosen and not begun: nothing was written yet. */
  ghost predicate Unbegun(k: Kernel, s: Sched) {
    SchedInv(s) && s.active.Some? && !s.state.open && Resting(k, s)
  }

  /** Begun: the state is that of the base, with some rows of the pass on top. */
  ghost predicate InPass(k: Kernel, s: Sched, p: Pass) {
    && p.base.active.Some? && !p.base.state.open && p.m.id == p.base.active.value.id
    && Begun(k, p.base, p.base.active.value, p.m, Begin(p)) && SchedInv(Begin(p))
    && s == Begin(p).(state := Reached(k, p).0)
  }

  /** Samples of the right number are those of the whole pass. */
  ghost predicate SamplesOk(k: Kernel, p: Pass) {
    p.samples.Some? && p.base.active.Some? && |p.samples.value| == CountSamples(p.base.active.value.items) ==>
      p.rows == Some(|p.m.tokens|) && p.samples.value == Reached(k, p).1
  }

  ghost predicate Honest(k: Kernel, c: Client) {
    match c.pass
    case None => if c.s.active == None then EngineInv(k, c.s) else Unbegun(k, c.s)
    case Some(p) => InPass(k, c.s, p) && SamplesOk(k, p)
  }

  lemma {:induction false} NothingRun(k: Kernel, h: Hybrid, m: ModelBatch, n: nat)
    requires n <= |m.items|
    ensures RunItems(k, h, m, n, 0).0 == h
  {
    if n > 0 {
      NothingRun(k, h, m, n - 1);
      var before := RunItems(k, h, m, n - 1, 0);
      NoRows(k, before, m, n - 1);
    }
  }

  lemma NoRows(k: Kernel, before: (Hybrid, seq<Token>), m: ModelBatch, i: nat)
    requires i < |m.items|
    ensures RunItem(k, before, m, i, 0).0 == before.0
  {
    var g, id := before.0, m.items[i].id;
    if id in g.sequences {
      assert g.sequences[id := g.sequences[id].(memory := g.sequences[id].memory)] == g.sequences;
    }
  }

  lemma ActiveInPass(k: Kernel, s: Sched, p: Pass)
    requires InPass(k, s, p)
    ensures s.active == p.base.active && s.transaction && SchedInv(s)
    ensures s.sequences == p.base.sequences && s.eos == p.base.eos && s.config == p.base.config && s.prefixes == p.base.prefixes
    ensures s.state.shape == p.base.state.shape
  {
    hide SchedInv, Resting, BuildModelBatch, RunItems, Hybrid.Startable;
    var t := Begin(p);
    var limit := if p.rows.Some? then p.rows.value else 0;
    RunItemsFrame(k, t.state, p.m, |p.m.items|, limit);
    RunShape(k, p.base, p.base.active.value, p.m, t, Reached(k, p).0);
    ExecuteKeeps(t, Reached(k, p).0);
  }

  // ---------------------------------------------------------------- refused calls

  lemma BusyCalls(s: Sched, c: Call)
    requires s.active.Some? && Foreign(s, c) && !(c.AbortCall? && c.id == s.active.value.id)
    ensures Made(s, c) == s
  {
    hide Sched.Admit, Sched.CompleteItems, Hybrid.BeginBatch, CountSamples, Sched.RollBack;
  }

  /** The batch in flight is aborted, whatever was done for it: the engine rests. */
  lemma AbortSettles(k: Kernel, s: Sched)
    requires SchedInv(s) && s.active.Some? && Resting(k, Closed(s, false))
    ensures EngineInv(k, s.Abort(s.active.value.id).0)
    ensures forall id :: Carried(s, s.Abort(s.active.value.id).0, id)
  {
    hide Inv, Resting, Sched.Abort, Residence.Grew, Closed;
    var b := s.active.value;
    var r := FailAfterAbort(s, b.id, CountMismatch);
    AbortRests(k, s, b, CountMismatch, r);
    ClosedKeeps(s, b.phase, b.items, false);
    ActiveNonempty(s, b);
    FinishedUnscheduled(s, b.phase, b.items);
    var closed := Closed(s, false).(active := None);
    assert forall id :: id in closed.sequences ==> SameWork(closed.sequences[id], r.0.sequences[id]);
    hide SchedInv;
    GrewShape(closed, r.0);
  }

  lemma GrewShape(s: Sched, t: Sched)
    requires OnlyReservations(s, t)
    ensures t.state.shape == s.state.shape
  {
  }

  lemma UnbegunCloses(k: Kernel, s: Sched)
    requires Unbegun(k, s)
    ensures Resting(k, Closed(s, false))
  {
    hide SchedInv, Resting;
    RestsAlike(k, s, Closed(s, false));
  }

  lemma PassCloses(k: Kernel, s: Sched, p: Pass)
    requires InPass(k, s, p)
    ensures Resting(k, Closed(s, false))
  {
    hide SchedInv, Resting, BuildModelBatch, RunItems, Closed, Transactions.Began;
    AbortedPassRests(k, p.base, p.base.active.value, p.m, Begin(p), if p.rows.Some? then p.rows.value else 0, s);
  }

  // ---------------------------------------------------------------- every act

  lemma IdleCall(k: Kernel, s: Sched, call: Call)
    requires EngineInv(k, s) && Foreign(s, call)
    ensures Honest(k, Settled(Made(s, call), None))
    ensures forall id :: call != RemoveCall(id) ==> Carried(s, Made(s, call), id)
  {
    hide SchedInv, Resting, Sched.TryAdd, Sched.Cancel, Sched.Remove, Sched.Schedule, Follows;
    AllFollowRefl(s);
    match call {
      case AddCall(q, env) => IdleOp(k, s, AddOp(q, env), call);
      case CancelCall(id) => IdleOp(k, s, CancelOp(id), call);
      case RemoveCall(id) => IdleOp(k, s, RemoveOp(id), call);
      case ScheduleCall => IdleSchedule(k, s);
      case _ => IdleSame(k, s);
    }
  }

  lemma IdleSame(k: Kernel, s: Sched)
    requires EngineInv(k, s)
    ensures Honest(k, Settled(s, None)) && forall id :: Carried(s, s, id)
  {
    hide SchedInv, Resting;
  }

  lemma IdleOp(k: Kernel, s: Sched, op: Op, call: Call)
    requires EngineInv(k, s)
    requires
      || (call.AddCall? && op == AddOp(call.q, call.env))
      || (call.CancelCall? && op == CancelOp(call.id))
      || (call.RemoveCall? && op == RemoveOp(call.id))
    ensures Honest(k, Settled(Made(s, call), None))
    ensures forall id :: call != RemoveCall(id) ==> Carried(s, Made(s, call), id)
  {
    hide SchedInv, Resting, Sched.TryAdd, Sched.Cancel, Sched.Remove, Carried;
    assert Made(s, call) == Do(k, s, op);
    DoKeeps(k, s, op);
    forall id | call != RemoveCall(id) ensures Carried(s, Made(s, call), id) {
      DoCarries(k, s, op, id);
    }
  }

  lemma IdleSchedule(k: Kernel, s: Sched)
    requires EngineInv(k, s)
    ensures Honest(k, Settled(s.Schedule().0, None)) && forall id :: Carried(s, s.Schedule().0, id)
  {
    hide Inv, Resting, Sched.Schedule, Residence.Grew, PositionsFit;
    ScheduleKeeps(s);
    if s.Schedule().1.Ok? {
      ScheduledRests(k, s);
      ScheduledFollow(k, s);
    } else {
      ScheduleFailureSurvives(k, s, s.Schedule());
      UnharmedShape(s.state, s.Schedule().0.state);
    }
  }

  lemma CallHonest(k: Kernel, c: Client, call: Call)
    requires Honest(k, c)
    ensures Honest(k, Acted(k, c, CallAct(call)))
    ensures forall id :: call != RemoveCall(id) ==> Carried(c.s, Acted(k, c, CallAct(call)).s, id)
  {
    hide EngineInv, Unbegun, InPass, SamplesOk, Made, Foreign, Follows;
    AllFollowRefl(c.s);
    if !Foreign(c.s, call) {
      StaysCarried(c.s);
    } else if c.s.active == None {
      IdleNoPass(k, c);
      IdleCall(k, c.s, call);
    } else {
      BusyParts(k, c);
      if call.AbortCall? && call.id == c.s.active.value.id {
        AbortSettles(k, c.s);
        AbortMade(c.s, call);
      } else {
        BusyCalls(c.s, call);
        StaysCarried(c.s);
      }
    }
  }

  lemma AbortMade(s: Sched, call: Call)
    requires call.AbortCall?
    ensures Made(s, call) == s.Abort(call.id).0
  {
    hide Sched.Abort;
  }

  lemma StaysCarried(s: Sched)
    ensures forall id :: Carried(s, s, id)
  {
  }

  lemma IdleNoPass(k: Kernel, c: Client)
    requires Honest(k, c) && c.s.active == None
    ensures c.pass == None && EngineInv(k, c.s)
  {
    hide EngineInv, InPass;
    if c.pass.Some? {
      ActiveInPass(k, c.s, c.pass.value);
      InPassActive(k, c.s, c.pass.value);
    }
  }

  lemma InPassActive(k: Kernel, s: Sched, p: Pass)
    requires InPass(k, s, p)
    ensures p.base.active.Some?
  {
  }

  /** With a batch in flight the scheduler is consistent, and aborting leaves an engine at rest. */
  lemma BusyParts(k: Kernel, c: Client)
    requires Honest(k, c) && c.s.active.Some?
    ensures SchedInv(c.s) && Resting(k, Closed(c.s, false))
  {
    hide SchedInv, Resting, InPass, Closed;
    if c.pass == None {
      UnbegunCloses(k, c.s);
    } else {
      ActiveInPass(k, c.s, c.pass.value);
      PassCloses(k, c.s, c.pass.value);
    }
  }

  lemma BeginHonest(k: Kernel, c: Client)
    requires Honest(k, c)
    ensures Honest(k, Acted(k, c, BeginAct)) && forall id :: Carried(c.s, Acted(k, c, BeginAct).s, id)
  {
    hide SchedInv, Resting, BuildModelBatch, Sched.BeginExecution, InPass, SamplesOk;
    AllFollowRefl(c.s);
    if c.s.active.Some? && !c.s.transaction {
      if c.pass.Some? {
        ActiveInPass(k, c.s, c.pass.value);
      } else {
        var built := BuildModelBatch(c.s.active.value, c.s.sequences, c.s.state.pages);
        if built.Ok? {
          BegunHonest(k, c.s, built.value);
        }
      }
    }
  }

  lemma BegunHonest(k: Kernel, s: Sched, m: ModelBatch)
    requires Unbegun(k, s) && !s.transaction && BuildModelBatch(s.active.value, s.sequences, s.state.pages) == Ok(m)
    ensures var r := s.BeginExecution(m);
            && Honest(k, Client(r.0, if r.1.Ok? then Some(Pass(s, m, None, None)) else None))
            && forall id :: Carried(s, r.0, id)
  {
    hide Inv, Resting, BuildModelBatch, Hybrid.Startable, RunItems;
    var b := s.active.value;
    ActiveNonempty(s, b);
    InvParts(s, b.phase, b.items);
    BuildSucceedsExactly(s, b);
    BeginKeeps(s, m);
    var r := s.BeginExecution(m);
    if r.1.Ok? {
      BeginIs(k, s, b, m);
      NothingRun(k, r.0.state, m, |m.items|);
    } else {
      RestsAlike(k, s, r.0);
    }
    AllFollowRefl(s);
  }

  lemma RunHonest(k: Kernel, c: Client, fault: Fault)
    requires Honest(k, c)
    ensures Honest(k, Acted(k, c, RunAct(fault))) && forall id :: Carried(c.s, Acted(k, c, RunAct(fault)).s, id)
  {
    hide SchedInv, Resting, BuildModelBatch, Begun, RunItems, CountSamples;
    if c.pass.Some? && c.pass.value.rows == None {
      var p := c.pass.value;
      ActiveInPass(k, c.s, p);
      NothingRun(k, Begin(p).state, p.m, |p.m.items|);
      assert c.s.state == Begin(p).state;
      var d := Acted(k, c, RunAct(fault));
      RanSamples(k, p, fault);
      assert InPass(k, d.s, d.pass.value);
      ActiveInPass(k, d.s, d.pass.value);
    }
    AllFollowRefl(c.s);
  }

  /** What the runner returns: the samples of the whole pass, or none, or the wrong number. */
  lemma RanSamples(k: Kernel, p: Pass, fault: Fault)
    requires p.base.active.Some? && Begun(k, p.base, p.base.active.value, p.m, Begin(p)) && p.rows == None
    ensures var ran := Execute(k, Begin(p).state, p.m, fault);
            var q := p.(rows := Some(RowsOf(p.m, fault)), samples := ran.1);
            ran.0 == Reached(k, q).0 && SamplesOk(k, q)
  {
    hide SchedInv, Resting, BuildModelBatch, RunItems, Begun;
    var b := p.base.active.value;
    var run := RunItems(k, Begin(p).state, p.m, |p.m.items|, |p.m.tokens|);
    CommittedPassTells(k, p.base, b, p.m, Begin(p), run, Begin(p).(state := run.0));
  }

  lemma CompleteHonest(k: Kernel, c: Client, saves: set<nat>)
    requires Honest(k, c)
    ensures Honest(k, Acted(k, c, CompleteAct(saves))) && forall id :: Carried(c.s, Acted(k, c, CompleteAct(saves)).s, id)
  {
    hide SchedInv, Resting, InPass, SamplesOk, Sched.Complete, CountSamples;
    AllFollowRefl(c.s);
    if c.pass.Some? && c.pass.value.samples.Some? {
      var p := c.pass.value;
      ActiveInPass(k, c.s, p);
      PassNumber(k, c.s, p);
      var b := c.s.active.value;
      if |p.samples.value| == CountSamples(b.items) {
        GoodCompletion(k, c.s, p, saves);
      } else {
        CompleteKeeps(c.s, b.id, p.samples.value, saves);
      }
    }
  }

  lemma PassNumber(k: Kernel, s: Sched, p: Pass)
    requires InPass(k, s, p)
    ensures p.base.active.Some? && p.m.id == p.base.active.value.id
  {
  }

  lemma GoodCompletion(k: Kernel, s: Sched, p: Pass, saves: set<nat>)
    requires InPass(k, s, p) && SamplesOk(k, p) && s.active == p.base.active && s.active.Some? && SchedInv(s)
    requires p.samples.Some? && |p.samples.value| == CountSamples(s.active.value.items)
    ensures var t := s.Complete(p.m.id, p.samples.value, saves).0;
            EngineInv(k, t) && forall id :: Carried(s, t, id)
  {
    hide SchedInv, Resting, BuildModelBatch, Begun, RunItems, Sched.Complete, CountSamples, Closed, AllFollow, Telling, Wanted;
    var b := s.active.value;
    var run := Reached(k, p);
    CommittedPassTells(k, p.base, b, p.m, Begin(p), run, s);
    CompletedRests(k, s, b, run.1, saves);
    CompleteWork(s, b, run.1, saves);
    FollowCarries(s, s.Complete(b.id, run.1, saves).0);
  }

  lemma FollowCarries(s: Sched, t: Sched)
    requires AllFollow(s, t)
    ensures forall id :: Carried(s, t, id)
  {
  }

  /** Every act keeps the client honest and every request on its way. */
  lemma ActKeeps(k: Kernel, c: Client, a: Act)
    requires Honest(k, c)
    ensures Honest(k, Acted(k, c, a))
    ensures forall id :: a != CallAct(RemoveCall(id)) ==> Carried(c.s, Acted(k, c, a).s, id)
  {
    hide Honest, Acted, Carried;
    match a {
      case CallAct(call) => CallHonest(k, c, call);
      case BeginAct => BeginHonest(k, c);
      case RunAct(fault) => RunHonest(k, c, fault);
      case CompleteAct(saves) => CompleteHonest(k, c, saves);
    }
  }

  // ---------------------------------------------------------------- every conversation

  lemma CarriedOn(s: Sched, t: Sched, u: Sched, id: nat)
    requires Carried(s, t, id) && Carried(t, u, id)
    ensures Carried(s, u, id)
  {
  }

  lemma {:induction false} TalkKeeps(k: Kernel, c: Client, acts: seq<Act>, id: nat)
    requires Honest(k, c)
    ensures Honest(k, Talk(k, c, acts))
    ensures CallAct(RemoveCall(id)) !in acts ==> Carried(c.s, Talk(k, c, acts).s, id)
    decreases |acts|
  {
    hide Honest, Acted, Carried;
    if acts != [] {
      var d := Acted(k, c, acts[0]);
      ActKeeps(k, c, acts[0]);
      TalkKeeps(k, d, acts[1..], id);
      if CallAct(RemoveCall(id)) !in acts {
        CarriedOn(c.s, d.s, Talk(k, c, acts).s, id);
      }
    } else {
      CarriedRefl(c.s, id);
    }
  }

  lemma CarriedRefl(s: Sched, id: nat)
    ensures Carried(s, s, id)
  {
  }

  /** At every moment, also in the middle of a batch, all tokens are on their greedy generations. */
  lemma HonestTold(k: Kernel, c: Client, id: nat)
    requires Honest(k, c) && id in c.s.sequences
    ensures Told(k, c.s.sequences[id], c.s.eos)
  {
    hide SchedInv, Told, Housed, CacheFaithful, Begun;
    if c.pass.Some? {
      var p := c.pass.value;
      ActiveInPass(k, c.s, p);
      BaseTold(k, p, id);
    }
  }

  lemma BaseTold(k: Kernel, p: Pass, id: nat)
    requires p.base.active.Some? && Begun(k, p.base, p.base.active.value, p.m, Begin(p)) && id in p.base.sequences
    ensures Told(k, p.base.sequences[id], p.base.eos)
  {
    hide SchedInv, Told, Housed, CacheFaithful, BuildModelBatch, Hybrid.Startable;
  }

  /** Whatever is called between any two calls of the engine's steps (admissions, cancellations and removals of others, further
      schedules, aborts before, during and after a pass, late and miscounted results), an admitted request's tokens are its
      prompt and a prefix of its greedy generation, and exactly that generation when it finished by itself. */
  lemma ConversationsAnswerGreedily(k: Kernel, s: Sched, q: SeqData, env: AdmitEnv, acts: seq<Act>)
    requires EngineInv(k, s) && q.Valid() && s.TryAdd(q, env).1 == Ok(Admitted)
    requires CallAct(RemoveCall(q.id)) !in acts
    ensures var end := Talk(k, Client(s.TryAdd(q, env).0, None), acts).s;
            q.id in end.sequences && q.tokens != [] && Answered(k, q.tokens, q.params, s.eos, end.sequences[q.id])
  {
    hide SchedInv, Resting, Sched.TryAdd, Entered, HasRoom, Sched.FitsCache, Unstopped, Talk, Follows, InPass, SamplesOk, Unbegun;
    TryAddKeeps(s, q, env);
    Admission.TryAddRests(k, s, q, env);
    var t := s.TryAdd(q, env).0;
    AddCarries(s, q, env, q.id);
    var c := Client(t, None);
    TalkKeeps(k, c, acts, q.id);
    var end := Talk(k, c, acts);
    HonestTold(k, end, q.id);
    SamePrompt(q, t.sequences[q.id], end.s.sequences[q.id]);
  }

  /** And whenever no batch is in flight, the engine is at rest: histories resident, checkpoints faithful. */
  lemma ConversationsRest(k: Kernel, s: Sched, acts: seq<Act>)
    requires EngineInv(k, s)
    ensures var end := Talk(k, Client(s, None), acts); end.s.active == None ==> EngineInv(k, end.s) && end.pass == None
  {
    hide SchedInv, Resting, InPass, SamplesOk, Talk;
    TalkKeeps(k, Client(s, None), acts, 0);
    if Talk(k, Client(s, None), acts).s.active == None {
      IdleNoPass(k, Talk(k, Client(s, None), acts));
    }
  }
}

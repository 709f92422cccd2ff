/** What the serving runtime promises its clients, over every interleaving of their calls with the worker. */
module ServingResults {
  import opened Wrappers
  import opened Sequences
  import opened Kernels
  import opened HybridStates
  import opened Scheduling
  import opened Invariants
  import opened Selection
  import opened Engine
  import opened Retrying
  import opened Runs
  import opened Serving
  import opened ServingBooks
  import opened ServingRuns
  import opened ServingHistories
  import opened ServingLiveness

  /** The runtime after a run of events, starting over an idle engine. */
  ghost function After(k: Kernel, v: Text.Vocabulary, limit: nat, contextLimit: nat, engine: Sched, events: seq<Event>): Server {
    Serve(k, v, Opened(limit, contextLimit, engine), events)
  }

  lemma AfterHolds(k: Kernel, v: Text.Vocabulary, limit: nat, contextLimit: nat, engine: Sched, events: seq<Event>)
    requires EngineInv(k, engine) && engine.sequences == map[]
    ensures ServerInv(k, v, After(k, v, limit, contextLimit, engine, events))
    ensures Unprepared(After(k, v, limit, contextLimit, engine, events))
  {
    hide EngineInv, ServerInv, Happen;
    var s := Opened(limit, contextLimit, engine);
    OpenedServes(k, v, limit, contextLimit, engine);
    assert Unprepared(s);
    ServeKeeps(k, v, s, events);
    RequestsGoOn(k, v, s, events);
  }

  ghost predicate SameLimits(s: Server, t: Server) {
    t.limit == s.limit && t.contextLimit == s.contextLimit
  }

  lemma AppendLimits(s: Server, v: Text.Vocabulary, u: Update)
    ensures SameLimits(s, s.AppendUpdate(v, u))
  {
    hide Sched.Remove, ReleaseSequence, Text.PushTail;
  }

  lemma AdmitLimits(s: Server, env: AdmitEnv)
    requires s.pending != []
    ensures SameLimits(s, s.AdmitFront(env))
  {
    hide Sched.TryAdd;
  }

  lemma PrepareLimits(s: Server, sub: Submission, env: WorkEnv)
    ensures SameLimits(s, s.Prepare(sub, env))
  {
    hide Server.Sequenced;
  }

  lemma CancelLimits(s: Server, id: nat)
    ensures SameLimits(s, s.CancelActive(id)) && SameLimits(s, s.FailActive(id))
  {
    hide ReleaseSequence;
  }

  lemma LimitKept(k: Kernel, v: Text.Vocabulary, s: Server, e: Event)
    ensures SameLimits(s, Happen(k, v, s, e))
  {
    hide Step, Ordering, Server.AppendUpdate, Server.AdmitFront, Server.Prepare, Server.CancelActive, Server.FailActive;
    if e.WorkEvent? {
      match s.place {
        case Preparing(next) => PrepareLimits(s, next, e.env);
        case CancellingActive(left) =>
          if left != [] {
            CancelLimits(s, left[0]);
          }
        case FailingActive(left, _) =>
          if left != [] {
            CancelLimits(s, left[0]);
          }
        case Admitting =>
          if s.pending != [] {
            AdmitLimits(s, e.env.admit);
          }
        case Delivering(updates) =>
          if updates != [] {
            AppendLimits(s, v, updates[0]);
          }
        case _ =>
      }
    }
  }

  lemma {:induction false} LimitStays(k: Kernel, v: Text.Vocabulary, s: Server, events: seq<Event>)
    ensures Serve(k, v, s, events).limit == s.limit
    decreases |events|
  {
    hide Happen;
    if events != [] {
      LimitKept(k, v, s, events[0]);
      LimitStays(k, v, Happen(k, v, s, events[0]), events[1..]);
    }
  }

  ghost predicate NoTwice(ids: seq<nat>) {
    forall i, j :: 0 <= i < j < |ids| ==> ids[i] != ids[j]
  }

  /** In every reachable state outstanding_ is the number of accepted and unfinished requests, never above the limit and
      never below zero, and each finished request was finished exactly once. */
  lemma Conservation(k: Kernel, v: Text.Vocabulary, limit: nat, contextLimit: nat, engine: Sched, events: seq<Event>)
    requires EngineInv(k, engine) && engine.sequences == map[]
    ensures var s := After(k, v, limit, contextLimit, engine, events);
            && s.outstanding == |UnfinishedIds(s)| && 0 <= s.outstanding <= limit
            && NoTwice(s.finished)
            && (forall id :: id in s.finished <==> id in s.requests && s.requests[id].status == RequestStatus.Finished)
  {
    hide EngineInv, Happen, Serve, RequestsOk, PlaceOk, Line, InOrder;
    AfterHolds(k, v, limit, contextLimit, engine, events);
    LimitStays(k, v, Opened(limit, contextLimit, engine), events);
    OutstandingCounts(After(k, v, limit, contextLimit, engine, events));
  }

  /** An enqueue is accepted exactly while the runtime is open and fewer requests than the limit are unfinished. */
  lemma AcceptsExactly(k: Kernel, v: Text.Vocabulary, s: Server, id: nat, maxTokens: nat)
    requires ServerInv(k, v, s) && id !in s.requests
    ensures s.Enqueue(id, maxTokens).1 == None <==> !s.stopping && |UnfinishedIds(s)| < s.limit
    ensures s.Enqueue(id, maxTokens).1 == Some(QueueFull) <==> !s.stopping && |UnfinishedIds(s)| >= s.limit
    ensures s.Enqueue(id, maxTokens).1.Some? ==> s.Enqueue(id, maxTokens).0 == s
    ensures s.Enqueue(id, maxTokens).1 == None ==> UnfinishedIds(s.Enqueue(id, maxTokens).0) == UnfinishedIds(s) + {id}
  {
    hide Books, Housing, RequestsOk, PlaceOk;
    OutstandingCounts(s);
  }

  /** When the worker sleeps, everything accepted is finished or was submitted just now; the engine is idle. */
  lemma SleepsOnlyWhenIdle(k: Kernel, v: Text.Vocabulary, s: Server)
    requires ServerInv(k, v, s) && s.place.Waiting?
    ensures s.pending == [] && s.active == {} && s.engine.IsFinished()
    ensures UnfinishedIds(s) == set sub | sub in s.submissions :: sub.id
  {
    hide SchedInv, Resting, RequestsOk, Placed, InOrder;
    NobodyHome(k, s.engine);
    assert Line(s) == SubmittedIds(s.submissions);
    hide Line;
    WaitingIds(s);
    SubmittedMembers(s.submissions);
  }

  lemma WaitingIds(s: Server)
    requires Books(s) && s.active == {}
    ensures forall id :: id in UnfinishedIds(s) <==> id in Line(s)
  {
    hide Line;
    forall id ensures id in UnfinishedIds(s) <==> id in Line(s) {
      assert id in UnfinishedIds(s) <==> Unfinished(s.requests, id);
    }
  }

  lemma SubmittedMembers(subs: seq<Submission>)
    ensures forall id :: id in SubmittedIds(subs) <==> id in set sub | sub in subs :: sub.id
  {
    forall id | id in set sub | sub in subs :: sub.id ensures id in SubmittedIds(subs) {
      var sub :| sub in subs && sub.id == id;
      var i :| 0 <= i < |subs| && subs[i] == sub;
      assert SubmittedIds(subs)[i] == id;
    }
    forall id | id in SubmittedIds(subs) ensures id in set sub | sub in subs :: sub.id {
      var i :| 0 <= i < |subs| && SubmittedIds(subs)[i] == id;
      assert subs[i] in subs;
    }
  }

  /** After shutdown every accepted request is finished. */
  lemma ShutdownFinishesAll(k: Kernel, v: Text.Vocabulary, s: Server)
    requires ServerInv(k, v, s) && s.place.Exited?
    ensures UnfinishedIds(s) == {} && s.outstanding == 0
  {
    hide ServerInv;
    RestIsDone(k, v, s);
  }

  /** Admission never bypasses an older request: whatever was admitted was accepted before everything that still waits. */
  lemma OldestFirst(k: Kernel, v: Text.Vocabulary, s: Server, id: nat, other: nat)
    requires ServerInv(k, v, s) && id in s.requests && s.requests[id].admitted
    requires other in UnfinishedIds(s) && other !in s.active
    ensures s.requests[id].stamp < s.requests[other].stamp
  {
    hide Housing, RequestsOk, PlaceOk, Line;
    assert Unfinished(s.requests, other);
    var i :| 0 <= i < |Line(s)| && Line(s)[i] == other;
  }

  /** The text of a finished request is the decoded greedy generation for its prompt, all of it and nothing else. */
  lemma ServesReferenceAnswers(k: Kernel, v: Text.Vocabulary, s: Server, id: nat)
    requires ServerInv(k, v, s) && id in s.requests && s.requests[id].status == RequestStatus.Finished
    ensures FinalOk(k, v, s.engine.eos, s.requests[id])
  {
    hide Books, EngineInv, FinalOk, PlaceOk;
    assert RequestOk(k, v, s, id);
  }

  /** Two servers with the same model and tokenizer answer the same question with the same text, whatever their load,
      caches, limits, batches and failures. */
  lemma ServersAgree(k: Kernel, v: Text.Vocabulary, s: Server, t: Server, a: nat, b: nat)
    requires ServerInv(k, v, s) && ServerInv(k, v, t) && s.engine.eos == t.engine.eos
    requires a in s.requests && b in t.requests
    requires s.requests[a].status == RequestStatus.Finished && t.requests[b].status == RequestStatus.Finished
    requires s.requests[a].prompt == t.requests[b].prompt && s.requests[a].params == t.requests[b].params
    requires s.requests[a].error == None && s.requests[a].reason != Cancelled
    requires t.requests[b].error == None && t.requests[b].reason != Cancelled
    ensures s.requests[a].output == t.requests[b].output && s.requests[a].reason == t.requests[b].reason
    ensures s.requests[a].completionTokens == t.requests[b].completionTokens
  {
    hide ServerInv, Greedy, Text.Decode;
    ServesReferenceAnswers(k, v, s, a);
    ServesReferenceAnswers(k, v, t, b);
  }

  // ---------------------------------------------------------------- failures

  /** Prompts fit the model, and the pool's slots fit a 32-bit word. */
  ghost predicate Provisioned(s: Server) {
    && s.contextLimit <= s.engine.state.shape.maxPositions + 1
    && Servable(s.engine)
    && forall i :: 0 <= i < |s.pending| ==> Horizon(s.pending[i]) <= s.engine.state.shape.maxPositions
  }

  /** The same engine, with no live sequence that does not fit. */
  ghost predicate FitsStill(s: Sched, t: Sched) {
    && t.config == s.config && t.state.shape == s.state.shape
    && forall id :: id in t.sequences && t.sequences[id].status != Status.Finished ==>
         Horizon(t.sequences[id]) <= s.state.shape.maxPositions
  }

  lemma FitsServable(k: Kernel, s: Sched, t: Sched)
    requires EngineInv(k, s) && EngineInv(k, t) && Servable(s) && FitsStill(s, t)
    ensures Servable(t)
  {
    hide Inv, Resting;
    PoolIsConfigured(s);
    PoolIsConfigured(t);
  }

  lemma ReleasedServable(k: Kernel, s: Sched, id: nat)
    requires EngineInv(k, s) && id in s.sequences && Servable(s)
    ensures Servable(ReleaseSequence(s, id).0) && ReleaseSequence(s, id).0.state.shape == s.state.shape
    ensures s.sequences[id].status == Status.Finished ==>
              Servable(s.Remove(id).0) && s.Remove(id).0.state.shape == s.state.shape
  {
    hide EngineInv, ReleaseSequence, Sched.Remove, Horizon;
    ReleaseIs(k, s, id);
    FitsServable(k, s, ReleaseSequence(s, id).0);
    if s.sequences[id].status == Status.Finished {
      RemoveIs(k, s, id);
      FitsServable(k, s, s.Remove(id).0);
    }
  }

  lemma AddedServable(k: Kernel, s: Sched, q: SeqData, env: AdmitEnv)
    requires EngineInv(k, s) && Pristine(q) && q.id !in s.sequences && Servable(s)
    requires Horizon(q) <= s.state.shape.maxPositions
    ensures Servable(s.TryAdd(q, env).0) && s.TryAdd(q, env).0.state.shape == s.state.shape
  {
    hide EngineInv, Sched.TryAdd, Pristine;
    TryAddIs(k, s, q, env);
    FitsServable(k, s, s.TryAdd(q, env).0);
  }

  lemma SteppedServable(k: Kernel, s: Sched, env: StepEnv)
    requires EngineInv(k, s) && Servable(s)
    ensures Servable(Step(k, s, env).0) && Step(k, s, env).0.state.shape == s.state.shape
  {
    hide EngineInv, Step, Servable, Follows;
    StepServable(k, s, env);
    StepWorks(k, s, env);
  }

  /** Only the engine changed, if anything that matters here. */
  lemma SameProvision(s: Server, t: Server)
    requires Provisioned(s) && Servable(t.engine) && t.engine.state.shape == s.engine.state.shape
    requires t.contextLimit == s.contextLimit && forall q :: q in t.pending ==> q in s.pending
    ensures Provisioned(t)
  {
    hide Servable, Horizon;
    forall i | 0 <= i < |t.pending| ensures Horizon(t.pending[i]) <= t.engine.state.shape.maxPositions {
      assert t.pending[i] in t.pending;
    }
  }

  /** What a step may do to the engine: nothing, or one of its operations. */
  lemma EngineServable(k: Kernel, v: Text.Vocabulary, s: Server, env: WorkEnv)
    requires ServerInv(k, v, s) && Provisioned(s)
    ensures Servable(s.Work(k, v, env).engine) && s.Work(k, v, env).engine.state.shape == s.engine.state.shape
  {
    hide EngineInv, Books, StoryOk, FinalOk, Untold, Servable, ReleaseSequence, Sched.Remove, Sched.TryAdd, Step, Ordering,
      Text.PushTail, Server.Sequenced, Pristine, Horizon;
    match s.place {
      case CancellingActive(left) =>
        if left != [] {
          ReleasedServable(k, s.engine, left[0]);
        }
      case FailingActive(left, _) =>
        if left != [] {
          ReleasedServable(k, s.engine, left[0]);
        }
      case Delivering(updates) =>
        if updates != [] {
          DeliveredServable(k, v, s);
        }
      case Deciding => SteppedServable(k, s.engine, env.step);
      case Admitting =>
        if s.pending != [] {
          PendingIsNew(k, v, s);
          AddedServable(k, s.engine, s.pending[0], env.admit);
        }
      case _ =>
    }
  }

  lemma PendingIsNew(k: Kernel, v: Text.Vocabulary, s: Server)
    requires ServerInv(k, v, s) && s.pending != []
    ensures Pristine(s.pending[0]) && s.pending[0].id !in s.engine.sequences
  {
    hide EngineInv, Line, StoryOk, FinalOk, Untold, Pristine;
    assert PreparedOk(s.requests[s.pending[0].id], s.pending[0]);
    PendingInLine(s, 0);
    LineUnfinished(s, 0);
  }

  lemma DeliveredServable(k: Kernel, v: Text.Vocabulary, s: Server)
    requires ServerInv(k, v, s) && Provisioned(s) && s.place.Delivering? && s.place.updates != []
    ensures var e := s.AppendUpdate(v, s.place.updates[0]).engine; Servable(e) && e.state.shape == s.engine.state.shape
  {
    hide EngineInv, Books, RequestsOk, StoryOk, Servable, ReleaseSequence, Sched.Remove, Text.PushTail, Due;
    var u := s.place.updates[0];
    ActiveStory(k, v, s, u.id);
    NextUpdates(s, s.(place := Delivering(s.place.updates[1..])));
    DueFinished(v, s.requests[u.id], s.engine.sequences[u.id], u);
    ReleasedServable(k, s.engine, u.id);
  }

  lemma WorkProvisioned(k: Kernel, v: Text.Vocabulary, s: Server, env: WorkEnv)
    requires ServerInv(k, v, s) && Provisioned(s)
    ensures Provisioned(s.Work(k, v, env))
  {
    hide ServerInv, Servable, Horizon;
    EngineServable(k, v, s, env);
    LimitKept(k, v, s, WorkEvent(env));
    var t := s.Work(k, v, env);
    if s.place.Preparing? && !s.Of(s.place.next.id).cancelled && s.Sequenced(s.place.next, env).Ok? {
      var q := s.Sequenced(s.place.next, env).value;
      SequencedIs(s, s.place.next, env);
      HorizonFits(q, s.contextLimit);
      hide Server.Sequenced;
      assert t.pending == s.pending + [q];
    } else {
      PendingShrinks(k, v, s, env);
      hide Server.Work;
      SameProvision(s, t);
    }
  }

  lemma HorizonFits(q: SeqData, limit: nat)
    requires q.promptCount + q.params.maxNewTokens <= limit
    ensures Horizon(q) == 0 || Horizon(q) < limit
  {
  }

  lemma PendingShrinks(k: Kernel, v: Text.Vocabulary, s: Server, env: WorkEnv)
    requires s.place.Preparing? ==> s.Of(s.place.next.id).cancelled || s.Sequenced(s.place.next, env).Err?
    ensures forall q :: q in s.Work(k, v, env).pending ==> q in s.pending
  {
    hide Step, Ordering, Sched.TryAdd, Sched.Remove, ReleaseSequence, Text.PushTail, Server.Sequenced;
  }

  lemma HappenProvisioned(k: Kernel, v: Text.Vocabulary, s: Server, e: Event)
    requires ServerInv(k, v, s) && Provisioned(s)
    ensures Provisioned(Happen(k, v, s, e))
  {
    hide ServerInv, Servable, Server.Work, Horizon;
    if e.WorkEvent? {
      WorkProvisioned(k, v, s, e.env);
    }
  }

  lemma {:induction false} StaysProvisioned(k: Kernel, v: Text.Vocabulary, s: Server, events: seq<Event>)
    requires ServerInv(k, v, s) && Provisioned(s)
    ensures Provisioned(Serve(k, v, s, events))
    decreases |events|
  {
    hide ServerInv, Provisioned, Happen;
    if events != [] {
      HappenKeeps(k, v, s, events[0]);
      HappenProvisioned(k, v, s, events[0]);
      StaysProvisioned(k, v, Happen(k, v, s, events[0]), events[1..]);
    }
  }

  /** Unless the runner itself fails, no step of the engine ever fails a request: in every run of a provisioned server the
      worker goes on to deliver. */
  lemma OnlyTheRunnerFails(k: Kernel, v: Text.Vocabulary, s: Server, events: seq<Event>, env: WorkEnv)
    requires ServerInv(k, v, s) && Provisioned(s) && env.step.fault == NoFault
    ensures var t := Serve(k, v, s, events);
            t.place.Deciding? && t.active != {} ==> t.Work(k, v, env).place.Delivering?
  {
    hide ServerInv, Provisioned, Happen, Server.Work, Serve;
    ServeKeeps(k, v, s, events);
    StaysProvisioned(k, v, s, events);
    var t := Serve(k, v, s, events);
    if t.place.Deciding? && t.active != {} {
      DecidesToDeliver(k, v, t, env);
    }
  }

  lemma DecidesToDeliver(k: Kernel, v: Text.Vocabulary, s: Server, env: WorkEnv)
    requires ServerInv(k, v, s) && Provisioned(s) && s.active != {} && env.step.fault == NoFault && s.place.Deciding?
    ensures s.Work(k, v, env).place.Delivering?
  {
    hide SchedInv, Resting, Books, StoryOk, FinalOk, Step, PositionsFit;
    var id :| id in s.active;
    ActiveStory(k, v, s, id);
    NotDueLive(v, s.requests[id], s.engine.sequences[id]);
    LiveIsQueued(s.engine, id);
    SmallNext(k, s.engine);
    StepSucceeds(k, s.engine, env.step);
  }

  lemma LiveIsQueued(s: Sched, id: nat)
    requires SchedInv(s) && s.active == None && id in s.sequences && s.sequences[id].status != Status.Finished
    ensures !(s.waiting == [] && s.running == [])
  {
    hide PendingOk, ResourcesOk;
    assert MemberOk(s, id);
  }
}

/** How a request ends and with what numbers: src/serving_runtime.cc:60-105 and 107-392. Each step of the worker ends exactly the
    request that has cause to end, in the way that the cause demands. */
module ServingEndings {
  import opened Wrappers
  import opened Sequences
  import opened Kernels
  import opened Scheduling
  import opened Engine
  import opened Lifecycle
  import opened Runs
  import opened Serving
  import opened ServingBooks
  import opened ServingRuns
  import opened ServingHistories
  import opened ServingResults
  import Preparing
  import Resuming
  import PrefixCaching
  import HybridStates

  // ---------------------------------------------------------------- causes of an ending

  datatype Ending = Ending(reason: Reason, error: Option<ErrorKind>)

  const BY_CLIENT := Ending(Cancelled, None)

  function Failed(kind: ErrorKind): Ending {
    Ending(NoReason, Some(kind))
  }

  /** What the worker's next step does to a request: nothing, or how it ends. A raised flag ends it before it is prepared, while
      it waits and while it is active; a submission that cannot be served is invalid; missing decoders, a backend that refuses
      the admission, undecodable text, a failed engine and shutdown are failures; the last token ends it by itself. */
  ghost function Fate(s: Server, v: Text.Vocabulary, env: WorkEnv, id: nat): Option<Ending>
    requires id in s.requests
  {
    if Subject(s) != Some(id) then None
    else
      match s.place
      case Preparing(sub) =>
        if s.requests[id].cancelled then Some(BY_CLIENT)
        else if !Preparing.Preparable(s, sub, env.encoded) then Some(Failed(InvalidInput))
        else if !env.decoder then Some(Failed(ExecutionFailure)) else None
      case CancellingPending(_) => if s.requests[id].cancelled then Some(BY_CLIENT) else None
      case CancellingActive(_) => if s.requests[id].cancelled then Some(BY_CLIENT) else None
      case Admitting => if s.engine.TryAdd(s.pending[0], env.admit).1.Err? then Some(Failed(ExecutionFailure)) else None
      case Delivering(updates) =>
        var u := updates[0];
        if Text.PushTail(v, s.requests[id].decoder, u.token, u.reason != NoReason).1.Err? then Some(Failed(ExecutionFailure))
        else if u.reason != NoReason then Some(Ending(u.reason, None)) else None
      case _ => Some(Failed(ExecutionFailure))
  }

  ghost predicate Ends(r: Request, fate: Option<Ending>) {
    if fate == None then r.status != RequestStatus.Finished
    else r.status == RequestStatus.Finished && r.reason == fate.value.reason && r.error == fate.value.error
  }

  // ---------------------------------------------------------------- what is true of every request

  /** Pending sequences still fit the pool, and none of their tokens was ever cached. */
  ghost predicate PendingFits(s: Server) {
    forall i :: 0 <= i < |s.pending| ==> s.engine.FitsCache(s.pending[i]) && s.pending[i].cached == 0
  }

  /** The counts of prompt tokens, and what a finished request may say. A refusal comes before the prompt is accepted, a
      cancellation only on demand, and an answer only after an admission. */
  ghost predicate AccountOk(r: Request) {
    && r.promptTokens == |r.prompt|
    && (if r.admitted then r.cachedPromptTokens < r.promptTokens else r.cachedPromptTokens == 0)
    && (r.status == RequestStatus.Finished ==>
          || (r.reason == Cancelled && r.error == None && r.cancelled)
          || (r.reason == NoReason && r.error == Some(InvalidInput) && r.prompt == [] && !r.admitted)
          || (r.reason == NoReason && r.error == Some(ExecutionFailure))
          || ((r.reason == Eos || r.reason == LenLimit) && r.error == None && r.admitted))
    && (r.status == Submitted ==> r.prompt == [] && !r.admitted)
  }

  ghost predicate Accounts(s: Server) {
    PendingFits(s) && forall id :: id in s.requests ==> AccountOk(s.requests[id])
  }

  lemma NothingSaid(k: Kernel, v: Text.Vocabulary, s: Server, id: nat)
    requires ServerInv(k, v, s) && Unfinished(s.requests, id)
    ensures s.requests[id].reason == NoReason && s.requests[id].error == None
  {
    hide EngineInv, Books, FinalOk, StoryOk;
    assert RequestOk(k, v, s, id);
    if id in s.active {
      hide RequestsOk;
      NothingSaidYet(v, s.requests[id], s.engine.sequences[id], Due(s.place, id));
    }
  }

  lemma NothingSaidYet(v: Text.Vocabulary, r: Request, q: SeqData, due: Option<Update>)
    requires StoryOk(v, r, q, due)
    ensures r.reason == NoReason && r.error == None
  {
  }

  // ---------------------------------------------------------------- the steps that end a request

  /** The subject's own record after the step. */
  ghost predicate Told(s: Server, v: Text.Vocabulary, env: WorkEnv, t: Server, id: nat) {
    id in s.requests && id in t.requests && Ends(t.requests[id], Fate(s, v, env, id))
  }

  lemma PreparedTold(k: Kernel, v: Text.Vocabulary, s: Server, env: WorkEnv)
    requires s.place.Preparing? && Unfinished(s.requests, s.place.next.id)
    requires s.requests[s.place.next.id].reason == NoReason && s.requests[s.place.next.id].error == None
    ensures Told(s, v, env, s.Work(k, v, env), s.place.next.id)
  {
    hide Preparing.Preparable, Server.Prepare, Preparing.Represents;
    Preparing.PrepareDecides(s, s.place.next, env);
  }

  lemma CancelledTold(k: Kernel, v: Text.Vocabulary, s: Server, env: WorkEnv, id: nat)
    requires s.place.CancellingPending? || s.place.CancellingActive?
    requires Subject(s) == Some(id) && Unfinished(s.requests, id)
    requires s.requests[id].reason == NoReason && s.requests[id].error == None
    requires s.place.CancellingActive? ==> ReleaseSequence(s.engine, id).1
    ensures Told(s, v, env, s.Work(k, v, env), id)
  {
    hide ReleaseSequence;
  }

  lemma FailedTold(k: Kernel, v: Text.Vocabulary, s: Server, env: WorkEnv, id: nat)
    requires s.place.FailingPending? || s.place.FailingActive? || s.place.Refusing?
    requires Subject(s) == Some(id) && Unfinished(s.requests, id)
    requires s.requests[id].reason == NoReason && s.requests[id].error == None
    ensures Told(s, v, env, s.Work(k, v, env), id)
  {
    hide ReleaseSequence;
  }

  lemma NeverTooLarge(k: Kernel, v: Text.Vocabulary, s: Server, env: AdmitEnv)
    requires ServerInv(k, v, s) && PendingFits(s) && s.pending != []
    ensures s.engine.TryAdd(s.pending[0], env).1 != Ok(TooLarge)
  {
    hide EngineInv, Books, RequestsOk, Sched.FitsCache, Sched.Admit, HasRoom;
    PendingPristine(k, v, s);
    hide ServerInv;
    TooLargeMeans(s.engine, s.pending[0], env);
  }

  lemma TooLargeMeans(s: Sched, q: SeqData, env: AdmitEnv)
    requires s.FitsCache(q) && |q.tokens| == q.promptCount
    ensures s.TryAdd(q, env).1 != Ok(TooLarge)
  {
    hide Sched.FitsCache, HybridStates.Hybrid.Reserve, HybridStates.Hybrid.Release, HybridStates.Hybrid.Restore,
      PrefixCaching.Cache.Find, Budget;
  }

  lemma PendingPristine(k: Kernel, v: Text.Vocabulary, s: Server)
    requires ServerInv(k, v, s) && s.pending != []
    ensures s.pending[0].id in s.requests && Pristine(s.pending[0]) && s.pending[0].id !in s.engine.sequences
    ensures s.requests[s.pending[0].id].prompt == s.pending[0].tokens && EngineInv(k, s.engine)
  {
    hide EngineInv, Line, StoryOk, FinalOk, Untold, Pristine;
    assert PreparedOk(s.requests[s.pending[0].id], s.pending[0]);
    PendingInLine(s, 0);
    LineUnfinished(s, 0);
  }

  lemma AdmittedTold(k: Kernel, v: Text.Vocabulary, s: Server, env: WorkEnv)
    requires ServerInv(k, v, s) && PendingFits(s) && s.place.Admitting? && s.pending != []
    requires Unfinished(s.requests, s.pending[0].id)
    requires s.requests[s.pending[0].id].reason == NoReason && s.requests[s.pending[0].id].error == None
    ensures Told(s, v, env, s.Work(k, v, env), s.pending[0].id)
  {
    hide ServerInv, PendingFits, Sched.TryAdd;
    NeverTooLarge(k, v, s, env.admit);
  }

  lemma DeliveredTold(k: Kernel, v: Text.Vocabulary, s: Server, env: WorkEnv)
    requires ServerInv(k, v, s) && s.place.Delivering? && s.place.updates != []
    ensures Told(s, v, env, s.Work(k, v, env), s.place.updates[0].id)
  {
    hide EngineInv, Books, RequestsOk, StoryOk, ReleaseSequence, Sched.Remove, Text.PushTail, Due, Server.AppendUpdate;
    var u := s.place.updates[0];
    ActiveStory(k, v, s, u.id);
    NextUpdates(s, s.(place := Delivering(s.place.updates[1..])));
    DueFinished(v, s.requests[u.id], s.engine.sequences[u.id], u);
    if u.reason != NoReason {
      RemoveIs(k, s.engine, u.id);
    }
    AppendIs(s, v, u);
  }

  lemma SubjectTold(k: Kernel, v: Text.Vocabulary, s: Server, env: WorkEnv, id: nat)
    requires ServerInv(k, v, s) && PendingFits(s) && Subject(s) == Some(id) && Unfinished(s.requests, id)
    ensures Told(s, v, env, s.Work(k, v, env), id)
  {
    hide EngineInv, Books, RequestsOk, Told, PendingFits, Server.Work, ReleaseSequence;
    NothingSaid(k, v, s, id);
    match s.place {
      case Preparing(_) => PreparedTold(k, v, s, env);
      case Admitting => AdmittedTold(k, v, s, env);
      case Delivering(_) => DeliveredTold(k, v, s, env);
      case CancellingPending(_) => CancelledTold(k, v, s, env, id);
      case CancellingActive(_) =>
        ReleaseIs(k, s.engine, id);
        CancelledTold(k, v, s, env, id);
      case _ => FailedTold(k, v, s, env, id);
    }
  }

  lemma NotTheSubject(s: Server, v: Text.Vocabulary, env: WorkEnv, t: Server, id: nat)
    requires About(s, Subject(s), t) && id in s.requests && Subject(s) != Some(id)
    requires s.requests[id].status != RequestStatus.Finished
    ensures Told(s, v, env, t, id)
  {
    hide Subject, Onward;
  }

  /** Each step of the worker ends exactly those unfinished requests that have cause to end, as the cause demands. */
  lemma WorkEnds(k: Kernel, v: Text.Vocabulary, s: Server, env: WorkEnv)
    requires ServerInv(k, v, s) && Unprepared(s) && PendingFits(s)
    ensures forall id :: Unfinished(s.requests, id) ==>
              id in s.Work(k, v, env).requests && Ends(s.Work(k, v, env).requests[id], Fate(s, v, env, id))
  {
    hide ServerInv, Unprepared, PendingFits, Server.Work, About, Fate;
    WorkAbout(k, v, s, env);
    forall id | Unfinished(s.requests, id)
      ensures id in s.Work(k, v, env).requests && Ends(s.Work(k, v, env).requests[id], Fate(s, v, env, id))
    {
      if Subject(s) == Some(id) {
        SubjectTold(k, v, s, env, id);
      } else {
        NotTheSubject(s, v, env, s.Work(k, v, env), id);
      }
    }
  }

  // ---------------------------------------------------------------- the accounts over whole runs

  lemma ConfigKept(k: Kernel, v: Text.Vocabulary, s: Server, env: WorkEnv)
    requires ServerInv(k, v, s)
    ensures s.Work(k, v, env).engine.config == s.engine.config
  {
    hide EngineInv, Books, StoryOk, FinalOk, Untold, ReleaseSequence, Sched.Remove, Sched.TryAdd, Step, Ordering,
      Text.PushTail, Server.Sequenced, Pristine;
    match s.place {
      case CancellingActive(left) =>
        if left != [] {
          ReleaseIs(k, s.engine, left[0]);
        }
      case FailingActive(left, _) =>
        if left != [] {
          ReleaseIs(k, s.engine, left[0]);
        }
      case Delivering(updates) =>
        if updates != [] {
          DeliveredConfig(k, v, s);
        }
      case Deciding => StepWorks(k, s.engine, env.step);
      case Admitting =>
        if s.pending != [] {
          PendingPristine(k, v, s);
          TryAddIs(k, s.engine, s.pending[0], env.admit);
        }
      case _ =>
    }
  }

  lemma DeliveredConfig(k: Kernel, v: Text.Vocabulary, s: Server)
    requires ServerInv(k, v, s) && s.place.Delivering? && s.place.updates != []
    ensures s.AppendUpdate(v, s.place.updates[0]).engine.config == s.engine.config
  {
    hide EngineInv, Books, RequestsOk, StoryOk, ReleaseSequence, Sched.Remove, Text.PushTail, Due;
    var u := s.place.updates[0];
    ActiveStory(k, v, s, u.id);
    NextUpdates(s, s.(place := Delivering(s.place.updates[1..])));
    DueFinished(v, s.requests[u.id], s.engine.sequences[u.id], u);
    ReleaseIs(k, s.engine, u.id);
    if u.reason != NoReason {
      RemoveIs(k, s.engine, u.id);
    }
  }

  lemma SameFits(s: Sched, t: Sched, q: SeqData)
    requires t.config == s.config
    ensures t.FitsCache(q) == s.FitsCache(q)
  {
    hide Budget;
  }

  lemma FitsIn(s: Server, t: Server)
    requires PendingFits(s) && t.engine.config == s.engine.config && forall q :: q in t.pending ==> q in s.pending
    ensures PendingFits(t)
  {
    hide Sched.FitsCache;
    forall i | 0 <= i < |t.pending| ensures t.engine.FitsCache(t.pending[i]) && t.pending[i].cached == 0 {
      assert t.pending[i] in t.pending;
      SameFits(s.engine, t.engine, t.pending[i]);
    }
  }

  lemma WorkFits(k: Kernel, v: Text.Vocabulary, s: Server, env: WorkEnv)
    requires ServerInv(k, v, s) && PendingFits(s)
    ensures PendingFits(s.Work(k, v, env))
  {
    hide ServerInv, PendingFits, Sched.FitsCache, Preparing.Preparable;
    ConfigKept(k, v, s, env);
    var t := s.Work(k, v, env);
    if s.place.Preparing? && !s.Of(s.place.next.id).cancelled && s.Sequenced(s.place.next, env).Ok? {
      var q := s.Sequenced(s.place.next, env).value;
      SequencedIs(s, s.place.next, env);
      Preparing.SequencedExactly(s, s.place.next, env);
      hide Server.Sequenced;
      assert t.pending == s.pending + [q];
      FitsToo(s, t, q);
    } else {
      PendingShrinks(k, v, s, env);
      hide Server.Work;
      FitsIn(s, t);
    }
  }

  lemma FitsToo(s: Server, t: Server, q: SeqData)
    requires PendingFits(s) && t.engine.config == s.engine.config && t.pending == s.pending + [q]
    requires s.engine.FitsCache(q) && q.cached == 0
    ensures PendingFits(t)
  {
    hide Sched.FitsCache;
    forall i | 0 <= i < |t.pending| ensures t.engine.FitsCache(t.pending[i]) && t.pending[i].cached == 0 {
      SameFits(s.engine, t.engine, t.pending[i]);
    }
  }

  lemma SubjectUnfinished(k: Kernel, v: Text.Vocabulary, s: Server, id: nat)
    requires ServerInv(k, v, s) && Subject(s) == Some(id)
    ensures Unfinished(s.requests, id)
  {
    hide EngineInv, RequestsOk, Line, Placed, InOrder;
    match s.place {
      case Preparing(_) => HeadApart(s);
      case Refusing(_) => HeadApart(s);
      case CancellingPending(i) => TailApart(s, id);
      case Admitting => TailApart(s, id);
      case FailingPending(_) => TailApart(s, id);
      case CancellingActive(left) => TailApart(s, id);
      case FailingActive(left, _) => TailApart(s, id);
      case Delivering(_) => TailApart(s, id);
      case _ =>
    }
  }

  /** An admission reports how many tokens of the prompt were in memory already, fewer than it has. */
  lemma AdmissionCounts(k: Kernel, v: Text.Vocabulary, s: Server, env: WorkEnv) returns (n: nat)
    requires ServerInv(k, v, s) && PendingFits(s) && s.place.Admitting? && s.pending != []
    requires s.engine.TryAdd(s.pending[0], env.admit).1 == Ok(Admitted)
    ensures var q, t := s.pending[0], s.Work(k, v, env);
            && n < q.promptCount && Resuming.Starts(q, s.engine.TryAdd(q, env.admit), n)
            && t.engine == s.engine.TryAdd(q, env.admit).0 && q.id in t.active
            && q.id in t.requests && t.requests[q.id].admitted && t.requests[q.id].cachedPromptTokens == n
  {
    hide Sched.TryAdd, EngineInv, Sched.FitsCache;
    PendingPristine(k, v, s);
    hide ServerInv;
    n := Resuming.AdmittedStarts(k, s.engine, s.pending[0], env.admit);
  }

  lemma ActiveAdmitted(s: Server, id: nat)
    requires Books(s) && id in s.active
    ensures id in s.requests && s.requests[id].admitted
  {
    hide Line;
  }

  lemma DueReason(v: Text.Vocabulary, r: Request, q: SeqData, u: Update)
    requires StoryOk(v, r, q, Some(u))
    ensures u.reason == NoReason || u.reason == Eos || u.reason == LenLimit
  {
  }

  lemma PreparedAccount(k: Kernel, v: Text.Vocabulary, s: Server, env: WorkEnv)
    requires s.place.Preparing? && s.place.next.id in s.requests && s.requests[s.place.next.id].status == Submitted
    requires AccountOk(s.requests[s.place.next.id])
    requires s.requests[s.place.next.id].reason == NoReason && s.requests[s.place.next.id].error == None
    ensures s.place.next.id in s.Work(k, v, env).requests && AccountOk(s.Work(k, v, env).requests[s.place.next.id])
  {
    hide Preparing.Preparable, Server.Prepare, Preparing.Represents;
    Preparing.PrepareDecides(s, s.place.next, env);
  }

  lemma CancelledAccount(k: Kernel, v: Text.Vocabulary, s: Server, env: WorkEnv, id: nat)
    requires s.place.CancellingPending? || s.place.CancellingActive?
    requires Subject(s) == Some(id) && Unfinished(s.requests, id) && AccountOk(s.requests[id])
    requires s.requests[id].reason == NoReason && s.requests[id].error == None
    requires s.place.CancellingActive? ==> ReleaseSequence(s.engine, id).1
    ensures id in s.Work(k, v, env).requests && AccountOk(s.Work(k, v, env).requests[id])
  {
    hide ReleaseSequence;
  }

  lemma FailedAccount(k: Kernel, v: Text.Vocabulary, s: Server, env: WorkEnv, id: nat)
    requires s.place.FailingPending? || s.place.FailingActive? || s.place.Refusing?
    requires Subject(s) == Some(id) && Unfinished(s.requests, id) && AccountOk(s.requests[id])
    requires s.requests[id].reason == NoReason && s.requests[id].error == None
    ensures id in s.Work(k, v, env).requests && AccountOk(s.Work(k, v, env).requests[id])
  {
    hide ReleaseSequence;
  }

  lemma AdmittedAccount(k: Kernel, v: Text.Vocabulary, s: Server, env: WorkEnv)
    requires ServerInv(k, v, s) && PendingFits(s) && s.place.Admitting? && s.pending != []
    requires s.pending[0].id in s.requests && AccountOk(s.requests[s.pending[0].id])
    requires s.requests[s.pending[0].id].status == Ready
    requires s.requests[s.pending[0].id].reason == NoReason && s.requests[s.pending[0].id].error == None
    ensures s.pending[0].id in s.Work(k, v, env).requests && AccountOk(s.Work(k, v, env).requests[s.pending[0].id])
  {
    hide EngineInv, PendingFits, Sched.TryAdd, Books, RequestsOk, Resuming.Starts;
    NeverTooLarge(k, v, s, env.admit);
    PendingPristine(k, v, s);
    var id, t := s.pending[0].id, s.Work(k, v, env);
    match s.engine.TryAdd(s.pending[0], env.admit).1 {
      case Ok(Admitted) =>
        var n := AdmissionCounts(k, v, s, env);
        assert t.requests[id] == s.requests[id].(admitted := true, cachedPromptTokens := n);
      case Ok(Deferred) => assert t.requests == s.requests;
      case Ok(TooLarge) => assert false;
      case Err(_) =>
        assert t.requests[id] == s.requests[id].(error := Some(ExecutionFailure), status := RequestStatus.Finished);
    }
  }

  lemma DeliveredAccount(k: Kernel, v: Text.Vocabulary, s: Server, env: WorkEnv)
    requires ServerInv(k, v, s) && s.place.Delivering? && s.place.updates != []
    requires s.place.updates[0].id in s.requests && AccountOk(s.requests[s.place.updates[0].id])
    ensures s.place.updates[0].id in s.Work(k, v, env).requests
            && AccountOk(s.Work(k, v, env).requests[s.place.updates[0].id])
  {
    hide EngineInv, Books, RequestsOk, StoryOk, ReleaseSequence, Sched.Remove, Text.PushTail, Due, Server.AppendUpdate;
    var u := s.place.updates[0];
    ActiveStory(k, v, s, u.id);
    ActiveAdmitted(s, u.id);
    NextUpdates(s, s.(place := Delivering(s.place.updates[1..])));
    DueFinished(v, s.requests[u.id], s.engine.sequences[u.id], u);
    DueReason(v, s.requests[u.id], s.engine.sequences[u.id], u);
    if u.reason != NoReason {
      RemoveIs(k, s.engine, u.id);
    }
    AppendIs(s, v, u);
  }

  /** A pending request is prepared, and what is about to be prepared is as it was submitted. */
  lemma SubjectStage(k: Kernel, v: Text.Vocabulary, s: Server, id: nat)
    requires ServerInv(k, v, s) && Unprepared(s) && Subject(s) == Some(id) && id in s.requests && AccountOk(s.requests[id])
    ensures s.place.Preparing? ==> s.requests[id].status == Submitted
    ensures s.place.Admitting? ==> s.requests[id].status == Ready
  {
    hide EngineInv, Books, StoryOk, FinalOk;
    if s.place.Preparing? {
      assert s.place.next in Tail(s);
    } else if s.place.Admitting? {
      assert PreparedOk(s.requests[id], s.pending[0]);
      SubjectUnfinished(k, v, s, id);
    }
  }

  lemma SubjectAccount(k: Kernel, v: Text.Vocabulary, s: Server, env: WorkEnv, id: nat)
    requires ServerInv(k, v, s) && Unprepared(s) && Accounts(s) && Subject(s) == Some(id)
    ensures id in s.Work(k, v, env).requests && AccountOk(s.Work(k, v, env).requests[id])
  {
    hide EngineInv, Books, RequestsOk, AccountOk, PendingFits, Server.Work, ReleaseSequence, Unprepared;
    SubjectUnfinished(k, v, s, id);
    NothingSaid(k, v, s, id);
    SubjectStage(k, v, s, id);
    match s.place {
      case Preparing(_) => PreparedAccount(k, v, s, env);
      case Admitting => AdmittedAccount(k, v, s, env);
      case Delivering(_) => DeliveredAccount(k, v, s, env);
      case CancellingPending(_) => CancelledAccount(k, v, s, env, id);
      case CancellingActive(_) =>
        ReleaseIs(k, s.engine, id);
        CancelledAccount(k, v, s, env, id);
      case _ => FailedAccount(k, v, s, env, id);
    }
  }

  lemma OthersAccounts(s: Server, t: Server, x: Option<nat>)
    requires Accounts(s) && About(s, x, t) && PendingFits(t)
    requires x.Some? ==> x.value in t.requests && AccountOk(t.requests[x.value])
    ensures Accounts(t)
  {
    hide AccountOk, PendingFits, Onward;
  }

  lemma WorkAccounts(k: Kernel, v: Text.Vocabulary, s: Server, env: WorkEnv)
    requires ServerInv(k, v, s) && Unprepared(s) && Accounts(s)
    ensures Accounts(s.Work(k, v, env))
  {
    hide ServerInv, Unprepared, About, AccountOk, PendingFits, Server.Work, Subject;
    WorkAbout(k, v, s, env);
    WorkFits(k, v, s, env);
    if Subject(s).Some? {
      SubjectAccount(k, v, s, env, Subject(s).value);
    }
    OthersAccounts(s, s.Work(k, v, env), Subject(s));
  }

  lemma HappenAccounts(k: Kernel, v: Text.Vocabulary, s: Server, e: Event)
    requires ServerInv(k, v, s) && Unprepared(s) && Accounts(s)
    ensures Accounts(Happen(k, v, s, e))
  {
    hide ServerInv, Unprepared, Server.Work, Sched.FitsCache;
    if e.WorkEvent? {
      WorkAccounts(k, v, s, e.env);
    }
  }

  lemma {:induction false} ServeAccounts(k: Kernel, v: Text.Vocabulary, s: Server, events: seq<Event>)
    requires ServerInv(k, v, s) && Unprepared(s) && Accounts(s)
    ensures Accounts(Serve(k, v, s, events))
    decreases |events|
  {
    hide ServerInv, Unprepared, Accounts, Happen, AllOnward;
    if events != [] {
      HappenKeeps(k, v, s, events[0]);
      HappenOnward(k, v, s, events[0]);
      HappenAccounts(k, v, s, events[0]);
      ServeAccounts(k, v, Happen(k, v, s, events[0]), events[1..]);
    }
  }

  /** In every reachable state of the runtime the counts of every request are right, and every finished one ended for one of
      four causes: cancelled on demand, refused before its prompt was accepted, failed, or answered after an admission. */
  lemma EndingsExplained(k: Kernel, v: Text.Vocabulary, limit: nat, contextLimit: nat, engine: Sched, events: seq<Event>)
    requires EngineInv(k, engine) && engine.sequences == map[]
    ensures Accounts(ServingResults.After(k, v, limit, contextLimit, engine, events))
  {
    hide EngineInv, ServerInv, Happen, Accounts, Serve;
    var s := Opened(limit, contextLimit, engine);
    OpenedServes(k, v, limit, contextLimit, engine);
    assert Unprepared(s);
    OpenedAccounts(limit, contextLimit, engine);
    ServeAccounts(k, v, s, events);
  }

  lemma OpenedAccounts(limit: nat, contextLimit: nat, engine: Sched)
    ensures Accounts(Opened(limit, contextLimit, engine))
  {
    hide Sched.FitsCache;
  }

  // ---------------------------------------------------------------- what stops the worker

  /** The worker leaves its loop only when a stop was requested, or asleep when the runtime is stopping; and it fails all
      requests only after a failed step or on its way out. */
  lemma StopsOnDemand(k: Kernel, v: Text.Vocabulary, s: Server, env: WorkEnv)
    ensures var t := s.Work(k, v, env);
            && (t.place.Leaving? <==> (s.place.Top? && s.stopRequested) || (s.place.Waiting? && s.stopping))
            && (t.place.FailingPending? && !s.place.FailingPending? <==>
                  || (s.place.Deciding? && s.active != {} && Step(k, s.engine, env.step).1.Err?)
                  || (s.place.Refusing? && s.place.taken == []))
            && (t.place.Exited? && !s.place.Exited? ==> s.place.FailingActive? && s.place.last)
  {
    hide Step, Ordering, Server.Prepare, Server.CancelPending, Server.CancelActive, Server.AdmitFront, Server.AppendUpdate,
      Server.FailActive, Server.FinishError;
    match s.place {
      case CancellingPending(i) =>
        if i < |s.pending| {
          CancelPendingMoves(s, i);
        }
      case Admitting =>
        if s.pending != [] {
          AdmitFrontMoves(s, env.admit);
        }
      case FailingPending(_) =>
        if s.pending != [] {
          FinishErrorStays(s, s.pending[0].id, ExecutionFailure);
        }
      case _ =>
    }
  }

  lemma CancelPendingMoves(s: Server, i: nat)
    requires i < |s.pending| && s.place.CancellingPending?
    ensures s.CancelPending(i).place.CancellingPending?
  {
  }

  lemma AdmitFrontMoves(s: Server, env: AdmitEnv)
    requires s.pending != [] && s.place.Admitting?
    ensures s.AdmitFront(env).place.Admitting? || s.AdmitFront(env).place.Deciding?
  {
    hide Sched.TryAdd;
  }

  lemma FinishErrorStays(s: Server, id: nat, kind: ErrorKind)
    ensures s.FinishError(id, kind).place == s.place
  {
  }
}

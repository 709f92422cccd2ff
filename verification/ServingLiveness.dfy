/** The worker never sleeps on work: left alone by the other threads it comes to rest, and then every accepted request is
    finished, whatever the runner, the decoder, the pages and the order of its hash map do meanwhile. */
module ServingLiveness {
  import opened Wrappers
  import opened Sums
  import opened Sequences
  import opened Kernels
  import opened Scheduling
  import opened Invariants
  import opened Lifecycle
  import opened Engine
  import opened Runs
  import opened Serving
  import opened ServingBooks
  import opened ServingRuns
  import opened ServingHistories

  /** Asleep with nothing submitted, or gone. */
  ghost predicate AtRest(s: Server) {
    s.place.Exited? || (s.place.Waiting? && !s.stopping && s.submissions == [])
  }

  // ---------------------------------------------------------------- what decreases

  /** Submissions still to be prepared or refused. */
  function ToTake(s: Server): nat {
    |s.submissions| + if s.place.Refusing? then |s.place.taken| else 0
  }

  /** Requests still to be admitted. */
  function ToAdmit(s: Server): nat {
    |s.pending| + if s.place.Preparing? then 1 else 0
  }

  /** Steps to the next place at which something else decreases. */
  ghost function Distance(s: Server): nat {
    var rest := if s.submissions != [] then 5 else 13 + |s.active| + |s.pending|;
    match s.place
    case Exited => 0
    case FailingActive(left, last) => if left != [] then 0 else if last then 1 else rest + 2
    case FailingPending(last) => if last then 2 else 1
    case Refusing(_) => 3
    case Leaving => 4
    case Draining => rest
    case Top => rest + 1
    case Waiting => if s.submissions != [] then 7 else 5
    case Delivering(updates) => rest + 2 + |updates|
    case Deciding => 8
    case Admitting => 9
    case CancellingActive(left) => 10 + |left|
    case CancellingPending(i) => 11 + |s.active| + if i <= |s.pending| then |s.pending| - i else 0
    case Preparing(_) => 13 + |s.active| + |s.pending|
  }

  /** Lexicographically less: submissions, requests to admit, tokens to process, distance. */
  ghost predicate Less(t: Server, s: Server) {
    ToTake(t) < ToTake(s)
    || (ToTake(t) == ToTake(s) && (ToAdmit(t) < ToAdmit(s)
    || (ToAdmit(t) == ToAdmit(s) && (Runs.Work(t.engine) < Runs.Work(s.engine)
    || (Runs.Work(t.engine) == Runs.Work(s.engine) && Distance(t) < Distance(s))))))
  }

  // ---------------------------------------------------------------- the engine's share

  lemma GoneWork(k: Kernel, s: Sched, id: nat, t: Sched)
    requires EngineInv(k, s) && id in s.sequences && Gone1(s, id, t)
    ensures Runs.Work(t) <= Runs.Work(s)
    ensures s.sequences[id].status != Status.Finished ==> Runs.Work(t) < Runs.Work(s)
  {
    hide Resting, PendingOk, ResourcesOk, Left;
    assert LeftOf(t) == LeftOf(s) - {id};
    if s.sequences[id].status != Status.Finished {
      assert MemberOk(s, id);
      LiveLeft(s.sequences[id]);
      TotalRemove(LeftOf(s), id);
    } else {
      assert LeftOf(s) - {id} == LeftOf(s);
    }
  }

  lemma ReleasedWork(k: Kernel, s: Sched, id: nat)
    requires EngineInv(k, s) && id in s.sequences
    ensures Runs.Work(ReleaseSequence(s, id).0) <= Runs.Work(s)
    ensures s.sequences[id].status != Status.Finished ==> Runs.Work(ReleaseSequence(s, id).0) < Runs.Work(s)
  {
    hide EngineInv, ReleaseSequence;
    ReleaseIs(k, s, id);
    GoneWork(k, s, id, ReleaseSequence(s, id).0);
  }

  lemma NotDueLive(v: Text.Vocabulary, r: Request, q: SeqData)
    requires StoryOk(v, r, q, None)
    ensures q.status != Status.Finished
  {
  }

  // ---------------------------------------------------------------- the worker's steps

  lemma EnumerationSize(order: seq<nat>, ids: set<nat>)
    requires Enumerates(order, ids)
    ensures |order| == |ids|
  {
    CountDistinct(order, {}, ids);
  }

  lemma OrderingSize(order: seq<nat>, ids: set<nat>)
    ensures |Ordering(order, ids)| == |ids|
  {
    hide Ordering;
    EnumerationSize(Ordering(order, ids), ids);
  }

  lemma ActiveReleases(k: Kernel, v: Text.Vocabulary, s: Server, id: nat)
    requires ServerInv(k, v, s) && id in s.active && !s.place.Delivering?
    ensures id in s.engine.sequences && Runs.Work(ReleaseSequence(s.engine, id).0) < Runs.Work(s.engine)
  {
    hide EngineInv, RequestsOk, StoryOk, Line, Placed, InOrder, ReleaseSequence, Runs.Work, PlaceOk;
    ActiveStory(k, v, s, id);
    NotDueLive(v, s.requests[id], s.engine.sequences[id]);
    ReleasedWork(k, s.engine, id);
  }

  lemma CancelPendingLess(k: Kernel, v: Text.Vocabulary, s: Server, env: WorkEnv)
    requires s.place.CancellingPending?
    ensures Less(s.Work(k, v, env), s)
  {
    hide Runs.Work, Ordering;
    OrderingSize(env.order, s.active);
  }

  lemma CancelActiveLess(k: Kernel, v: Text.Vocabulary, s: Server, env: WorkEnv)
    requires ServerInv(k, v, s) && s.place.CancellingActive?
    ensures Less(s.Work(k, v, env), s)
  {
    hide EngineInv, RequestsOk, Books, ReleaseSequence, Runs.Work;
    if s.place.left != [] && s.Of(s.place.left[0]).cancelled {
      ActiveReleases(k, v, s, s.place.left[0]);
    }
  }

  lemma AdmitLess(k: Kernel, v: Text.Vocabulary, s: Server, env: WorkEnv)
    requires ServerInv(k, v, s) && s.place.Admitting?
    ensures Less(s.Work(k, v, env), s)
  {
    hide EngineInv, RequestsOk, Line, Placed, InOrder, Runs.Work, Sched.TryAdd, Books;
    if s.pending != [] {
      DeferredSame(k, v, s, env.admit);
    }
  }

  lemma DeferredSame(k: Kernel, v: Text.Vocabulary, s: Server, env: AdmitEnv)
    requires ServerInv(k, v, s) && s.pending != []
    ensures s.engine.TryAdd(s.pending[0], env).1 == Ok(Deferred) ==> s.engine.TryAdd(s.pending[0], env).0 == s.engine
  {
    hide Inv, Resting, Line, Placed, InOrder, Untold, Sched.Admit, HasRoom, Sched.FitsCache, Entered, Refused;
    var q := s.pending[0];
    assert PreparedOk(s.requests[q.id], q);
    TryAddKeeps(s.engine, q, env);
  }

  lemma DecideLess(k: Kernel, v: Text.Vocabulary, s: Server, env: WorkEnv)
    requires ServerInv(k, v, s) && s.place.Deciding?
    ensures Less(s.Work(k, v, env), s)
  {
    hide EngineInv, RequestsOk, Line, Placed, InOrder, Runs.Work, Step, AllFollow, Books;
    StepWorks(k, s.engine, env.step);
  }

  lemma DeliverLess(k: Kernel, v: Text.Vocabulary, s: Server, env: WorkEnv)
    requires ServerInv(k, v, s) && s.place.Delivering?
    ensures Less(s.Work(k, v, env), s)
  {
    hide EngineInv, RequestsOk, Line, Placed, InOrder, Runs.Work, StoryOk, ReleaseSequence, Sched.Remove, Server.AppendUpdate,
      Text.PushTail, TokenShown, Due;
    if s.place.updates != [] {
      var u := s.place.updates[0];
      ActiveStory(k, v, s, u.id);
      NextUpdates(s, s.(place := Delivering(s.place.updates[1..])));
      DueFinished(v, s.requests[u.id], s.engine.sequences[u.id], u);
      ReleasedWork(k, s.engine, u.id);
      if u.reason != NoReason {
        RemoveIs(k, s.engine, u.id);
        GoneWork(k, s.engine, u.id, s.engine.Remove(u.id).0);
      }
      AppendIs(s, v, u);
      ShorterSet(s.active, u.id);
    }
  }

  lemma FailLess(k: Kernel, v: Text.Vocabulary, s: Server, env: WorkEnv)
    requires ServerInv(k, v, s) && (s.place.FailingPending? || s.place.FailingActive?)
    ensures Less(s.Work(k, v, env), s)
  {
    hide EngineInv, RequestsOk, Line, Placed, InOrder, ReleaseSequence, Runs.Work, Ordering;
    if s.place.FailingActive? && s.place.left != [] {
      ActiveReleases(k, v, s, s.place.left[0]);
    } else {
      OrderingSize(env.order, s.active);
      SomeActive(s.active);
    }
  }

  lemma SomeActive(ids: set<nat>)
    ensures ids != {} ==> 0 < |ids|
  {
  }

  lemma PrepareLess(k: Kernel, v: Text.Vocabulary, s: Server, env: WorkEnv)
    requires s.place.Preparing?
    ensures Less(s.Work(k, v, env), s)
  {
    hide Server.Sequenced, Runs.Work;
  }

  lemma MoveLess(k: Kernel, v: Text.Vocabulary, s: Server, env: WorkEnv)
    requires !AtRest(s)
    requires s.place.Top? || s.place.Draining? || s.place.Waiting? || s.place.Leaving? || s.place.Refusing?
    ensures Less(s.Work(k, v, env), s)
  {
    hide Runs.Work;
  }

  /** Until it rests, every step of the worker brings the end nearer. */
  lemma WorkLess(k: Kernel, v: Text.Vocabulary, s: Server, env: WorkEnv)
    requires ServerInv(k, v, s) && !AtRest(s)
    ensures Less(s.Work(k, v, env), s)
  {
    hide ServerInv, Server.Work, Less;
    match s.place {
      case Preparing(_) => PrepareLess(k, v, s, env);
      case CancellingPending(_) => CancelPendingLess(k, v, s, env);
      case CancellingActive(_) => CancelActiveLess(k, v, s, env);
      case Admitting => AdmitLess(k, v, s, env);
      case Deciding => DecideLess(k, v, s, env);
      case Delivering(_) => DeliverLess(k, v, s, env);
      case FailingPending(_) => FailLess(k, v, s, env);
      case FailingActive(_, _) => FailLess(k, v, s, env);
      case _ => MoveLess(k, v, s, env);
    }
  }

  // ---------------------------------------------------------------- coming to rest

  /** n steps of the worker, the i-th one in surroundings envs(i). */
  ghost function Worked(k: Kernel, v: Text.Vocabulary, s: Server, envs: nat -> WorkEnv, n: nat): Server {
    if n == 0 then s else Worked(k, v, s, envs, n - 1).Work(k, v, envs(n - 1))
  }

  lemma {:induction false} SettlesFrom(k: Kernel, v: Text.Vocabulary, s: Server, envs: nat -> WorkEnv, from: nat)
    returns (n: nat)
    requires ServerInv(k, v, Worked(k, v, s, envs, from)) && Unprepared(Worked(k, v, s, envs, from))
    ensures AtRest(Worked(k, v, s, envs, n)) && ServerInv(k, v, Worked(k, v, s, envs, n))
    ensures Worked(k, v, s, envs, n).requests.Keys == Worked(k, v, s, envs, from).requests.Keys
    decreases ToTake(Worked(k, v, s, envs, from)), ToAdmit(Worked(k, v, s, envs, from)),
              Runs.Work(Worked(k, v, s, envs, from).engine), Distance(Worked(k, v, s, envs, from))
  {
    hide ServerInv, Server.Work, Runs.Work, Distance, AtRest, Unprepared, Subject, Onward;
    var t := Worked(k, v, s, envs, from);
    if AtRest(t) {
      n := from;
    } else {
      WorkLess(k, v, t, envs(from));
      WorkKeeps(k, v, t, envs(from));
      WorkAbout(k, v, t, envs(from));
      n := SettlesFrom(k, v, s, envs, from + 1);
    }
  }

  /** At rest nothing is unfinished, nothing is outstanding, and the engine is idle. */
  lemma RestIsDone(k: Kernel, v: Text.Vocabulary, s: Server)
    requires ServerInv(k, v, s) && AtRest(s)
    ensures UnfinishedIds(s) == {} && s.outstanding == 0 && s.engine.IsFinished()
  {
    hide SchedInv, Resting, RequestsOk, Placed, InOrder;
    assert Line(s) == [];
    hide Line;
    OutstandingCounts(s);
    NobodyHome(k, s.engine);
  }

  lemma NobodyHome(k: Kernel, s: Sched)
    requires EngineInv(k, s) && s.sequences.Keys == {}
    ensures s.IsFinished()
  {
    hide Resting, Inv;
    EmptyPool(s, {});
    NoneQueued(s);
  }

  /** Left alone by the other threads, the worker finishes every request that was accepted, whatever it meets. */
  lemma EveryRequestFinishes(k: Kernel, v: Text.Vocabulary, s: Server, envs: nat -> WorkEnv)
    requires ServerInv(k, v, s) && Unprepared(s)
    ensures exists n :: AtRest(Worked(k, v, s, envs, n)) && UnfinishedIds(Worked(k, v, s, envs, n)) == {}
                        && Worked(k, v, s, envs, n).requests.Keys == s.requests.Keys
  {
    hide ServerInv, Server.Work, AtRest, Unprepared;
    var n := SettlesFrom(k, v, s, envs, 0);
    RestIsDone(k, v, Worked(k, v, s, envs, n));
  }
}

/** What happens to one request over time: it only moves forward, its text only grows, what was asked stays what it was,
    and once finished it never changes again. */
module ServingHistories {
  import opened Wrappers
  import opened Sequences
  import opened Kernels
  import opened Scheduling
  import opened Engine
  import opened Serving
  import opened ServingBooks
  import opened ServingRuns

  function Rank(status: RequestStatus): nat {
    match status
    case Submitted => 0
    case Ready => 1
    case Finished => 2
  }

  /** The later state of a request; other threads may still raise the flag of a finished one. */
  ghost predicate Onward(a: Request, b: Request) {
    && b.stamp == a.stamp && (a.cancelled ==> b.cancelled)
    && (a.admitted ==> b.admitted && b.cachedPromptTokens == a.cachedPromptTokens)
    && Rank(a.status) <= Rank(b.status)
    && a.output <= b.output && a.completionTokens <= b.completionTokens
    && (a.status != Submitted ==> b.prompt == a.prompt && b.params == a.params && b.promptTokens == a.promptTokens)
    && (a.status == RequestStatus.Finished ==> b == a.(cancelled := b.cancelled))
  }

  lemma OnwardTransitive(a: Request, b: Request, c: Request)
    requires Onward(a, b) && Onward(b, c)
    ensures Onward(a, c)
  {
  }

  function Tail(s: Server): seq<Submission> {
    Taken(s.place) + s.submissions
  }

  /** What was not prepared yet is still as it was submitted. */
  ghost predicate Unprepared(s: Server) {
    forall sub :: sub in Tail(s) && sub.id in s.requests ==> s.requests[sub.id].status == Submitted
  }

  /** The request that the worker's next step is about. */
  function Subject(s: Server): Option<nat> {
    match s.place
    case Preparing(next) => Some(next.id)
    case CancellingPending(i) => if i < |s.pending| then Some(s.pending[i].id) else None
    case CancellingActive(left) => if left != [] then Some(left[0]) else None
    case Admitting => if s.pending != [] then Some(s.pending[0].id) else None
    case Delivering(updates) => if updates != [] then Some(updates[0].id) else None
    case FailingPending(_) => if s.pending != [] then Some(s.pending[0].id) else None
    case FailingActive(left, _) => if left != [] then Some(left[0]) else None
    case Refusing(taken) => if taken != [] then Some(taken[0].id) else None
    case _ => None
  }

  /** A step about at most this request. */
  ghost predicate About(s: Server, x: Option<nat>, t: Server) {
    && t.requests.Keys == s.requests.Keys
    && (forall id :: id in s.requests && x != Some(id) ==> t.requests[id] == s.requests[id])
    && (x.Some? ==> x.value in s.requests && Onward(s.requests[x.value], t.requests[x.value]))
    && (forall sub :: sub in Tail(t) ==> sub in Tail(s) && x != Some(sub.id))
  }

  lemma AboutUnprepared(s: Server, x: Option<nat>, t: Server)
    requires Unprepared(s) && About(s, x, t)
    ensures Unprepared(t)
  {
    hide Onward, Tail;
  }

  // ---------------------------------------------------------------- where the subject stands

  lemma TailInLine(s: Server, j: nat)
    requires j < |Tail(s)|
    ensures |s.pending| + j < |Line(s)| && Line(s)[|s.pending| + j] == Tail(s)[j].id
  {
    var a, b, c := PendingIds(s.pending), SubmittedIds(Taken(s.place)), SubmittedIds(s.submissions);
    assert (a + b + c)[|a| + j] == if j < |b| then b[j] else c[j - |b|];
  }

  /** Pending, active and unprepared requests are different ones. */
  lemma TailApart(s: Server, id: nat)
    requires Books(s) && (id in s.active || exists i :: 0 <= i < |s.pending| && s.pending[i].id == id)
    ensures forall sub :: sub in Tail(s) ==> sub.id != id
    ensures id in s.requests && s.requests[id].status != RequestStatus.Finished
  {
    hide Line, Tail, Placed, InOrder;
    if id in s.active {
      ActiveUnfinished(s, id);
    } else {
      var i :| 0 <= i < |s.pending| && s.pending[i].id == id;
      PendingInLine(s, i);
      LineUnfinished(s, i);
    }
    forall sub | sub in Tail(s) ensures sub.id != id {
      var j :| 0 <= j < |Tail(s)| && Tail(s)[j] == sub;
      TailInLine(s, j);
      LineUnfinished(s, |s.pending| + j);
      if id !in s.active {
        var i :| 0 <= i < |s.pending| && s.pending[i].id == id;
        PendingInLine(s, i);
        LineDistinct(s, i, |s.pending| + j);
      }
    }
  }

  lemma ActiveUnfinished(s: Server, id: nat)
    requires Books(s) && id in s.active
    ensures Unfinished(s.requests, id)
  {
    hide Line;
  }

  /** The first unprepared request is none of the others. */
  lemma HeadApart(s: Server)
    requires Books(s) && Taken(s.place) != []
    ensures Unfinished(s.requests, Taken(s.place)[0].id)
    ensures forall sub :: sub in Taken(s.place)[1..] + s.submissions ==> sub.id != Taken(s.place)[0].id
  {
    hide Line, Placed, InOrder;
    assert Tail(s)[0] == Taken(s.place)[0];
    TailInLine(s, 0);
    LineUnfinished(s, |s.pending|);
    var rest := Taken(s.place)[1..] + s.submissions;
    assert Tail(s) == [Taken(s.place)[0]] + rest;
    forall sub | sub in rest ensures sub.id != Taken(s.place)[0].id {
      var j :| 0 <= j < |rest| && rest[j] == sub;
      assert Tail(s)[j + 1] == sub;
      TailInLine(s, j + 1);
      LineDistinct(s, |s.pending|, |s.pending| + j + 1);
    }
  }

  // ---------------------------------------------------------------- the worker's steps

  lemma TakenAbout(s: Server, t: Server)
    requires Books(s) && Unprepared(s) && Taken(s.place) != []
    requires t.submissions == s.submissions && Taken(t.place) == Taken(s.place)[1..]
    requires var id := Taken(s.place)[0].id;
             && t.requests == s.requests[id := t.Of(id)]
             && (id in s.requests && s.requests[id].status == Submitted ==> Onward(s.requests[id], t.Of(id)))
    ensures About(s, Some(Taken(s.place)[0].id), t)
  {
    hide Books, Onward;
    HeadApart(s);
    assert Taken(s.place)[0] in Tail(s);
    assert Tail(s) == [Taken(s.place)[0]] + Tail(t);
  }

  lemma SubmittedOnward(a: Request)
    requires a.status == Submitted
    ensures forall p, q, n :: Onward(a, a.(status := Ready, promptTokens := n, prompt := p, params := q))
  {
  }

  lemma PrepareAbout(s: Server, env: WorkEnv)
    requires Books(s) && Unprepared(s) && s.place.Preparing?
    ensures About(s, Some(s.place.next.id), s.Prepare(s.place.next, env).(place := CancellingPending(0)))
  {
    hide Books, Server.Sequenced, Onward, About, Unprepared;
    var id := s.place.next.id;
    var t := s.Prepare(s.place.next, env).(place := CancellingPending(0));
    if s.Of(id).status == Submitted {
      SubmittedOnward(s.Of(id));
      CancelledOnward(s.Of(id));
      if s.Sequenced(s.place.next, env).Err? {
        ErrorOnward(s.Of(id), s.Sequenced(s.place.next, env).error);
      }
    }
    TakenAbout(s, t);
  }

  lemma RefuseAbout(s: Server)
    requires Books(s) && Unprepared(s) && s.place.Refusing? && s.place.taken != []
    ensures var id := s.place.taken[0].id;
            About(s, Some(id), s.FinishError(id, ExecutionFailure).(place := Refusing(s.place.taken[1..])))
  {
    hide Books, Onward, About, Unprepared;
    var id := s.place.taken[0].id;
    if s.Of(id).status == Submitted {
      ErrorOnward(s.Of(id), ExecutionFailure);
    }
    TakenAbout(s, s.FinishError(id, ExecutionFailure).(place := Refusing(s.place.taken[1..])));
  }

  lemma CancelPendingAbout(s: Server, i: nat)
    requires Books(s) && i < |s.pending| && Taken(s.place) == []
    ensures About(s, Some(s.pending[i].id), s.CancelPending(i))
  {
    hide Books;
    TailApart(s, s.pending[i].id);
  }

  lemma AdmittedOnward(a: Request, cached: nat)
    requires a.status != RequestStatus.Finished && !a.admitted
    ensures Onward(a, a.(admitted := true, cachedPromptTokens := cached))
  {
  }

  lemma ErrorOnward(a: Request, kind: ErrorKind)
    requires a.status != RequestStatus.Finished
    ensures Onward(a, a.(error := Some(kind)).(status := RequestStatus.Finished))
  {
  }

  /** Whoever is first in line was never admitted. */
  lemma FirstIsNew(s: Server)
    requires Books(s) && s.pending != [] && s.pending[0].id in s.requests
    ensures !s.requests[s.pending[0].id].admitted
  {
    PendingInLine(s, 0);
    assert Line(s)[0] == s.pending[0].id;
  }

  lemma AdmitAbout(s: Server, env: AdmitEnv)
    requires Books(s) && s.pending != [] && Taken(s.place) == []
    ensures About(s, Some(s.pending[0].id), s.AdmitFront(env))
  {
    hide Books, Sched.TryAdd, Onward;
    var id := s.pending[0].id;
    TailApart(s, id);
    FirstIsNew(s);
    ErrorOnward(s.requests[id], InvalidInput);
    ErrorOnward(s.requests[id], ExecutionFailure);
    var t := s.engine.TryAdd(s.pending[0], env).0;
    SameOnward(s.requests[id]);
    AdmittedOnward(s.requests[id], if id in t.sequences then t.sequences[id].cached else 0);
  }

  lemma FailPendingAbout(s: Server)
    requires Books(s) && s.pending != []
    ensures About(s, Some(s.pending[0].id), s.FinishError(s.pending[0].id, ExecutionFailure).(pending := s.pending[1..]))
  {
    hide Books;
    TailApart(s, s.pending[0].id);
  }

  lemma CancelledOnward(a: Request)
    requires a.status != RequestStatus.Finished
    ensures Onward(a, a.(reason := Cancelled).(status := RequestStatus.Finished)) && Onward(a, a)
  {
  }

  lemma CancelActiveAbout(s: Server, id: nat, left: seq<nat>)
    requires Books(s) && id in s.active && Taken(s.place) == []
    ensures About(s, Some(id), s.CancelActive(id).(place := CancellingActive(left)))
  {
    hide Books, ReleaseSequence, Onward;
    TailApart(s, id);
    ErrorOnward(s.requests[id], ExecutionFailure);
    CancelledOnward(s.requests[id]);
  }

  lemma FailActiveAbout(s: Server, id: nat, left: seq<nat>, last: bool)
    requires Books(s) && id in s.active && Taken(s.place) == []
    ensures About(s, Some(id), s.FailActive(id).(place := FailingActive(left, last)))
  {
    hide Books, ReleaseSequence, Onward;
    TailApart(s, id);
    ErrorOnward(s.requests[id], ExecutionFailure);
  }

  lemma ShownOnward(v: Text.Vocabulary, r: Request, u: Update)
    requires r.status != RequestStatus.Finished
    ensures Onward(r, TokenShown(v, r, u)) && Onward(r, TokenShown(v, r, u).(status := RequestStatus.Finished))
  {
    hide Text.PushTail;
  }

  lemma UpdateAbout(k: Kernel, v: Text.Vocabulary, s: Server, u: Update)
    requires ServerInv(k, v, s) && s.place.Delivering? && s.place.updates != [] && u == s.place.updates[0]
    ensures About(s, Some(u.id), s.AppendUpdate(v, u).(place := Delivering(s.place.updates[1..])))
  {
    hide EngineInv, RequestsOk, Placed, InOrder, ReleaseSequence, Line, Sched.Remove, Text.PushTail, Server.AppendUpdate,
      StoryOk, TokenShown, Onward, Due;
    TailApart(s, u.id);
    ActiveStory(k, v, s, u.id);
    NextUpdates(s, s.(place := Delivering(s.place.updates[1..])));
    DueFinished(v, s.requests[u.id], s.engine.sequences[u.id], u);
    if u.reason != NoReason {
      RemoveIs(k, s.engine, u.id);
    }
    hide Books;
    AppendIs(s, v, u);
    ShownOnward(v, s.requests[u.id], u);
  }

  lemma SameRequestsAbout(s: Server, t: Server)
    requires t.requests == s.requests && forall sub :: sub in Tail(t) ==> sub in Tail(s)
    ensures About(s, None, t)
  {
  }

  lemma NobodyAbout(k: Kernel, v: Text.Vocabulary, s: Server, env: WorkEnv)
    requires Subject(s) == None
    ensures About(s, None, s.Work(k, v, env))
  {
    hide Step, Ordering, About, Server.Prepare, Server.CancelPending, Server.CancelActive, Server.AdmitFront,
      Server.AppendUpdate, Server.FailActive, Server.FinishError;
    match s.place {
      case Draining =>
        if s.submissions != [] {
          DrainAbout(s);
        } else {
          SameRequestsAbout(s, s.(place := CancellingPending(0)));
        }
      case Leaving => LeaveAbout(s);
      case Deciding =>
        if s.active == {} {
          SameRequestsAbout(s, s.(place := Place.Waiting));
        } else {
          SameRequestsAbout(s, s.ExecuteStep(k, env.step));
        }
      case Top => SameRequestsAbout(s, s.(place := if s.stopRequested then Leaving else Draining));
      case CancellingPending(_) => SameRequestsAbout(s, s.(place := CancellingActive(Ordering(env.order, s.active))));
      case CancellingActive(_) => SameRequestsAbout(s, s.(place := Admitting));
      case Admitting => SameRequestsAbout(s, s.(place := Deciding));
      case Delivering(_) => SameRequestsAbout(s, s.(place := Top));
      case FailingPending(last) => SameRequestsAbout(s, s.(place := FailingActive(Ordering(env.order, s.active), last)));
      case FailingActive(_, last) => SameRequestsAbout(s, s.(place := if last then Exited else Top));
      case Waiting =>
        SameRequestsAbout(s, s.(place := if s.stopping then Leaving else if s.submissions != [] then Top else Place.Waiting));
      case Refusing(_) => SameRequestsAbout(s, s.(place := FailingPending(true)));
      case Exited => SameRequestsAbout(s, s);
    }
  }

  lemma DrainAbout(s: Server)
    requires s.place.Draining? && s.submissions != []
    ensures About(s, None, s.(submissions := s.submissions[1..], place := Preparing(s.submissions[0])))
  {
    var t := s.(submissions := s.submissions[1..], place := Preparing(s.submissions[0]));
    assert Tail(t) == [s.submissions[0]] + s.submissions[1..] == s.submissions == Tail(s);
  }

  lemma LeaveAbout(s: Server)
    requires s.place.Leaving?
    ensures About(s, None, s.(submissions := [], place := Refusing(s.submissions)))
  {
    var t := s.(submissions := [], place := Refusing(s.submissions));
    assert Tail(t) == s.submissions == Tail(s);
  }

  lemma WorkAbout(k: Kernel, v: Text.Vocabulary, s: Server, env: WorkEnv)
    requires ServerInv(k, v, s) && Unprepared(s)
    ensures About(s, Subject(s), s.Work(k, v, env)) && Unprepared(s.Work(k, v, env))
  {
    hide Books, EngineInv, RequestsOk, About, Unprepared;
    if Subject(s) == None {
      NobodyAbout(k, v, s, env);
    } else {
      match s.place {
        case Preparing(_) => PrepareAbout(s, env);
        case Refusing(_) => RefuseAbout(s);
        case CancellingPending(i) => CancelPendingAbout(s, i);
        case Admitting => AdmitAbout(s, env.admit);
        case FailingPending(_) => FailPendingAbout(s);
        case CancellingActive(left) => CancelActiveAbout(s, left[0], left[1..]);
        case FailingActive(left, last) => FailActiveAbout(s, left[0], left[1..], last);
        case Delivering(updates) => UpdateAbout(k, v, s, updates[0]);
        case _ =>
      }
    }
    AboutUnprepared(s, Subject(s), s.Work(k, v, env));
  }

  // ---------------------------------------------------------------- every run

  ghost predicate AllOnward(s: Server, t: Server) {
    forall id :: id in s.requests ==> id in t.requests && Onward(s.requests[id], t.requests[id])
  }

  lemma SameOnward(a: Request)
    ensures Onward(a, a) && Onward(a, a.(cancelled := true))
  {
  }

  lemma HappenOnward(k: Kernel, v: Text.Vocabulary, s: Server, e: Event)
    requires ServerInv(k, v, s) && Unprepared(s)
    ensures AllOnward(s, Happen(k, v, s, e)) && Unprepared(Happen(k, v, s, e))
  {
    hide ServerInv, Server.Work, Onward, Subject;
    var t := Happen(k, v, s, e);
    if e.WorkEvent? {
      WorkAbout(k, v, s, e.env);
    }
    forall id | id in s.requests ensures id in t.requests && Onward(s.requests[id], t.requests[id]) {
      SameOnward(s.requests[id]);
    }
  }

  /** A request never goes back: over any run its text only grows, its prompt and parameters are set once, and when it is
      finished it stays as it is. */
  lemma {:induction false} RequestsGoOn(k: Kernel, v: Text.Vocabulary, s: Server, events: seq<Event>)
    requires ServerInv(k, v, s) && Unprepared(s)
    ensures AllOnward(s, Serve(k, v, s, events)) && Unprepared(Serve(k, v, s, events))
    decreases |events|
  {
    hide ServerInv, Happen, Onward, Unprepared;
    if events != [] {
      var t := Happen(k, v, s, events[0]);
      HappenKeeps(k, v, s, events[0]);
      HappenOnward(k, v, s, events[0]);
      RequestsGoOn(k, v, t, events[1..]);
      var u := Serve(k, v, s, events);
      forall id | id in s.requests ensures Onward(s.requests[id], u.requests[id]) {
        OnwardTransitive(s.requests[id], t.requests[id], u.requests[id]);
      }
    } else {
      forall id | id in s.requests ensures Onward(s.requests[id], s.requests[id]) {
        SameOnward(s.requests[id]);
      }
    }
  }
}

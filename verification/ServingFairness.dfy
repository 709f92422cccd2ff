/** Every accepted request finishes, while other threads go on submitting, cancelling and stopping, as long as the worker keeps
    taking steps: src/serving_runtime.cc:40-392. The measure of one request is not touched by what comes after it. */
module ServingFairness {
  import opened Wrappers
  import opened Sums
  import opened Sequences
  import opened Kernels
  import opened Scheduling
  import opened Invariants
  import opened Lifecycle
  import opened Engine
  import opened Delivery
  import opened Serving
  import opened ServingBooks
  import opened ServingRuns
  import opened ServingHistories
  import opened ServingLiveness
  import Admission
  import Finishing

  // ---------------------------------------------------------------- how far a request is from its end

  /** Signals to stop that are still to come. */
  function Signals(s: Server): nat {
    (if s.stopping then 0 else 1) + if s.stopRequested then 0 else 1
  }

  /** The requests that the worker has in hand: prepared, being prepared, being refused. */
  function Front(s: Server): nat {
    |s.pending| + |Taken(s.place)|
  }

  /** Its position in the line, from 1; 0 once active. */
  function Ahead(s: Server, x: nat): nat {
    if x in s.active then 0 else IndexOf(Line(s), x) + 1
  }

  /** Submissions that the worker takes up to and with this one; 0 from there on. */
  function Behind(s: Server, x: nat): nat {
    if Ahead(s, x) <= Front(s) then 0 else Ahead(s, x) - Front(s)
  }

  /** What the engine still has to do before the request moves on: its own bound once active, all work before that. */
  ghost function Effort(s: Server, x: nat): nat {
    if x in s.active then Finishing.Remaining(s.engine, x) else if Behind(s, x) == 0 then Runs.Work(s.engine) else 0
  }

  /** Worker steps to the next engine step, at most. */
  function ToEngine(s: Server): nat {
    var p, a := |s.pending|, |s.active|;
    var u := if s.stopping then |s.submissions| else 0;
    match s.place
    case FailingActive(left, _) => |left|
    case FailingPending(_) => 1 + p + a
    case Deciding => 2 + p + a
    case Refusing(taken) => 2 + p + a + |taken|
    case Leaving => 3 + p + a + u
    case Admitting => 3 + 2 * p + a
    case CancellingActive(left) => 4 + 2 * p + a + |left|
    case CancellingPending(i) => 5 + 2 * p + 2 * a + if i <= p then p - i else 0
    case Preparing(_) => 9 + 3 * p + 2 * a
    case Draining => 10 + 3 * p + 2 * a
    case Top => 11 + 3 * p + 2 * a + u
    case Delivering(updates) => 12 + 3 * p + 2 * a + u + |updates|
    case Waiting => 0
    case Exited => 0
  }

  /** Worker steps to the next look at the submissions, at most. */
  function ToDrain(s: Server): nat {
    var p, a := |s.pending|, |s.active|;
    match s.place
    case Draining => 0
    case Leaving => 0
    case Top => 1
    case Waiting => 2
    case FailingActive(left, _) => 2 + |left|
    case Delivering(updates) => 2 + |updates|
    case FailingPending(_) => 3 + p + a
    case Deciding => 4 + p + a
    case Admitting => 5 + 2 * p + a
    case CancellingActive(left) => 6 + 2 * p + a + |left|
    case CancellingPending(i) => 7 + 2 * p + 2 * a + if i <= p then p - i else 0
    case Preparing(_) => 11 + 3 * p + 2 * a
    case Refusing(_) => 0
    case Exited => 0
  }

  function Pause(s: Server, x: nat): nat {
    if Behind(s, x) == 0 then ToEngine(s) else ToDrain(s)
  }

  /** Lexicographically nearer to the end. */
  ghost predicate Nearer(t: Server, s: Server, x: nat) {
    Signals(t) < Signals(s) || (Signals(t) == Signals(s) && (
    Ahead(t, x) < Ahead(s, x) || (Ahead(t, x) == Ahead(s, x) && (
    Behind(t, x) < Behind(s, x) || (Behind(t, x) == Behind(s, x) && (
    Effort(t, x) < Effort(s, x) || (Effort(t, x) == Effort(s, x) &&
    Pause(t, x) < Pause(s, x))))))))
  }

  ghost predicate AsNear(t: Server, s: Server, x: nat) {
    && Signals(t) == Signals(s) && Ahead(t, x) == Ahead(s, x) && Behind(t, x) == Behind(s, x)
    && Effort(t, x) == Effort(s, x) && Pause(t, x) == Pause(s, x)
  }

  ghost predicate NoFarther(t: Server, s: Server, x: nat) {
    Nearer(t, s, x) || AsNear(t, s, x)
  }

  // ---------------------------------------------------------------- the line

  lemma LineNoDup(s: Server)
    requires Books(s)
    ensures NoDup(Line(s))
  {
    hide Line;
    forall i, j | 0 <= i < j < |Line(s)| ensures Line(s)[i] != Line(s)[j] {
      LineDistinct(s, i, j);
    }
  }

  lemma Somewhere(s: Server, x: nat)
    requires Books(s) && Unfinished(s.requests, x)
    ensures x in s.active || x in Line(s)
  {
    hide Line, InOrder;
  }

  lemma SubmittedBehind(s: Server, x: nat)
    requires x in Line(s) && Front(s) < Ahead(s, x)
    ensures s.submissions != []
  {
    hide PendingIds, SubmittedIds, Taken;
    IndexOfBound(Line(s), x);
  }

  lemma IndexOfBound(queue: seq<nat>, x: nat)
    requires x in queue
    ensures IndexOf(queue, x) < |queue|
  {
  }

  lemma {:induction false} IndexInFront(a: seq<nat>, b: seq<nat>, x: nat)
    requires x in a
    ensures IndexOf(a + b, x) == IndexOf(a, x) && x in a + b
  {
    if a[0] != x {
      assert (a + b)[1..] == a[1..] + b;
      IndexInFront(a[1..], b, x);
    } else {
      assert (a + b)[0] == x;
    }
  }

  /** Taking an entry out of a queue moves the others up, if at all. */
  lemma DroppedIndex(queue: seq<nat>, i: nat, x: nat)
    requires NoDup(queue) && i < |queue| && x in queue && x in Dropped(queue, i)
    ensures IndexOf(queue, x) != i
    ensures IndexOf(Dropped(queue, i), x) == IndexOf(queue, x) - if i < IndexOf(queue, x) then 1 else 0
  {
    LeftMembers(queue, i);
    var other := queue[i];
    IndexOfUnique(queue, other, i);
    Finishing.WithoutMoves(queue, other, x);
  }

  /** What a step of the worker does to the line: nothing but take from the submissions, or end one request in hand. */
  ghost predicate Moved(s: Server, t: Server) {
    || (Line(t) == Line(s) && Front(s) <= Front(t))
    || exists i :: 0 <= i < Front(s) && i < |Line(s)| && Line(t) == Dropped(Line(s), i) && Front(t) == Front(s) - 1
  }

  /** A waiting request does not fall back. */
  lemma MovedUp(s: Server, t: Server, x: nat)
    requires Books(s) && Moved(s, t) && x !in s.active && x in Line(s) && (x in t.active || x in Line(t))
    ensures Ahead(t, x) < Ahead(s, x) || (x !in t.active && Ahead(t, x) == Ahead(s, x) && Behind(t, x) <= Behind(s, x))
    ensures Line(t) == Line(s) && x !in t.active ==> Ahead(t, x) == Ahead(s, x)
  {
    hide Line, Books, Taken;
    LineNoDup(s);
    if x !in t.active && Line(t) != Line(s) {
      var i :| 0 <= i < Front(s) && i < |Line(s)| && Line(t) == Dropped(Line(s), i) && Front(t) == Front(s) - 1;
      DroppedIndex(Line(s), i, x);
    }
  }

  // ---------------------------------------------------------------- what other threads do

  lemma EnqueueFarther(k: Kernel, v: Text.Vocabulary, s: Server, id: nat, maxTokens: nat, x: nat)
    requires ServerInv(k, v, s) && Unfinished(s.requests, x)
    ensures NoFarther(s.Enqueue(id, maxTokens).0, s, x)
  {
    hide EngineInv, RequestsOk, Books, Line, PlaceOk, Finishing.Remaining, Runs.Work, IndexOf;
    var t := s.Enqueue(id, maxTokens).0;
    if t != s {
      EnqueuedAtEnd(s, id, maxTokens);
      Somewhere(s, x);
      if x !in s.active {
        IndexInFront(Line(s), [id], x);
      }
    }
  }

  lemma EnqueuedAtEnd(s: Server, id: nat, maxTokens: nat)
    requires s.Enqueue(id, maxTokens).0 != s
    ensures Line(s.Enqueue(id, maxTokens).0) == Line(s) + [id]
  {
    hide PendingIds, SubmittedIds, Taken;
    EnqueuedLine(s, id, maxTokens);
    Regroup(PendingIds(s.pending) + SubmittedIds(Taken(s.place)), SubmittedIds(s.submissions), [id]);
  }

  lemma SignalledFarther(s: Server, t: Server, x: nat)
    requires t == s.(stopping := t.stopping, stopRequested := t.stopRequested)
    requires (s.stopping ==> t.stopping) && (s.stopRequested ==> t.stopRequested)
    ensures NoFarther(t, s, x)
  {
    hide PendingIds, SubmittedIds, IndexOf, Finishing.Remaining, Runs.Work;
    if s.stopping == t.stopping && s.stopRequested == t.stopRequested {
      assert t == s;
    }
  }

  lemma FlaggedFarther(s: Server, id: nat, x: nat)
    ensures NoFarther(s.CancelRequest(id), s, x)
  {
    hide PendingIds, SubmittedIds, IndexOf, Finishing.Remaining, Runs.Work;
  }

  lemma StopsFirst(k: Kernel, v: Text.Vocabulary, s: Server)
    requires ServerInv(k, v, s)
    ensures s.stopRequested ==> s.stopping
  {
    hide Books, Housing, RequestsOk;
  }

  /** Whatever the other threads do, no request gets farther from its end. */
  lemma OthersFarther(k: Kernel, v: Text.Vocabulary, s: Server, e: Event, x: nat)
    requires ServerInv(k, v, s) && Unfinished(s.requests, x) && !e.WorkEvent?
    ensures NoFarther(Happen(k, v, s, e), s, x)
  {
    hide ServerInv, Signals, Ahead, Behind, Effort, Pause, Server.Enqueue, Server.CancelRequest, Nearer;
    StopsFirst(k, v, s);
    match e {
      case EnqueueEvent(id, maxTokens) => EnqueueFarther(k, v, s, id, maxTokens, x);
      case CancelEvent(id) => FlaggedFarther(s, id, x);
      case StopEvent => SignalledFarther(s, s.(stopping := true), x);
      case StopRequestEvent => SignalledFarther(s, s.(stopRequested := s.stopping), x);
    }
  }

  // ---------------------------------------------------------------- what the worker's calls leave alone

  /** The shared queue and the signals. */
  ghost predicate Shares(s: Server, t: Server) {
    t.submissions == s.submissions && t.stopping == s.stopping && t.stopRequested == s.stopRequested
  }

  lemma PrepareFrame(s: Server, sub: Submission, env: WorkEnv)
    ensures var t := s.Prepare(sub, env);
            && Shares(s, t) && t.active == s.active && t.engine == s.engine
            && (t.pending == s.pending || exists q: SeqData :: q.id == sub.id && t.pending == s.pending + [q])
  {
    if s.Sequenced(sub, env).Ok? {
      SequencedIs(s, sub, env);
    }
    hide Server.Sequenced;
  }

  lemma CancelPendingFrame(s: Server, i: nat)
    requires i < |s.pending|
    ensures var t := s.CancelPending(i);
            && Shares(s, t) && t.active == s.active && t.engine == s.engine
            && ((t.pending == s.pending && t.place == CancellingPending(i + 1))
                || (t.pending == s.pending[..i] + s.pending[i + 1..] && t.place == s.place))
  {
  }

  lemma CancelActiveFrame(s: Server, id: nat)
    ensures var t := s.CancelActive(id);
            && Shares(s, t) && t.pending == s.pending
            && if s.Of(id).cancelled then t.active == s.active - {id} && t.engine == ReleaseSequence(s.engine, id).0
               else t.active == s.active && t.engine == s.engine
  {
    hide ReleaseSequence;
  }

  lemma AdmitFrame(s: Server, env: AdmitEnv)
    requires s.pending != []
    ensures var t := s.AdmitFront(env);
            && Shares(s, t) && t.engine == s.engine.TryAdd(s.pending[0], env).0
            && if s.engine.TryAdd(s.pending[0], env).1 == Ok(Deferred)
               then t.pending == s.pending && t.active == s.active && t.place == Deciding
               else t.pending == s.pending[1..] && t.active <= s.active + {s.pending[0].id} && s.active <= t.active
                    && t.place == s.place
  {
    hide Sched.TryAdd;
  }

  lemma AppendFrame(s: Server, v: Text.Vocabulary, u: Update)
    ensures var t := s.AppendUpdate(v, u);
            && Shares(s, t) && t.pending == s.pending
            && ((t.active == s.active && t.engine == s.engine)
                || (t.active == s.active - {u.id} && t.engine == ReleaseSequence(s.engine, u.id).0)
                || (t.active == s.active - {u.id} && t.engine == s.engine.Remove(u.id).0))
  {
    hide Text.PushTail, ReleaseSequence, Sched.Remove;
  }

  lemma FailActiveFrame(s: Server, id: nat)
    ensures var t := s.FailActive(id);
            Shares(s, t) && t.pending == s.pending && t.active == s.active - {id} && t.engine == ReleaseSequence(s.engine, id).0
  {
    hide ReleaseSequence;
  }

  lemma FewerActive(a: set<nat>, b: set<nat>, id: nat)
    ensures b == a - {id} ==> |b| <= |a|
    ensures b <= a + {id} && a <= b ==> |b| <= |a| + 1
  {
    if b == a - {id} && id in a {
      ShorterSet(a, id);
    } else if b == a - {id} {
      assert b == a;
    }
    if b <= a + {id} && a <= b {
      assert b == a || b == a + {id};
    }
  }

  // ---------------------------------------------------------------- steps to the engine and to the submissions

  /** Where the worker waits, ends, or has nothing active to step: no request in hand or active is there. */
  ghost predicate Idle(s: Server) {
    || s.place.Waiting? || s.place.Exited? || (s.place.Deciding? && s.active == {})
    || (s.place.FailingActive? && s.place.left == [])
  }

  /** The worker is nearer to the engine, and nearer to the submissions if there are any. */
  ghost predicate Hurries(s: Server, t: Server) {
    && (!Idle(s) && !(s.place.Deciding? && t.place.Delivering?) ==> ToEngine(t) < ToEngine(s))
    && (s.submissions != [] && !s.place.Draining? && !s.place.Leaving? ==> ToDrain(t) < ToDrain(s))
  }

  lemma MoveHurries(k: Kernel, v: Text.Vocabulary, s: Server, env: WorkEnv)
    requires ServerInv(k, v, s)
    requires s.place.Top? || s.place.Draining? || s.place.Waiting? || s.place.Leaving? || s.place.Refusing? || s.place.Exited?
    ensures Hurries(s, s.Work(k, v, env))
  {
    hide EngineInv, RequestsOk, Books;
  }

  lemma PrepareHurries(k: Kernel, v: Text.Vocabulary, s: Server, env: WorkEnv)
    requires s.place.Preparing?
    ensures Hurries(s, s.Work(k, v, env))
  {
    hide Server.Prepare;
    PrepareFrame(s, s.place.next, env);
  }

  lemma CancelPendingHurries(k: Kernel, v: Text.Vocabulary, s: Server, env: WorkEnv)
    requires s.place.CancellingPending?
    ensures Hurries(s, s.Work(k, v, env))
  {
    hide Server.CancelPending, Ordering;
    OrderingSize(env.order, s.active);
    if s.place.i < |s.pending| {
      CancelPendingFrame(s, s.place.i);
    }
  }

  lemma CancelActiveHurries(k: Kernel, v: Text.Vocabulary, s: Server, env: WorkEnv)
    requires s.place.CancellingActive?
    ensures Hurries(s, s.Work(k, v, env))
  {
    hide Server.CancelActive;
    if s.place.left != [] {
      var t := s.CancelActive(s.place.left[0]);
      CancelActiveFrame(s, s.place.left[0]);
      FewerActive(s.active, t.active, s.place.left[0]);
    }
  }

  lemma AdmitHurries(k: Kernel, v: Text.Vocabulary, s: Server, env: WorkEnv)
    requires s.place.Admitting?
    ensures Hurries(s, s.Work(k, v, env))
  {
    hide Server.AdmitFront, Sched.TryAdd;
    if s.pending != [] {
      var t := s.AdmitFront(env.admit);
      AdmitFrame(s, env.admit);
      FewerActive(s.active, t.active, s.pending[0].id);
    }
  }

  lemma UpdatesFit(updates: seq<Update>, active: set<nat>)
    requires OncePerId(updates) && forall i :: 0 <= i < |updates| ==> updates[i].id in active
    ensures |updates| <= |active|
    decreases |updates|
  {
    if updates != [] {
      var rest := updates[..|updates| - 1];
      var last := updates[|updates| - 1].id;
      assert forall i :: 0 <= i < |rest| ==> rest[i] == updates[i];
      UpdatesFit(rest, active - {last});
      ShorterSet(active, last);
    }
  }

  lemma DecideHurries(k: Kernel, v: Text.Vocabulary, s: Server, env: WorkEnv)
    requires s.place.Deciding? && PlaceOk(s.Work(k, v, env))
    ensures Hurries(s, s.Work(k, v, env))
  {
    hide Step;
    var t := s.Work(k, v, env);
    if t.place.Delivering? {
      UpdatesFit(t.place.updates, t.active);
    }
  }

  lemma DeliverHurries(k: Kernel, v: Text.Vocabulary, s: Server, env: WorkEnv)
    requires s.place.Delivering?
    ensures Hurries(s, s.Work(k, v, env))
  {
    hide Server.AppendUpdate, Server.FailActive, Server.Prepare, Server.AdmitFront, Server.CancelPending, Server.CancelActive,
      ReleaseSequence, Sched.Remove, Step, Ordering;
    if s.place.updates != [] {
      var u := s.place.updates[0];
      AppendFrame(s, v, u);
      FewerActive(s.active, s.AppendUpdate(v, u).active, u.id);
    }
  }

  lemma FailPendingHurries(k: Kernel, v: Text.Vocabulary, s: Server, env: WorkEnv)
    requires s.place.FailingPending? && PlaceOk(s)
    ensures Hurries(s, s.Work(k, v, env))
  {
    hide Ordering;
    OrderingSize(env.order, s.active);
  }

  lemma FailActiveHurries(k: Kernel, v: Text.Vocabulary, s: Server, env: WorkEnv)
    requires s.place.FailingActive? && PlaceOk(s)
    ensures Hurries(s, s.Work(k, v, env))
  {
    hide Server.FailActive, Server.AppendUpdate, Server.Prepare, Server.AdmitFront, Server.CancelPending, Server.CancelActive,
      ReleaseSequence, Enumerates, Step, Ordering;
    if s.place.left != [] {
      FailActiveFrame(s, s.place.left[0]);
      FewerActive(s.active, s.FailActive(s.place.left[0]).active, s.place.left[0]);
    }
  }

  lemma WorkHurries(k: Kernel, v: Text.Vocabulary, s: Server, env: WorkEnv)
    requires ServerInv(k, v, s) && PlaceOk(s.Work(k, v, env))
    ensures Hurries(s, s.Work(k, v, env))
  {
    hide ServerInv, Server.Work, Hurries, PlaceOk;
    PlaceHolds(k, v, s);
    match s.place {
      case Preparing(_) => PrepareHurries(k, v, s, env);
      case CancellingPending(_) => CancelPendingHurries(k, v, s, env);
      case CancellingActive(_) => CancelActiveHurries(k, v, s, env);
      case Admitting => AdmitHurries(k, v, s, env);
      case Deciding => DecideHurries(k, v, s, env);
      case Delivering(_) => DeliverHurries(k, v, s, env);
      case FailingPending(_) => FailPendingHurries(k, v, s, env);
      case FailingActive(_, _) => FailActiveHurries(k, v, s, env);
      case _ => MoveHurries(k, v, s, env);
    }
  }

  // ---------------------------------------------------------------- steps in the line

  lemma SameLineMoved(s: Server, t: Server)
    requires t.pending == s.pending && t.submissions == s.submissions && Taken(t.place) == Taken(s.place)
    ensures Moved(s, t) && Line(t) == Line(s)
  {
    hide PendingIds, SubmittedIds, Taken;
  }

  lemma TakeMoved(s: Server, t: Server)
    requires s.place.Draining? && s.submissions != []
    requires t == s.(submissions := s.submissions[1..], place := Preparing(s.submissions[0]))
    ensures Moved(s, t) && Line(t) == Line(s) && Front(t) == Front(s) + 1
  {
    TakenInLine(s.submissions);
    assert Taken(s.place) == [] && Taken(t.place) == [s.submissions[0]];
    SubmittedAtEnd(SubmittedIds(s.submissions));
    SamePlaces(s, t);
    hide Line, SubmittedIds;
  }

  lemma SubmittedAtEnd(a: seq<nat>)
    ensures SubmittedIds([]) + a == a
  {
  }

  lemma LeaveMoved(s: Server, t: Server)
    requires s.place.Leaving? && t == s.(submissions := [], place := Refusing(s.submissions))
    ensures Moved(s, t) && Line(t) == Line(s) && Front(t) == |Line(s)|
  {
    SamePlaces(s, t);
    hide PendingIds;
  }

  lemma PrepareMoved(s: Server, t: Server, env: WorkEnv)
    requires s.place.Preparing? && t == s.Prepare(s.place.next, env).(place := CancellingPending(0))
    ensures Moved(s, t)
  {
    hide Server.Prepare;
    PrepareFrame(s, s.place.next, env);
    if t.pending == s.pending {
      NextInLine(s);
      assert Line(t) == Dropped(Line(s), |s.pending|);
    } else {
      var q: SeqData :| q.id == s.place.next.id && t.pending == s.pending + [q];
      ReadyLine(s, q, t);
    }
    hide Line;
  }

  lemma DroppedMoved(s: Server, i: nat, t: Server)
    requires i < |s.pending| && t.pending == s.pending[..i] + s.pending[i + 1..]
    requires Taken(t.place) == Taken(s.place) && t.submissions == s.submissions
    ensures Moved(s, t) && i < |Line(s)| && Line(t) == Dropped(Line(s), i)
  {
    DroppedLine(s, i, t);
    hide Line, Dropped;
  }

  lemma RefuseMoved(s: Server, t: Server)
    requires s.place.Refusing? && s.place.taken != [] && t.place == Refusing(s.place.taken[1..])
    requires t.pending == s.pending && t.submissions == s.submissions
    ensures Moved(s, t)
  {
    NextInLine(s);
    assert Line(t) == Dropped(Line(s), |s.pending|);
    hide Line, Dropped;
  }

  lemma PendingTail(s: Server)
    requires s.pending != []
    ensures s.pending[..0] + s.pending[1..] == s.pending[1..]
  {
  }

  /** What a step does to the line and to the requests in hand. */
  ghost predicate Shifts(s: Server, t: Server) {
    && Moved(s, t) && Signals(t) == Signals(s)
    && (s.place.Draining? && s.submissions != [] ==> Front(t) == Front(s) + 1)
    && (s.place.Leaving? ==> Front(t) == |Line(s)|)
    && (s.place.Admitting? && t.place.Admitting? ==> 0 < |Line(s)| && Line(t) == Dropped(Line(s), 0))
  }

  lemma MoveShifts(k: Kernel, v: Text.Vocabulary, s: Server, env: WorkEnv)
    requires s.place.Top? || s.place.Draining? || s.place.Waiting? || s.place.Leaving? || s.place.Exited?
    ensures Shifts(s, s.Work(k, v, env))
  {
    hide Line, Front, Moved;
    var t := s.Work(k, v, env);
    if s.place.Draining? && s.submissions != [] {
      TakeMoved(s, t);
    } else if s.place.Leaving? {
      LeaveMoved(s, t);
    } else {
      SameLineMoved(s, t);
    }
  }

  lemma HandShifts(k: Kernel, v: Text.Vocabulary, s: Server, env: WorkEnv)
    requires ServerInv(k, v, s) && (s.place.Preparing? || s.place.Refusing? || s.place.FailingPending?)
    ensures Shifts(s, s.Work(k, v, env))
  {
    hide ServerInv, Line, Front, Moved, Server.Prepare, Ordering;
    var t := s.Work(k, v, env);
    if s.place.Preparing? {
      PrepareFrame(s, s.place.next, env);
      PrepareMoved(s, t, env);
    } else if s.place.Refusing? && s.place.taken != [] {
      RefuseMoved(s, t);
    } else if s.place.FailingPending? && s.pending != [] {
      PendingTail(s);
      DroppedMoved(s, 0, t);
    } else {
      SameLineMoved(s, t);
    }
  }

  lemma CancelShifts(k: Kernel, v: Text.Vocabulary, s: Server, env: WorkEnv)
    requires s.place.CancellingPending? || s.place.CancellingActive?
    ensures Shifts(s, s.Work(k, v, env))
  {
    hide Line, Front, Moved, Server.CancelPending, Server.CancelActive, Ordering;
    var t := s.Work(k, v, env);
    if s.place.CancellingPending? && s.place.i < |s.pending| {
      CancelPendingFrame(s, s.place.i);
      if t.pending == s.pending {
        SameLineMoved(s, t);
      } else {
        DroppedMoved(s, s.place.i, t);
      }
    } else {
      if s.place.CancellingActive? && s.place.left != [] {
        CancelActiveFrame(s, s.place.left[0]);
      }
      SameLineMoved(s, t);
    }
  }

  lemma AdmitShifts(k: Kernel, v: Text.Vocabulary, s: Server, env: WorkEnv)
    requires s.place.Admitting?
    ensures Shifts(s, s.Work(k, v, env))
  {
    hide Line, Front, Moved, Dropped, Server.AdmitFront, Sched.TryAdd;
    var t := s.Work(k, v, env);
    if s.pending != [] {
      AdmitFrame(s, env.admit);
      if t.place.Deciding? {
        SameLineMoved(s, t);
      } else {
        PendingTail(s);
        DroppedMoved(s, 0, t);
      }
    } else {
      SameLineMoved(s, t);
    }
  }

  lemma EngineShifts(k: Kernel, v: Text.Vocabulary, s: Server, env: WorkEnv)
    requires s.place.Deciding? || s.place.Delivering? || s.place.FailingActive?
    ensures Shifts(s, s.Work(k, v, env))
  {
    hide Line, Front, Moved, Server.AppendUpdate, Server.FailActive, Step;
    var t := s.Work(k, v, env);
    if s.place.Delivering? && s.place.updates != [] {
      AppendFrame(s, v, s.place.updates[0]);
    }
    if s.place.FailingActive? && s.place.left != [] {
      FailActiveFrame(s, s.place.left[0]);
    }
    SameLineMoved(s, t);
  }

  lemma WorkShifts(k: Kernel, v: Text.Vocabulary, s: Server, env: WorkEnv)
    requires ServerInv(k, v, s)
    ensures Shifts(s, s.Work(k, v, env))
  {
    hide ServerInv, Server.Work, Shifts;
    match s.place {
      case Preparing(_) => HandShifts(k, v, s, env);
      case Refusing(_) => HandShifts(k, v, s, env);
      case FailingPending(_) => HandShifts(k, v, s, env);
      case CancellingPending(_) => CancelShifts(k, v, s, env);
      case CancellingActive(_) => CancelShifts(k, v, s, env);
      case Admitting => AdmitShifts(k, v, s, env);
      case Deciding => EngineShifts(k, v, s, env);
      case Delivering(_) => EngineShifts(k, v, s, env);
      case FailingActive(_, _) => EngineShifts(k, v, s, env);
      case _ => MoveShifts(k, v, s, env);
    }
  }

  // ---------------------------------------------------------------- the engine's share

  lemma ReleasedRemaining(k: Kernel, s: Sched, id: nat, x: nat)
    requires EngineInv(k, s) && id in s.sequences && x in s.sequences && x != id
    ensures Finishing.Remaining(ReleaseSequence(s, id).0, x) <= Finishing.Remaining(s, x)
  {
    hide EngineInv, Sched.Cancel, Sched.Remove, Finishing.Remaining;
    ReleaseIs(k, s, id);
    if s.sequences[x].status == Status.Finished {
      FinishedRemaining(ReleaseSequence(s, id).0, x);
    } else {
      var t := s.Cancel(id).0;
      Finishing.CancelRemaining(k, s, id, x);
      Admission.CancelRests(k, s, id);
      CancelledOthers(k, s, id, x);
      Finishing.RemoveRemaining(k, t, id, x);
    }
  }

  lemma FinishedRemaining(s: Sched, x: nat)
    requires x in s.sequences && s.sequences[x].status == Status.Finished
    ensures Finishing.Remaining(s, x) == 0
  {
  }

  lemma CancelledOthers(k: Kernel, s: Sched, id: nat, x: nat)
    requires EngineInv(k, s) && id in s.sequences && x in s.sequences && x != id
    ensures var t := s.Cancel(id).0; x in t.sequences && t.sequences[x] == s.sequences[x]
  {
    hide SchedInv, Resting, Sched.Cancel, CancelledIs;
    CancelKeeps(s, id);
    if s.sequences[id].status != Status.Finished {
      CancelledStops(s, id, s.Cancel(id).0);
    }
  }

  lemma RemovedRemaining(k: Kernel, s: Sched, id: nat, x: nat)
    requires EngineInv(k, s) && id in s.sequences && s.sequences[id].status == Status.Finished && x in s.sequences && x != id
    ensures Finishing.Remaining(s.Remove(id).0, x) <= Finishing.Remaining(s, x)
  {
    hide EngineInv, Sched.Remove, Finishing.Remaining;
    RemoveIs(k, s, id);
    if s.sequences[x].status == Status.Finished {
      FinishedRemaining(s.Remove(id).0, x);
    } else {
      Finishing.RemoveRemaining(k, s, id, x);
    }
  }

  /** The engine's bound for x does not grow: its own while active, all its work otherwise. */
  ghost predicate Spares(s: Server, t: Server, x: nat) {
    && (x in s.active && x in t.active ==> Finishing.Remaining(t.engine, x) <= Finishing.Remaining(s.engine, x))
    && (!(s.place.Admitting? && t.place.Admitting?) ==> Runs.Work(t.engine) <= Runs.Work(s.engine))
  }

  ghost predicate Serves(s: Server, t: Server, x: nat) {
    && (x in s.active && x in t.active ==> Finishing.Remaining(t.engine, x) < Finishing.Remaining(s.engine, x))
    && Runs.Work(t.engine) < Runs.Work(s.engine)
  }

  lemma SameSpares(s: Server, t: Server, x: nat)
    requires t.engine == s.engine
    ensures Spares(s, t, x)
  {
    hide Finishing.Remaining, Runs.Work;
  }

  lemma ReleaseSpares(k: Kernel, v: Text.Vocabulary, s: Server, id: nat, t: Server, x: nat)
    requires ServerInv(k, v, s) && id in s.active
    requires t.engine == ReleaseSequence(s.engine, id).0 && t.active == s.active - {id}
    ensures Spares(s, t, x)
  {
    hide EngineInv, RequestsOk, PlaceOk, Books, ReleaseSequence, Finishing.Remaining, Runs.Work;
    ReleasedWork(k, s.engine, id);
    if x in t.active {
      ReleasedRemaining(k, s.engine, id, x);
    }
  }

  lemma LiveActive(k: Kernel, v: Text.Vocabulary, s: Server, x: nat)
    requires ServerInv(k, v, s) && x in s.active && !s.place.Delivering?
    ensures EngineInv(k, s.engine) && x in s.engine.sequences && s.engine.sequences[x].status != Status.Finished
  {
    hide EngineInv, RequestsOk, StoryOk, Line, Placed, InOrder, PlaceOk;
    ActiveStory(k, v, s, x);
    NotDueLive(v, s.requests[x], s.engine.sequences[x]);
  }

  lemma FrontValid(k: Kernel, v: Text.Vocabulary, s: Server)
    requires ServerInv(k, v, s) && s.pending != []
    ensures s.pending[0].Valid()
  {
    hide EngineInv, Books, PlaceOk, Untold;
    var q := s.pending[0];
    assert PreparedOk(s.requests[q.id], q);
  }

  lemma AdmitSpares(k: Kernel, v: Text.Vocabulary, s: Server, env: WorkEnv, x: nat)
    requires ServerInv(k, v, s) && s.place.Admitting?
    ensures Spares(s, s.Work(k, v, env), x)
  {
    hide ServerInv, Server.AdmitFront, Sched.TryAdd, Finishing.Remaining, Runs.Work, EngineInv;
    if s.pending != [] {
      AdmitFrame(s, env.admit);
      DeferredSame(k, v, s, env.admit);
      if x in s.active {
        LiveActive(k, v, s, x);
        FrontValid(k, v, s);
        Finishing.AddRemaining(k, s.engine, s.pending[0], env.admit, x);
      }
    }
  }

  lemma DecideServes(k: Kernel, v: Text.Vocabulary, s: Server, env: WorkEnv, x: nat)
    requires ServerInv(k, v, s) && s.place.Deciding?
    ensures var t := s.Work(k, v, env); Spares(s, t, x) && (t.place.Delivering? ==> Serves(s, t, x))
  {
    hide Books, RequestsOk, PlaceOk, EngineInv, Step, Finishing.Remaining, Runs.Work, Runs.AllFollow;
    Runs.StepWorks(k, s.engine, env.step);
    if x in s.active {
      LiveActive(k, v, s, x);
      Finishing.StepRemaining(k, s.engine, env.step, x);
    }
  }

  lemma DeliverSpares(k: Kernel, v: Text.Vocabulary, s: Server, env: WorkEnv, x: nat)
    requires ServerInv(k, v, s) && s.place.Delivering? && s.place.updates != []
    ensures Spares(s, s.Work(k, v, env), x)
  {
    hide EngineInv, RequestsOk, Line, Placed, InOrder, Runs.Work, Finishing.Remaining, StoryOk, ReleaseSequence, Sched.Remove,
      Server.AppendUpdate, Text.PushTail, TokenShown, Due, Spares;
    var u := s.place.updates[0];
    var t := s.Work(k, v, env);
    ActiveStory(k, v, s, u.id);
    NextUpdates(s, s.(place := Delivering(s.place.updates[1..])));
    DueFinished(v, s.requests[u.id], s.engine.sequences[u.id], u);
    if u.reason != NoReason {
      RemoveIs(k, s.engine, u.id);
    }
    AppendIs(s, v, u);
    if t.engine == s.engine {
      SameSpares(s, t, x);
    } else if t.engine == ReleaseSequence(s.engine, u.id).0 {
      ReleaseSpares(k, v, s, u.id, t, x);
    } else {
      RemoveSpares(k, v, s, u.id, t, x);
    }
  }

  lemma RemoveSpares(k: Kernel, v: Text.Vocabulary, s: Server, id: nat, t: Server, x: nat)
    requires ServerInv(k, v, s) && id in s.active && id in s.engine.sequences && s.engine.sequences[id].status == Status.Finished
    requires t.engine == s.engine.Remove(id).0 && t.active == s.active - {id}
    ensures Spares(s, t, x)
  {
    hide EngineInv, RequestsOk, PlaceOk, Books, Sched.Remove, Finishing.Remaining, Runs.Work;
    RemoveIs(k, s.engine, id);
    GoneWork(k, s.engine, id, s.engine.Remove(id).0);
    if x in t.active {
      RemovedRemaining(k, s.engine, id, x);
    }
  }

  lemma CancelSpares(k: Kernel, v: Text.Vocabulary, s: Server, env: WorkEnv, x: nat)
    requires ServerInv(k, v, s) && s.place.CancellingActive? && s.place.left != []
    ensures Spares(s, s.Work(k, v, env), x)
  {
    hide ServerInv, Server.CancelActive, ReleaseSequence, Spares;
    var id := s.place.left[0];
    var t := s.Work(k, v, env);
    PlaceHolds(k, v, s);
    assert id in s.place.left;
    CancelActiveFrame(s, id);
    if s.Of(id).cancelled {
      ReleaseSpares(k, v, s, id, t, x);
    } else {
      SameSpares(s, t, x);
    }
  }

  lemma FailSpares(k: Kernel, v: Text.Vocabulary, s: Server, env: WorkEnv, x: nat)
    requires ServerInv(k, v, s) && s.place.FailingActive? && s.place.left != []
    ensures Spares(s, s.Work(k, v, env), x)
  {
    hide ServerInv, Server.FailActive, ReleaseSequence, Spares;
    var id := s.place.left[0];
    PlaceHolds(k, v, s);
    EnumeratesRest(s.place.left, s.active);
    FailActiveFrame(s, id);
    ReleaseSpares(k, v, s, id, s.Work(k, v, env), x);
  }

  lemma WorkSpares(k: Kernel, v: Text.Vocabulary, s: Server, env: WorkEnv, x: nat)
    requires ServerInv(k, v, s)
    ensures var t := s.Work(k, v, env);
            Spares(s, t, x) && (s.place.Deciding? && t.place.Delivering? ==> Serves(s, t, x))
  {
    hide ServerInv, Spares, Serves, Server.AppendUpdate, Server.FailActive, Server.CancelActive, Server.AdmitFront, Step, Ordering;
    var t := s.Work(k, v, env);
    match s.place {
      case Admitting => AdmitSpares(k, v, s, env, x);
      case Deciding => DecideServes(k, v, s, env, x);
      case Delivering(updates) =>
        if updates != [] {
          DeliverSpares(k, v, s, env, x);
        } else {
          SameSpares(s, t, x);
        }
      case CancellingActive(left) =>
        if left != [] {
          CancelSpares(k, v, s, env, x);
        } else {
          SameSpares(s, t, x);
        }
      case FailingActive(left, _) =>
        if left != [] {
          FailSpares(k, v, s, env, x);
        } else {
          SameSpares(s, t, x);
        }
      case _ => HandSame(k, v, s, env); SameSpares(s, t, x);
    }
  }

  lemma HandSame(k: Kernel, v: Text.Vocabulary, s: Server, env: WorkEnv)
    requires !s.place.Admitting? && !s.place.Deciding? && !s.place.Delivering? && !s.place.CancellingActive? && !s.place.FailingActive?
    ensures s.Work(k, v, env).engine == s.engine
  {
    hide Server.Prepare, Server.CancelPending, Ordering;
    if s.place.Preparing? {
      PrepareFrame(s, s.place.next, env);
    }
    if s.place.CancellingPending? && s.place.i < |s.pending| {
      CancelPendingFrame(s, s.place.i);
    }
  }

  // ---------------------------------------------------------------- every step of the worker brings everybody nearer

  lemma ActiveStays(s: Server, t: Server, x: nat)
    requires Books(s) && Moved(s, t) && x in s.active && (x in t.active || x in Line(t))
    ensures x in t.active && Ahead(t, x) == Ahead(s, x) == 0 && Behind(t, x) == Behind(s, x) == 0
  {
    hide Line, Taken;
    forall i | 0 <= i < |Line(s)| ensures Line(s)[i] != x {
      LineUnfinished(s, i);
    }
  }

  lemma IdleEmpty(s: Server)
    requires PlaceOk(s) && Idle(s)
    ensures s.active == {} && Front(s) == 0
  {
    if s.place.FailingActive? {
      NothingLeftActive(s);
    }
  }

  lemma FrontLeaves(s: Server, t: Server, x: nat)
    requires Books(s) && 0 < |Line(s)| && Line(t) == Dropped(Line(s), 0) && x !in s.active && x in Line(s) && x in Line(t)
    ensures x !in t.active ==> Ahead(t, x) < Ahead(s, x)
  {
    hide Line, Books, Dropped;
    LineNoDup(s);
    DroppedIndex(Line(s), 0, x);
  }

  lemma ActiveNearer(s: Server, t: Server, x: nat)
    requires Books(s) && PlaceOk(s) && Shifts(s, t) && Hurries(s, t) && Spares(s, t, x)
    requires s.place.Deciding? && t.place.Delivering? ==> Serves(s, t, x)
    requires x in s.active && (x in t.active || x in Line(t))
    ensures Nearer(t, s, x)
  {
    hide Books, PlaceOk, Line, Front, ToEngine, ToDrain, Finishing.Remaining, Runs.Work, Idle;
    ActiveStays(s, t, x);
    if Idle(s) {
      IdleEmpty(s);
    }
  }

  lemma WaitingNearer(s: Server, t: Server, x: nat)
    requires Books(s) && PlaceOk(s) && Shifts(s, t) && Hurries(s, t) && Spares(s, t, x)
    requires s.place.Deciding? && t.place.Delivering? ==> Serves(s, t, x)
    requires x !in s.active && x in Line(s) && (x in t.active || x in Line(t))
    ensures Nearer(t, s, x)
  {
    hide Books, PlaceOk, Line, Front, Dropped, IndexOf, Moved, ToEngine, ToDrain, Finishing.Remaining, Runs.Work, Idle;
    MovedUp(s, t, x);
    if x !in t.active && s.place.Admitting? && t.place.Admitting? {
      FrontLeaves(s, t, x);
    }
    if Idle(s) {
      IdleEmpty(s);
    }
    if Front(s) < Ahead(s, x) {
      SubmittedBehind(s, x);
      IndexOfBound(Line(s), x);
    }
  }

  lemma WorkNearer(k: Kernel, v: Text.Vocabulary, s: Server, env: WorkEnv, x: nat)
    requires ServerInv(k, v, s) && Unfinished(s.requests, x)
    requires ServerInv(k, v, s.Work(k, v, env)) && Unfinished(s.Work(k, v, env).requests, x)
    ensures Nearer(s.Work(k, v, env), s, x)
  {
    hide Books, Housing, RequestsOk, PlaceOk, Server.Work, Shifts, Hurries, Spares, Serves, Nearer, Line;
    var t := s.Work(k, v, env);
    Somewhere(s, x);
    Somewhere(t, x);
    WorkShifts(k, v, s, env);
    WorkHurries(k, v, s, env);
    WorkSpares(k, v, s, env, x);
    if x in s.active {
      ActiveNearer(s, t, x);
    } else {
      WaitingNearer(s, t, x);
    }
  }

  // ---------------------------------------------------------------- forever

  /** The server after n of the events. */
  ghost function After(k: Kernel, v: Text.Vocabulary, s: Server, events: nat -> Event, n: nat): Server {
    if n == 0 then s else Happen(k, v, After(k, v, s, events, n - 1), events(n - 1))
  }

  ghost predicate WorksFrom(events: nat -> Event, n: nat) {
    exists m :: n <= m && events(m).WorkEvent?
  }

  /** The worker never stops taking steps. */
  ghost predicate WorkRecurs(events: nat -> Event) {
    forall n: nat :: WorksFrom(events, n)
  }

  lemma {:induction false} AfterKeeps(k: Kernel, v: Text.Vocabulary, s: Server, events: nat -> Event, n: nat)
    requires ServerInv(k, v, s) && Unprepared(s)
    ensures ServerInv(k, v, After(k, v, s, events, n)) && Unprepared(After(k, v, s, events, n))
  {
    hide ServerInv, Unprepared, Happen, AllOnward;
    if n != 0 {
      AfterKeeps(k, v, s, events, n - 1);
      HappenKeeps(k, v, After(k, v, s, events, n - 1), events(n - 1));
      HappenOnward(k, v, After(k, v, s, events, n - 1), events(n - 1));
    }
  }

  lemma StillKnown(s: Server, t: Server, x: nat)
    requires AllOnward(s, t) && x in s.requests
    ensures x in t.requests
  {
  }

  /** Up to the next step of the worker, no request gets farther from its end; that step brings it nearer, or ends it. */
  lemma {:induction false} NextWork(k: Kernel, v: Text.Vocabulary, s: Server, events: nat -> Event, from: nat, next: nat, x: nat)
    returns (to: nat)
    requires ServerInv(k, v, s) && Unprepared(s) && from <= next && events(next).WorkEvent?
    requires Unfinished(After(k, v, s, events, from).requests, x)
    ensures from < to && x in After(k, v, s, events, to).requests
    ensures var a, b := After(k, v, s, events, from), After(k, v, s, events, to);
            Unfinished(b.requests, x) ==> Nearer(b, a, x)
    decreases next - from
  {
    hide ServerInv, Unprepared, Server.Work, Nearer, AsNear, AllOnward;
    var a, b := After(k, v, s, events, from), After(k, v, s, events, from + 1);
    AfterKeeps(k, v, s, events, from);
    AfterKeeps(k, v, s, events, from + 1);
    HappenOnward(k, v, a, events(from));
    StillKnown(a, b, x);
    if events(from).WorkEvent? {
      to := from + 1;
      if Unfinished(b.requests, x) {
        WorkNearer(k, v, a, events(from).env, x);
      }
    } else {
      OthersFarther(k, v, a, events(from), x);
      to := NextWork(k, v, s, events, from + 1, next, x);
      NearerThen(After(k, v, s, events, to), b, a, x);
    }
  }

  lemma NearerThen(u: Server, t: Server, s: Server, x: nat)
    requires NoFarther(t, s, x)
    ensures Nearer(u, t, x) ==> Nearer(u, s, x)
  {
    hide Signals, Ahead, Behind, Effort, Pause;
  }

  lemma {:induction false} FinishesFrom(k: Kernel, v: Text.Vocabulary, s: Server, events: nat -> Event, from: nat, x: nat)
    returns (n: nat)
    requires ServerInv(k, v, s) && Unprepared(s) && WorkRecurs(events) && x in After(k, v, s, events, from).requests
    ensures from <= n && x in After(k, v, s, events, n).requests
    ensures After(k, v, s, events, n).requests[x].status == RequestStatus.Finished
    decreases Signals(After(k, v, s, events, from)),
              Ahead(After(k, v, s, events, from), x), Behind(After(k, v, s, events, from), x),
              Effort(After(k, v, s, events, from), x), Pause(After(k, v, s, events, from), x)
  {
    hide ServerInv, Unprepared, After, Signals, Ahead, Behind, Effort, Pause;
    if After(k, v, s, events, from).requests[x].status == RequestStatus.Finished {
      n := from;
    } else {
      assert WorksFrom(events, from);
      var next :| from <= next && events(next).WorkEvent?;
      var to := NextWork(k, v, s, events, from, next, x);
      if Unfinished(After(k, v, s, events, to).requests, x) {
        n := FinishesFrom(k, v, s, events, to, x);
      } else {
        n := to;
      }
    }
  }

  /** As long as the worker keeps taking steps, every request that was ever accepted gets finished, whatever the other threads
      submit, cancel and stop between any two steps, and whatever the runner, the decoder and the pages do. */
  lemma EveryoneIsServed(k: Kernel, v: Text.Vocabulary, s: Server, events: nat -> Event, accepted: nat, x: nat)
    requires ServerInv(k, v, s) && Unprepared(s) && WorkRecurs(events) && x in After(k, v, s, events, accepted).requests
    ensures exists n :: accepted <= n && x in After(k, v, s, events, n).requests
                        && After(k, v, s, events, n).requests[x].status == RequestStatus.Finished
  {
    hide ServerInv, Unprepared, After, WorkRecurs;
    var n := FinishesFrom(k, v, s, events, accepted, x);
  }
}

/** Every run of the serving runtime, whatever the other threads do between two steps of the worker. */
module ServingRuns {
  import opened Wrappers
  import opened Sequences
  import opened PrefixCaching
  import opened Kernels
  import opened HybridStates
  import opened Scheduling
  import opened Invariants
  import opened Lifecycle
  import opened Generation
  import opened Engine
  import opened Steps
  import opened Admission
  import opened Runs
  import opened Delivery
  import opened Utf8
  import opened Serving
  import opened ServingBooks

  // ---------------------------------------------------------------- the invariant

  /** The engine is at rest and holds exactly the active requests. */
  ghost predicate Housing(k: Kernel, s: Server) {
    EngineInv(k, s.engine) && s.engine.sequences.Keys == s.active
  }

  function UpdateFor(updates: seq<Update>, id: nat): Option<Update> {
    if updates == [] then None else if updates[0].id == id then Some(updates[0]) else UpdateFor(updates[1..], id)
  }

  /** The engine's news about a request that the worker has not passed on yet. */
  function Due(place: Place, id: nat): Option<Update> {
    if place.Delivering? then UpdateFor(place.updates, id) else None
  }

  /** Nothing was generated yet. */
  ghost predicate Untold(r: Request) {
    r.reason == NoReason && r.error == None && r.output == [] && r.decoder == [] && r.completionTokens == 0
  }

  function Completion(q: SeqData): seq<Token> {
    if q.promptCount <= |q.tokens| then q.tokens[q.promptCount..] else []
  }

  /** The engine's tokens for a request, up to the update that is due. */
  ghost predicate TokensOk(q: SeqData, due: Option<Update>, told: seq<Token>) {
    && q.promptCount <= |q.tokens|
    && match due
       case None => told == Completion(q) && q.status != Status.Finished
       case Some(u) =>
         && told + [u.token] == Completion(q) && q.reason == u.reason
         && (q.status == Status.Finished <==> u.reason != NoReason)
         && (u.reason == NoReason || u.reason == Eos || u.reason == LenLimit)
  }

  /** An active request shows the text of what the engine generated, as far as it is complete and passed on. */
  ghost predicate StoryOk(v: Text.Vocabulary, r: Request, q: SeqData, due: Option<Update>) {
    && r.reason == NoReason && r.error == None
    && 0 < q.promptCount <= |q.tokens| && q.Prompt() == r.prompt && q.params == r.params
    && exists told :: TokensOk(q, due, told) && Shown(v, r, told)
  }

  ghost predicate Shown(v: Text.Vocabulary, r: Request, told: seq<Token>) {
    r.completionTokens == |told| && Text.Agree(v, Text.History(told, r.output), r.decoder)
  }

  /** A prepared request is the sequence about to be admitted. */
  ghost predicate PreparedOk(r: Request, q: SeqData) {
    Pristine(q) && Untold(r) && r.prompt == q.tokens && r.params == q.params
  }

  /** A request that the engine finished shows the text of its reference answer; the others failed or were cancelled. */
  ghost predicate FinalOk(k: Kernel, v: Text.Vocabulary, eos: Token, r: Request) {
    if r.reason == Eos || r.reason == LenLimit then r.error == None && AnswerShown(k, v, eos, r)
    else r.error.Some? || r.reason == Cancelled
  }

  ghost predicate AnswerShown(k: Kernel, v: Text.Vocabulary, eos: Token, r: Request) {
    && r.prompt != [] && 0 < r.params.maxNewTokens
    && var answer := Greedy(k, r.prompt, r.params, eos);
       && answer.reason == r.reason && |r.prompt| <= |answer.tokens|
       && r.completionTokens == |answer.tokens| - |r.prompt|
       && Text.Decode(v, answer.tokens[|r.prompt|..]) == Some(r.output)
  }

  ghost predicate RequestOk(k: Kernel, v: Text.Vocabulary, s: Server, id: nat)
    requires id in s.requests
  {
    var r := s.requests[id];
    && (r.status == RequestStatus.Finished ==> FinalOk(k, v, s.engine.eos, r))
    && (id in s.active ==> id in s.engine.sequences && StoryOk(v, r, s.engine.sequences[id], Due(s.place, id)))
    && (r.status != RequestStatus.Finished && id !in s.active ==> Untold(r))
  }

  ghost predicate RequestsOk(k: Kernel, v: Text.Vocabulary, s: Server) {
    && (forall id :: id in s.requests ==> RequestOk(k, v, s, id))
    && (forall i :: 0 <= i < |s.pending| ==> s.pending[i].id in s.requests && PreparedOk(s.requests[s.pending[i].id], s.pending[i]))
  }

  /** No enqueue is accepted any more, and none is left. */
  ghost predicate Shut(s: Server) {
    s.stopping && s.submissions == []
  }

  /** What holds where the worker is. */
  ghost predicate PlaceOk(s: Server) {
    && (s.stopRequested ==> s.stopping)
    && match s.place
       case CancellingPending(i) => i <= |s.pending|
       case CancellingActive(left) =>
         (forall i, j :: 0 <= i < j < |left| ==> left[i] != left[j]) && forall id :: id in left ==> id in s.active
       case Deciding => s.pending != [] ==> s.active != {}
       case Delivering(updates) => OncePerId(updates) && forall i :: 0 <= i < |updates| ==> updates[i].id in s.active
       case FailingPending(last) => if last then Shut(s) else s.active != {}
       case FailingActive(left, last) => Enumerates(left, s.active) && s.pending == [] && (last ==> Shut(s))
       case Waiting => s.pending == [] && s.active == {}
       case Leaving => s.stopping
       case Refusing(_) => Shut(s)
       case Exited => Shut(s) && s.pending == [] && s.active == {}
       case _ => true
  }

  ghost predicate ServerInv(k: Kernel, v: Text.Vocabulary, s: Server) {
    Books(s) && Housing(k, s) && RequestsOk(k, v, s) && PlaceOk(s)
  }

  // ---------------------------------------------------------------- the engine's part

  /** A sequence left the engine; the others are untouched. */
  ghost predicate Gone1(s: Sched, id: nat, t: Sched) {
    t.sequences == s.sequences - {id} && t.eos == s.eos && t.config == s.config && t.state.shape == s.state.shape
  }

  lemma ReleaseIs(k: Kernel, s: Sched, id: nat)
    requires EngineInv(k, s) && id in s.sequences
    ensures ReleaseSequence(s, id).1 && EngineInv(k, ReleaseSequence(s, id).0) && Gone1(s, id, ReleaseSequence(s, id).0)
  {
    hide SchedInv, Resting, Sched.Cancel, Sched.Remove, CancelledIs;
    CancelKeeps(s, id);
    CancelRests(k, s, id);
    var t := s.Cancel(id).0;
    if s.sequences[id].status != Status.Finished {
      CancelledStops(s, id, t);
    }
    RemoveKeeps(t, id);
    RemoveRests(k, t, id);
    assert t.sequences - {id} == s.sequences - {id};
  }

  lemma CancelledStops(s: Sched, id: nat, t: Sched)
    requires CancelledIs(s, id, t)
    ensures id in t.sequences && t.sequences[id].status == Status.Finished && t.sequences == s.sequences[id := t.sequences[id]]
    ensures t.eos == s.eos && t.config == s.config && t.active == s.active && t.state.shape == s.state.shape
  {
    hide Without, Sched.TurnWithout;
  }

  lemma RemoveIs(k: Kernel, s: Sched, id: nat)
    requires EngineInv(k, s) && id in s.sequences && s.sequences[id].status == Status.Finished
    ensures s.Remove(id).1.Ok? && EngineInv(k, s.Remove(id).0) && Gone1(s, id, s.Remove(id).0)
  {
    hide SchedInv, Resting, Sched.Remove;
    RemoveKeeps(s, id);
    RemoveRests(k, s, id);
  }

  /** The sequence entered the engine as it was prepared, possibly resuming after a cached prefix. */
  ghost predicate Came(s: Sched, q: SeqData, t: Sched) {
    && q.id !in s.sequences && q.id in t.sequences
    && t.sequences == s.sequences[q.id := t.sequences[q.id]] && SameRequest(q, t.sequences[q.id])
    && t.eos == s.eos && t.config == s.config && t.state.shape == s.state.shape
  }

  lemma TryAddIs(k: Kernel, s: Sched, q: SeqData, env: AdmitEnv)
    requires EngineInv(k, s) && Pristine(q) && q.id !in s.sequences
    ensures var r := s.TryAdd(q, env);
            && EngineInv(k, r.0)
            && r.0.eos == s.eos && r.0.config == s.config && r.0.state.shape == s.state.shape
            && (if r.1 == Ok(Admitted) then Came(s, q, r.0) else r.0.sequences == s.sequences)
            && (s.sequences == map[] ==> r.1 != Ok(Deferred))
  {
    hide Inv, Resting, Sched.TryAdd, HasRoom, Sched.FitsCache, Hybrid.Sound, Cache.Valid, WaitingOk, ApartFrom;
    TryAddKeeps(s, q, env);
    TryAddRests(k, s, q, env);
    AddCarries(s, q, env, q.id);
    if s.sequences == map[] {
      NoneQueued(s);
      IdleNeverDefers(s, q, env);
    }
  }

  lemma NoneQueued(s: Sched)
    requires SchedInv(s) && s.active == None && s.sequences == map[]
    ensures s.waiting == [] && s.running == []
  {
    hide PendingOk, ResourcesOk;
    SomethingIn(s.waiting);
    SomethingIn(s.running);
  }

  lemma SomethingIn(queue: seq<nat>)
    ensures queue == [] || exists id :: id in queue
  {
    if queue != [] {
      assert queue[0] in queue;
    }
  }

  // ---------------------------------------------------------------- frames

  lemma FinishIs(s: Server, id: nat, last: Request)
    requires id in s.requests && last.stamp == s.requests[id].stamp && last.admitted == s.requests[id].admitted
    ensures FinishedOne(s, id, s.Finish(id, last))
    ensures s.Finish(id, last).requests[id] == last.(status := RequestStatus.Finished)
  {
  }

  lemma FailedIsFinal(k: Kernel, v: Text.Vocabulary, eos: Token, r: Request)
    requires (r.reason == NoReason && r.error.Some?) || r.reason == Cancelled
    ensures FinalOk(k, v, eos, r)
  {
  }

  /** What the worker did not touch stays as it should be. */
  ghost predicate Untouched(s: Server, id: nat, t: Server) {
    && t.requests.Keys == s.requests.Keys
    && (forall other :: other in s.requests && other != id ==> t.requests[other] == s.requests[other])
    && (forall other :: other != id ==> (other in t.active <==> other in s.active))
    && (forall other :: other in t.active && other != id && other in s.engine.sequences ==>
          other in t.engine.sequences && t.engine.sequences[other] == s.engine.sequences[other]
          && Due(t.place, other) == Due(s.place, other))
    && t.engine.eos == s.engine.eos
    && (forall q :: q in t.pending ==> q in s.pending && q.id != id)
  }

  lemma RequestsExcept(k: Kernel, v: Text.Vocabulary, s: Server, id: nat, t: Server)
    requires RequestsOk(k, v, s) && Untouched(s, id, t)
    requires id in t.requests ==> RequestOk(k, v, t, id)
    ensures RequestsOk(k, v, t)
  {
    hide FinalOk, StoryOk, Untold, PreparedOk, Due;
    forall other | other in t.requests ensures RequestOk(k, v, t, other) {
      assert RequestOk(k, v, s, other);
    }
    forall i | 0 <= i < |t.pending|
      ensures t.pending[i].id in t.requests && PreparedOk(t.requests[t.pending[i].id], t.pending[i])
    {
      assert t.pending[i] in t.pending;
      var j :| 0 <= j < |s.pending| && s.pending[j] == t.pending[i];
    }
  }

  /** Only the worker's place changed, and nothing is due before or after. */
  lemma MovedOn(k: Kernel, v: Text.Vocabulary, s: Server, t: Server)
    requires ServerInv(k, v, s) && t == s.(place := t.place, submissions := t.submissions) && Line(t) == Line(s) && PlaceOk(t)
    requires !s.place.Delivering? || s.place.updates == []
    requires !t.place.Delivering?
    ensures ServerInv(k, v, t)
  {
    hide EngineInv, FinalOk, StoryOk, Untold, PreparedOk, Line;
    BooksSame(s, t);
    forall id | id in t.requests ensures RequestOk(k, v, t, id) {
      assert RequestOk(k, v, s, id);
    }
  }

  /** A request at position i of the line ended without an answer. */
  lemma DropKeeps(k: Kernel, v: Text.Vocabulary, s: Server, i: nat, last: Request, t: Server)
    requires ServerInv(k, v, s) && i < |Line(s)| && Line(t) == Dropped(Line(s), i) && PlaceOk(t)
    requires Line(s)[i] in s.requests && last.stamp == s.requests[Line(s)[i]].stamp && last.admitted == s.requests[Line(s)[i]].admitted
    requires (last.reason == NoReason && last.error.Some?) || last.reason == Cancelled
    requires t == s.Finish(Line(s)[i], last).(place := t.place, pending := t.pending, engine := t.engine)
    requires EngineInv(k, t.engine) && t.engine.sequences == s.engine.sequences && t.engine.eos == s.engine.eos
    requires forall q :: q in t.pending ==> q in s.pending && q.id != Line(s)[i]
    requires !s.place.Delivering? && !t.place.Delivering?
    ensures ServerInv(k, v, t)
  {
    hide EngineInv, FinalOk, StoryOk, Untold, PreparedOk, Line, FinishedOne, Placed, InOrder, PlaceOk;
    var id := Line(s)[i];
    FinishIs(s, id, last);
    SameFinish(s, id, s.Finish(id, last), t);
    BooksDrop(s, i, t);
    LineUnfinished(s, i);
    FailedIsFinal(k, v, s.engine.eos, t.requests[id]);
    RequestsExcept(k, v, s, id, t);
  }

  lemma SameFinish(s: Server, id: nat, a: Server, b: Server)
    requires FinishedOne(s, id, a)
    requires b == a.(place := b.place, pending := b.pending, engine := b.engine, active := b.active)
    ensures FinishedOne(s, id, b)
  {
  }

  /** An active request ended and left the engine. */
  lemma DoneKeeps(k: Kernel, v: Text.Vocabulary, s: Server, id: nat, last: Request, t: Server)
    requires ServerInv(k, v, s) && id in s.active && Line(t) == Line(s) && PlaceOk(t)
    requires id in s.requests && last.stamp == s.requests[id].stamp && last.admitted == s.requests[id].admitted
    requires FinalOk(k, v, s.engine.eos, last.(status := RequestStatus.Finished))
    requires t == s.Finish(id, last).(place := t.place, engine := t.engine, active := s.active - {id})
    requires EngineInv(k, t.engine) && Gone1(s.engine, id, t.engine)
    requires forall other :: other in t.active ==> Due(t.place, other) == Due(s.place, other)
    ensures ServerInv(k, v, t)
  {
    hide EngineInv, FinalOk, StoryOk, Untold, PreparedOk, Line, FinishedOne, Placed, InOrder, PlaceOk, Due;
    FinishIs(s, id, last);
    SameFinish(s, id, s.Finish(id, last), t);
    BooksDone(s, id, t);
    PendingNotActive(s, id);
    RequestsExcept(k, v, s, id, t);
  }

  lemma PendingInLine(s: Server, i: nat)
    requires i < |s.pending|
    ensures i < |Line(s)| && Line(s)[i] == s.pending[i].id
  {
  }

  lemma PendingNotActive(s: Server, id: nat)
    requires Books(s) && id in s.active
    ensures forall q :: q in s.pending ==> q.id != id
  {
    hide Line;
    forall q | q in s.pending ensures q.id != id {
      var i :| 0 <= i < |s.pending| && s.pending[i] == q;
      PendingInLine(s, i);
      LineUnfinished(s, i);
    }
  }

  // ---------------------------------------------------------------- finishing from the line

  lemma NextInLine(s: Server)
    requires Taken(s.place) != []
    ensures var i := |s.pending|; i < |Line(s)| && Line(s)[i] == Taken(s.place)[0].id
    ensures Dropped(Line(s), |s.pending|)
         == PendingIds(s.pending) + SubmittedIds(Taken(s.place)[1..]) + SubmittedIds(s.submissions)
  {
    var a, b, c := PendingIds(s.pending), SubmittedIds(Taken(s.place)), SubmittedIds(s.submissions);
    assert SubmittedIds(Taken(s.place)[1..]) == b[1..];
    assert (a + b + c)[..|a|] == a && (a + b + c)[|a| + 1..] == b[1..] + c;
    assert a + b[1..] + c == a + (b[1..] + c);
  }

  lemma IdsConcat(a: seq<SeqData>, b: seq<SeqData>)
    ensures PendingIds(a + b) == PendingIds(a) + PendingIds(b)
  {
    hide PendingIds;
  }

  lemma IdsTake(a: seq<SeqData>, i: nat)
    requires i <= |a|
    ensures PendingIds(a[..i]) == PendingIds(a)[..i]
  {
    hide PendingIds;
  }

  lemma IdsSkip(a: seq<SeqData>, i: nat)
    requires i <= |a|
    ensures PendingIds(a[i..]) == PendingIds(a)[i..]
  {
    hide PendingIds;
  }

  lemma PendingWithout(pending: seq<SeqData>, i: nat)
    requires i < |pending|
    ensures PendingIds(pending[..i] + pending[i + 1..]) == Dropped(PendingIds(pending), i)
  {
    hide PendingIds;
    IdsConcat(pending[..i], pending[i + 1..]);
    IdsTake(pending, i);
    IdsSkip(pending, i + 1);
  }

  lemma DroppedFront(a: seq<nat>, i: nat, rest: seq<nat>)
    requires i < |a|
    ensures Dropped(a, i) + rest == Dropped(a + rest, i)
  {
    assert (a + rest)[..i] == a[..i];
    assert (a + rest)[i + 1..] == a[i + 1..] + rest;
    assert a[..i] + a[i + 1..] + rest == a[..i] + (a[i + 1..] + rest);
  }

  lemma DroppedLine(s: Server, i: nat, t: Server)
    requires i < |s.pending| && t.pending == s.pending[..i] + s.pending[i + 1..]
    requires Taken(t.place) == Taken(s.place) && t.submissions == s.submissions
    ensures i < |Line(s)| && Line(s)[i] == s.pending[i].id && Line(t) == Dropped(Line(s), i)
  {
    hide PendingIds, SubmittedIds;
    var rest := SubmittedIds(Taken(s.place)) + SubmittedIds(s.submissions);
    PendingWithout(s.pending, i);
    DroppedFront(PendingIds(s.pending), i, rest);
    assert Line(s) == PendingIds(s.pending) + rest && Line(t) == PendingIds(t.pending) + rest;
  }

  lemma OthersPending(s: Server, i: nat)
    requires Books(s) && i < |s.pending|
    ensures s.pending[i].id in s.requests
    ensures forall j :: 0 <= j < |s.pending| && j != i ==> s.pending[j].id != s.pending[i].id
    ensures forall q :: q in s.pending[..i] + s.pending[i + 1..] ==> q in s.pending && q.id != s.pending[i].id
  {
    hide Line;
    PendingInLine(s, i);
    LineUnfinished(s, i);
    forall j | 0 <= j < |s.pending| && j != i ensures s.pending[j].id != s.pending[i].id {
      PendingInLine(s, j);
      LineDistinct(s, if i < j then i else j, if i < j then j else i);
    }
  }

  /** The last state of a request that ends without an answer. */
  ghost predicate Ended(a: Request, b: Request) {
    && b.stamp == a.stamp && b.admitted == a.admitted
    && ((b.reason == NoReason && b.error.Some?) || b.reason == Cancelled)
  }

  lemma LineUntold(k: Kernel, v: Text.Vocabulary, s: Server, i: nat)
    requires ServerInv(k, v, s) && i < |Line(s)|
    ensures Line(s)[i] in s.requests && Untold(s.requests[Line(s)[i]]) && s.Of(Line(s)[i]) == s.requests[Line(s)[i]]
  {
    hide Line, EngineInv, FinalOk, StoryOk, Untold;
    LineUnfinished(s, i);
    assert RequestOk(k, v, s, Line(s)[i]);
  }

  lemma PendingEnds(k: Kernel, v: Text.Vocabulary, s: Server, i: nat, last: Request, t: Server)
    requires ServerInv(k, v, s) && i < |s.pending| && s.pending[i].id in s.requests
    requires Ended(s.requests[s.pending[i].id], last)
    requires t == s.Finish(s.pending[i].id, last).(place := t.place, engine := t.engine,
                                                   pending := s.pending[..i] + s.pending[i + 1..])
    requires EngineInv(k, t.engine) && t.engine.sequences == s.engine.sequences && t.engine.eos == s.engine.eos
    requires t.place == s.place && !s.place.Delivering? && PlaceOk(t)
    ensures ServerInv(k, v, t)
  {
    hide EngineInv, RequestsOk, Line, Placed, InOrder, PlaceOk;
    DroppedLine(s, i, t);
    OthersPending(s, i);
    DropKeeps(k, v, s, i, last, t);
  }

  lemma TakenEnds(k: Kernel, v: Text.Vocabulary, s: Server, last: Request, t: Server)
    requires ServerInv(k, v, s) && Taken(s.place) != [] && Taken(s.place)[0].id in s.requests
    requires Ended(s.requests[Taken(s.place)[0].id], last)
    requires t == s.Finish(Taken(s.place)[0].id, last).(place := t.place)
    requires Taken(t.place) == Taken(s.place)[1..] && !t.place.Delivering? && PlaceOk(t)
    ensures ServerInv(k, v, t)
  {
    hide EngineInv, RequestsOk, Placed, InOrder, PlaceOk;
    NextInLine(s);
    NotPending(s);
    hide Line;
    DropKeeps(k, v, s, |s.pending|, last, t);
  }

  lemma NotPending(s: Server)
    requires Books(s) && Taken(s.place) != []
    ensures forall q :: q in s.pending ==> q.id != Taken(s.place)[0].id
  {
    NextInLine(s);
    hide Line;
    forall q | q in s.pending ensures q.id != Taken(s.place)[0].id {
      var i :| 0 <= i < |s.pending| && s.pending[i] == q;
      PendingInLine(s, i);
      LineDistinct(s, i, |s.pending|);
    }
  }

  lemma UntoldEnds(r: Request, kind: ErrorKind)
    requires Untold(r)
    ensures Ended(r, r.(error := Some(kind))) && Ended(r, r.(reason := Cancelled))
  {
  }

  // ---------------------------------------------------------------- the worker's steps

  lemma SequencedIs(s: Server, sub: Submission, env: WorkEnv)
    requires s.Sequenced(sub, env).Ok?
    ensures var q := s.Sequenced(sub, env).value;
            && Pristine(q) && q.id == sub.id && q.params == Params(sub.maxTokens, false)
            && env.encoded.Some? && q.tokens == env.encoded.value.0
            && q.promptCount + q.params.maxNewTokens <= s.contextLimit && s.engine.FitsCache(q)
  {
    hide Sched.FitsCache, Make;
    var chat := env.encoded.value;
    MakeAcceptsExactly(sub.id, chat.0, Params(sub.maxTokens, false), chat.1);
  }

  lemma PrepareKeeps(k: Kernel, v: Text.Vocabulary, s: Server, env: WorkEnv)
    requires ServerInv(k, v, s) && s.place.Preparing?
    ensures ServerInv(k, v, s.Work(k, v, env))
  {
    hide EngineInv, RequestsOk, Placed, InOrder, Server.Sequenced;
    var sub := s.place.next;
    NextInLine(s);
    LineUntold(k, v, s, |s.pending|);
    var t := s.Work(k, v, env);
    hide Line;
    var r := s.requests[sub.id];
    if r.cancelled {
      UntoldEnds(r, InvalidInput);
      TakenEnds(k, v, s, r.(reason := Cancelled), t);
    } else if s.Sequenced(sub, env).Err? {
      UntoldEnds(r, s.Sequenced(sub, env).error);
      TakenEnds(k, v, s, r.(error := Some(s.Sequenced(sub, env).error)), t);
    } else {
      SequencedIs(s, sub, env);
      ReadyKeeps(k, v, s, s.Sequenced(sub, env).value, t);
    }
  }

  lemma ReadyLine(s: Server, q: SeqData, t: Server)
    requires s.place.Preparing? && q.id == s.place.next.id
    requires t.pending == s.pending + [q] && t.submissions == s.submissions && Taken(t.place) == []
    ensures Line(t) == Line(s)
  {
    assert PendingIds(t.pending) == PendingIds(s.pending) + [q.id];
  }

  lemma PreparedNow(r: Request, q: SeqData, n: Request)
    requires Pristine(q) && Untold(r)
    requires n == r.(status := n.status, promptTokens := n.promptTokens, prompt := q.tokens, params := q.params)
    ensures PreparedOk(n, q) && Untold(n)
  {
  }

  /** Every request that was right stays right when one joins the prepared ones. */
  lemma RequestsJoin(k: Kernel, v: Text.Vocabulary, s: Server, q: SeqData, n: Request, t: Server)
    requires RequestsOk(k, v, s) && Due(s.place, q.id) == None && q.id !in s.active && q.id in s.requests
    requires n.status == Ready && Untold(n) && PreparedOk(n, q)
    requires t == s.(requests := s.requests[q.id := n], pending := s.pending + [q], place := t.place)
    requires forall id :: Due(t.place, id) == Due(s.place, id)
    requires forall p :: p in s.pending ==> p.id != q.id
    ensures RequestsOk(k, v, t)
  {
    hide FinalOk, StoryOk, Untold, PreparedOk, Due;
    forall id | id in t.requests ensures RequestOk(k, v, t, id) {
      assert RequestOk(k, v, s, id);
    }
    forall i | 0 <= i < |t.pending|
      ensures t.pending[i].id in t.requests && PreparedOk(t.requests[t.pending[i].id], t.pending[i])
    {
      if i < |s.pending| {
        assert t.pending[i] == s.pending[i] && s.pending[i] in s.pending;
      }
    }
  }

  /** A prepared request takes its place behind the other prepared ones. */
  lemma ReadyKeeps(k: Kernel, v: Text.Vocabulary, s: Server, q: SeqData, t: Server)
    requires ServerInv(k, v, s) && s.place.Preparing? && q.id == s.place.next.id && Pristine(q)
    requires q.id in s.requests && Untold(s.requests[q.id])
    requires t == s.(requests := s.requests[q.id := s.requests[q.id].(status := Ready, promptTokens := q.promptCount,
                                                                     prompt := q.tokens, params := q.params)],
                     pending := s.pending + [q], place := CancellingPending(0))
    ensures ServerInv(k, v, t)
  {
    hide EngineInv, RequestsOk, Placed, InOrder, Untold, PreparedOk, Pristine;
    NextInLine(s);
    NotPending(s);
    ReadyLine(s, q, t);
    hide Line;
    LineUnfinished(s, |s.pending|);
    BooksSame(s, t);
    hide Books;
    PreparedNow(s.requests[q.id], q, t.requests[q.id]);
    RequestsJoin(k, v, s, q, t.requests[q.id], t);
  }

  lemma CancelPendingKeeps(k: Kernel, v: Text.Vocabulary, s: Server, env: WorkEnv)
    requires ServerInv(k, v, s) && s.place.CancellingPending?
    ensures ServerInv(k, v, s.Work(k, v, env))
  {
    hide EngineInv, RequestsOk, Placed, InOrder, Line;
    var t := s.Work(k, v, env);
    if s.place.i == |s.pending| {
      SamePlaces(s, t);
      MovedOn(k, v, s, t);
    } else {
      var i := s.place.i;
      PendingInLine(s, i);
      LineUntold(k, v, s, i);
      var r := s.requests[s.pending[i].id];
      if r.cancelled {
        UntoldEnds(r, InvalidInput);
        PendingEnds(k, v, s, i, r.(reason := Cancelled), t);
      } else {
        SamePlaces(s, t);
        MovedOn(k, v, s, t);
      }
    }
  }

  lemma Regroup(a: seq<nat>, b: seq<nat>, c: seq<nat>)
    ensures a + b + c == a + (b + c)
  {
  }

  lemma SamePlaces(s: Server, t: Server)
    requires t.pending == s.pending && SubmittedIds(Taken(t.place)) + SubmittedIds(t.submissions)
                                    == SubmittedIds(Taken(s.place)) + SubmittedIds(s.submissions)
    ensures Line(t) == Line(s)
  {
    hide PendingIds, SubmittedIds, Taken;
    Regroup(PendingIds(s.pending), SubmittedIds(Taken(s.place)), SubmittedIds(s.submissions));
    Regroup(PendingIds(t.pending), SubmittedIds(Taken(t.place)), SubmittedIds(t.submissions));
  }

  /** An active request released by the worker. */
  lemma ReleasedKeeps(k: Kernel, v: Text.Vocabulary, s: Server, id: nat, last: Request, t: Server)
    requires ServerInv(k, v, s) && id in s.active && id in s.requests && id in s.engine.sequences
    requires last.stamp == s.requests[id].stamp && last.admitted == s.requests[id].admitted
    requires (last.reason == NoReason && last.error.Some?) || last.reason == Cancelled
    requires t == s.Finish(id, last).(place := t.place, engine := ReleaseSequence(s.engine, id).0, active := s.active - {id})
    requires Taken(t.place) == Taken(s.place) && PlaceOk(t)
    requires forall other :: other in t.active ==> Due(t.place, other) == Due(s.place, other)
    ensures ServerInv(k, v, t)
  {
    hide EngineInv, RequestsOk, Placed, InOrder, Due, PlaceOk, ReleaseSequence, FinalOk;
    ReleaseIs(k, s.engine, id);
    SamePlaces(s, t);
    hide Line;
    FailedIsFinal(k, v, s.engine.eos, last.(status := RequestStatus.Finished));
    DoneKeeps(k, v, s, id, last, t);
  }

  lemma ActiveStory(k: Kernel, v: Text.Vocabulary, s: Server, id: nat)
    requires ServerInv(k, v, s) && id in s.active
    ensures id in s.requests && s.Of(id) == s.requests[id] && id in s.engine.sequences && Unfinished(s.requests, id)
    ensures StoryOk(v, s.requests[id], s.engine.sequences[id], Due(s.place, id))
    ensures s.requests[id].reason == NoReason && s.requests[id].error == None
  {
    hide EngineInv, Line, FinalOk, Due;
    assert Unfinished(s.requests, id);
    assert RequestOk(k, v, s, id);
  }

  lemma CancelActiveKeeps(k: Kernel, v: Text.Vocabulary, s: Server, env: WorkEnv)
    requires ServerInv(k, v, s) && s.place.CancellingActive?
    ensures ServerInv(k, v, s.Work(k, v, env))
  {
    hide Server.Prepare, Server.CancelPending, Server.AdmitFront, Server.AppendUpdate, Server.ExecuteStep, Ordering;
    hide EngineInv, RequestsOk, Placed, InOrder, ReleaseSequence, StoryOk;
    var t := s.Work(k, v, env);
    var left := s.place.left;
    if left == [] || !s.Of(left[0]).cancelled {
      SamePlaces(s, t);
      hide Line;
      MovedOn(k, v, s, t);
    } else {
      hide Line;
      ActiveStory(k, v, s, left[0]);
      ReleaseIs(k, s.engine, left[0]);
      ReleasedKeeps(k, v, s, left[0], s.requests[left[0]].(reason := Cancelled), t);
    }
  }

  // ---------------------------------------------------------------- admission

  lemma AdmitKeeps(k: Kernel, v: Text.Vocabulary, s: Server, env: WorkEnv)
    requires ServerInv(k, v, s) && s.place.Admitting?
    ensures ServerInv(k, v, s.Work(k, v, env))
  {
    hide EngineInv, FinalOk, StoryOk, Untold, Placed, InOrder, Sched.TryAdd, Pristine, Came;
    var t := s.Work(k, v, env);
    if s.pending == [] {
      SamePlaces(s, t);
      hide Line;
      MovedOn(k, v, s, t);
    } else {
      hide Line;
      var q := s.pending[0];
      assert PreparedOk(s.requests[q.id], q);
      PendingInLine(s, 0);
      LineUnfinished(s, 0);
      TryAddIs(k, s.engine, q, env.admit);
      LineUntold(k, v, s, 0);
      UntoldEnds(s.requests[q.id], InvalidInput);
      UntoldEnds(s.requests[q.id], ExecutionFailure);
      AdmitFrontKeeps(k, v, s, env.admit, s.engine.TryAdd(q, env.admit), t);
    }
  }

  lemma EmptyPool(s: Sched, active: set<nat>)
    requires s.sequences.Keys == active && active == {}
    ensures s.sequences == map[]
  {
  }

  lemma AdmitFrontKeeps(k: Kernel, v: Text.Vocabulary, s: Server, env: AdmitEnv, added: (Sched, Result<Scheduling.Admission, SchedError>),
                        t: Server)
    requires ServerInv(k, v, s) && s.place.Admitting? && s.pending != [] && t == s.AdmitFront(env)
    requires s.pending[0].id in s.requests && s.Of(s.pending[0].id) == s.requests[s.pending[0].id]
    requires added == s.engine.TryAdd(s.pending[0], env)
    requires EngineInv(k, added.0) && added.0.eos == s.engine.eos
    requires if added.1 == Ok(Admitted) then Came(s.engine, s.pending[0], added.0)
             else added.0.sequences == s.engine.sequences
    requires s.engine.sequences == map[] ==> added.1 != Ok(Deferred)
    requires Ended(s.requests[s.pending[0].id], s.requests[s.pending[0].id].(error := Some(InvalidInput)))
    requires Ended(s.requests[s.pending[0].id], s.requests[s.pending[0].id].(error := Some(ExecutionFailure)))
    ensures ServerInv(k, v, t)
  {
    hide EngineInv, RequestsOk, Placed, InOrder, Sched.TryAdd, Line, Came, Ended;
    var r := s.requests[s.pending[0].id];
    assert s.pending[..0] + s.pending[1..] == s.pending[1..];
    match added.1 {
      case Err(_) => PendingEnds(k, v, s, 0, r.(error := Some(ExecutionFailure)), t);
      case Ok(Admitted) => AdmittedKeeps(k, v, s, t);
      case Ok(TooLarge) => PendingEnds(k, v, s, 0, r.(error := Some(InvalidInput)), t);
      case Ok(Deferred) =>
        if s.active == {} {
          EmptyPool(s.engine, s.active);
          assert false;
        }
        SamePlaces(s, s.(place := Deciding));
        MovedOn(k, v, s, s.(place := Deciding));
        SameEngine(k, v, s.(place := Deciding), t);
    }
  }

  /** An engine that holds the same sequences serves as well. */
  lemma SameEngine(k: Kernel, v: Text.Vocabulary, s: Server, t: Server)
    requires ServerInv(k, v, s) && t == s.(engine := t.engine)
    requires EngineInv(k, t.engine) && t.engine.sequences == s.engine.sequences && t.engine.eos == s.engine.eos
    ensures ServerInv(k, v, t)
  {
    hide EngineInv, FinalOk, StoryOk, Untold, PreparedOk, Placed, InOrder;
    SamePlaces(s, t);
    hide Line;
    BooksSame(s, t);
    forall id | id in t.requests ensures RequestOk(k, v, t, id) {
      assert RequestOk(k, v, s, id);
    }
  }

  /** Nothing was generated yet, and nothing shown. */
  lemma NewStory(v: Text.Vocabulary, r: Request, q: SeqData, p: SeqData)
    requires PreparedOk(r, q) && SameRequest(q, p)
    ensures StoryOk(v, r, p, None)
  {
    assert p.Prompt() == p.tokens;
    assert Completion(p) == [];
    assert TokensOk(p, None, []);
    assert Shown(v, r, []) by {
      var nothing: seq<Byte> := [];
      assert nothing + nothing == nothing;
      assert Text.Decode(v, []) == Some(nothing);
    }
  }

  lemma StoryUnder(v: Text.Vocabulary, a: Request, b: Request, q: SeqData, due: Option<Update>)
    requires StoryOk(v, a, q, due)
    requires b == a.(admitted := b.admitted, cachedPromptTokens := b.cachedPromptTokens)
    ensures StoryOk(v, b, q, due)
  {
    var told :| TokensOk(q, due, told) && Shown(v, a, told);
    assert Shown(v, b, told);
  }

  lemma AdmittedKeeps(k: Kernel, v: Text.Vocabulary, s: Server, t: Server)
    requires ServerInv(k, v, s) && s.place.Admitting? && s.pending != [] && s.pending[0].id in s.requests
    requires EngineInv(k, t.engine) && Came(s.engine, s.pending[0], t.engine)
    requires var id := s.pending[0].id;
             && t.requests == s.requests[id := s.requests[id].(admitted := true, cachedPromptTokens := t.Of(id).cachedPromptTokens)]
             && t == s.(engine := t.engine, requests := t.requests, active := s.active + {id}, pending := s.pending[1..])
    ensures ServerInv(k, v, t)
  {
    hide EngineInv, RequestsOk, Placed, InOrder, AdmittedOne, Came;
    var q := s.pending[0];
    assert s.pending[..0] + s.pending[1..] == s.pending[1..];
    OthersPending(s, 0);
    LinePending(s, t);
    hide Line, Dropped;
    MarkedAdmitted(s.requests, q.id, t.requests);
    BooksAdmit(s, t);
    hide Books;
    AdmittedRequests(k, v, s, t);
    CameIn(s.engine, q, t.engine);
  }

  lemma MarkedAdmitted(a: map<nat, Request>, id: nat, b: map<nat, Request>)
    requires id in a && id in b && b == a[id := a[id].(admitted := true, cachedPromptTokens := b[id].cachedPromptTokens)]
    ensures AdmittedOne(a, id, b)
  {
  }

  lemma CameIn(s: Sched, q: SeqData, t: Sched)
    requires Came(s, q, t)
    ensures t.sequences.Keys == s.sequences.Keys + {q.id}
  {
  }

  lemma LinePending(s: Server, t: Server)
    requires Books(s) && s.pending != [] && t.pending == s.pending[1..]
    requires Taken(t.place) == Taken(s.place) && t.submissions == s.submissions
    ensures Line(s) != [] && Line(s)[0] == s.pending[0].id && Line(t) == Dropped(Line(s), 0)
    ensures s.pending[0].id !in s.active && Unfinished(s.requests, s.pending[0].id)
  {
    assert s.pending[..0] + s.pending[1..] == s.pending[1..];
    DroppedLine(s, 0, t);
    hide Line;
    LineUnfinished(s, 0);
  }

  lemma AdmittedRequests(k: Kernel, v: Text.Vocabulary, s: Server, t: Server)
    requires RequestsOk(k, v, s) && s.place.Admitting? && s.pending != [] && s.pending[0].id in s.requests
    requires s.pending[0].id !in s.active && s.requests[s.pending[0].id].status != RequestStatus.Finished
    requires Came(s.engine, s.pending[0], t.engine)
    requires var id := s.pending[0].id;
             && t.requests == s.requests[id := s.requests[id].(admitted := true, cachedPromptTokens := t.Of(id).cachedPromptTokens)]
             && t == s.(engine := t.engine, requests := t.requests, active := s.active + {id}, pending := s.pending[1..])
    requires forall q :: q in s.pending[1..] ==> q in s.pending && q.id != s.pending[0].id
    ensures RequestsOk(k, v, t)
  {
    hide FinalOk, StoryOk, Untold, PreparedOk, SameRequest;
    var q := s.pending[0];
    NewStory(v, s.requests[q.id], q, t.engine.sequences[q.id]);
    StoryUnder(v, s.requests[q.id], t.requests[q.id], t.engine.sequences[q.id], None);
    RequestsExcept(k, v, s, q.id, t);
  }

  // ---------------------------------------------------------------- the engine's step

  lemma {:induction false} UpdateForFinds(updates: seq<Update>, id: nat)
    ensures UpdateFor(updates, id) == None <==> !Mentions(updates, id)
    ensures UpdateFor(updates, id).Some? ==> exists i :: 0 <= i < |updates| && updates[i] == UpdateFor(updates, id).value
                                                         && updates[i].id == id
  {
    if updates != [] {
      UpdateForFinds(updates[1..], id);
      assert forall i :: 0 < i < |updates| ==> updates[i] == updates[1..][i - 1];
      if updates[0].id == id {
        assert Mentions(updates, id);
      } else if UpdateFor(updates, id).Some? {
        var i :| 0 <= i < |updates[1..]| && updates[1..][i] == UpdateFor(updates, id).value && updates[1..][i].id == id;
        assert updates[i + 1] == UpdateFor(updates, id).value;
      } else {
        forall i | 0 <= i < |updates| ensures updates[i].id != id {
          assert i > 0 ==> updates[1..][i - 1] == updates[i];
        }
      }
    }
  }

  /** After the engine's step the story goes on with the update that is now due. */
  lemma StoryGoesOn(v: Text.Vocabulary, r: Request, a: SeqData, b: SeqData, u: Update)
    requires StoryOk(v, r, a, None) && Follows(a, b) && GotToken(a, b, u)
    ensures StoryOk(v, r, b, Some(u))
  {
    var told :| TokensOk(a, None, told) && Shown(v, r, told);
    assert b.Prompt() == a.Prompt();
    assert Completion(b) == Completion(a) + [u.token];
    assert TokensOk(b, Some(u), told);
  }

  lemma StoryStays(v: Text.Vocabulary, r: Request, a: SeqData, b: SeqData)
    requires StoryOk(v, r, a, None) && Follows(a, b) && SameStory(a, b)
    ensures StoryOk(v, r, b, None)
  {
    var told :| TokensOk(a, None, told) && Shown(v, r, told);
    assert b.Prompt() == a.Prompt();
    assert Completion(b) == Completion(a);
    assert TokensOk(b, None, told);
  }

  lemma ExecuteKeeps(k: Kernel, v: Text.Vocabulary, s: Server, env: StepEnv)
    requires ServerInv(k, v, s) && s.place.Deciding? && s.active != {}
    ensures ServerInv(k, v, s.ExecuteStep(k, env))
  {
    hide EngineInv, RequestsOk, Placed, InOrder, Step, Survived, Delivered, Follows;
    StepKeeps(k, s.engine, env);
    StepWorks(k, s.engine, env);
    var r := Step(k, s.engine, env);
    var t := s.ExecuteStep(k, env);
    if r.1.Err? {
      SurvivedSequences(s.engine, r.0);
      SamePlaces(s, s.(place := FailingPending(false)));
      hide Line;
      MovedOn(k, v, s, s.(place := FailingPending(false)));
      SameEngine(k, v, s.(place := FailingPending(false)), t);
    } else {
      StepDelivers(k, s.engine, env);
      SteppedKeeps(k, v, s, t);
    }
  }

  lemma SurvivedSequences(s: Sched, t: Sched)
    requires Survived(s, t)
    ensures t.sequences == s.sequences && t.eos == s.eos && t.config == s.config && t.state.shape == s.state.shape
  {
  }

  lemma SteppedKeeps(k: Kernel, v: Text.Vocabulary, s: Server, t: Server)
    requires ServerInv(k, v, s) && s.place.Deciding? && t.place.Delivering?
    requires t == s.(engine := t.engine, place := t.place) && EngineInv(k, t.engine)
    requires AllFollow(s.engine, t.engine) && Delivered(s.engine.sequences, t.engine.sequences, t.place.updates)
    ensures ServerInv(k, v, t)
  {
    hide EngineInv, FinalOk, StoryOk, Untold, PreparedOk, Placed, InOrder, Follows, GotToken, SameStory;
    SamePlaces(s, t);
    hide Line;
    BooksSame(s, t);
    forall id | id in t.requests ensures RequestOk(k, v, t, id) {
      assert RequestOk(k, v, s, id);
      if id in s.active {
        DeliveredStory(v, s.requests[id], s.engine, t.engine, t.place.updates, id);
      }
    }
    forall i | 0 <= i < |t.place.updates| ensures t.place.updates[i].id in t.active {
      assert Told1(s.engine.sequences, t.engine.sequences, t.place.updates[i]);
    }
  }

  lemma DeliveredStory(v: Text.Vocabulary, r: Request, s: Sched, t: Sched, updates: seq<Update>, id: nat)
    requires AllFollow(s, t) && Delivered(s.sequences, t.sequences, updates) && id in s.sequences
    requires StoryOk(v, r, s.sequences[id], None)
    ensures StoryOk(v, r, t.sequences[id], UpdateFor(updates, id))
  {
    hide StoryOk, Follows, GotToken, SameStory;
    UpdateForFinds(updates, id);
    assert Follows(s.sequences[id], t.sequences[id]);
    if UpdateFor(updates, id).Some? {
      var i :| 0 <= i < |updates| && updates[i] == UpdateFor(updates, id).value && updates[i].id == id;
      assert Told1(s.sequences, t.sequences, updates[i]);
      StoryGoesOn(v, r, s.sequences[id], t.sequences[id], updates[i]);
    } else {
      StoryStays(v, r, s.sequences[id], t.sequences[id]);
    }
  }

  // ---------------------------------------------------------------- passing updates on

  lemma CompletionSplits(told: seq<Token>, token: Token, q: SeqData)
    requires told + [token] == Completion(q) && 0 < q.promptCount <= |q.tokens|
    ensures TokensOk(q, None, told + [token]) <==> q.status != Status.Finished
    ensures q.tokens == q.Prompt() + (told + [token])
  {
    assert q.tokens == q.tokens[..q.promptCount] + q.tokens[q.promptCount..];
  }

  /** A token pushed without failure: the text grows as the decoder says, and a final push shows all of it. */
  lemma PushedShown(v: Text.Vocabulary, r: Request, told: seq<Token>, token: Token, final: bool, n: Request)
    requires Shown(v, r, told) && Text.PushTail(v, r.decoder, token, final).1.Ok?
    requires n.completionTokens == r.completionTokens + 1 && n.decoder == Text.PushTail(v, r.decoder, token, final).0
    requires n.output == r.output + Text.PushTail(v, r.decoder, token, final).1.value
    ensures Shown(v, n, told + [token])
    ensures final ==> Text.Decode(v, told + [token]) == Some(n.output)
  {
    hide Text.Agree, Text.PushAll, Text.PushTail, Text.Emitted;
    var h := Text.History(told, r.output);
    Text.PushesAgree(v, h, r.decoder, token, final);
    Text.PushEmits(v, h, token, final);
    assert Text.PushAll(v, h, token, final).0 == Text.History(told + [token], n.output);
  }

  lemma StoryTold(v: Text.Vocabulary, r: Request, q: SeqData, u: Update, n: Request)
    requires StoryOk(v, r, q, Some(u)) && u.reason == NoReason && Text.PushTail(v, r.decoder, u.token, false).1.Ok?
    requires n == r.(decoder := Text.PushTail(v, r.decoder, u.token, false).0,
                     output := r.output + Text.PushTail(v, r.decoder, u.token, false).1.value,
                     completionTokens := r.completionTokens + 1)
    ensures StoryOk(v, n, q, None)
  {
    hide Shown, Text.PushTail;
    var told :| TokensOk(q, Some(u), told) && Shown(v, r, told);
    CompletionSplits(told, u.token, q);
    PushedShown(v, r, told, u.token, false, n);
  }

  /** The last token: what is shown now is the text of the reference answer. */
  lemma StoryEnds(k: Kernel, v: Text.Vocabulary, eos: Token, r: Request, q: SeqData, u: Update, n: Request)
    requires StoryOk(v, r, q, Some(u)) && u.reason != NoReason && Text.PushTail(v, r.decoder, u.token, true).1.Ok?
    requires Told(k, q, eos)
    requires n == r.(decoder := Text.PushTail(v, r.decoder, u.token, true).0,
                     output := r.output + Text.PushTail(v, r.decoder, u.token, true).1.value,
                     completionTokens := r.completionTokens + 1, reason := u.reason, status := RequestStatus.Finished)
    ensures FinalOk(k, v, eos, n)
  {
    hide Text.PushTail, Greedy, Unstopped, Shown, TokensOk, AnswerShown, Told;
    var told :| TokensOk(q, Some(u), told) && Shown(v, r, told);
    DueTokens(q, u, told);
    CompletionSplits(told, u.token, q);
    PushedShown(v, r, told, u.token, true, n);
    ShownCount(v, n, told + [u.token]);
    ToldAnswer(k, q, eos);
    AnswerIs(k, v, eos, n, told + [u.token]);
  }

  lemma DueTokens(q: SeqData, u: Update, told: seq<Token>)
    requires TokensOk(q, Some(u), told)
    ensures told + [u.token] == Completion(q) && q.reason == u.reason
    ensures u.reason == NoReason || u.reason == Eos || u.reason == LenLimit
  {
  }

  lemma ToldAnswer(k: Kernel, q: SeqData, eos: Token)
    requires Told(k, q, eos) && (q.reason == Eos || q.reason == LenLimit)
    ensures q.Prompt() != [] && 0 < q.params.maxNewTokens
    ensures Greedy(k, q.Prompt(), q.params, eos) == Outcome(q.tokens, q.reason)
  {
    hide Greedy, Unstopped;
  }

  lemma AnswerIs(k: Kernel, v: Text.Vocabulary, eos: Token, r: Request, completion: seq<Token>)
    requires r.prompt != [] && 0 < r.params.maxNewTokens
    requires Greedy(k, r.prompt, r.params, eos) == Outcome(r.prompt + completion, r.reason)
    requires r.completionTokens == |completion| && Text.Decode(v, completion) == Some(r.output)
    ensures AnswerShown(k, v, eos, r)
  {
    hide Greedy;
    assert (r.prompt + completion)[|r.prompt|..] == completion;
  }

  lemma ShownCount(v: Text.Vocabulary, r: Request, told: seq<Token>)
    requires Shown(v, r, told)
    ensures r.completionTokens == |told|
  {
  }

  lemma DueNext(updates: seq<Update>, id: nat)
    requires OncePerId(updates) && updates != []
    ensures UpdateFor(updates[1..], id) == if id == updates[0].id then None else UpdateFor(updates, id)
    ensures OncePerId(updates[1..])
  {
    UpdateForFinds(updates[1..], updates[0].id);
    forall i | 0 <= i < |updates[1..]| ensures updates[1..][i].id != updates[0].id {
      assert updates[1..][i] == updates[i + 1];
    }
  }

  /** The request as the update leaves it. */
  function TokenShown(v: Text.Vocabulary, r: Request, u: Update): Request {
    var pushed := Text.PushTail(v, r.decoder, u.token, u.reason != NoReason);
    if pushed.1.Err? then r.(decoder := pushed.0, error := Some(ExecutionFailure))
    else r.(decoder := pushed.0, output := r.output + pushed.1.value, completionTokens := r.completionTokens + 1,
            reason := u.reason)
  }

  /** How an update about an active request ends, when the engine can let go of a finished one. */
  lemma AppendIs(s: Server, v: Text.Vocabulary, u: Update)
    requires u.id in s.active && u.id in s.requests && s.requests[u.id].reason == NoReason
    requires u.reason != NoReason ==> s.engine.Remove(u.id).1.Ok?
    ensures var r := s.requests[u.id];
            var pushed := Text.PushTail(v, r.decoder, u.token, u.reason != NoReason);
            (s.AppendUpdate(v, u)
         == if pushed.1.Err? then s.Finish(u.id, TokenShown(v, r, u)).(engine := ReleaseSequence(s.engine, u.id).0,
                                                                      active := s.active - {u.id})
            else if u.reason == NoReason then s.(requests := s.requests[u.id := TokenShown(v, r, u)])
            else s.Finish(u.id, TokenShown(v, r, u)).(engine := s.engine.Remove(u.id).0, active := s.active - {u.id}))
  {
    hide Text.PushTail, ReleaseSequence, Sched.Remove;
  }

  /** The place after an update was passed on. */
  lemma NextUpdates(s: Server, t: Server)
    requires PlaceOk(s) && s.place.Delivering? && s.place.updates != [] && t.place == Delivering(s.place.updates[1..])
    requires t.stopping == s.stopping && t.stopRequested == s.stopRequested
    requires forall id :: id != s.place.updates[0].id ==> (id in t.active <==> id in s.active)
    ensures PlaceOk(t)
    ensures forall id :: id != s.place.updates[0].id ==> Due(t.place, id) == Due(s.place, id)
    ensures Due(t.place, s.place.updates[0].id) == None && Due(s.place, s.place.updates[0].id) == Some(s.place.updates[0])
  {
    var updates := s.place.updates;
    forall id ensures Due(t.place, id) == if id == updates[0].id then None else Due(s.place, id) {
      DueNext(updates, id);
    }
    DueNext(updates, 0);
    forall i | 0 <= i < |updates[1..]| ensures updates[1..][i].id in t.active {
      assert updates[i + 1].id != updates[0].id;
    }
  }

  lemma EngineTold(k: Kernel, s: Sched, id: nat)
    requires EngineInv(k, s) && id in s.sequences
    ensures Told(k, s.sequences[id], s.eos)
  {
    ToldAt(k, s, id);
  }

  lemma DueFinished(v: Text.Vocabulary, r: Request, q: SeqData, u: Update)
    requires StoryOk(v, r, q, Some(u))
    ensures q.status == Status.Finished <==> u.reason != NoReason
  {
  }

  lemma AppendKeeps(k: Kernel, v: Text.Vocabulary, s: Server, env: WorkEnv)
    requires ServerInv(k, v, s) && s.place.Delivering? && s.place.updates != []
    ensures ServerInv(k, v, s.Work(k, v, env))
  {
    hide EngineInv, RequestsOk, Placed, InOrder, Server.AppendUpdate, StoryOk, Text.PushTail, ReleaseSequence, Sched.Remove,
      Line, TokenShown, Due, Told;
    var u := s.place.updates[0];
    ActiveStory(k, v, s, u.id);
    NextUpdates(s, s.(place := Delivering(s.place.updates[1..])));
    DueFinished(v, s.requests[u.id], s.engine.sequences[u.id], u);
    if u.reason != NoReason {
      RemoveIs(k, s.engine, u.id);
    }
    AppendIs(s, v, u);
    var t := s.Work(k, v, env);
    NextUpdates(s, t);
    var r := s.requests[u.id];
    var pushed := Text.PushTail(v, r.decoder, u.token, u.reason != NoReason);
    if pushed.1.Err? {
      FailedShown(v, r, u);
      ReleasedKeeps(k, v, s, u.id, TokenShown(v, r, u), t);
    } else if u.reason == NoReason {
      ToldKeeps(k, v, s, u, t);
    } else {
      EngineTold(k, s.engine, u.id);
      EndedKeeps(k, v, s, u, t);
    }
  }

  lemma FailedShown(v: Text.Vocabulary, r: Request, u: Update)
    requires Text.PushTail(v, r.decoder, u.token, u.reason != NoReason).1.Err? && r.reason == NoReason
    ensures var n := TokenShown(v, r, u); n.error.Some? && n.reason == NoReason && n.stamp == r.stamp && n.admitted == r.admitted
  {
  }

  /** The record of one active request changed, and nothing was finished. */
  lemma EditKeeps(k: Kernel, v: Text.Vocabulary, s: Server, id: nat, n: Request, t: Server)
    requires ServerInv(k, v, s) && id in s.active && id in s.requests
    requires t == s.(requests := s.requests[id := n], place := t.place)
    requires n.stamp == s.requests[id].stamp && n.admitted == s.requests[id].admitted && n.status == s.requests[id].status
    requires PlaceOk(t) && Taken(t.place) == Taken(s.place) && RequestOk(k, v, t, id)
    requires forall other :: other != id ==> Due(t.place, other) == Due(s.place, other)
    ensures ServerInv(k, v, t)
  {
    hide EngineInv, FinalOk, StoryOk, Untold, PreparedOk, Placed, InOrder, PlaceOk, Due, RequestOk;
    SamePlaces(s, t);
    PendingNotActive(s, id);
    hide Line;
    BooksSame(s, t);
    hide Books, RequestsOk;
    RequestsExcept(k, v, s, id, t);
  }

  lemma ToldKeeps(k: Kernel, v: Text.Vocabulary, s: Server, u: Update, t: Server)
    requires ServerInv(k, v, s) && u.id in s.active && u.id in s.requests && u.id in s.engine.sequences
    requires Due(s.place, u.id) == Some(u) && u.reason == NoReason && s.requests[u.id].reason == NoReason
    requires Text.PushTail(v, s.requests[u.id].decoder, u.token, false).1.Ok?
    requires t == s.(requests := s.requests[u.id := TokenShown(v, s.requests[u.id], u)], place := t.place)
    requires PlaceOk(t) && Taken(t.place) == Taken(s.place) && Due(t.place, u.id) == None
    requires forall id :: id != u.id ==> Due(t.place, id) == Due(s.place, id)
    ensures ServerInv(k, v, t)
  {
    hide EngineInv, FinalOk, Untold, RequestsOk, Books, PlaceOk, Due, StoryOk, Text.PushTail;
    var r := s.requests[u.id];
    ActiveStory(k, v, s, u.id);
    var n := TokenShown(v, r, u);
    StoryTold(v, r, s.engine.sequences[u.id], u, n);
    EditKeeps(k, v, s, u.id, n, t);
  }

  lemma EndedKeeps(k: Kernel, v: Text.Vocabulary, s: Server, u: Update, t: Server)
    requires ServerInv(k, v, s) && u.id in s.active && u.id in s.requests && u.id in s.engine.sequences
    requires Due(s.place, u.id) == Some(u) && u.reason != NoReason && Told(k, s.engine.sequences[u.id], s.engine.eos)
    requires Text.PushTail(v, s.requests[u.id].decoder, u.token, true).1.Ok?
    requires t == s.Finish(u.id, TokenShown(v, s.requests[u.id], u)).(engine := t.engine, active := s.active - {u.id}, place := t.place)
    requires EngineInv(k, t.engine) && Gone1(s.engine, u.id, t.engine)
    requires PlaceOk(t) && Taken(t.place) == Taken(s.place)
    requires forall id :: id != u.id ==> Due(t.place, id) == Due(s.place, id)
    ensures ServerInv(k, v, t)
  {
    hide EngineInv, FinalOk, Untold, PreparedOk, Placed, InOrder, PlaceOk, Due, StoryOk, Told;
    var r := s.requests[u.id];
    ActiveStory(k, v, s, u.id);
    var n := TokenShown(v, r, u);
    StoryEnds(k, v, s.engine.eos, r, s.engine.sequences[u.id], u, n.(status := RequestStatus.Finished));
    hide Text.PushTail;
    SamePlaces(s, t);
    hide Line;
    DoneKeeps(k, v, s, u.id, n, t);
  }

  // ---------------------------------------------------------------- failing everything

  lemma FailPendingKeeps(k: Kernel, v: Text.Vocabulary, s: Server, env: WorkEnv)
    requires ServerInv(k, v, s) && s.place.FailingPending?
    ensures ServerInv(k, v, s.Work(k, v, env))
  {
    hide Server.Prepare, Server.CancelPending, Server.AdmitFront, Server.AppendUpdate, Server.ExecuteStep, Ordering;
    hide EngineInv, RequestsOk, Placed, InOrder;
    var t := s.Work(k, v, env);
    if s.pending == [] {
      SamePlaces(s, t);
      hide Line;
      MovedOn(k, v, s, t);
    } else {
      PendingInLine(s, 0);
      hide Line;
      LineUntold(k, v, s, 0);
      UntoldEnds(s.requests[s.pending[0].id], ExecutionFailure);
      assert s.pending[..0] + s.pending[1..] == s.pending[1..];
      PendingEnds(k, v, s, 0, s.requests[s.pending[0].id].(error := Some(ExecutionFailure)), t);
    }
  }

  lemma FailActiveKeeps(k: Kernel, v: Text.Vocabulary, s: Server, env: WorkEnv)
    requires ServerInv(k, v, s) && s.place.FailingActive?
    ensures ServerInv(k, v, s.Work(k, v, env))
  {
    hide Server.Prepare, Server.CancelPending, Server.AdmitFront, Server.AppendUpdate, Server.ExecuteStep, Ordering;
    hide EngineInv, RequestsOk, Placed, InOrder, ReleaseSequence, StoryOk;
    var t := s.Work(k, v, env);
    var left := s.place.left;
    if left == [] {
      NothingLeftActive(s);
      SamePlaces(s, t);
      hide Line;
      MovedOn(k, v, s, t);
    } else {
      hide Line;
      ActiveStory(k, v, s, left[0]);
      EnumeratesRest(left, s.active);
      ReleasedKeeps(k, v, s, left[0], s.requests[left[0]].(error := Some(ExecutionFailure)), t);
    }
  }

  lemma NothingLeftActive(s: Server)
    requires s.place.FailingActive? && s.place.left == [] && PlaceOk(s)
    ensures s.active == {}
  {
  }

  lemma EnumeratesRest(left: seq<nat>, ids: set<nat>)
    requires Enumerates(left, ids) && left != []
    ensures Enumerates(left[1..], ids - {left[0]}) && left[0] in ids
  {
    assert left == [left[0]] + left[1..];
  }

  lemma RefuseKeeps(k: Kernel, v: Text.Vocabulary, s: Server)
    requires ServerInv(k, v, s) && s.place.Refusing? && s.place.taken != []
    ensures ServerInv(k, v, s.FinishError(s.place.taken[0].id, ExecutionFailure).(place := Refusing(s.place.taken[1..])))
  {
    hide EngineInv, RequestsOk, Placed, InOrder;
    NextInLine(s);
    LineUntold(k, v, s, |s.pending|);
    hide Line;
    var id := s.place.taken[0].id;
    UntoldEnds(s.requests[id], ExecutionFailure);
    TakenEnds(k, v, s, s.requests[id].(error := Some(ExecutionFailure)),
              s.FinishError(id, ExecutionFailure).(place := Refusing(s.place.taken[1..])));
  }

  // ---------------------------------------------------------------- every step, every run

  lemma MoveTo(k: Kernel, v: Text.Vocabulary, s: Server, place: Place)
    requires ServerInv(k, v, s) && PlaceOk(s.(place := place)) && !place.Delivering?
    requires Taken(place) == Taken(s.place) && (!s.place.Delivering? || s.place.updates == [])
    ensures ServerInv(k, v, s.(place := place))
  {
    hide EngineInv, RequestsOk, Placed, InOrder, PlaceOk;
    SamePlaces(s, s.(place := place));
    hide Line;
    MovedOn(k, v, s, s.(place := place));
  }

  lemma PlaceHolds(k: Kernel, v: Text.Vocabulary, s: Server)
    requires ServerInv(k, v, s)
    ensures PlaceOk(s)
  {
  }

  lemma TakeKeeps(k: Kernel, v: Text.Vocabulary, s: Server, t: Server)
    requires ServerInv(k, v, s) && s.place.Draining? && s.submissions != []
    requires t == s.(submissions := s.submissions[1..], place := Preparing(s.submissions[0]))
    ensures ServerInv(k, v, t)
  {
    hide EngineInv, RequestsOk, Placed, InOrder;
    TakenInLine(s.submissions);
    SamePlaces(s, t);
    hide Line;
    MovedOn(k, v, s, t);
  }

  lemma TakenInLine(subs: seq<Submission>)
    requires subs != []
    ensures SubmittedIds([subs[0]]) + SubmittedIds(subs[1..]) == SubmittedIds(subs)
  {
  }

  lemma SwapKeeps(k: Kernel, v: Text.Vocabulary, s: Server, t: Server)
    requires ServerInv(k, v, s) && s.place.Leaving? && t == s.(submissions := [], place := Refusing(s.submissions))
    ensures ServerInv(k, v, t)
  {
    hide EngineInv, RequestsOk, Placed, InOrder;
    SamePlaces(s, t);
    hide Line;
    MovedOn(k, v, s, t);
  }

  lemma WorkKeeps(k: Kernel, v: Text.Vocabulary, s: Server, env: WorkEnv)
    requires ServerInv(k, v, s)
    ensures ServerInv(k, v, s.Work(k, v, env))
  {
    hide ServerInv;
    PlaceHolds(k, v, s);
    match s.place {
      case Top => MoveTo(k, v, s, if s.stopRequested then Leaving else Draining);
      case Draining =>
        if s.submissions == [] {
          MoveTo(k, v, s, CancellingPending(0));
        } else {
          TakeKeeps(k, v, s, s.Work(k, v, env));
        }
      case Preparing(_) => PrepareKeeps(k, v, s, env);
      case CancellingPending(_) => CancelPendingKeeps(k, v, s, env);
      case CancellingActive(_) => CancelActiveKeeps(k, v, s, env);
      case Admitting => AdmitKeeps(k, v, s, env);
      case Deciding =>
        if s.active == {} {
          MoveTo(k, v, s, Place.Waiting);
        } else {
          ExecuteKeeps(k, v, s, env.step);
        }
      case Delivering(updates) =>
        if updates == [] {
          MoveTo(k, v, s, Top);
        } else {
          AppendKeeps(k, v, s, env);
        }
      case FailingPending(_) => FailPendingKeeps(k, v, s, env);
      case FailingActive(_, _) => FailActiveKeeps(k, v, s, env);
      case Waiting => MoveTo(k, v, s, if s.stopping then Leaving else if s.submissions != [] then Top else Place.Waiting);
      case Leaving => SwapKeeps(k, v, s, s.Work(k, v, env));
      case Refusing(taken) =>
        if taken == [] {
          MoveTo(k, v, s, FailingPending(true));
        } else {
          RefuseKeeps(k, v, s);
        }
      case Exited =>
    }
  }

  lemma EnqueuedLine(s: Server, id: nat, maxTokens: nat)
    ensures SubmittedIds(s.submissions + [Submission(id, maxTokens)]) == SubmittedIds(s.submissions) + [id]
  {
  }

  lemma EnqueueKeeps(k: Kernel, v: Text.Vocabulary, s: Server, id: nat, maxTokens: nat)
    requires ServerInv(k, v, s) && id !in s.requests
    ensures ServerInv(k, v, s.Enqueue(id, maxTokens).0)
  {
    hide EngineInv, FinalOk, StoryOk, PreparedOk, Placed, InOrder, PendingIds, SubmittedIds;
    var t := s.Enqueue(id, maxTokens).0;
    if t != s {
      EnqueuedLine(s, id, maxTokens);
      assert Line(t) == Line(s) + [id];
      NotActive(s, id);
      hide Line;
      BooksAccept(s, id, t);
      forall other | other in t.requests ensures RequestOk(k, v, t, other) {
        assert other != id ==> RequestOk(k, v, s, other);
      }
      forall i | 0 <= i < |t.pending|
        ensures t.pending[i].id in t.requests && PreparedOk(t.requests[t.pending[i].id], t.pending[i])
      {
        assert s.pending[i].id in s.requests;
      }
    }
  }

  lemma NotActive(s: Server, id: nat)
    requires Books(s) && id !in s.requests
    ensures id !in s.active
  {
    hide Line;
    assert id in s.active ==> Unfinished(s.requests, id);
  }

  lemma FlaggedOk(k: Kernel, v: Text.Vocabulary, s: Server, t: Server, id: nat)
    requires id in s.requests && RequestOk(k, v, s, id) && t.requests == s.requests[id := s.requests[id].(cancelled := true)]
    requires t.active == s.active && t.engine == s.engine && t.place == s.place
    ensures RequestOk(k, v, t, id)
  {
    var r, n := s.requests[id], t.requests[id];
    if id in s.active {
      var q, due := s.engine.sequences[id], Due(s.place, id);
      var told :| TokensOk(q, due, told) && Shown(v, r, told);
      assert Shown(v, n, told);
    }
  }

  lemma FlagKeeps(k: Kernel, v: Text.Vocabulary, s: Server, id: nat)
    requires ServerInv(k, v, s) && id in s.requests
    ensures ServerInv(k, v, s.CancelRequest(id))
  {
    hide EngineInv, RequestsOk, Placed, InOrder;
    var t := s.CancelRequest(id);
    SamePlaces(s, t);
    hide Line;
    BooksSame(s, t);
    hide Books;
    FlaggedRequests(k, v, s, t, id);
  }

  lemma FlaggedRequests(k: Kernel, v: Text.Vocabulary, s: Server, t: Server, id: nat)
    requires RequestsOk(k, v, s) && id in s.requests && t == s.CancelRequest(id)
    ensures RequestsOk(k, v, t)
  {
    hide FinalOk, StoryOk, Untold, Pristine, Due;
    forall other | other in t.requests ensures RequestOk(k, v, t, other) {
      assert RequestOk(k, v, s, other);
      if other == id {
        FlaggedOk(k, v, s, t, id);
      }
    }
    FlaggedPending(s, t, id);
  }

  lemma FlaggedPending(s: Server, t: Server, id: nat)
    requires id in s.requests && t.requests == s.requests[id := s.requests[id].(cancelled := true)] && t.pending == s.pending
    requires forall i :: 0 <= i < |s.pending| ==> s.pending[i].id in s.requests && PreparedOk(s.requests[s.pending[i].id], s.pending[i])
    ensures forall i :: 0 <= i < |t.pending| ==> t.pending[i].id in t.requests && PreparedOk(t.requests[t.pending[i].id], t.pending[i])
  {
    hide Pristine;
    forall i | 0 <= i < |t.pending|
      ensures t.pending[i].id in t.requests && PreparedOk(t.requests[t.pending[i].id], t.pending[i])
    {
      assert PreparedOk(s.requests[s.pending[i].id], s.pending[i]);
    }
  }

  lemma StopKeeps(k: Kernel, v: Text.Vocabulary, s: Server, t: Server)
    requires ServerInv(k, v, s) && t == s.(stopping := t.stopping, stopRequested := t.stopRequested)
    requires (s.stopping ==> t.stopping) && (t.stopRequested ==> t.stopping)
    ensures ServerInv(k, v, t)
  {
    hide EngineInv, FinalOk, StoryOk, Untold, PreparedOk, Placed, InOrder;
    SamePlaces(s, t);
    hide Line;
    BooksSame(s, t);
    forall id | id in t.requests ensures RequestOk(k, v, t, id) {
      assert RequestOk(k, v, s, id);
    }
  }

  lemma HappenKeeps(k: Kernel, v: Text.Vocabulary, s: Server, e: Event)
    requires ServerInv(k, v, s)
    ensures ServerInv(k, v, Happen(k, v, s, e))
  {
    hide ServerInv, Server.Work;
    PlaceHolds(k, v, s);
    match e {
      case EnqueueEvent(id, maxTokens) =>
        if id !in s.requests {
          EnqueueKeeps(k, v, s, id, maxTokens);
        }
      case CancelEvent(id) =>
        if id in s.requests {
          FlagKeeps(k, v, s, id);
        }
      case StopEvent => StopKeeps(k, v, s, Happen(k, v, s, e));
      case StopRequestEvent => StopKeeps(k, v, s, Happen(k, v, s, e));
      case WorkEvent(env) => WorkKeeps(k, v, s, env);
    }
  }

  lemma OpenedServes(k: Kernel, v: Text.Vocabulary, limit: nat, contextLimit: nat, engine: Sched)
    requires EngineInv(k, engine) && engine.sequences == map[]
    ensures ServerInv(k, v, Opened(limit, contextLimit, engine))
  {
    hide EngineInv;
  }

  /** The invariant of the serving runtime holds in every reachable state, however the threads interleave. */
  lemma {:induction false} ServeKeeps(k: Kernel, v: Text.Vocabulary, s: Server, events: seq<Event>)
    requires ServerInv(k, v, s)
    ensures ServerInv(k, v, Serve(k, v, s, events))
    decreases |events|
  {
    hide ServerInv, Happen;
    if events != [] {
      HappenKeeps(k, v, s, events[0]);
      ServeKeeps(k, v, Happen(k, v, s, events[0]), events[1..]);
    }
  }
}

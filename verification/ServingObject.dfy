/** The serving runtime as an object: src/serving_runtime.cc:18-392. Each method is one lock region or the worker's work on
    one request, and computes exactly the step that Serving.dfy states and ServingRuns.dfy proves correct. */
module ServingObjects {
  import opened Wrappers
  import opened Sequences
  import opened Kernels
  import opened Scheduling
  import opened Invariants
  import opened Engine
  import opened Serving
  import opened ServingBooks
  import opened ServingRuns
  import opened ServingHistories
  import EngineObjects

  class ServingRuntime {
    const limit: nat
    const contextLimit: nat
    const engine: EngineObjects.InferenceEngine
    var requests: map<nat, Request>
    var submissions: seq<Submission>
    var place: Place
    var pending: seq<SeqData>
    var active: set<nat>
    var outstanding: int
    var stopping: bool
    var stopRequested: bool
    var accepted: nat
    var finished: seq<nat>

    ghost function View(): Server
      reads this, engine.scheduler, engine.scheduler.state, engine.scheduler.state.pages, engine.scheduler.state.slots,
        engine.scheduler.prefixes, engine.scheduler.sequences.Values
    {
      Server(limit, contextLimit, engine.scheduler.View(), requests, submissions, place, pending, active, outstanding,
             stopping, stopRequested, accepted, finished)
    }

    constructor (limit: nat, contextLimit: nat, engine: EngineObjects.InferenceEngine)
      ensures this.engine == engine && View() == Opened(limit, contextLimit, engine.scheduler.View())
    {
      this.limit, this.contextLimit, this.engine := limit, contextLimit, engine;
      requests, submissions, place, pending, active := map[], [], Top, [], {};
      outstanding, stopping, stopRequested, accepted, finished := 0, false, false, 0, [];
    }

    // -------------------------------------------------------------- other threads

    method Enqueue(id: nat, maxTokens: nat) returns (r: Option<ErrorKind>)
      modifies this`outstanding, this`submissions, this`requests, this`accepted
      ensures (View(), r) == old(View()).Enqueue(id, maxTokens)
    {
      if stopping {
        return Some(ExecutionFailure);
      }
      if outstanding >= limit {
        return Some(QueueFull);
      }
      outstanding := outstanding + 1;
      submissions := submissions + [Submission(id, maxTokens)];
      requests := requests[id := NewRequest(accepted)];
      accepted := accepted + 1;
      return None;
    }

    method Cancel(id: nat)
      requires id in requests
      modifies this`requests
      ensures View() == old(View()).CancelRequest(id)
    {
      requests := requests[id := requests[id].(cancelled := true)];
    }

    // -------------------------------------------------------------- finishing a request

    method Finish(id: nat, last: Request)
      modifies this`requests, this`outstanding, this`finished
      ensures View() == old(View()).Finish(id, last)
    {
      requests := requests[id := last.(status := RequestStatus.Finished)];
      outstanding := outstanding - 1;
      finished := finished + [id];
    }

    method FinishError(id: nat, kind: ErrorKind)
      requires id in requests
      modifies this`requests, this`outstanding, this`finished
      ensures View() == old(View()).FinishError(id, kind)
    {
      Finish(id, requests[id].(error := Some(kind)));
    }

    method FinishCancelled(id: nat)
      requires id in requests
      modifies this`requests, this`outstanding, this`finished
      ensures View() == old(View()).FinishCancelled(id)
    {
      Finish(id, requests[id].(reason := Cancelled));
    }

    // -------------------------------------------------------------- drain_submissions

    /** The sequence of a submission, or why there is none. */
    method Sequenced(sub: Submission, encoded: Option<(seq<Token>, seq<nat>)>, decoder: bool, ghost env: WorkEnv)
      returns (r: Result<SeqData, ErrorKind>)
      requires env.encoded == encoded && env.decoder == decoder
      ensures r == View().Sequenced(sub, env)
    {
      hide Make;
      if encoded == None {
        return Err(InvalidInput);
      }
      var tokens := encoded.value.0;
      if |tokens| >= contextLimit || sub.maxTokens > contextLimit - |tokens| {
        return Err(InvalidInput);
      }
      var made := Make(sub.id, tokens, Params(sub.maxTokens, false), encoded.value.1);
      if made.Err? {
        return Err(InvalidInput);
      }
      var fits := engine.scheduler.FitsCache(made.value);
      if !fits {
        return Err(InvalidInput);
      }
      if !decoder {
        return Err(ExecutionFailure);
      }
      return Ok(made.value);
    }

    method Prepare(sub: Submission, encoded: Option<(seq<Token>, seq<nat>)>, decoder: bool, ghost env: WorkEnv)
      requires sub.id in requests && env.encoded == encoded && env.decoder == decoder
      modifies this`requests, this`outstanding, this`finished, this`pending
      ensures View() == old(View()).Prepare(sub, env)
    {
      hide Server.Sequenced, Server.Finish;
      if requests[sub.id].cancelled {
        FinishCancelled(sub.id);
        return;
      }
      var made := Sequenced(sub, encoded, decoder, env);
      if made.Err? {
        FinishError(sub.id, made.error);
        return;
      }
      Ready(sub.id, made.value);
    }

    method Ready(id: nat, q: SeqData)
      requires id in requests
      modifies this`requests, this`pending
      ensures View() == old(View()).(requests := old(requests)[id := old(requests)[id].(status := RequestStatus.Ready,
                                       promptTokens := q.promptCount, prompt := q.tokens, params := q.params)],
                                     pending := old(pending) + [q])
    {
      requests := requests[id := requests[id].(status := RequestStatus.Ready, promptTokens := q.promptCount,
                                               prompt := q.tokens, params := q.params)];
      pending := pending + [q];
    }

    // -------------------------------------------------------------- the engine

    method ReleaseSequence(id: nat) returns (released: bool)
      requires engine.scheduler.Apart()
      modifies engine.scheduler, engine.scheduler.state, engine.scheduler.state.pages, engine.scheduler.sequences.Values
      ensures engine.scheduler.Apart() && View().(engine := old(View()).engine) == old(View())
      ensures (engine.scheduler.View(), released) == Serving.ReleaseSequence(old(engine.scheduler.View()), id)
    {
      hide Sched.Cancel, Sched.Remove;
      var cancelled := engine.scheduler.Cancel(id);
      if cancelled.Err? {
        return false;
      }
      var removed := engine.scheduler.Remove(id);
      return removed.Ok?;
    }

    // -------------------------------------------------------------- cancel_requests

    method CancelPending(i: nat)
      requires i < |pending| && pending[i].id in requests
      modifies this`requests, this`outstanding, this`finished, this`pending, this`place
      ensures View() == old(View()).CancelPending(i)
    {
      if !requests[pending[i].id].cancelled {
        place := CancellingPending(i + 1);
        return;
      }
      FinishCancelled(pending[i].id);
      pending := pending[..i] + pending[i + 1..];
    }

    method CancelActive(id: nat)
      requires engine.scheduler.Apart() && id in requests
      modifies this`requests, this`outstanding, this`finished, this`active, engine.scheduler, engine.scheduler.state,
        engine.scheduler.state.pages, engine.scheduler.sequences.Values
      ensures engine.scheduler.Apart() && View() == old(View()).CancelActive(id)
    {
      hide Serving.ReleaseSequence;
      if !requests[id].cancelled {
        return;
      }
      ghost var s := View();
      var released := ReleaseSequence(id);
      assert View() == s.(engine := Serving.ReleaseSequence(s.engine, id).0);
      if released {
        FinishCancelled(id);
      } else {
        FinishError(id, ExecutionFailure);
      }
      Leave(id);
    }

    // -------------------------------------------------------------- admit_requests

    method TryAdd(data: SeqData, env: AdmitEnv) returns (r: Result<Scheduling.Admission, SchedError>)
      requires engine.scheduler.Apart() && SchedInv(engine.scheduler.View()) && data.Valid()
      modifies engine.scheduler, engine.scheduler.state, engine.scheduler.state.pages, engine.scheduler.state.slots,
        engine.scheduler.prefixes
      ensures engine.scheduler.Apart() && View().(engine := old(View()).engine) == old(View())
      ensures (engine.scheduler.View(), r) == old(engine.scheduler.View()).TryAdd(data, env)
      ensures forall id :: id in engine.scheduler.sequences ==>
                engine.scheduler.sequences[id] in old(engine.scheduler.sequences.Values) || fresh(engine.scheduler.sequences[id])
    {
      hide Sched.TryAdd, SchedInv;
      var q := new Sequence(data);
      r := engine.scheduler.TryAdd(q, env);
    }

    method CachedTokens(id: nat) returns (n: nat)
      ensures var s := engine.scheduler.View(); n == if id in s.sequences then s.sequences[id].cached else 0
    {
      if id in engine.scheduler.sequences {
        return engine.scheduler.sequences[id].cached;
      }
      return 0;
    }

    /** The bookkeeping of a successful admission. */
    method Enroll(id: nat)
      requires id in requests
      modifies this`requests, this`active
      ensures var s := old(View());
              View() == s.(requests := s.requests[id := s.Of(id).(admitted := true,
                                                                  cachedPromptTokens := if id in s.engine.sequences
                                                                                        then s.engine.sequences[id].cached
                                                                                        else 0)],
                           active := s.active + {id})
    {
      var cached := CachedTokens(id);
      requests := requests[id := requests[id].(admitted := true, cachedPromptTokens := cached)];
      active := active + {id};
    }

    method PopPending()
      requires pending != []
      modifies this`pending
      ensures View() == old(View()).(pending := old(pending)[1..])
    {
      pending := pending[1..];
    }

    method MoveTo(next: Place)
      modifies this`place
      ensures View() == old(View()).(place := next)
    {
      place := next;
    }

    method AdmitFront(env: AdmitEnv)
      requires engine.scheduler.Apart() && SchedInv(engine.scheduler.View())
      requires pending != [] && pending[0].Valid() && pending[0].id in requests
      modifies this`requests, this`outstanding, this`finished, this`active, this`pending, this`place,
        engine.scheduler, engine.scheduler.state, engine.scheduler.state.pages, engine.scheduler.state.slots,
        engine.scheduler.prefixes
      ensures engine.scheduler.Apart() && View() == old(View()).AdmitFront(env)
    {
      hide Sched.TryAdd, SchedInv;
      ghost var s := View();
      var q := pending[0];
      var added := TryAdd(q, env);
      assert View() == s.(engine := s.engine.TryAdd(q, env).0) && engine.scheduler.Apart();
      match added {
        case Err(_) =>
          FinishError(q.id, ExecutionFailure);
          PopPending();
        case Ok(Deferred) => MoveTo(Deciding);
        case Ok(TooLarge) =>
          FinishError(q.id, InvalidInput);
          PopPending();
        case Ok(Admitted) =>
          Enroll(q.id);
          PopPending();
      }
    }

    // -------------------------------------------------------------- execute_step

    method ExecuteStep(k: Kernel, env: StepEnv)
      requires engine.scheduler.Apart() && EngineInv(k, engine.scheduler.View())
      modifies this`place, engine.scheduler, engine.scheduler.state, engine.scheduler.state.pages,
        engine.scheduler.state.slots, engine.scheduler.prefixes, engine.scheduler.sequences.Values
      ensures engine.scheduler.Apart() && View() == old(View()).ExecuteStep(k, env)
    {
      hide Step, EngineInv;
      ghost var s := View();
      var updates := engine.Step(k, env);
      assert View() == s.(engine := Step(k, s.engine, env).0);
      MoveTo(if updates.Err? then FailingPending(false) else Delivering(updates.value));
    }

    method Leave(id: nat)
      modifies this`active
      ensures View() == old(View()).(active := old(active) - {id})
    {
      active := active - {id};
    }

    method Show(id: nat, r: Request)
      modifies this`requests
      ensures View() == old(View()).(requests := old(requests)[id := r])
    {
      requests := requests[id := r];
    }

    /** The request ends; the worker cancels it in the engine. */
    method Drop(id: nat, last: Request)
      requires engine.scheduler.Apart()
      modifies this`requests, this`outstanding, this`finished, this`active, engine.scheduler, engine.scheduler.state,
        engine.scheduler.state.pages, engine.scheduler.sequences.Values
      ensures var s := old(View());
              View() == s.Finish(id, last).(engine := Serving.ReleaseSequence(s.engine, id).0, active := s.active - {id})
      ensures engine.scheduler.Apart()
    {
      hide Serving.ReleaseSequence;
      ghost var s := View();
      var released := ReleaseSequence(id);
      assert View() == s.(engine := Serving.ReleaseSequence(s.engine, id).0);
      Finish(id, last);
      Leave(id);
    }

    /** The request ends with its last token; the engine forgets it. */
    method Conclude(id: nat, failed: Request, told: Request)
      requires engine.scheduler.Apart()
      modifies this`requests, this`outstanding, this`finished, this`active, engine.scheduler`sequences
      ensures var s := old(View());
              var removed := s.engine.Remove(id);
              View() == s.Finish(id, if removed.1.Err? then failed else told).(engine := removed.0, active := s.active - {id})
      ensures engine.scheduler.Apart()
    {
      hide Sched.Remove;
      ghost var s := View();
      var removed := engine.scheduler.Remove(id);
      assert View() == s.(engine := s.engine.Remove(id).0);
      Finish(id, if removed.Err? then failed else told);
      Leave(id);
    }

    method AppendUpdate(v: Text.Vocabulary, u: Update)
      requires engine.scheduler.Apart() && (u.id in active ==> u.id in requests)
      modifies this`requests, this`outstanding, this`finished, this`active, engine.scheduler, engine.scheduler.state,
        engine.scheduler.state.pages, engine.scheduler.sequences.Values
      ensures engine.scheduler.Apart() && View() == old(View()).AppendUpdate(v, u)
    {
      hide Serving.ReleaseSequence, Text.PushTail, Sched.Remove;
      if u.id !in active {
        return;
      }
      var r := requests[u.id];
      var final := u.reason != NoReason;
      var pushed := Text.PushTail(v, r.decoder, u.token, final);
      if pushed.1.Err? {
        Drop(u.id, r.(decoder := pushed.0, error := Some(ExecutionFailure)));
        return;
      }
      var told := r.(decoder := pushed.0, output := r.output + pushed.1.value, completionTokens := r.completionTokens + 1);
      if !final {
        Show(u.id, told);
        return;
      }
      Conclude(u.id, r.(decoder := pushed.0, error := Some(ExecutionFailure)), told.(reason := u.reason));
    }

    // -------------------------------------------------------------- fail_all

    method FailActive(id: nat)
      requires engine.scheduler.Apart() && id in requests
      modifies this`requests, this`outstanding, this`finished, this`active, engine.scheduler, engine.scheduler.state,
        engine.scheduler.state.pages, engine.scheduler.sequences.Values
      ensures engine.scheduler.Apart() && View() == old(View()).FailActive(id)
    {
      hide Serving.ReleaseSequence;
      Drop(id, requests[id].(error := Some(ExecutionFailure)));
    }

    // -------------------------------------------------------------- run

    method TakeSubmission()
      requires submissions != []
      modifies this`submissions, this`place
      ensures View() == old(View()).(submissions := old(submissions)[1..], place := Preparing(old(submissions)[0]))
    {
      place := Preparing(submissions[0]);
      submissions := submissions[1..];
    }

    method SwapSubmissions()
      modifies this`submissions, this`place
      ensures View() == old(View()).(submissions := [], place := Refusing(old(submissions)))
    {
      place := Refusing(submissions);
      submissions := [];
    }

    /** One step of the worker thread; `env.order` is the order in which the hash map of active requests is walked. */
    method Work(k: Kernel, v: Text.Vocabulary, env: WorkEnv)
      requires engine.scheduler.Apart() && ServerInv(k, v, View()) && Enumerates(env.order, active)
      modifies this, engine.scheduler, engine.scheduler.state, engine.scheduler.state.pages, engine.scheduler.state.slots,
        engine.scheduler.prefixes, engine.scheduler.sequences.Values
      ensures engine.scheduler.Apart() && View() == old(View()).Work(k, v, env)
    {
      hide ServerInv, Server.Prepare, Server.CancelPending, Server.CancelActive, Server.AdmitFront, Server.AppendUpdate,
        Server.FailActive, Server.ExecuteStep, Server.Finish, SchedInv, EngineInv;
      SubjectKnown(k, v, View());
      match place {
        case Top => MoveTo(if stopRequested then Leaving else Draining);
        case Draining =>
          if submissions == [] {
            MoveTo(CancellingPending(0));
          } else {
            TakeSubmission();
          }
        case Waiting => MoveTo(if stopping then Leaving else if submissions != [] then Top else Place.Waiting);
        case Leaving => SwapSubmissions();
        case Exited =>
        case CancellingActive(_) => WorkEngine(k, v, env);
        case Admitting => WorkEngine(k, v, env);
        case Deciding => WorkEngine(k, v, env);
        case Delivering(_) => WorkEngine(k, v, env);
        case FailingActive(_, _) => WorkEngine(k, v, env);
        case _ => WorkInHand(k, v, env);
      }
    }

    /** The worker's steps about requests that it has in hand. */
    method WorkInHand(k: Kernel, v: Text.Vocabulary, env: WorkEnv)
      requires engine.scheduler.Apart() && SchedInv(engine.scheduler.View()) && Enumerates(env.order, active)
      requires place.Preparing? || place.CancellingPending? || place.FailingPending? || place.Refusing?
      requires Subject(View()).Some? ==> Subject(View()).value in requests
      modifies this
      ensures engine.scheduler.Apart() && View() == old(View()).Work(k, v, env)
    {
      hide Server.Prepare, Server.CancelPending, Server.CancelActive, Server.AdmitFront, Server.AppendUpdate,
        Server.FailActive, Server.ExecuteStep, Server.Finish, SchedInv, EngineInv;
      match place {
        case Preparing(next) =>
          Prepare(next, env.encoded, env.decoder, env);
          MoveTo(CancellingPending(0));
        case CancellingPending(i) =>
          if i < |pending| {
            CancelPending(i);
          } else {
            MoveTo(CancellingActive(env.order));
          }
        case FailingPending(last) =>
          if pending == [] {
            MoveTo(FailingActive(env.order, last));
          } else {
            FinishError(pending[0].id, ExecutionFailure);
            PopPending();
          }
        case Refusing(taken) =>
          if taken == [] {
            MoveTo(FailingPending(true));
          } else {
            FinishError(taken[0].id, ExecutionFailure);
            MoveTo(Refusing(taken[1..]));
          }
      }
    }

    /** The worker's steps that reach the engine. */
    method WorkEngine(k: Kernel, v: Text.Vocabulary, env: WorkEnv)
      requires engine.scheduler.Apart() && EngineInv(k, engine.scheduler.View()) && SchedInv(engine.scheduler.View())
      requires place.CancellingActive? || place.Admitting? || place.Deciding? || place.Delivering? || place.FailingActive?
      requires Subject(View()).Some? ==> Subject(View()).value in requests
      requires pending != [] ==> pending[0].Valid()
      modifies this, engine.scheduler, engine.scheduler.state, engine.scheduler.state.pages, engine.scheduler.state.slots,
        engine.scheduler.prefixes, engine.scheduler.sequences.Values
      ensures engine.scheduler.Apart() && View() == old(View()).Work(k, v, env)
    {
      hide Server.Prepare, Server.CancelPending, Server.CancelActive, Server.AdmitFront, Server.AppendUpdate,
        Server.FailActive, Server.ExecuteStep, Server.Finish, SchedInv, EngineInv;
      match place {
        case CancellingActive(left) =>
          if left == [] {
            MoveTo(Admitting);
          } else {
            CancelActive(left[0]);
            MoveTo(CancellingActive(left[1..]));
          }
        case Admitting =>
          if pending == [] {
            MoveTo(Deciding);
          } else {
            AdmitFront(env.admit);
          }
        case Deciding =>
          if active == {} {
            MoveTo(Place.Waiting);
          } else {
            ExecuteStep(k, env.step);
          }
        case Delivering(updates) =>
          if updates == [] {
            MoveTo(Top);
          } else {
            AppendUpdate(v, updates[0]);
            MoveTo(Delivering(updates[1..]));
          }
        case FailingActive(left, last) =>
          if left == [] {
            MoveTo(if last then Exited else Top);
          } else {
            FailActive(left[0]);
            MoveTo(FailingActive(left[1..], last));
          }
      }
    }
  }

  /** The request that the worker turns to is known, and what it admits next is a valid sequence. */
  lemma SubjectKnown(k: Kernel, v: Text.Vocabulary, s: Server)
    requires ServerInv(k, v, s)
    ensures Subject(s).Some? ==> Subject(s).value in s.requests
    ensures s.pending != [] ==> s.pending[0].Valid()
    ensures EngineInv(k, s.engine) && SchedInv(s.engine)
  {
    hide Inv, Resting, Placed, InOrder, StoryOk, FinalOk, Untold, Line;
    if s.place.Preparing? || (s.place.Refusing? && s.place.taken != []) {
      HeadApart(s);
    } else if Subject(s).Some? {
      TailApart(s, Subject(s).value);
    }
    if s.pending != [] {
      assert PreparedOk(s.requests[s.pending[0].id], s.pending[0]);
    }
  }
}

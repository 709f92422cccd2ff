/** The serving runtime: one worker thread against concurrent enqueue, cancel and shutdown: src/serving_runtime.cc.
    A state machine whose worker has an explicit program counter. One worker step covers one lock region or one request,
    so that other threads can act between any two of them. */
module Serving {
  import opened Wrappers
  import opened Sequences
  import opened Kernels
  import opened Scheduling
  import opened Engine
  import opened Utf8
  import Text = TextDecoders

  datatype ErrorKind = InvalidInput | QueueFull | ExecutionFailure

  datatype RequestStatus = Submitted | Ready | Finished

  /** A request_state. The last four fields are history: how many requests were accepted before this one, whether it was
      ever admitted, and the prompt and parameters that it was prepared with. */
  datatype Request = Request(
    status: RequestStatus,
    cancelled: bool,
    reason: Reason,
    error: Option<ErrorKind>,
    output: seq<Byte>,
    decoder: seq<Byte>,
    promptTokens: nat,
    cachedPromptTokens: nat,
    completionTokens: nat,
    stamp: nat,
    admitted: bool,
    prompt: seq<Token>,
    params: Params)

  datatype Submission = Submission(id: nat, maxTokens: nat)

  /** Where the worker is. */
  datatype Place =
    | Top
    | Draining
    | Preparing(next: Submission)
    | CancellingPending(i: nat)
    | CancellingActive(left: seq<nat>)
    | Admitting
    | Deciding
    | Delivering(updates: seq<Update>)
    | FailingPending(last: bool)
    | FailingActive(left: seq<nat>, last: bool)
    | Waiting
    | Leaving
    | Refusing(taken: seq<Submission>)
    | Exited

  /** What one worker step meets: the encoded chat, a decoder, the hash map's iteration order, and the engine's surroundings. */
  datatype WorkEnv = WorkEnv(
    encoded: Option<(seq<Token>, seq<nat>)>,
    decoder: bool,
    order: seq<nat>,
    admit: AdmitEnv,
    step: StepEnv)

  function NewRequest(stamp: nat): Request {
    Request(Submitted, false, NoReason, None, [], [], 0, 0, 0, stamp, false, [], Params(0, false))
  }

  ghost predicate Enumerates(order: seq<nat>, ids: set<nat>) {
    && (forall i, j :: 0 <= i < j < |order| ==> order[i] != order[j])
    && (forall id :: id in order <==> id in ids)
  }

  /** Some enumeration of a set. */
  ghost function Listing(ids: set<nat>): (r: seq<nat>)
    ensures Enumerates(r, ids)
  {
    if ids == {} then []
    else
      var id :| id in ids;
      [id] + Listing(ids - {id})
  }

  ghost function Ordering(order: seq<nat>, ids: set<nat>): (r: seq<nat>)
    ensures Enumerates(r, ids)
  {
    if Enumerates(order, ids) then order else Listing(ids)
  }

  /** release_sequence: cancel, then remove. */
  function ReleaseSequence(s: Sched, id: nat): (r: (Sched, bool)) {
    var cancelled := s.Cancel(id);
    if cancelled.1.Err? then (cancelled.0, false)
    else
      var removed := cancelled.0.Remove(id);
      (removed.0, removed.1.Ok?)
  }

  datatype Server = Server(
    limit: nat,
    contextLimit: nat,
    engine: Sched,
    requests: map<nat, Request>,
    submissions: seq<Submission>,
    place: Place,
    pending: seq<SeqData>,
    active: set<nat>,
    outstanding: int,
    stopping: bool,
    stopRequested: bool,
    accepted: nat,
    finished: seq<nat>)
  {
    function Of(id: nat): Request {
      if id in requests then requests[id] else NewRequest(0)
    }

    // -------------------------------------------------------------- other threads

    function Enqueue(id: nat, maxTokens: nat): (r: (Server, Option<ErrorKind>)) {
      if stopping then (this, Some(ExecutionFailure))
      else if outstanding >= limit then (this, Some(QueueFull))
      else
        (this.(outstanding := outstanding + 1, submissions := submissions + [Submission(id, maxTokens)],
               requests := requests[id := NewRequest(accepted)], accepted := accepted + 1),
         None)
    }

    function CancelRequest(id: nat): Server {
      this.(requests := requests[id := Of(id).(cancelled := true)])
    }

    // -------------------------------------------------------------- finishing a request

    /** The request's last update, and complete_one. */
    function Finish(id: nat, last: Request): Server {
      this.(requests := requests[id := last.(status := RequestStatus.Finished)], outstanding := outstanding - 1, finished := finished + [id])
    }

    function FinishError(id: nat, kind: ErrorKind): Server {
      Finish(id, Of(id).(error := Some(kind)))
    }

    function FinishCancelled(id: nat): Server {
      Finish(id, Of(id).(reason := Cancelled))
    }

    // -------------------------------------------------------------- drain_submissions

    /** The sequence of a submission, or why there is none. */
    function Sequenced(sub: Submission, env: WorkEnv): (r: Result<SeqData, ErrorKind>) {
      match env.encoded
      case None => Err(InvalidInput)
      case Some(chat) =>
        if |chat.0| >= contextLimit || sub.maxTokens > contextLimit - |chat.0| then Err(InvalidInput)
        else
          match Make(sub.id, chat.0, Params(sub.maxTokens, false), chat.1)
          case Err(_) => Err(InvalidInput)
          case Ok(q) =>
            if !engine.FitsCache(q) then Err(InvalidInput)
            else if !env.decoder then Err(ExecutionFailure)
            else Ok(q)
    }

    function Prepare(sub: Submission, env: WorkEnv): Server {
      if Of(sub.id).cancelled then FinishCancelled(sub.id)
      else
        match Sequenced(sub, env)
        case Err(kind) => FinishError(sub.id, kind)
        case Ok(q) =>
          this.(requests := requests[sub.id := Of(sub.id).(status := Ready, promptTokens := q.promptCount,
                                                           prompt := q.tokens, params := q.params)],
                pending := pending + [q])
    }

    // -------------------------------------------------------------- cancel_requests

    function CancelPending(i: nat): Server
      requires i < |pending|
    {
      if Of(pending[i].id).cancelled
      then FinishCancelled(pending[i].id).(pending := pending[..i] + pending[i + 1..])
      else this.(place := CancellingPending(i + 1))
    }

    function CancelActive(id: nat): Server {
      if !Of(id).cancelled then this
      else
        var released := ReleaseSequence(engine, id);
        var s := if released.1 then FinishCancelled(id) else FinishError(id, ExecutionFailure);
        s.(engine := released.0, active := active - {id})
    }

    // -------------------------------------------------------------- admit_requests

    function AdmitFront(env: AdmitEnv): Server
      requires pending != []
    {
      var q := pending[0];
      var added := engine.TryAdd(q, env);
      if added.1 == Ok(Deferred) then this.(engine := added.0, place := Deciding)
      else
        var s := if added.1.Err? then FinishError(q.id, ExecutionFailure)
        else if added.1 == Ok(TooLarge) then FinishError(q.id, InvalidInput)
        else
          this.(requests := requests[q.id := Of(q.id).(admitted := true,
                                                       cachedPromptTokens := if q.id in added.0.sequences
                                                                             then added.0.sequences[q.id].cached else 0)],
                active := active + {q.id});
        s.(engine := added.0, pending := pending[1..])
    }

    // -------------------------------------------------------------- execute_step

    ghost function ExecuteStep(k: Kernel, env: StepEnv): Server {
      var stepped := Step(k, engine, env);
      this.(engine := stepped.0,
            place := if stepped.1.Err? then FailingPending(false) else Delivering(stepped.1.value))
    }

    /** append_update, and erasing from the active requests what it reports as done. */
    function AppendUpdate(v: Text.Vocabulary, u: Update): Server {
      if u.id !in active then this
      else
        var r := Of(u.id);
        var final := u.reason != NoReason;
        var pushed := Text.PushTail(v, r.decoder, u.token, final);
        match pushed.1
        case Err(_) =>
          var released := ReleaseSequence(engine, u.id);
          Finish(u.id, r.(decoder := pushed.0, error := Some(ExecutionFailure)))
          .(engine := released.0, active := active - {u.id})
        case Ok(delta) =>
          var told := r.(decoder := pushed.0, output := r.output + delta, completionTokens := r.completionTokens + 1);
          if !final then this.(requests := requests[u.id := told])
          else
            var removed := engine.Remove(u.id);
            var s := if removed.1.Err? then Finish(u.id, r.(decoder := pushed.0, error := Some(ExecutionFailure)))
                     else Finish(u.id, told.(reason := u.reason));
            s.(engine := removed.0, active := active - {u.id})
    }

    // -------------------------------------------------------------- fail_all

    function FailActive(id: nat): Server {
      FinishError(id, ExecutionFailure).(engine := ReleaseSequence(engine, id).0, active := active - {id})
    }

    // -------------------------------------------------------------- run

    ghost function Work(k: Kernel, v: Text.Vocabulary, env: WorkEnv): Server {
      match place
      case Top => this.(place := if stopRequested then Leaving else Draining)
      case Draining =>
        if submissions == [] then this.(place := CancellingPending(0))
        else this.(submissions := submissions[1..], place := Preparing(submissions[0]))
      case Preparing(next) => Prepare(next, env).(place := CancellingPending(0))
      case CancellingPending(i) =>
        if i < |pending| then CancelPending(i) else this.(place := CancellingActive(Ordering(env.order, active)))
      case CancellingActive(left) =>
        if left == [] then this.(place := Admitting) else CancelActive(left[0]).(place := CancellingActive(left[1..]))
      case Admitting => if pending == [] then this.(place := Deciding) else AdmitFront(env.admit)
      case Deciding => if active == {} then this.(place := Place.Waiting) else ExecuteStep(k, env.step)
      case Delivering(updates) =>
        if updates == [] then this.(place := Top) else AppendUpdate(v, updates[0]).(place := Delivering(updates[1..]))
      case FailingPending(last) =>
        if pending == [] then this.(place := FailingActive(Ordering(env.order, active), last))
        else FinishError(pending[0].id, ExecutionFailure).(pending := pending[1..])
      case FailingActive(left, last) =>
        if left == [] then this.(place := if last then Exited else Top)
        else FailActive(left[0]).(place := FailingActive(left[1..], last))
      case Waiting => if stopping then this.(place := Leaving) else if submissions != [] then this.(place := Top) else this
      case Leaving => this.(submissions := [], place := Refusing(submissions))
      case Refusing(taken) =>
        if taken == [] then this.(place := FailingPending(true))
        else FinishError(taken[0].id, ExecutionFailure).(place := Refusing(taken[1..]))
      case Exited => this
    }
  }

  /** What can happen to the runtime: another thread's call, or one step of the worker. */
  datatype Event =
    | EnqueueEvent(id: nat, maxTokens: nat)
    | CancelEvent(id: nat)
    | StopEvent
    | StopRequestEvent
    | WorkEvent(env: WorkEnv)

  /** Identifiers come from an atomic counter, so an enqueue never reuses one; and stopping precedes the stop request. */
  ghost function Happen(k: Kernel, v: Text.Vocabulary, s: Server, e: Event): Server {
    match e
    case EnqueueEvent(id, maxTokens) => if id in s.requests then s else s.Enqueue(id, maxTokens).0
    case CancelEvent(id) => if id in s.requests then s.CancelRequest(id) else s
    case StopEvent => s.(stopping := true)
    case StopRequestEvent => s.(stopRequested := s.stopping)
    case WorkEvent(env) => s.Work(k, v, env)
  }

  ghost function Serve(k: Kernel, v: Text.Vocabulary, s: Server, events: seq<Event>): Server
    decreases |events|
  {
    if events == [] then s else Serve(k, v, Happen(k, v, s, events[0]), events[1..])
  }

  function Opened(limit: nat, contextLimit: nat, engine: Sched): Server {
    Server(limit, contextLimit, engine, map[], [], Top, [], {}, 0, false, false, 0, [])
  }
}

/** The batching scheduler as a state machine on values: src/scheduler.cc.
    The class Scheduler in SchedulerObject.dfy is proved to compute exactly these functions. */
module Scheduling {
  import opened Wrappers
  import opened Sequences
  import opened Paging
  import opened PrefixCaching
  import opened Batches
  import opened HybridStates

  const MAX_SIZE := 0xFFFF_FFFF_FFFF_FFFF

  datatype Config = Config(
    maxSequences: nat,
    maxBatchTokens: nat,
    kvBlockCount: nat,
    kvBlockSize: Positive,
    chunk: nat,
    cacheMin: nat)

  datatype Turn = PrefillTurn | DecodeRound(remaining: nat)

  datatype Admission = Admitted | Deferred | TooLarge

  datatype Update = Update(id: nat, token: Token, reason: Reason)

  datatype SchedError =
    | DuplicateId
    | InvalidState
    | UnknownId
    | BatchInFlight
    | NoBatchInFlight
    | BatchIdMismatch
    | ResultCountMismatch
    | NoRunnableSequences
    | CacheCapacityExhausted
    | BlockManagerFailure(cause: StateError)
    | SequenceFailure(why: SeqError)

  /** Which backend allocations of an admission succeed: the first reservation, the restore, the second reservation. */
  datatype AdmitEnv = AdmitEnv(created: bool, restored: bool, recreated: bool)

  datatype Sched = Sched(
    config: Config,
    eos: Token,
    turn: Turn,
    state: Hybrid,
    prefixes: Cache<Payload>,
    sequences: map<nat, SeqData>,
    waiting: seq<nat>,
    running: seq<nat>,
    active: Option<Batch>,
    transaction: bool,
    nextBatch: nat)
  {
    // -------------------------------------------------------------- admission

    predicate FitsCache(q: SeqData) {
      match CacheBudget(q, config.kvBlockSize)
      case None => false
      case Some(blocks) => blocks <= config.kvBlockCount
    }

    /** Pages promised to the members of a queue. */
    function Promised(queue: seq<nat>): nat {
      if queue == [] then 0
      else
        (if queue[0] in sequences then Budget(sequences[queue[0]], config.kvBlockSize) else 0) + Promised(queue[1..])
    }

    function TryAdd(q: SeqData, env: AdmitEnv): (r: (Sched, Result<Admission, SchedError>)) {
      if active.Some? then (this, Err(BatchInFlight))
      else if q.id in sequences then (this, Err(DuplicateId))
      else if !(q.status == Waiting && q.scheduled == 0 && q.processed == 0 && |q.tokens| == q.promptCount)
      then (this, Err(InvalidState))
      else if !FitsCache(q) then (this, Ok(TooLarge))
      else if |waiting| + |running| >= config.maxSequences then (this, Ok(Deferred))
      else if Budget(q, config.kvBlockSize) > config.kvBlockCount - Promised(waiting) - Promised(running)
      then (this, Ok(Deferred))
      else Admit(q, env)
    }

    /** Admission once room is known: first reservation, prefix lookup, restore or a second, empty start. */
    function Admit(q: SeqData, env: AdmitEnv): (r: (Sched, Result<Admission, SchedError>))
      requires |q.tokens| == q.promptCount
    {
      var reserved := state.Reserve(q.id, 1, env.created);
      if reserved.1.Err?
      then (this.(state := reserved.0.Release(q.id)), Err(BlockManagerFailure(reserved.1.error)))
      else
        var found := prefixes.Find(q.Prompt());
        var s := this.(prefixes := found.0);
        match found.1
        case None => (s.Enqueue(q, reserved.0), Ok(Admitted))
        case Some(saved) =>
          var restored := reserved.0.Restore(q.id, saved, env.restored);
          if restored.1.Ok? then
            match q.RestorePrefix(saved.tokenCount)
            case Ok(p) => (s.Enqueue(p, restored.0), Ok(Admitted))
            case Err(e) => (s.Enqueue(q, restored.0), Ok(Admitted))
          else
            var again := restored.0.Release(q.id).Reserve(q.id, 1, env.recreated);
            if again.1.Err?
            then (s.(state := again.0.Release(q.id)), Err(BlockManagerFailure(again.1.error)))
            else (s.Enqueue(q, again.0), Ok(Admitted))
    }

    function Enqueue(q: SeqData, h: Hybrid): Sched {
      this.(state := h, sequences := sequences[q.id := q], waiting := waiting + [q.id])
    }

    // -------------------------------------------------------------- scheduling

    predicate Cacheable(count: nat) {
      count >= config.cacheMin && prefixes.Fits(count, state.CheckpointBytes(count))
    }

    /** A checkpoint boundary inside the next `count` tokens at which the chunk is worth cutting. */
    predicate CutsAt(q: SeqData, boundary: nat, count: nat)
      requires q.promptCount <= |q.tokens|
    {
      && q.processed < boundary < q.processed + count
      && Cacheable(boundary)
      && boundary <= q.promptCount
      && !prefixes.Contains(q.Prompt()[..boundary])
    }

    /** The length of the chunk: up to the first such boundary from checkpoint j on. */
    function Cut(q: SeqData, count: nat, j: nat): (r: nat)
      requires q.promptCount <= |q.tokens| && j <= |q.checkpoints|
      ensures r <= count && (0 < count ==> 0 < r)
      decreases |q.checkpoints| - j
    {
      if j == |q.checkpoints| then count
      else if CutsAt(q, q.checkpoints[j], count) then q.checkpoints[j] - q.processed
      else Cut(q, count, j + 1)
    }

    function Reserving(id: nat, count: nat): (r: (Sched, Result<(), SchedError>))
      requires id in sequences
    {
      var q := sequences[id];
      var capacity := state.Reserve(id, q.processed + count, true);
      var s := this.(state := capacity.0);
      if capacity.1 == Err(CapacityExhausted) then (s, Err(CacheCapacityExhausted))
      else if capacity.1.Err? then (s, Err(BlockManagerFailure(capacity.1.error)))
      else
        match q.ScheduleTokens(count)
        case Err(e) => (s, Err(SequenceFailure(e)))
        case Ok(p) => (s.(sequences := sequences[id := p]), Ok(()))
    }

    function ItemCount(phase: Phase, q: SeqData, quantum: nat, used: nat): (r: int)
      requires q.promptCount <= |q.tokens| && used <= config.maxBatchTokens
    {
      var room := config.maxBatchTokens - used;
      var count := Min(q.Schedulable(), Min(quantum, room));
      if phase == Prefill && count >= 0 then Cut(q, count, 0) else count
    }

    /** The selection loop from queue entry i on. */
    function Select(phase: Phase, queue: seq<nat>, limit: nat, quantum: nat, i: nat, used: nat, items: seq<Item>)
      : (r: (Sched, seq<Item>, Option<SchedError>))
      requires i <= |queue|
      decreases |queue| - i
    {
      if i == |queue| || |items| >= limit || used >= config.maxBatchTokens then (this, items, None)
      else if queue[i] !in sequences then (this, items, Some(InvalidState))
      else
        var q := sequences[queue[i]];
        var available := q.Schedulable();
        if available <= 0 || (phase == Decode && available != 1) || q.promptCount > |q.tokens|
        then (this, items, Some(InvalidState))
        else
          var count := ItemCount(phase, q, quantum, used);
          if count < 0 then (this, items, Some(InvalidState))
          else
            var reserved := Reserving(queue[i], count);
            if reserved.1.Err? then (reserved.0, items, Some(reserved.1.error))
            else reserved.0.Select(phase, queue, limit, quantum, i + 1, used + count,
                                   items + [Item(queue[i], count, count == available)])
    }

    function RollBack(items: seq<Item>): Sched {
      if items == [] then this
      else
        var s := RollBack(items[..|items| - 1]);
        var id := items[|items| - 1].id;
        if id in s.sequences then s.(sequences := s.sequences[id := s.sequences[id].CancelScheduled()]) else s
    }

    function Opening(): Sched {
      if turn.PrefillTurn? && waiting == [] then this.(turn := DecodeRound(|running|)) else this
    }

    function PhaseNow(): Phase {
      if turn.DecodeRound? then Decode else Prefill
    }

    function Queue(phase: Phase): seq<nat> {
      if phase == Prefill then waiting else running
    }

    function ItemLimit(): nat {
      Min(if turn.DecodeRound? then turn.remaining else |waiting|, config.maxSequences)
    }

    function Quantum(): nat {
      if turn.PrefillTurn? && (|waiting| > 1 || running != []) then config.chunk else config.maxBatchTokens
    }

    function Schedule(): (r: (Sched, Result<Batch, SchedError>)) {
      if active.Some? then (this, Err(BatchInFlight))
      else if waiting == [] && running == [] then (this, Err(NoRunnableSequences))
      else
        var s := Opening();
        var selected := s.Select(s.PhaseNow(), s.Queue(s.PhaseNow()), s.ItemLimit(), s.Quantum(), 0, 0, []);
        var after, items := selected.0, selected.1;
        if selected.2.Some? then (after.RollBack(items), Err(selected.2.value))
        else if items == [] then (after, Err(NoRunnableSequences))
        else
          var batch := Batch(nextBatch, s.PhaseNow(), items);
          (after.(active := Some(batch), nextBatch := nextBatch + 1), Ok(batch))
    }

    // -------------------------------------------------------------- execution

    function BeginExecution(b: ModelBatch): (r: (Sched, Result<(), SchedError>)) {
      if active == None then (this, Err(NoBatchInFlight))
      else if active.value.id != b.id then (this, Err(BatchIdMismatch))
      else if transaction then (this, Err(BatchInFlight))
      else
        var begun := state.BeginBatch(b);
        var s := this.(transaction := true, state := begun.0);
        if begun.1.Err? then (s, Err(BlockManagerFailure(begun.1.error))) else (s, Ok(()))
    }

    /** Stores a checkpoint at a boundary that is not stored yet; `saves` tells whether the copy can be made. */
    ghost function CachePrefix(q: SeqData, saves: bool): Sched
      requires q.promptCount <= |q.tokens|
    {
      var count := q.processed;
      if count !in q.checkpoints || !Cacheable(count) || count > q.promptCount then this
      else if prefixes.Contains(q.Prompt()[..count]) then this
      else
        var roomy := prefixes.MakeRoom(count, state.CheckpointBytes(count));
        match state.Checkpoint(q.id, count, saves)
        case Err(_) => this.(prefixes := roomy)
        case Ok(saved) => this.(prefixes := roomy.Insert(q.Prompt()[..count], saved))
    }

    function Popped(phase: Phase): Sched {
      if phase == Prefill
      then this.(waiting := if waiting == [] then [] else waiting[1..])
      else this.(running := if running == [] then [] else running[1..])
    }

    /** The end of a sampled item: append, then finish and release or queue for decode. */
    function Deliver(q: SeqData, token: Token): (r: (Sched, Result<Option<Update>, SchedError>)) {
      match q.AppendToken(token)
      case Err(e) => (this, Err(SequenceFailure(e)))
      case Ok(grown) =>
        var reason := grown.EvaluateStop(eos);
        if reason == NoReason then
          (this.(sequences := sequences[q.id := grown], running := running + [q.id]),
           Ok(Some(Update(q.id, token, NoReason))))
        else
          match grown.Finish(reason)
          case Err(e) => (this.(sequences := sequences[q.id := grown]), Err(SequenceFailure(e)))
          case Ok(done) =>
            (this.(sequences := sequences[q.id := done], state := state.Release(q.id)),
             Ok(Some(Update(q.id, token, reason))))
    }

    /** The committed sequence takes its place, may leave a checkpoint, and leaves the front of its queue. */
    ghost function Retire(phase: Phase, q: SeqData, saves: bool): Sched
      requires q.promptCount <= |q.tokens|
    {
      var committed := this.(sequences := sequences[q.id := q]);
      var cached := if phase == Prefill then committed.CachePrefix(q, saves) else committed;
      cached.Popped(phase)
    }

    /** A sampled item: after its prompt a sequence becomes a running one. */
    function Promote(phase: Phase, q: SeqData, token: Token): (r: (Sched, Result<Option<Update>, SchedError>)) {
      if phase == Prefill then
        match q.MarkRunning()
        case Err(e) => (this, Err(SequenceFailure(e)))
        case Ok(run) => this.(sequences := sequences[q.id := run]).Deliver(run, token)
      else Deliver(q, token)
    }

    /** One iteration of the completion loop; `token` is the item's sample, if it asked for one. */
    ghost function CompleteItem(phase: Phase, item: Item, token: Token, saves: bool)
      : (r: (Sched, Result<Option<Update>, SchedError>))
    {
      if item.id !in sequences || sequences[item.id].id != item.id
         || sequences[item.id].promptCount > |sequences[item.id].tokens| then (this, Err(InvalidState))
      else
        match sequences[item.id].CommitScheduled()
        case Err(e) => (this, Err(SequenceFailure(e)))
        case Ok(q) =>
          var s := Retire(phase, q, saves);
          if !item.sample then (s.(waiting := s.waiting + [item.id]), Ok(None))
          else s.Promote(phase, q, token)
    }

    /** The completion loop over the remaining items. */
    ghost function CompleteItems(phase: Phase, items: seq<Item>, samples: seq<Token>, updates: seq<Update>, saves: set<nat>)
      : (r: (Sched, Result<seq<Update>, SchedError>))
      decreases |items|
    {
      if items == [] then (this, Ok(updates))
      else if items[0].sample && samples == [] then (this, Err(ResultCountMismatch))
      else
        var done := CompleteItem(phase, items[0], if items[0].sample then samples[0] else 0, items[0].id in saves);
        match done.1
        case Err(e) => (done.0, Err(e))
        case Ok(update) =>
          done.0.CompleteItems(phase, items[1..], if items[0].sample then samples[1..] else samples,
                               if update.Some? then updates + [update.value] else updates, saves)
    }

    function NextTurn(phase: Phase, completed: nat): Turn {
      if phase == Prefill then
        if running != [] then DecodeRound(|running|) else turn
      else if turn.DecodeRound? && turn.remaining > completed then DecodeRound(turn.remaining - completed)
      else PrefillTurn
    }

    ghost function Complete(id: nat, samples: seq<Token>, saves: set<nat>)
      : (r: (Sched, Result<seq<Update>, SchedError>))
    {
      if active == None then (this, Err(NoBatchInFlight))
      else if active.value.id != id then (this, Err(BatchIdMismatch))
      else if |samples| != CountSamples(active.value.items) then (this, Err(ResultCountMismatch))
      else
        var b := active.value;
        var s := if transaction then this.(state := state.CommitBatch(), transaction := false) else this;
        var done := s.CompleteItems(b.phase, b.items, samples, [], saves);
        if done.1.Err? then done
        else (done.0.(turn := done.0.NextTurn(b.phase, |b.items|), active := None), done.1)
    }

    function Abort(id: nat): (r: (Sched, Result<(), SchedError>)) {
      if active == None then (this, Err(NoBatchInFlight))
      else if active.value.id != id then (this, Err(BatchIdMismatch))
      else
        var s := if transaction then this.(state := state.AbortBatch(), transaction := false) else this;
        (s.RollBack(active.value.items).(active := None), Ok(()))
    }

    // -------------------------------------------------------------- request lifecycle

    function Cancel(id: nat): (r: (Sched, Result<(), SchedError>)) {
      if active.Some? then (this, Err(BatchInFlight))
      else if id !in sequences then (this, Err(UnknownId))
      else if sequences[id].status == Finished then (this, Ok(()))
      else
        var q := sequences[id];
        var s := if q.status == Running then this.(turn := TurnWithout(id)) else this;
        if id !in s.Queue(if q.status == Waiting then Prefill else Decode) then (s, Err(InvalidState))
        else
          var t := if q.status == Waiting then s.(waiting := Without(waiting, id)) else s.(running := Without(running, id));
          match q.Finish(Reason.Cancelled)
          case Err(e) => (t, Err(SequenceFailure(e)))
          case Ok(done) => (t.(sequences := sequences[id := done], state := state.Release(id)), Ok(()))
    }

    function TurnWithout(id: nat): Turn {
      if turn.DecodeRound? && IndexOf(running, id) < turn.remaining then
        if turn.remaining == 1 then PrefillTurn else DecodeRound(turn.remaining - 1)
      else turn
    }

    function Remove(id: nat): (r: (Sched, Result<(), SchedError>)) {
      if active.Some? then (this, Err(BatchInFlight))
      else if id !in sequences then (this, Err(UnknownId))
      else if sequences[id].status != Finished then (this, Err(InvalidState))
      else (this.(sequences := sequences - {id}), Ok(()))
    }

    predicate IsFinished() {
      waiting == [] && running == [] && active == None
    }
  }

  function Min(a: int, b: int): int {
    if a <= b then a else b
  }

  /** cache_budget: pages for the prompt and all outputs but the last, which needs no forward pass. */
  function CacheBudget(q: SeqData, size: Positive): Option<nat> {
    if q.params.maxNewTokens - 1 > MAX_SIZE - q.promptCount then None else Some(Budget(q, size))
  }

  /** Tokens that ever pass through the model for this sequence. */
  function Horizon(q: SeqData): nat {
    if q.promptCount + q.params.maxNewTokens == 0 then 0 else q.promptCount + q.params.maxNewTokens - 1
  }

  function Budget(q: SeqData, size: Positive): nat {
    if Horizon(q) == 0 then 1 else BlocksFor(Horizon(q), size)
  }

  function CountSamples(items: seq<Item>): nat {
    if items == [] then 0 else (if items[0].sample then 1 else 0) + CountSamples(items[1..])
  }

  /** The position of the first occurrence; the length when there is none. */
  function IndexOf(queue: seq<nat>, id: nat): (r: nat)
    ensures r <= |queue|
    ensures r < |queue| ==> queue[r] == id
    ensures r == |queue| ==> id !in queue
  {
    if queue == [] || queue[0] == id then 0 else 1 + IndexOf(queue[1..], id)
  }

  /** The queue with its first occurrence of an id erased. */
  function Without(queue: seq<nat>, id: nat): seq<nat> {
    var i := IndexOf(queue, id);
    if i == |queue| then queue else queue[..i] + queue[i + 1..]
  }
}

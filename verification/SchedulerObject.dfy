/** The scheduler as an object updated in place: src/scheduler.cc. Every method computes exactly the state-machine
    step of module Scheduling, whose properties are proved there on values. */
module SchedulerObjects {
  import opened Wrappers
  import opened Sequences
  import opened Paging
  import opened PrefixCaching
  import opened Batches
  import opened HybridStates
  import opened Scheduling
  import opened Invariants
  import opened Completion
  import opened Protocol
  import opened Lifecycle
  import opened ModelStates

  /** One turn of the selection loop. */
  lemma SelectTurns(s: Sched, phase: Phase, queue: seq<nat>, limit: nat, quantum: nat, i: nat, used: nat, items: seq<Item>)
    requires i < |queue| && |items| < limit && used < s.config.maxBatchTokens
    requires queue[i] in s.sequences && s.sequences[queue[i]].promptCount <= |s.sequences[queue[i]].tokens|
    requires 0 < s.sequences[queue[i]].Schedulable()
    requires phase == Decode ==> s.sequences[queue[i]].Schedulable() == 1
    ensures var count := s.ItemCount(phase, s.sequences[queue[i]], quantum, used);
            && 0 <= count
            && var reserved := s.Reserving(queue[i], count);
               s.Select(phase, queue, limit, quantum, i, used, items)
               == if reserved.1.Err? then (reserved.0, items, Some(reserved.1.error))
                  else reserved.0.Select(phase, queue, limit, quantum, i + 1, used + count,
                                         items + [Item(queue[i], count, count == s.sequences[queue[i]].Schedulable())])
  {
    hide Sched.Reserving, Sched.Cut;
  }

  lemma SelectStops(s: Sched, phase: Phase, queue: seq<nat>, limit: nat, quantum: nat, i: nat, used: nat, items: seq<Item>)
    requires i <= |queue|
    requires i == |queue| || |items| >= limit || used >= s.config.maxBatchTokens
    ensures s.Select(phase, queue, limit, quantum, i, used, items) == (s, items, None)
  {
  }

  lemma SelectRejects(s: Sched, phase: Phase, queue: seq<nat>, limit: nat, quantum: nat, i: nat, used: nat, items: seq<Item>)
    requires i < |queue| && |items| < limit && used < s.config.maxBatchTokens
    requires queue[i] in s.sequences ==>
               var q := s.sequences[queue[i]];
               q.promptCount > |q.tokens| || q.Schedulable() <= 0 || (phase == Decode && q.Schedulable() != 1)
    ensures s.Select(phase, queue, limit, quantum, i, used, items) == (s, items, Some(InvalidState))
  {
  }

  /** schedule, given what its selection loop returned. */
  lemma ScheduleFrom(s: Sched, o: Sched, selected: (Sched, seq<Item>, Option<SchedError>))
    requires s.active == None && !(s.waiting == [] && s.running == []) && o == s.Opening()
    requires selected == o.Select(o.PhaseNow(), o.Queue(o.PhaseNow()), o.ItemLimit(), o.Quantum(), 0, 0, [])
    ensures s.Schedule() ==
              if selected.2.Some? then (selected.0.RollBack(selected.1), Err(selected.2.value))
              else if selected.1 == [] then (selected.0, Err(NoRunnableSequences))
              else
                var batch := Batch(s.nextBatch, o.PhaseNow(), selected.1);
                (selected.0.(active := Some(batch), nextBatch := s.nextBatch + 1), Ok(batch))
  {
    hide Sched.Select, Sched.RollBack;
  }

  class Scheduler {
    const config: Config
    const eos: Token
    var turn: Turn
    const state: ModelState
    const prefixes: PrefixCache<Payload>
    var sequences: map<nat, Sequence>
    var waiting: seq<nat>
    var running: seq<nat>
    var active: Option<Batch>
    var transaction: bool
    var nextBatch: nat

    ghost function Datas(): map<nat, SeqData>
      reads this`sequences, sequences.Values
    {
      map id | id in sequences :: sequences[id].Data()
    }

    ghost function View(): Sched
      reads this, state, state.pages, state.slots, prefixes, sequences.Values
    {
      Sched(config, eos, turn, state.View(), prefixes.View(), Datas(), waiting, running, active, transaction, nextBatch)
    }

    /** No two entries share a sequence object. */
    ghost predicate Apart()
      reads this`sequences
    {
      forall i, j :: i in sequences && j in sequences && i != j ==> sequences[i] != sequences[j]
    }

    constructor (config: Config, eos: Token, state: ModelState, cacheBytes: nat)
      ensures this.state == state && fresh(prefixes) && Apart()
      ensures View() == Sched(config, eos, PrefillTurn, state.View(), Cache(cacheBytes, 0, []), map[], [], [], None, false, 0)
    {
      this.config, this.eos, this.state := config, eos, state;
      prefixes := new PrefixCache(cacheBytes);
      turn, sequences, waiting, running := PrefillTurn, map[], [], [];
      active, transaction, nextBatch := None, false, 0;
    }

    // -------------------------------------------------------------- chunking

    method CacheablePrefix(count: nat) returns (r: bool)
      ensures r == View().Cacheable(count)
    {
      if count < config.cacheMin {
        return false;
      }
      var bytes := state.CheckpointBytes(count);
      return prefixes.Fits(count, bytes);
    }

    /** The checkpoint loop of schedule. */
    method CutChunk(q: Sequence, count: nat) returns (r: nat)
      requires q.promptCount <= |q.tokens|
      ensures r == View().Cut(q.Data(), count, 0)
    {
      var j := 0;
      while j < |q.checkpoints|
        invariant j <= |q.checkpoints|
        invariant View().Cut(q.Data(), count, j) == View().Cut(q.Data(), count, 0)
      {
        var boundary := q.checkpoints[j];
        if boundary > q.processed && boundary < q.processed + count && boundary <= q.promptCount {
          var cacheable := CacheablePrefix(boundary);
          if cacheable {
            var stored := prefixes.Contains(q.tokens[..q.promptCount][..boundary]);
            if !stored {
              return boundary - q.processed;
            }
          }
        }
        j := j + 1;
      }
      return count;
    }

    // -------------------------------------------------------------- reserving and rolling back

    method ReserveTokens(id: nat, count: nat) returns (r: Result<(), SchedError>)
      requires Apart() && id in sequences
      modifies state`sequences, state.pages, sequences[id]
      ensures (View(), r) == old(View()).Reserving(id, count)
    {
      hide Hybrid.Reserve;
      ghost var before := View();
      var q := sequences[id];
      var capacity := state.Reserve(id, q.processed + count, true);
      assert Datas() == before.sequences;
      if capacity.Err? {
        return Err(if capacity.error == CapacityExhausted then CacheCapacityExhausted else BlockManagerFailure(capacity.error));
      }
      var scheduled := q.ScheduleTokens(count);
      assert Datas() == before.sequences[id := q.Data()];
      if scheduled.Err? {
        assert Datas() == before.sequences;
        return Err(SequenceFailure(scheduled.error));
      }
      return Ok(());
    }

    method CancelTokens(id: nat)
      requires Apart() && id in sequences
      modifies sequences[id]
      ensures View() == old(View()).(sequences := old(Datas())[id := old(Datas())[id].CancelScheduled()])
    {
      ghost var datas := Datas();
      sequences[id].CancelScheduled();
      assert Datas() == datas[id := datas[id].CancelScheduled()];
    }

    method RollBackReservations(items: seq<Item>)
      requires Apart()
      modifies sequences.Values
      ensures View() == old(View()).RollBack(items)
    {
      ghost var before := View();
      var i := 0;
      while i < |items|
        invariant i <= |items|
        invariant state.View() == before.state && prefixes.View() == before.prefixes
        invariant View() == before.RollBack(items[..i])
      {
        ghost var now := View();
        assert items[..i + 1][..i] == items[..i];
        var id := items[i].id;
        if id in sequences {
          CancelTokens(id);
        }
        assert View() == before.RollBack(items[..i + 1]);
        i := i + 1;
      }
      assert items[..i] == items;
    }

    // -------------------------------------------------------------- schedule

    /** One turn of the selection loop, once the queue entry is known: how many tokens it gets, and their reservation. */
    method SelectEntry(phase: Phase, id: nat, quantum: nat, used: nat) returns (count: nat, r: Result<(), SchedError>)
      requires Apart() && id in sequences && used < config.maxBatchTokens
      requires 0 < sequences[id].Data().Schedulable() && sequences[id].promptCount <= |sequences[id].tokens|
      modifies state`sequences, state.pages, sequences[id]
      ensures count == old(View()).ItemCount(phase, old(sequences[id].Data()), quantum, used)
      ensures (View(), r) == old(View()).Reserving(id, count)
    {
      hide Sched.Reserving, Sched.Cut;
      var q := sequences[id];
      count := Min(|q.tokens| - q.processed - q.scheduled, Min(quantum, config.maxBatchTokens - used));
      if phase == Prefill {
        count := CutChunk(q, count);
      }
      r := ReserveTokens(id, count);
    }

    /** The selection loop of schedule, over the queue of the phase. */
    method SelectItems(phase: Phase, queue: seq<nat>, limit: nat, quantum: nat)
      returns (items: seq<Item>, r: Option<SchedError>)
      requires Apart()
      modifies state`sequences, state.pages, sequences.Values
      ensures (View(), items, r) == old(View()).Select(phase, queue, limit, quantum, 0, 0, [])
    {
      hide Sched.Reserving, Sched.ItemCount, Sched.Select;
      ghost var before := View();
      items, r := [], None;
      var i: nat, used: nat := 0, 0;
      while i < |queue|
        invariant i <= |queue|
        invariant View().Select(phase, queue, limit, quantum, i, used, items)
               == before.Select(phase, queue, limit, quantum, 0, 0, [])
      {
        ghost var now := View();
        if |items| >= limit || used >= config.maxBatchTokens {
          break;
        }
        var id := queue[i];
        if id !in sequences || sequences[id].promptCount > |sequences[id].tokens| {
          SelectRejects(now, phase, queue, limit, quantum, i, used, items);
          return items, Some(InvalidState);
        }
        var q := sequences[id];
        var available := |q.tokens| - q.processed - q.scheduled;
        if available <= 0 || (phase == Decode && available != 1) {
          SelectRejects(now, phase, queue, limit, quantum, i, used, items);
          return items, Some(InvalidState);
        }
        SelectTurns(now, phase, queue, limit, quantum, i, used, items);
        var count, reserved := SelectEntry(phase, id, quantum, used);
        if reserved.Err? {
          return items, Some(reserved.error);
        }
        items := items + [Item(id, count, count == available)];
        used := used + count;
        i := i + 1;
      }
      SelectStops(View(), phase, queue, limit, quantum, i, used, items);
      return items, None;
    }

    method OpenRound()
      modifies this`turn
      ensures View() == old(View()).Opening()
    {
      if turn.PrefillTurn? && waiting == [] {
        turn := DecodeRound(|running|);
      }
    }

    /** Queue, limit and quantum of the current turn, and the selection with them. */
    method Choose() returns (phase: Phase, items: seq<Item>, failed: Option<SchedError>)
      requires Apart()
      modifies state`sequences, state.pages, sequences.Values
      ensures phase == old(View()).PhaseNow()
      ensures var s := old(View());
              (View(), items, failed) == s.Select(s.PhaseNow(), s.Queue(s.PhaseNow()), s.ItemLimit(), s.Quantum(), 0, 0, [])
    {
      hide Sched.Select;
      phase := if turn.DecodeRound? then Decode else Prefill;
      var queue := if turn.DecodeRound? then running else waiting;
      var limit := if turn.DecodeRound? then turn.remaining else |waiting|;
      var contended := |waiting| > 1 || running != [];
      var quantum := if phase == Prefill && contended then config.chunk else config.maxBatchTokens;
      items, failed := SelectItems(phase, queue, Min(limit, config.maxSequences), quantum);
    }

    method Activate(phase: Phase, items: seq<Item>) returns (batch: Batch)
      modifies this`active, this`nextBatch
      ensures batch == Batch(old(nextBatch), phase, items)
      ensures View() == old(View()).(active := Some(batch), nextBatch := old(nextBatch) + 1)
    {
      batch := Batch(nextBatch, phase, items);
      active := Some(batch);
      nextBatch := nextBatch + 1;
    }

    method Schedule() returns (r: Result<Batch, SchedError>)
      requires Apart()
      modifies this`turn, this`active, this`nextBatch, state`sequences, state.pages, sequences.Values
      ensures (View(), r) == old(View()).Schedule()
    {
      hide Sched.Select, Sched.RollBack, Sched.Opening, Sched.Schedule;
      ghost var before := View();
      if active.Some? || (waiting == [] && running == []) {
        ScheduleRefused(before);
        return Err(if active.Some? then BatchInFlight else NoRunnableSequences);
      }
      OpenRound();
      ghost var start := View();
      var phase, items, failed := Choose();
      ScheduleFrom(before, start, (View(), items, failed));
      if failed.Some? {
        RollBackReservations(items);
        return Err(failed.value);
      }
      if items == [] {
        return Err(NoRunnableSequences);
      }
      var batch := Activate(phase, items);
      return Ok(batch);
    }

    // -------------------------------------------------------------- begin

    method BeginExecution(b: ModelBatch) returns (r: Result<(), SchedError>)
      requires View().state.Sound()
      modifies this`transaction, state`snapshots, state`open
      ensures (View(), r) == old(View()).BeginExecution(b)
    {
      hide Hybrid.BeginBatch, Hybrid.Sound;
      if active == None {
        return Err(NoBatchInFlight);
      }
      if active.value.id != b.id {
        return Err(BatchIdMismatch);
      }
      if transaction {
        return Err(BatchInFlight);
      }
      transaction := true;
      var begun := state.BeginBatch(b);
      if begun.Err? {
        return Err(BlockManagerFailure(begun.error));
      }
      return Ok(());
    }

    // -------------------------------------------------------------- complete

    method CachePrefix(q: Sequence, saves: bool)
      requires View().prefixes.Valid() && View().state.Sound() && q.promptCount <= |q.tokens|
      modifies prefixes
      ensures View() == old(View()).CachePrefix(old(q.Data()), saves)
    {
      hide Cache.MakeRoom, Cache.Insert, Hybrid.Checkpoint, Hybrid.Sound, Sched.Cacheable, Cache.Contains, Cache.Valid,
        Hybrid.CheckpointBytes;
      ghost var before := View();
      var count := q.processed;
      var cacheable := CacheablePrefix(count);
      if count !in q.checkpoints || !cacheable || count > q.promptCount {
        return;
      }
      var prefix := q.tokens[..q.promptCount][..count];
      var stored := prefixes.Contains(prefix);
      if stored {
        return;
      }
      StorePrefix(q.id, prefix, count, saves);
    }

    method StorePrefix(id: nat, prefix: seq<Token>, count: nat, saves: bool)
      requires View().prefixes.Valid() && View().state.Sound()
      modifies prefixes
      ensures var s := old(View());
              var roomy := s.prefixes.MakeRoom(count, s.state.CheckpointBytes(count));
              View() == s.(prefixes := match s.state.Checkpoint(id, count, saves)
                                       case Err(_) => roomy
                                       case Ok(saved) => roomy.Insert(prefix, saved))
    {
      hide Cache.MakeRoom, Cache.Insert, Hybrid.Checkpoint, Hybrid.Sound, Cache.Valid, Hybrid.CheckpointBytes;
      var bytes := state.CheckpointBytes(count);
      MakeRoomKeepsLongest(prefixes.View(), count, bytes);
      prefixes.MakeRoom(count, bytes);
      InsertCheckpoint(id, prefix, count, saves);
    }

    method InsertCheckpoint(id: nat, prefix: seq<Token>, count: nat, saves: bool)
      requires View().prefixes.Valid() && View().state.Sound()
      modifies prefixes
      ensures var s := old(View());
              View() == s.(prefixes := match s.state.Checkpoint(id, count, saves)
                                       case Err(_) => s.prefixes
                                       case Ok(saved) => s.prefixes.Insert(prefix, saved))
    {
      hide Cache.Insert, Hybrid.Checkpoint, Hybrid.Sound, Cache.Valid;
      var saved := state.Checkpoint(id, count, saves);
      if saved.Ok? {
        prefixes.Insert(prefix, saved.value);
      }
    }

    method Pop(phase: Phase)
      modifies this`waiting, this`running
      ensures View() == old(View()).Popped(phase)
    {
      if phase == Prefill {
        waiting := if waiting == [] then [] else waiting[1..];
      } else {
        running := if running == [] then [] else running[1..];
      }
    }

    method Commit(id: nat) returns (r: Result<(), SeqError>)
      requires Apart() && id in sequences
      modifies sequences[id]
      ensures Applied(old(sequences[id].Data()), old(sequences[id].Data()).CommitScheduled(), sequences[id].Data(), r)
      ensures sequences[id].tokens == old(sequences[id].tokens)
      ensures View() == old(View()).(sequences := old(Datas())[id := sequences[id].Data()])
    {
      ghost var before := View();
      r := sequences[id].CommitScheduled();
      assert Datas() == before.sequences[id := sequences[id].Data()];
    }

    method StartRunning(id: nat) returns (r: Result<(), SeqError>)
      requires Apart() && id in sequences
      modifies sequences[id]
      ensures Applied(old(sequences[id].Data()), old(sequences[id].Data()).MarkRunning(), sequences[id].Data(), r)
      ensures View() == old(View()).(sequences := old(Datas())[id := sequences[id].Data()])
    {
      ghost var before := View();
      r := sequences[id].MarkRunning();
      assert Datas() == before.sequences[id := sequences[id].Data()];
    }

    method Append(id: nat, token: Token) returns (r: Result<(), SeqError>)
      requires Apart() && id in sequences
      modifies sequences[id]
      ensures Applied(old(sequences[id].Data()), old(sequences[id].Data()).AppendToken(token), sequences[id].Data(), r)
      ensures View() == old(View()).(sequences := old(Datas())[id := sequences[id].Data()])
    {
      ghost var before := View();
      r := sequences[id].AppendToken(token);
      assert Datas() == before.sequences[id := sequences[id].Data()];
    }

    method FinishAs(id: nat, why: Reason) returns (r: Result<(), SeqError>)
      requires Apart() && id in sequences
      modifies sequences[id]
      ensures Applied(old(sequences[id].Data()), old(sequences[id].Data()).Finish(why), sequences[id].Data(), r)
      ensures View() == old(View()).(sequences := old(Datas())[id := sequences[id].Data()])
    {
      ghost var before := View();
      r := sequences[id].Finish(why);
      assert Datas() == before.sequences[id := sequences[id].Data()];
    }

    method JoinWaiting(id: nat)
      modifies this`waiting
      ensures View() == old(View()).(waiting := old(waiting) + [id])
    {
      waiting := waiting + [id];
    }

    method JoinRunning(id: nat)
      modifies this`running
      ensures View() == old(View()).(running := old(running) + [id])
    {
      running := running + [id];
    }

    method ReleaseState(id: nat)
      modifies state`sequences, state.pages
      ensures View() == old(View()).(state := old(View()).state.Release(id))
    {
      hide Hybrid.Release;
      state.Release(id);
    }

    /** The end of a sampled item. */
    method Deliver(id: nat, token: Token) returns (r: Result<Option<Update>, SchedError>)
      requires Apart() && id in sequences && sequences[id].id == id
      modifies this`running, sequences[id], state`sequences, state.pages
      ensures (View(), r) == old(View()).Deliver(old(sequences[id].Data()), token)
    {
      hide Hybrid.Release, Sched.Deliver, SeqData.AppendToken, SeqData.EvaluateStop, SeqData.Finish;
      ghost var before, q := View(), sequences[id].Data();
      DeliverFrom(before, q, token);
      var appended := Append(id, token);
      if appended.Err? {
        return Err(SequenceFailure(appended.error));
      }
      ghost var grown := sequences[id].Data();
      GrownNonempty(q, token);
      var reason := sequences[id].Data().EvaluateStop(eos);
      if reason == NoReason {
        JoinRunning(id);
        return Ok(Some(Update(id, token, NoReason)));
      }
      var finished := FinishAs(id, reason);
      GrownFinishes(q, token, reason);
      assert finished.Ok?;
      ReleaseState(id);
      return Ok(Some(Update(id, token, reason)));
    }

    method Promote(phase: Phase, id: nat, token: Token) returns (r: Result<Option<Update>, SchedError>)
      requires Apart() && id in sequences && sequences[id].id == id
      modifies this`running, sequences[id], state`sequences, state.pages
      ensures (View(), r) == old(View()).Promote(phase, old(sequences[id].Data()), token)
    {
      hide Sched.Deliver;
      if phase == Prefill {
        ghost var before := View();
        var started := StartRunning(id);
        if started.Err? {
          assert View().sequences == before.sequences;
          return Err(SequenceFailure(started.error));
        }
      }
      r := Deliver(id, token);
    }

    /** The rest of a committed item that does not depend on its sample. */
    method Retire(phase: Phase, id: nat, saves: bool)
      requires Apart() && id in sequences && sequences[id].id == id && sequences[id].promptCount <= |sequences[id].tokens|
      requires View().prefixes.Valid() && View().state.Sound()
      modifies this`waiting, this`running, prefixes
      ensures View() == old(View()).Retire(phase, old(sequences[id].Data()), saves)
    {
      hide Hybrid.Sound, Cache.Valid, Sched.CachePrefix, Sched.Popped;
      ghost var before := View();
      assert before.sequences[id := before.sequences[id]] == before.sequences;
      if phase == Prefill {
        CachePrefix(sequences[id], saves);
      }
      Pop(phase);
    }

    /** One iteration of the completion loop. */
    method CompleteItem(phase: Phase, item: Item, token: Token, saves: bool) returns (r: Result<Option<Update>, SchedError>)
      requires Apart() && View().prefixes.Valid() && View().state.Sound()
      modifies this`waiting, this`running, state`sequences, state.pages, prefixes, sequences.Values
      ensures (View(), r) == old(View()).CompleteItem(phase, item, token, saves)
    {
      hide Hybrid.Sound, Cache.Valid, Sched.Retire, Sched.Promote, Sched.CompleteItem, SeqData.CommitScheduled;
      ghost var before := View();
      CompleteItemFrom(before, phase, item, token, saves);
      if item.id !in sequences || sequences[item.id].id != item.id
         || sequences[item.id].promptCount > |sequences[item.id].tokens| {
        return Err(InvalidState);
      }
      var committed := Commit(item.id);
      if committed.Err? {
        return Err(SequenceFailure(committed.error));
      }
      ghost var q, middle := sequences[item.id].Data(), View();
      RetireStored(before, middle, phase, q, saves);
      Retire(phase, item.id, saves);
      RetireKeeps(before, phase, q, saves);
      if !item.sample {
        JoinWaiting(item.id);
        return Ok(None);
      }
      r := Promote(phase, item.id, token);
    }

    /** The completion loop. */
    method CompleteItems(b: Batch, samples: seq<Token>, saves: set<nat>) returns (r: Result<seq<Update>, SchedError>)
      requires Apart() && Inv(View(), b.phase, b.items) && !state.open
      requires |samples| == CountSamples(b.items)
      modifies this`waiting, this`running, state`sequences, state.pages, prefixes, sequences.Values
      ensures (View(), r) == old(View()).CompleteItems(b.phase, b.items, samples, [], saves)
    {
      hide Inv, Sched.CompleteItem, Sched.CompleteItems, OnlyWork;
      ghost var before := View();
      var updates: seq<Update> := [];
      var i, sampled := 0, 0;
      assert b.items[0..] == b.items && samples[0..] == samples;
      while i < |b.items|
        invariant i <= |b.items| && sampled <= |samples|
        invariant Inv(View(), b.phase, b.items[i..]) && !state.open
        invariant |samples[sampled..]| == CountSamples(b.items[i..])
        invariant View().CompleteItems(b.phase, b.items[i..], samples[sampled..], updates, saves)
               == before.CompleteItems(b.phase, b.items, samples, [], saves)
      {
        ghost var now, rest, left := View(), b.items[i..], samples[sampled..];
        var item := b.items[i];
        CompletionTurns(now, b.phase, rest, left, updates, saves);
        InvNeeds(now, b.phase, rest);
        var token := if item.sample then samples[sampled] else 0;
        var done := CompleteItem(b.phase, item, token, item.id in saves);
        CompleteItemKeeps(now, b.phase, rest, token, item.id in saves, (View(), done));
        if item.sample {
          sampled := sampled + 1;
        }
        if done.value.Some? {
          updates := updates + [done.value.value];
        }
        i := i + 1;
        assert rest[1..] == b.items[i..];
        assert samples[sampled..] == if item.sample then left[1..] else left;
      }
      CompletionEnds(View(), b.phase, updates, saves);
      return Ok(updates);
    }

    /** Closes the transaction of the batch in flight, if one was opened. */
    method CloseTransaction(commit: bool)
      modifies this`transaction, state
      ensures View() == Closed(old(View()), commit)
    {
      hide Hybrid.CommitBatch, Hybrid.AbortBatch;
      if transaction {
        if commit {
          state.CommitBatch();
        } else {
          state.AbortBatch();
        }
        transaction := false;
      }
    }

    method Close(phase: Phase, completed: nat)
      modifies this`turn, this`active
      ensures View() == old(View()).(turn := old(View()).NextTurn(phase, completed), active := None)
    {
      if phase == Prefill {
        if running != [] {
          turn := DecodeRound(|running|);
        }
      } else if turn.DecodeRound? && turn.remaining > completed {
        turn := DecodeRound(turn.remaining - completed);
      } else {
        turn := PrefillTurn;
      }
      active := None;
    }

    method Complete(id: nat, samples: seq<Token>, saves: set<nat>) returns (r: Result<seq<Update>, SchedError>)
      requires Apart() && SchedInv(View())
      modifies this, state, state.pages, prefixes, sequences.Values
      ensures Apart() && sequences == old(sequences)
      ensures (View(), r) == old(View()).Complete(id, samples, saves)
    {
      hide Inv, Sched.CompleteItems, Sched.Complete, Closed, SnapshotsOk, AllDone;
      ghost var before := View();
      CompleteFrom(before, id, samples, saves);
      if active == None {
        return Err(NoBatchInFlight);
      }
      if active.value.id != id {
        return Err(BatchIdMismatch);
      }
      if |samples| != CountSamples(active.value.items) {
        return Err(ResultCountMismatch);
      }
      var b := active.value;
      ClosedKeeps(before, b.phase, b.items, true);
      CloseTransaction(true);
      ghost var closed := View();
      r := CompleteItems(b, samples, saves);
      CompleteItemsKeeps(closed, b.phase, b.items, samples, [], saves, (View(), r));
      AllDoneOk(closed, b.phase, |b.items|, (View(), r));
      Close(b.phase, |b.items|);
    }

    method Abort(id: nat) returns (r: Result<(), SchedError>)
      requires Apart()
      modifies this, state, sequences.Values
      ensures Apart() && sequences == old(sequences)
      ensures (View(), r) == old(View()).Abort(id)
    {
      hide Sched.RollBack, Closed, Sched.Abort;
      ghost var before := View();
      AbortFrom(before, id);
      if active == None {
        return Err(NoBatchInFlight);
      }
      if active.value.id != id {
        return Err(BatchIdMismatch);
      }
      var items := active.value.items;
      CloseTransaction(false);
      RollBackReservations(items);
      Deactivate();
      return Ok(());
    }

    method Deactivate()
      modifies this`active
      ensures View() == old(View()).(active := None)
    {
      active := None;
    }

    // -------------------------------------------------------------- admission

    method ReserveState(id: nat, tokens: nat, created: bool) returns (r: Result<(), StateError>)
      modifies state`sequences, state.pages
      ensures var grown := old(View()).state.Reserve(id, tokens, created);
              View() == old(View()).(state := grown.0) && r == grown.1
    {
      hide Hybrid.Reserve;
      r := state.Reserve(id, tokens, created);
    }

    method RestoreState(id: nat, saved: Saved<Payload>, restores: bool) returns (r: Result<(), StateError>)
      requires View().state.Sound()
      modifies state`sequences, state.pages, state.slots
      ensures var restored := old(View()).state.Restore(id, saved, restores);
              View() == old(View()).(state := restored.0) && r == restored.1
    {
      hide Hybrid.Restore, Hybrid.Sound;
      r := state.Restore(id, saved, restores);
    }

    method FindPrefix(prompt: seq<Token>) returns (r: Option<Saved<Payload>>)
      modifies prefixes
      ensures var found := old(View()).prefixes.Find(prompt);
              View() == old(View()).(prefixes := found.0) && r == found.1
    {
      hide Cache.Find;
      r := prefixes.Find(prompt);
    }

    method Enqueue(q: Sequence)
      requires Apart() && q !in sequences.Values && q.id !in sequences
      modifies this`sequences, this`waiting
      ensures Apart() && sequences == old(sequences)[q.id := q]
      ensures View() == old(View()).Enqueue(q.Data(), old(View()).state)
    {
      ghost var before := View();
      sequences := sequences[q.id := q];
      waiting := waiting + [q.id];
      assert Datas() == before.sequences[q.id := q.Data()];
    }

    /** A fresh start where the restore failed. */
    method StartAgain(q: Sequence, env: AdmitEnv) returns (r: Result<Admission, SchedError>)
      requires Apart() && q !in sequences.Values && q.id !in sequences
      modifies this`sequences, this`waiting, state`sequences, state.pages
      ensures Apart() && (sequences == old(sequences) || sequences == old(sequences)[q.id := q])
      ensures (View(), r) == Retry(old(View()), q.Data(), env, old(View()).state)
    {
      hide Hybrid.Release, Hybrid.Reserve;
      ReleaseState(q.id);
      var again := ReserveState(q.id, 1, env.recreated);
      if again.Err? {
        ReleaseState(q.id);
        return Err(BlockManagerFailure(again.error));
      }
      Enqueue(q);
      return Ok(Admitted);
    }

    /** A lookup that found a checkpoint. */
    method Resume(q: Sequence, saved: Saved<Payload>, env: AdmitEnv) returns (r: Result<Admission, SchedError>)
      requires Apart() && q !in sequences.Values && q.id !in sequences && View().state.Sound()
      requires View().state.Restore(q.id, saved, env.restored).1.Ok? ==>
                 q.Data().RestorePrefix(saved.tokenCount) == Ok(Resumed(q.Data(), saved.tokenCount))
      modifies this`sequences, this`waiting, q, state`sequences, state.pages, state.slots
      ensures Apart() && (sequences == old(sequences) || sequences == old(sequences)[q.id := q])
      ensures (View(), r) == Hit(old(View()), old(q.Data()), env, old(View()).state, old(View()).prefixes, saved)
    {
      hide Hybrid.Restore, Hybrid.Sound, Hybrid.Reserve, Hybrid.Release, SeqData.RestorePrefix;
      var restored := RestoreState(q.id, saved, env.restored);
      if restored.Ok? {
        ghost var before := View();
        var applied := q.RestorePrefix(saved.tokenCount);
        assert applied.Ok?;
        assert View() == before;
        Enqueue(q);
        return Ok(Admitted);
      }
      r := StartAgain(q, env);
    }

    method Admit(q: Sequence, env: AdmitEnv) returns (r: Result<Admission, SchedError>)
      requires Apart() && q !in sequences.Values && q.id !in sequences
      requires CanEnter(View(), q.Data())
      modifies this`sequences, this`waiting, q, state`sequences, state.pages, state.slots, prefixes
      ensures Apart() && (sequences == old(sequences) || sequences == old(sequences)[q.id := q])
      ensures (View(), r) == old(View()).Admit(old(q.Data()), env)
    {
      hide Hybrid.Reserve, Hybrid.Release, Hybrid.Sound, Cache.Find, Cache.Valid, Sched.Admit, Hit,
        Hybrid.Restore, SeqData.RestorePrefix;
      ghost var before, data := View(), q.Data();
      AdmitPaths(before, data, env);
      FirstReserveApart(before.state, q.id, 1, env.created, before.state.Reserve(q.id, 1, env.created));
      var first := ReserveState(q.id, 1, env.created);
      if first.Err? {
        ReleaseState(q.id);
        return Err(BlockManagerFailure(first.error));
      }
      ghost var started := View().state;
      var cached := FindPrefix(q.tokens[..q.promptCount]);
      if cached == None {
        Enqueue(q);
        return Ok(Admitted);
      }
      if started.Restore(q.id, cached.value, env.restored).1.Ok? {
        ResumedFits(before, data, started, env);
      }
      r := Resume(q, cached.value, env);
      HitKeepsFound(before, data, env, started, before.prefixes.Find(data.Prompt()).0, cached.value);
    }

    /** The budgets promised to the members of a queue, taken off what is available; it never goes below zero. */
    method SubtractBudgets(queue: seq<nat>, available: nat) returns (rest: nat)
      requires forall id :: id in queue ==> id in sequences
      requires View().Promised(queue) <= available
      ensures rest == available - View().Promised(queue)
    {
      hide Budget;
      rest := available;
      var i := 0;
      assert queue[0..] == queue;
      while i < |queue|
        invariant i <= |queue|
        invariant rest == available - View().Promised(queue) + View().Promised(queue[i..])
      {
        PromisedSplit(View(), queue, i);
        rest := rest - Budget(sequences[queue[i]].Data(), config.kvBlockSize);
        i := i + 1;
      }
    }

    method FitsCache(q: SeqData) returns (r: bool)
      ensures r == View().FitsCache(q)
    {
      hide Budget;
      var blocks := CacheBudget(q, config.kvBlockSize);
      return blocks.Some? && blocks.value <= config.kvBlockCount;
    }

    /** try_add: the sequence object joins the scheduler when it is admitted, and stays the caller's otherwise. */
    method TryAdd(q: Sequence, env: AdmitEnv) returns (r: Result<Admission, SchedError>)
      requires Apart() && q !in sequences.Values && SchedInv(View()) && q.Data().Valid()
      modifies this`sequences, this`waiting, q, state`sequences, state.pages, state.slots, prefixes
      ensures Apart() && (sequences == old(sequences) || sequences == old(sequences)[q.id := q])
      ensures (View(), r) == old(View()).TryAdd(old(q.Data()), env)
    {
      hide SchedInv, Budget, Sched.Admit, Sched.TryAdd, CanEnter, Sched.Promised;
      ghost var before, data := View(), q.Data();
      TryAddFrom(before, data, env);
      if active.Some? {
        return Err(BatchInFlight);
      }
      if q.id in sequences {
        return Err(DuplicateId);
      }
      if !(q.status == Waiting && q.scheduled == 0 && q.processed == 0 && |q.tokens| == q.promptCount) {
        return Err(InvalidState);
      }
      var blocks := CacheBudget(q.Data(), config.kvBlockSize);
      if blocks == None || blocks.value > config.kvBlockCount {
        return Ok(TooLarge);
      }
      if |waiting| + |running| >= config.maxSequences {
        return Ok(Deferred);
      }
      QueuesKnown(before);
      PromisedFits(before);
      var available := SubtractBudgets(waiting, config.kvBlockCount);
      available := SubtractBudgets(running, available);
      if blocks.value > available {
        return Ok(Deferred);
      }
      CanEnterNow(before, data);
      r := Admit(q, env);
    }

    // -------------------------------------------------------------- cancel and remove

    /** std::find on a queue. */
    static method Find(queue: seq<nat>, id: nat) returns (i: nat)
      ensures i == IndexOf(queue, id)
    {
      i := 0;
      assert queue[0..] == queue;
      while i < |queue| && queue[i] != id
        invariant i <= |queue|
        invariant IndexOf(queue, id) == i + IndexOf(queue[i..], id)
      {
        assert queue[i..][1..] == queue[i + 1..];
        i := i + 1;
      }
    }

    /** A running sequence that the open round still has to visit leaves it. */
    method LeaveRound(id: nat)
      modifies this`turn
      ensures View() == old(View()).(turn := old(View()).TurnWithout(id))
    {
      if turn.DecodeRound? {
        var position := Find(running, id);
        if position < turn.remaining {
          turn := if turn.remaining == 1 then PrefillTurn else DecodeRound(turn.remaining - 1);
        }
      }
    }

    method RemoveFromQueue(phase: Phase, id: nat) returns (found: bool)
      modifies this`waiting, this`running
      ensures found <==> id in old(View()).Queue(phase)
      ensures View() == if phase == Prefill then old(View()).(waiting := Without(old(waiting), id))
                        else old(View()).(running := Without(old(running), id))
    {
      var queue := if phase == Prefill then waiting else running;
      var position := Find(queue, id);
      if position == |queue| {
        return false;
      }
      if phase == Prefill {
        waiting := queue[..position] + queue[position + 1..];
      } else {
        running := queue[..position] + queue[position + 1..];
      }
      return true;
    }

    method Cancel(id: nat) returns (r: Result<(), SchedError>)
      requires Apart()
      modifies this`turn, this`waiting, this`running, state`sequences, state.pages, sequences.Values
      ensures (View(), r) == old(View()).Cancel(id)
    {
      hide Hybrid.Release, Without, IndexOf, Sched.TurnWithout, Sched.Cancel, SeqData.Finish;
      ghost var before := View();
      CancelFrom(before, id);
      if active.Some? {
        return Err(BatchInFlight);
      }
      if id !in sequences {
        return Err(UnknownId);
      }
      var status := sequences[id].status;
      if status == Finished {
        return Ok(());
      }
      if status == Status.Running {
        LeaveRound(id);
      }
      var found := RemoveFromQueue(if status == Status.Waiting then Prefill else Decode, id);
      if !found {
        return Err(InvalidState);
      }
      var finished := FinishAs(id, Reason.Cancelled);
      if finished.Err? {
        return Err(SequenceFailure(finished.error));
      }
      ReleaseState(id);
      return Ok(());
    }

    method Remove(id: nat) returns (r: Result<(), SchedError>)
      requires Apart()
      modifies this`sequences
      ensures Apart()
      ensures (View(), r) == old(View()).Remove(id)
    {
      if active.Some? {
        return Err(BatchInFlight);
      }
      if id !in sequences {
        return Err(UnknownId);
      }
      if sequences[id].status != Finished {
        return Err(InvalidState);
      }
      ghost var before := View();
      sequences := sequences - {id};
      assert Datas() == before.sequences - {id};
      return Ok(());
    }
  }

  lemma {:induction false} PromisedSplit(s: Sched, queue: seq<nat>, i: nat)
    requires i < |queue| && queue[i] in s.sequences
    ensures s.Promised(queue[i..]) == Budget(s.sequences[queue[i]], s.config.kvBlockSize) + s.Promised(queue[i + 1..])
  {
    assert queue[i..][1..] == queue[i + 1..];
  }

  /** What an admission does once its prefix lookup is answered. */
  lemma ResumedFits(s: Sched, q: SeqData, h: Hybrid, env: AdmitEnv)
    requires s.prefixes.Valid() && Pristine(q) && s.prefixes.Find(q.Prompt()).1.Some?
    requires h.Restore(q.id, s.prefixes.Find(q.Prompt()).1.value, env.restored).1.Ok?
    ensures var count := s.prefixes.Find(q.Prompt()).1.value.tokenCount; q.RestorePrefix(count) == Ok(Resumed(q, count))
  {
    hide Hybrid.Restore, Cache.Find;
    RestoreNonempty(h, q.id, s.prefixes.Find(q.Prompt()).1.value, env.restored);
    RestoredPrefix(s.prefixes, q);
  }

  lemma TryAddFrom(s: Sched, q: SeqData, env: AdmitEnv)
    ensures s.TryAdd(q, env) ==
              if s.active.Some? then (s, Err(BatchInFlight))
              else if q.id in s.sequences then (s, Err(DuplicateId))
              else if !(q.status == Waiting && q.scheduled == 0 && q.processed == 0 && |q.tokens| == q.promptCount)
              then (s, Err(InvalidState))
              else if !s.FitsCache(q) then (s, Ok(TooLarge))
              else if |s.waiting| + |s.running| >= s.config.maxSequences
                      || Budget(q, s.config.kvBlockSize) > s.config.kvBlockCount - s.Promised(s.waiting) - s.Promised(s.running)
              then (s, Ok(Deferred))
              else s.Admit(q, env)
  {
    hide Sched.Admit, Budget, Sched.FitsCache;
  }

  /** The cache the lookup returned is the one a hit works with. */
  lemma HitKeepsFound(s: Sched, q: SeqData, env: AdmitEnv, h: Hybrid, cache: Cache<Payload>, saved: Saved<Payload>)
    ensures Hit(s.(state := h, prefixes := cache), q, env, h, cache, saved) == Hit(s, q, env, h, cache, saved)
  {
    hide Hybrid.Restore, Hybrid.Reserve, Hybrid.Release;
  }

  lemma QueuesKnown(s: Sched)
    requires SchedInv(s) && s.active == None
    ensures forall id :: id in s.waiting || id in s.running ==> id in s.sequences
  {
    hide ResourcesOk, PendingOk;
  }

  lemma CanEnterNow(s: Sched, q: SeqData)
    requires SchedInv(s) && s.active == None && q.Valid() && q.id !in s.sequences
    requires q.status == Waiting && q.scheduled == 0 && q.processed == 0 && |q.tokens| == q.promptCount
    ensures CanEnter(s, q)
  {
    hide QueuesOk, PendingOk, Hybrid.Sound;
    HoldersAreMembers(s);
  }

  lemma PromisedFits(s: Sched)
    requires SchedInv(s) && s.active == None
    ensures s.Promised(s.waiting) + s.Promised(s.running) <= s.config.kvBlockCount
  {
    hide Hybrid.Sound, Budget;
    PromisedIsTotal(s);
  }

  lemma WithoutAbsent(queue: seq<nat>, id: nat)
    requires id !in queue
    ensures Without(queue, id) == queue
  {
  }

  /** cancel, in the order of the source's updates. */
  ghost function Cancellation(s: Sched, id: nat): (Sched, Result<(), SchedError>) {
    if s.active.Some? then (s, Err(BatchInFlight))
    else if id !in s.sequences then (s, Err(UnknownId))
    else if s.sequences[id].status == Finished then (s, Ok(()))
    else
      var q := s.sequences[id];
      var t := if q.status == Status.Running then s.(turn := s.TurnWithout(id)) else s;
      var phase := if q.status == Status.Waiting then Prefill else Decode;
      var u := if phase == Prefill then t.(waiting := Without(t.waiting, id)) else t.(running := Without(t.running, id));
      if id !in t.Queue(phase) then (u, Err(InvalidState))
      else
        match q.Finish(Reason.Cancelled)
        case Err(e) => (u.(sequences := u.sequences[id := q]), Err(SequenceFailure(e)))
        case Ok(done) => (u.(sequences := u.sequences[id := done], state := s.state.Release(id)), Ok(()))
  }

  lemma CancelFrom(s: Sched, id: nat)
    ensures s.Cancel(id) == Cancellation(s, id)
  {
    hide Hybrid.Release, Without, Sched.TurnWithout;
    if id in s.sequences {
      assert s.sequences[id := s.sequences[id]] == s.sequences;
      if id !in s.waiting {
        WithoutAbsent(s.waiting, id);
      }
      if id !in s.running {
        WithoutAbsent(s.running, id);
      }
    }
  }

  lemma CompletionTurns(s: Sched, phase: Phase, items: seq<Item>, samples: seq<Token>, updates: seq<Update>, saves: set<nat>)
    requires items != [] && |samples| == CountSamples(items)
    ensures items[0].sample ==> samples != []
    ensures var done := s.CompleteItem(phase, items[0], if items[0].sample then samples[0] else 0, items[0].id in saves);
            done.1.Ok? ==>
              s.CompleteItems(phase, items, samples, updates, saves)
              == done.0.CompleteItems(phase, items[1..], if items[0].sample then samples[1..] else samples,
                                      if done.1.value.Some? then updates + [done.1.value.value] else updates, saves)
    ensures |if items[0].sample then samples[1..] else samples| == CountSamples(items[1..])
  {
    hide Sched.CompleteItem;
  }

  lemma CompletionEnds(s: Sched, phase: Phase, updates: seq<Update>, saves: set<nat>)
    ensures s.CompleteItems(phase, [], [], updates, saves) == (s, Ok(updates))
  {
  }

  lemma InvNeeds(s: Sched, phase: Phase, items: seq<Item>)
    requires Inv(s, phase, items)
    ensures s.prefixes.Valid() && s.state.Sound()
  {
  }

  lemma AllDoneOk(s: Sched, phase: Phase, n: nat, r: (Sched, Result<seq<Update>, SchedError>))
    requires AllDone(s, phase, n, r)
    ensures r.1.Ok?
  {
  }

  lemma CompleteFrom(s: Sched, id: nat, samples: seq<Token>, saves: set<nat>)
    ensures s.Complete(id, samples, saves) ==
              if s.active == None then (s, Err(NoBatchInFlight))
              else if s.active.value.id != id then (s, Err(BatchIdMismatch))
              else if |samples| != CountSamples(s.active.value.items) then (s, Err(ResultCountMismatch))
              else
                var b := s.active.value;
                var done := Closed(s, true).CompleteItems(b.phase, b.items, samples, [], saves);
                if done.1.Err? then done
                else (done.0.(turn := done.0.NextTurn(b.phase, |b.items|), active := None), done.1)
  {
    hide Sched.CompleteItems, Hybrid.CommitBatch;
  }

  lemma AbortFrom(s: Sched, id: nat)
    ensures s.Abort(id) ==
              if s.active == None then (s, Err(NoBatchInFlight))
              else if s.active.value.id != id then (s, Err(BatchIdMismatch))
              else (Closed(s, false).RollBack(s.active.value.items).(active := None), Ok(()))
  {
    hide Sched.RollBack, Hybrid.AbortBatch;
  }

  lemma CompleteItemFrom(s: Sched, phase: Phase, item: Item, token: Token, saves: bool)
    ensures s.CompleteItem(phase, item, token, saves) ==
              if item.id !in s.sequences || s.sequences[item.id].id != item.id
                 || s.sequences[item.id].promptCount > |s.sequences[item.id].tokens| then (s, Err(InvalidState))
              else
                var committed := s.sequences[item.id].CommitScheduled();
                if committed.Err? then (s.(sequences := s.sequences[item.id := s.sequences[item.id]]), Err(SequenceFailure(committed.error)))
                else
                  var t := s.Retire(phase, committed.value, saves);
                  if !item.sample then (t.(waiting := t.waiting + [item.id]), Ok(None))
                  else t.Promote(phase, committed.value, token)
  {
    hide Sched.Retire, Sched.Promote;
    if item.id in s.sequences {
      assert s.sequences[item.id := s.sequences[item.id]] == s.sequences;
    }
  }

  /** The end of a sampled item, in the order of the source's updates. */
  ghost function Delivery(s: Sched, q: SeqData, token: Token): (Sched, Result<Option<Update>, SchedError>) {
    var appended := q.AppendToken(token);
    if appended.Err? then (s.(sequences := s.sequences[q.id := q]), Err(SequenceFailure(appended.error)))
    else
      GrownNonempty(q, token);
      var reason := appended.value.EvaluateStop(s.eos);
      var t := s.(sequences := s.sequences[q.id := appended.value]);
      if reason == NoReason then
        (t.(running := s.running + [q.id]), Ok(Some(Update(q.id, token, NoReason))))
      else
        GrownFinishes(q, token, reason);
        (t.(sequences := t.sequences[q.id := appended.value.Finish(reason).value], state := s.state.Release(q.id)),
         Ok(Some(Update(q.id, token, reason))))
  }

  lemma DeliverFrom(s: Sched, q: SeqData, token: Token)
    requires q.id in s.sequences && s.sequences[q.id] == q
    ensures s.Deliver(q, token) == Delivery(s, q, token)
  {
    hide Hybrid.Release;
    assert s.sequences[q.id := q] == s.sequences;
    var appended := q.AppendToken(token);
    if appended.Ok? && appended.value.EvaluateStop(s.eos) != NoReason {
      var done := appended.value.Finish(appended.value.EvaluateStop(s.eos)).value;
      assert s.sequences[q.id := appended.value][q.id := done] == s.sequences[q.id := done];
    }
  }

  lemma GrownNonempty(q: SeqData, token: Token)
    requires q.AppendToken(token).Ok?
    ensures q.AppendToken(token).value.tokens != []
  {
  }

  lemma GrownFinishes(q: SeqData, token: Token, why: Reason)
    requires q.AppendToken(token).Ok? && why != NoReason
    ensures q.AppendToken(token).value.Finish(why).Ok?
  {
  }

  lemma RetireKeeps(s: Sched, phase: Phase, q: SeqData, saves: bool)
    requires q.promptCount <= |q.tokens|
    ensures s.Retire(phase, q, saves).sequences == s.sequences[q.id := q]
  {
  }

  lemma RetireStored(s: Sched, t: Sched, phase: Phase, q: SeqData, saves: bool)
    requires q.promptCount <= |q.tokens| && t == s.(sequences := s.sequences[q.id := q])
    ensures t.Retire(phase, q, saves) == s.Retire(phase, q, saves)
  {
    hide Sched.CachePrefix, Sched.Popped;
    assert t.sequences[q.id := q] == t.sequences;
  }

  lemma ScheduleRefused(s: Sched)
    requires s.active.Some? || (s.waiting == [] && s.running == [])
    ensures s.Schedule() == (s, Err(if s.active.Some? then BatchInFlight else NoRunnableSequences))
  {
  }
}

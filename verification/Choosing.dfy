/** Which batch schedule chooses, as a relation that fixes it: src/scheduler.cc:237-319. */
module Choosing {
  import opened Wrappers
  import opened Sequences
  import opened Batches
  import opened Scheduling
  import opened Invariants
  import opened Selection
  import HybridStates
  import PrefixCaching
  import Residence

  // ---------------------------------------------------------------- the share of one request

  /** Bytes of a checkpoint of so many tokens; 0 where none can be made. */
  function StateBytes(s: Sched, count: nat): nat {
    if 0 < count <= s.state.shape.maxPositions && count <= s.state.pages.count * s.state.pages.size
    then count * s.state.shape.cellBytes + s.state.shape.memoryBytes else 0
  }

  ghost predicate Stored(s: Sched, prefix: seq<Token>) {
    exists i :: 0 <= i < |s.prefixes.entries| && s.prefixes.entries[i].tokens == prefix
  }

  /** A checkpoint of the request that is long enough, fits the cache with its tokens of four bytes, and is not stored. */
  ghost predicate Worthwhile(s: Sched, q: SeqData, boundary: nat) {
    && boundary in q.checkpoints && boundary <= |q.tokens| && s.config.cacheMin <= boundary
    && 0 < StateBytes(s, boundary) && 4 * boundary + StateBytes(s, boundary) <= s.prefixes.capacity
    && !Stored(s, q.tokens[..boundary])
  }

  /** The tokens that a request gets: at most what it has left, the rest of the batch and, contended, the chunk; none beyond a
      worthwhile checkpoint; and less than the first three only to end at one. */
  ghost predicate Share(s: Sched, q: SeqData, phase: Phase, contended: bool, rest: nat, n: nat) {
    && 0 < n && q.processed + n <= |q.tokens| && n <= rest && (contended ==> n <= s.config.chunk)
    && (phase == Prefill ==> forall b :: q.processed < b < q.processed + n ==> !Worthwhile(s, q, b))
    && (q.processed + n == |q.tokens| || n == rest || (contended && n == s.config.chunk)
        || (phase == Prefill && Worthwhile(s, q, q.processed + n)))
  }

  lemma NoneInside(s: Sched, q: SeqData, contended: bool, rest: nat, n: nat, b: nat)
    requires Share(s, q, Prefill, contended, rest, n) && q.processed < b < q.processed + n
    ensures !Worthwhile(s, q, b)
  {
    hide Worthwhile;
  }

  lemma ShareLeast(s: Sched, q: SeqData, phase: Phase, contended: bool, rest: nat, a: nat, b: nat)
    requires Share(s, q, phase, contended, rest, a) && Share(s, q, phase, contended, rest, b)
    ensures b <= a
  {
    var end: nat := q.processed + a;
    if a < b && phase == Prefill {
      NoneInside(s, q, contended, rest, b, end);
    }
    hide Worthwhile;
  }

  /** The share is one number. */
  lemma ShareOnce(s: Sched, q: SeqData, phase: Phase, contended: bool, rest: nat, a: nat, b: nat)
    requires Share(s, q, phase, contended, rest, a) && Share(s, q, phase, contended, rest, b)
    ensures a == b
  {
    hide Share;
    ShareLeast(s, q, phase, contended, rest, a, b);
    ShareLeast(s, q, phase, contended, rest, b, a);
  }

  // ---------------------------------------------------------------- the batch

  /** Tokens of the first i items. */
  function Used(items: seq<Item>, i: nat): nat
    requires i <= |items|
  {
    if i == 0 then 0 else Used(items, i - 1) + items[i - 1].count
  }

  ghost predicate EntryChosen(s: Sched, phase: Phase, queue: seq<nat>, contended: bool, items: seq<Item>, i: nat)
    requires i < |items| <= |queue|
  {
    && items[i].id == queue[i] && queue[i] in s.sequences && Used(items, i) < s.config.maxBatchTokens
    && var q := s.sequences[queue[i]];
       && Share(s, q, phase, contended, s.config.maxBatchTokens - Used(items, i), items[i].count)
       && (items[i].sample <==> q.processed + items[i].count == |q.tokens|)
  }

  /** The front of the queue, each with its share. */
  ghost predicate FrontChosen(s: Sched, phase: Phase, queue: seq<nat>, limit: nat, contended: bool, items: seq<Item>) {
    && |items| <= |queue| && |items| <= limit && |items| <= s.config.maxSequences
    && forall i :: 0 <= i < |items| ==> EntryChosen(s, phase, queue, contended, items, i)
  }

  /** Decoding: in a round, or when nothing waits. */
  predicate Decoding(s: Sched) {
    s.turn.DecodeRound? || s.waiting == []
  }

  /** The queue, its part that may take part, and whether prefills are contended. */
  function QueueOf(s: Sched): seq<nat> {
    if Decoding(s) then s.running else s.waiting
  }

  function LimitOf(s: Sched): nat {
    if s.turn.DecodeRound? then s.turn.remaining else |QueueOf(s)|
  }

  predicate Contended(s: Sched) {
    !Decoding(s) && (|s.waiting| > 1 || s.running != [])
  }

  ghost predicate Front(s: Sched, items: seq<Item>) {
    FrontChosen(s, if Decoding(s) then Decode else Prefill, QueueOf(s), LimitOf(s), Contended(s), items)
  }

  /** The choice: as many of the front as the limits allow. */
  ghost predicate Chosen(s: Sched, b: Batch) {
    && b.phase == (if Decoding(s) then Decode else Prefill)
    && Front(s, b.items)
    && (|b.items| == |QueueOf(s)| || |b.items| == LimitOf(s) || |b.items| == s.config.maxSequences
        || Used(b.items, |b.items|) >= s.config.maxBatchTokens)
  }

  lemma {:induction false} UsedAlike(a: seq<Item>, b: seq<Item>, i: nat)
    requires i <= |a| && i <= |b| && a[..i] == b[..i]
    ensures Used(a, i) == Used(b, i)
  {
    if i > 0 {
      assert a[..i][i - 1] == b[..i][i - 1];
      assert a[..i - 1] == a[..i][..i - 1] && b[..i - 1] == b[..i][..i - 1];
      UsedAlike(a, b, i - 1);
    }
  }

  lemma {:induction false} FrontAlike(s: Sched, a: seq<Item>, b: seq<Item>, i: nat)
    requires Front(s, a) && Front(s, b) && i <= |a| && i <= |b|
    ensures a[..i] == b[..i]
  {
    hide Share;
    if i > 0 {
      FrontAlike(s, a, b, i - 1);
      UsedAlike(a, b, i - 1);
      var phase := if Decoding(s) then Decode else Prefill;
      assert EntryChosen(s, phase, QueueOf(s), Contended(s), a, i - 1);
      assert EntryChosen(s, phase, QueueOf(s), Contended(s), b, i - 1);
      var q := s.sequences[QueueOf(s)[i - 1]];
      ShareOnce(s, q, phase, Contended(s), s.config.maxBatchTokens - Used(a, i - 1), a[i - 1].count, b[i - 1].count);
      assert a[i - 1] == b[i - 1];
      assert a[..i] == a[..i - 1] + [a[i - 1]] && b[..i] == b[..i - 1] + [b[i - 1]];
    }
  }

  /** There is only one choice. */
  lemma ChosenOnce(s: Sched, a: Batch, b: Batch)
    requires Chosen(s, a) && Chosen(s, b)
    ensures a.phase == b.phase && a.items == b.items
  {
    if |a.items| < |b.items| {
      NotShorter(s, a, b);
    } else if |b.items| < |a.items| {
      NotShorter(s, b, a);
    } else {
      FrontAlike(s, a.items, b.items, |a.items|);
      assert a.items[..|a.items|] == a.items && b.items[..|b.items|] == b.items;
    }
  }

  lemma NotShorter(s: Sched, a: Batch, b: Batch)
    requires Chosen(s, a) && Chosen(s, b)
    ensures |a.items| >= |b.items|
  {
    hide Share;
    var n := |a.items|;
    if n < |b.items| {
      FrontAlike(s, a.items, b.items, n);
      UsedAlike(a.items, b.items, n);
      RoomBefore(s, b, n);
    }
  }

  lemma RoomBefore(s: Sched, b: Batch, n: nat)
    requires Chosen(s, b) && n < |b.items|
    ensures Used(b.items, n) < s.config.maxBatchTokens
  {
    hide Share;
    assert EntryChosen(s, b.phase, QueueOf(s), Contended(s), b.items, n);
  }

  // ---------------------------------------------------------------- the loop makes this choice

  lemma WorthwhileCuts(s: Sched, t: Sched, q: SeqData, b: nat, n: nat)
    requires OnlyReservations(s, t) && q.Valid()
    ensures b in q.checkpoints && q.processed < b < q.processed + n ==> (t.CutsAt(q, b, n) <==> Worthwhile(s, q, b))
  {
    hide Residence.Grew;
    SamePool(s, t);
    if b in q.checkpoints {
      Room(s.prefixes.capacity, b, StateBytes(s, b));
      assert b <= q.promptCount && q.Prompt()[..b] == q.tokens[..b];
    }
  }

  lemma SamePool(s: Sched, t: Sched)
    requires OnlyReservations(s, t)
    ensures t.state.pages.count == s.state.pages.count && t.state.pages.size == s.state.pages.size
    ensures t.state.shape == s.state.shape && t.prefixes == s.prefixes && t.config == s.config
  {
  }

  lemma Room(capacity: nat, tokens: nat, bytes: nat)
    ensures bytes <= capacity && tokens <= (capacity - bytes) / 4 <==> 4 * tokens + bytes <= capacity
  {
  }

  /** The first checkpoint at which the chunk is cut, if any. */
  lemma {:induction false} CutFirst(s: Sched, q: SeqData, count: nat, j: nat) returns (k: nat)
    requires q.promptCount <= |q.tokens| && j <= |q.checkpoints|
    ensures j <= k <= |q.checkpoints| && forall i :: j <= i < k ==> !s.CutsAt(q, q.checkpoints[i], count)
    ensures k < |q.checkpoints| ==>
              s.CutsAt(q, q.checkpoints[k], count) && s.Cut(q, count, j) == q.checkpoints[k] - q.processed
    ensures k == |q.checkpoints| ==> s.Cut(q, count, j) == count
    decreases |q.checkpoints| - j
  {
    hide Sched.CutsAt;
    if j == |q.checkpoints| || s.CutsAt(q, q.checkpoints[j], count) {
      k := j;
    } else {
      k := CutFirst(s, q, count, j + 1);
    }
  }

  lemma CutsWithin(s: Sched, q: SeqData, b: nat, count: nat)
    requires q.promptCount <= |q.tokens| && s.CutsAt(q, b, count)
    ensures q.processed < b < q.processed + count
  {
  }

  /** What the loop schedules for an entry is its share. */
  lemma CountShares(s: Sched, t: Sched, q: SeqData, phase: Phase, contended: bool, quantum: nat, used: nat)
    requires OnlyReservations(s, t) && q.Valid() && q.scheduled == 0 && q.processed < |q.tokens|
    requires used < s.config.maxBatchTokens && 0 < s.config.chunk
    requires quantum == if contended then s.config.chunk else s.config.maxBatchTokens
    ensures var n := t.ItemCount(phase, q, quantum, used);
            n > 0 && Share(s, q, phase, contended, s.config.maxBatchTokens - used, n)
  {
    hide Sched.CutsAt, Worthwhile, Residence.Grew;
    SamePool(s, t);
    var rest := s.config.maxBatchTokens - used;
    var count := Min(q.Schedulable(), Min(quantum, rest));
    if phase == Prefill {
      var k := CutFirst(t, q, count, 0);
      var n := t.Cut(q, count, 0);
      forall b | q.processed < b < q.processed + n ensures !Worthwhile(s, q, b) {
        NoEarlier(s, t, q, count, k, n, b);
      }
      if k < |q.checkpoints| {
        CutsWithin(t, q, q.checkpoints[k], count);
        WorthwhileCuts(s, t, q, q.checkpoints[k], count);
      }
    }
  }

  lemma NoEarlier(s: Sched, t: Sched, q: SeqData, count: nat, k: nat, n: nat, b: nat)
    requires OnlyReservations(s, t) && q.Valid() && k <= |q.checkpoints| && n <= count
    requires forall i :: 0 <= i < k ==> !t.CutsAt(q, q.checkpoints[i], count)
    requires k < |q.checkpoints| ==> n == q.checkpoints[k] - q.processed
    requires q.processed < b < q.processed + n
    ensures !Worthwhile(s, q, b)
  {
    hide Sched.CutsAt, Residence.Grew;
    if b in q.checkpoints {
      var i :| 0 <= i < |q.checkpoints| && q.checkpoints[i] == b;
      assert k < |q.checkpoints| ==> i < k;
      hide Worthwhile;
      WorthwhileCuts(s, t, q, b, count);
    }
  }

  /** An entry reached by the loop is as it was before the call. */
  lemma EntryAsBefore(s: Sched, t: Sched, phase: Phase, items: seq<Item>, id: nat)
    requires Inv(s, phase, []) && Inv(t, phase, items) && OnlyReservations(s, t)
    requires |items| < |t.Queue(phase)| && id == t.Queue(phase)[|items|]
    ensures id in s.sequences && id in t.sequences && t.sequences[id] == s.sequences[id]
    ensures s.sequences[id].Valid() && s.sequences[id].scheduled == 0 && s.sequences[id].processed < |s.sequences[id].tokens|
  {
    hide ResourcesOk, Residence.Grew;
    NextEntry(t, phase, items, id);
    assert SameWork(s.sequences[id], t.sequences[id]);
    assert s.sequences[id].scheduled == 0;
  }

  lemma UsedAppend(items: seq<Item>, item: Item)
    ensures Used(items + [item], |items| + 1) == Used(items, |items|) + item.count
    ensures Used(items + [item], |items|) == Used(items, |items|)
  {
    assert (items + [item])[..|items|] == items[..|items|];
    UsedAlike(items + [item], items, |items|);
  }

  lemma FrontGrows(s: Sched, phase: Phase, queue: seq<nat>, limit: nat, contended: bool, items: seq<Item>, item: Item)
    requires FrontChosen(s, phase, queue, limit, contended, items)
    requires |items| < |queue| && |items| < limit && |items| < s.config.maxSequences
    requires item.id == queue[|items|] && item.id in s.sequences && Used(items, |items|) < s.config.maxBatchTokens
    requires Share(s, s.sequences[item.id], phase, contended, s.config.maxBatchTokens - Used(items, |items|), item.count)
    requires item.sample <==> s.sequences[item.id].processed + item.count == |s.sequences[item.id].tokens|
    ensures FrontChosen(s, phase, queue, limit, contended, items + [item])
  {
    hide Share;
    var more := items + [item];
    UsedAppend(items, item);
    forall i | 0 <= i < |more| ensures EntryChosen(s, phase, queue, contended, more, i) {
      if i < |items| {
        assert EntryChosen(s, phase, queue, contended, items, i);
        assert more[..i] == items[..i];
        UsedAlike(more, items, i);
      }
    }
  }

  /** The loop failed at the next entry of the queue: its share goes beyond the model's positions. */
  ghost predicate Overruns(s: Sched, phase: Phase, queue: seq<nat>, limit: nat, contended: bool, items: seq<Item>) {
    && |items| < |queue| && |items| < limit && |items| < s.config.maxSequences && queue[|items|] in s.sequences
    && Used(items, |items|) < s.config.maxBatchTokens
    && Beyond(s, s.sequences[queue[|items|]], phase, contended, s.config.maxBatchTokens - Used(items, |items|))
  }

  ghost predicate Beyond(s: Sched, q: SeqData, phase: Phase, contended: bool, rest: nat) {
    exists n :: SharedBeyond(s, q, phase, contended, rest, n)
  }

  ghost predicate SharedBeyond(s: Sched, q: SeqData, phase: Phase, contended: bool, rest: nat, n: nat) {
    Share(s, q, phase, contended, rest, n) && q.processed + n > s.state.shape.maxPositions
  }

  /** How the loop ends: with the choice, or at an entry that goes beyond the positions. */
  ghost predicate Ended(s: Sched, phase: Phase, queue: seq<nat>, limit: nat, contended: bool,
                        r: (Sched, seq<Item>, Option<SchedError>)) {
    && FrontChosen(s, phase, queue, limit, contended, r.1)
    && if r.2 == None
       then |r.1| == |queue| || |r.1| == limit || |r.1| == s.config.maxSequences || Used(r.1, |r.1|) >= s.config.maxBatchTokens
       else Overruns(s, phase, queue, limit, contended, r.1)
  }

  lemma {:induction false} SelectChooses(s: Sched, t: Sched, phase: Phase, queue: seq<nat>, limit: nat, contended: bool,
                                         quantum: nat, items: seq<Item>, r: (Sched, seq<Item>, Option<SchedError>))
    requires Inv(s, phase, []) && Inv(t, phase, items) && !t.state.open && OnlyReservations(s, t)
    requires queue == t.Queue(phase) && |items| <= |queue| && 0 < s.config.chunk && 0 < s.config.maxBatchTokens
    requires quantum == if contended then s.config.chunk else s.config.maxBatchTokens
    requires FrontChosen(s, phase, queue, limit, contended, items)
    requires r == t.Select(phase, queue, Min(limit, s.config.maxSequences), quantum, |items|, Used(items, |items|), items)
    ensures Ended(s, phase, queue, limit, contended, r)
    decreases |queue| - |items|
  {
    hide Inv, Residence.Grew, Sched.Reserving, Sched.ItemCount, FrontChosen, Share, OnlyReservations;
    var used := Used(items, |items|);
    FrontWithin(s, phase, queue, limit, contended, items);
    SamePool(s, t);
    if |items| < |queue| && |items| < Min(limit, s.config.maxSequences) && used < s.config.maxBatchTokens {
      hide Sched.Select;
      var id := queue[|items|];
      EntryAsBefore(s, t, phase, items, id);
      var q := t.sequences[id];
      SelectEntry(t, phase, items, id, quantum, used);
      CountShares(s, t, q, phase, contended, quantum, used);
      var count := t.ItemCount(phase, q, quantum, used);
      var joined := t.Reserving(id, count);
      var more := items + [Item(id, count, count == q.Schedulable())];
      SelectUnfolds(t, phase, queue, Min(limit, s.config.maxSequences), quantum, |items|, used, items, count);
      SelectStep(t, phase, items, id, count, joined, more);
      FrontGrows(s, phase, queue, limit, contended, items, Item(id, count, count == q.Schedulable()));
      UsedAppend(items, Item(id, count, count == q.Schedulable()));
      if joined.1.Ok? {
        OnlyReservationsTransitive(s, t, joined.0);
        QueueKept(t, joined.0, phase);
        SelectChooses(s, joined.0, phase, queue, limit, contended, quantum, more, r);
      } else {
        TooFar(s, t, phase, items, id, count);
        assert SharedBeyond(s, q, phase, contended, s.config.maxBatchTokens - used, count);
      }
    }
  }

  lemma FrontWithin(s: Sched, phase: Phase, queue: seq<nat>, limit: nat, contended: bool, items: seq<Item>)
    requires FrontChosen(s, phase, queue, limit, contended, items)
    ensures |items| <= |queue| && |items| <= limit && |items| <= s.config.maxSequences
  {
    hide Share;
  }

  lemma QueueKept(s: Sched, t: Sched, phase: Phase)
    requires OnlyReservations(s, t)
    ensures t.Queue(phase) == s.Queue(phase)
  {
    hide Residence.Grew;
  }

  /** A reservation fails on the position limit only. */
  lemma TooFar(s: Sched, t: Sched, phase: Phase, items: seq<Item>, id: nat, count: nat)
    requires Inv(t, phase, items) && !t.state.open && OnlyReservations(s, t)
    requires |items| < |t.Queue(phase)| && id == t.Queue(phase)[|items|] && id in t.sequences && id in s.sequences
    requires 0 < count <= t.sequences[id].Schedulable() && t.Reserving(id, count).1.Err?
    ensures s.sequences[id].processed + count > s.state.shape.maxPositions
  {
    hide Inv, Residence.Grew;
    ReservingJoins(t, phase, items, id, count);
    SamePool(s, t);
    assert SameWork(s.sequences[id], t.sequences[id]);
  }

  // ---------------------------------------------------------------- schedule

  /** With something live and no batch in flight, schedule returns the one choice, or fails because the share of the entry after
      some front of that kind goes beyond the model's positions. */
  lemma ScheduleChoosesOnly(s: Sched)
    requires SchedInv(s) && s.active == None && !(s.waiting == [] && s.running == [])
    ensures match s.Schedule().1
            case Ok(b) => Chosen(s, b)
            case Err(_) =>
              exists items :: Front(s, items)
                              && Overruns(s, if Decoding(s) then Decode else Prefill, QueueOf(s), LimitOf(s), Contended(s), items)
  {
    hide Inv, Sched.Select, Sched.RollBack, FrontChosen, Overruns;
    OpeningKeeps(s);
    var o := s.Opening();
    var phase := o.PhaseNow();
    var r := o.Select(phase, o.Queue(phase), o.ItemLimit(), o.Quantum(), 0, 0, []);
    OnlyReservationsRefl(o);
    assert FrontChosen(o, phase, o.Queue(phase), LimitOf(o), Contended(o), []) by {
      NothingChosen(o, phase, o.Queue(phase), LimitOf(o), Contended(o));
    }
    SelectChooses(o, o, phase, o.Queue(phase), LimitOf(o), Contended(o), o.Quantum(), [], r);
    SelectKeeps(o, phase, o.Queue(phase), o.ItemLimit(), o.Quantum(), 0, [], r);
    TurnOnly(s, o, phase, o.Queue(phase), LimitOf(o), Contended(o), r.1);
    if r.2.Some? {
      assert Front(s, r.1) && Overruns(s, phase, QueueOf(s), LimitOf(s), Contended(s), r.1);
    }
  }

  lemma NothingChosen(s: Sched, phase: Phase, queue: seq<nat>, limit: nat, contended: bool)
    ensures FrontChosen(s, phase, queue, limit, contended, [])
  {
  }

  /** The choice does not depend on whether the round was opened already. */
  lemma TurnOnly(s: Sched, o: Sched, phase: Phase, queue: seq<nat>, limit: nat, contended: bool, items: seq<Item>)
    requires o == s.(turn := o.turn)
    ensures FrontChosen(s, phase, queue, limit, contended, items) <==> FrontChosen(o, phase, queue, limit, contended, items)
    ensures Overruns(s, phase, queue, limit, contended, items) <==> Overruns(o, phase, queue, limit, contended, items)
  {
    forall q, b ensures Worthwhile(s, q, b) <==> Worthwhile(o, q, b) {
    }
    hide Worthwhile;
    forall q, rest, n
      ensures Share(s, q, phase, contended, rest, n) <==> Share(o, q, phase, contended, rest, n)
      ensures SharedBeyond(s, q, phase, contended, rest, n) <==> SharedBeyond(o, q, phase, contended, rest, n)
    {
    }
    hide Share, SharedBeyond;
    forall q, rest ensures Beyond(s, q, phase, contended, rest) <==> Beyond(o, q, phase, contended, rest) {
    }
    hide Beyond;
    if |items| <= |queue| {
      forall i | 0 <= i < |items|
        ensures EntryChosen(s, phase, queue, contended, items, i) <==> EntryChosen(o, phase, queue, contended, items, i)
      {
      }
    }
  }
}

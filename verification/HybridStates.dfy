/** Paged attention memory and recurrent memory of all sequences, with batch transactions:
    src/qwen/qwen3_5_model_state.cc over src/block_manager.cc and one flat array of slots. */
module HybridStates {
  import opened Wrappers
  import opened Sums
  import opened Sequences
  import opened Paging
  import opened PrefixCaching
  import opened Kernels
  import opened Batches

  datatype Payload = Payload(cells: seq<Cell>, memory: Memory)

  datatype SequenceState = SequenceState(memory: Memory, reserved: nat, committed: nat)

  datatype Snapshot = Snapshot(id: nat, end: nat, memory: Memory)

  /** The position limit of the model, and what one token and one recurrent memory cost in a checkpoint. */
  datatype Shape = Shape(maxPositions: nat, cellBytes: nat, memoryBytes: nat, zero: Memory)

  // ---------------------------------------------------------------- slots

  ghost function Read(slots: seq<Cell>, i: nat): Cell {
    if i < |slots| then slots[i] else var c: Cell :| true; c
  }

  function Write(slots: seq<Cell>, i: nat, c: Cell): (r: seq<Cell>)
    ensures |r| == |slots|
  {
    if i < |slots| then slots[i := c] else slots
  }

  /** The cells of the first n positions of a table. */
  ghost function Gather(slots: seq<Cell>, table: seq<nat>, size: Positive, n: nat): (r: seq<Cell>)
    ensures |r| == n
  {
    if n == 0 then []
    else Gather(slots, table, size, n - 1) + [Read(slots, Slot(table, size, n - 1))]
  }

  /** Stores cells at the first positions of a table. */
  function Scatter(slots: seq<Cell>, table: seq<nat>, size: Positive, cells: seq<Cell>): (r: seq<Cell>)
    ensures |r| == |slots|
  {
    if cells == [] then slots
    else
      var n := |cells| - 1;
      Write(Scatter(slots, table, size, cells[..n]), Slot(table, size, n), cells[n])
  }

  datatype Ran = Ran(slots: seq<Cell>, memory: Memory, sample: Token)

  /** The rows of one sequence: each gathers what came before, writes its own slot and advances the memory. */
  ghost function RunRows(k: Kernel, slots: seq<Cell>, table: seq<nat>, size: Positive, start: nat,
                         tokens: seq<Token>, memory: Memory): (r: Ran)
    ensures |r.slots| == |slots|
  {
    if tokens == [] then Ran(slots, memory, 0)
    else
      var n := |tokens| - 1;
      var before := RunRows(k, slots, table, size, start, tokens[..n], memory);
      var out := k.row(before.memory, Gather(before.slots, table, size, start + n), tokens[n]);
      Ran(Write(before.slots, Slot(table, size, start + n), out.cell), out.memory, out.sample)
  }

  /** How a forward pass ends. */
  datatype Fault = NoFault | FailAfter(rows: nat) | Miscount(samples: seq<Token>)

  // ---------------------------------------------------------------- the state

  datatype Hybrid = Hybrid(
    shape: Shape,
    pages: Pages,
    slots: seq<Cell>,
    sequences: map<nat, SequenceState>,
    snapshots: seq<Snapshot>,
    open: bool)
  {
    function Committed(id: nat): Option<nat> {
      if id in sequences then Some(sequences[id].committed) else None
    }

    /** `created` tells whether the backend can allocate a new sequence's recurrent memory.
        The unsigned difference of the source wraps when it would be negative, and then exceeds the free count. */
    function Reserve(id: nat, tokens: nat, created: bool): (r: (Hybrid, Result<(), StateError>)) {
      if open || tokens == 0 || tokens > shape.maxPositions then (this, Err(InvalidReservation))
      else if id in sequences && tokens <= sequences[id].reserved then (this, Ok(()))
      else
        var required := BlocksFor(tokens, pages.size);
        var existing := |pages.Table(id)|;
        if required < existing || required - existing > |pages.free| then (this, Err(CapacityExhausted))
        else if id !in sequences && !created then (this, Err(BackendFailure))
        else
          var state := if id in sequences then sequences[id] else SequenceState(shape.zero, 0, 0);
          var reserved := pages.Reserve(id, tokens);
          if reserved.1.Err? then (this, reserved.1)
          else (this.(pages := reserved.0, sequences := sequences[id := state.(reserved := tokens)]), Ok(()))
    }

    function Release(id: nat): Hybrid {
      if open then this
      else this.(pages := pages.Release(id), sequences := sequences - {id})
    }

    function CheckpointBytes(tokens: nat): nat {
      if tokens == 0 || tokens > pages.count * pages.size || tokens > shape.maxPositions then 0
      else tokens * shape.cellBytes + shape.memoryBytes
    }

    predicate ValidPrefix(blocks: seq<nat>, tokens: nat) {
      && 0 < tokens <= pages.count * pages.size
      && BlocksFor(tokens, pages.size) <= |blocks|
      && forall i :: 0 <= i < BlocksFor(tokens, pages.size) ==> blocks[i] < pages.count
    }

    /** `saves` tells whether the copy can be allocated. */
    ghost function Checkpoint(id: nat, tokens: nat, saves: bool): (r: Result<Saved<Payload>, StateError>) {
      if open || tokens == 0 || Committed(id) != Some(tokens) then Err(InvalidReservation)
      else if !ValidPrefix(pages.Table(id), tokens) then Err(InvalidReservation)
      else if !saves then Err(AllocationFailed)
      else Ok(Saved(tokens, tokens * shape.cellBytes + shape.memoryBytes,
                    Payload(Gather(slots, pages.Table(id), pages.size, tokens), sequences[id].memory)))
    }

    /** `restores` tells whether the backend succeeds once the pages are there. */
    function Restore(id: nat, saved: Saved<Payload>, restores: bool): (r: (Hybrid, Result<(), StateError>)) {
      if open || CheckpointBytes(saved.tokenCount) == 0 || (id in sequences && sequences[id].committed != 0)
      then (this, Err(InvalidReservation))
      else
        var grown := Reserve(id, saved.tokenCount, restores);
        if grown.1.Err? then grown
        else
          var h := grown.0;
          if !h.ValidPrefix(h.pages.Table(id), saved.tokenCount) || |saved.payload.cells| != saved.tokenCount
          then (h, Err(InvalidReservation))
          else if !restores || id !in h.sequences then (h, Err(BackendFailure))
          else
            (h.(slots := Scatter(slots, h.pages.Table(id), pages.size, saved.payload.cells),
                sequences := h.sequences[id := h.sequences[id].(memory := saved.payload.memory,
                                                               committed := saved.tokenCount)]),
             Ok(()))
    }

    /** The conditions begin_batch puts on item i beyond those of prepare_paged_batch. */
    predicate ItemStartable(b: ModelBatch, i: nat)
      requires i < |b.items|
    {
      var item := b.items[i];
      && item.id in sequences
      && (forall j :: 0 <= j < i ==> b.items[j].id != item.id)
      && item.table == pages.Table(item.id)
      && item.count <= sequences[item.id].reserved - sequences[item.id].committed
      && (b.phase == Decode ==> item.count == 1)
      && item.offset + item.count <= |b.positions|
      && b.positions[item.offset..item.offset + item.count] == Consecutive(sequences[item.id].committed, item.count)
    }

    predicate Startable(b: ModelBatch) {
      && Acceptable(b, shape.maxPositions, pages.count, pages.size)
      && forall i :: 0 <= i < |b.items| ==> ItemStartable(b, i)
    }

    function Snapshots(b: ModelBatch, n: nat): (r: seq<Snapshot>)
      requires n <= |b.items|
      requires forall i :: 0 <= i < n ==> b.items[i].id in sequences
      ensures |r| == n
      ensures forall i :: 0 <= i < n ==>
                r[i] == Snapshot(b.items[i].id, sequences[b.items[i].id].committed + b.items[i].count,
                                 sequences[b.items[i].id].memory)
    {
      if n == 0 then []
      else
        var item := b.items[n - 1];
        Snapshots(b, n - 1)
          + [Snapshot(item.id, sequences[item.id].committed + item.count, sequences[item.id].memory)]
    }

    function BeginBatch(b: ModelBatch): (r: (Hybrid, Result<(), StateError>)) {
      if open || !Startable(b) then (this, Err(InvalidReservation))
      else
        assert forall i :: 0 <= i < |b.items| ==> ItemStartable(b, i) && b.items[i].id in sequences;
        (this.(snapshots := Snapshots(b, |b.items|), open := true), Ok(()))
    }

    function CommitBatch(): Hybrid {
      if !open then this
      else this.(sequences := CommitAll(sequences, snapshots), snapshots := [], open := false)
    }

    function AbortBatch(): Hybrid {
      if !open then this
      else this.(sequences := RollBackAll(sequences, snapshots), snapshots := [], open := false)
    }

    /** What is true of every state: pages partitioned, one table per sequence, exactly as long as its reservation. */
    ghost predicate Sound() {
      && Partition(pages)
      && |slots| == pages.count * pages.size
      && pages.tables.Keys == sequences.Keys
      && (forall id :: id in sequences ==> Proportioned(id))
    }

    ghost predicate Proportioned(id: nat)
      requires id in sequences && pages.tables.Keys == sequences.Keys
    {
      var s := sequences[id];
      && 0 < s.reserved <= shape.maxPositions
      && |pages.tables[id]| == BlocksFor(s.reserved, pages.size)
      && s.committed <= s.reserved
    }
  }

  function CommitAll(sequences: map<nat, SequenceState>, snapshots: seq<Snapshot>): (r: map<nat, SequenceState>)
    ensures r.Keys == sequences.Keys
  {
    if snapshots == [] then sequences
    else
      var n := |snapshots| - 1;
      var before := CommitAll(sequences, snapshots[..n]);
      var s := snapshots[n];
      if s.id in before then before[s.id := before[s.id].(committed := s.end)] else before
  }

  function RollBackAll(sequences: map<nat, SequenceState>, snapshots: seq<Snapshot>): (r: map<nat, SequenceState>)
    ensures r.Keys == sequences.Keys
  {
    if snapshots == [] then sequences
    else
      var n := |snapshots| - 1;
      var before := RollBackAll(sequences, snapshots[..n]);
      var s := snapshots[n];
      if s.id in before then before[s.id := before[s.id].(memory := s.memory)] else before
  }

  // ---------------------------------------------------------------- residence of histories

  /** The slots of a table hold these cells, position by position. */
  ghost predicate Holds(slots: seq<Cell>, table: seq<nat>, size: Positive, cells: seq<Cell>) {
    forall p: nat :: p < |cells| ==>
      && p / size < |table|
      && Slot(table, size, p) < |slots|
      && slots[Slot(table, size, p)] == cells[p]
  }

  lemma {:induction false} GatherHeld(slots: seq<Cell>, table: seq<nat>, size: Positive, cells: seq<Cell>)
    requires Holds(slots, table, size, cells)
    ensures Gather(slots, table, size, |cells|) == cells
  {
    if cells != [] {
      var n := |cells| - 1;
      assert Holds(slots, table, size, cells[..n]);
      GatherHeld(slots, table, size, cells[..n]);
      assert cells == cells[..n] + [cells[n]];
    }
  }

  /** Writing another sequence's slot, or a later slot of the same one, disturbs nothing held. */
  lemma WriteElsewhere(slots: seq<Cell>, table: seq<nat>, other: seq<nat>, size: Positive, q: nat, c: Cell, cells: seq<Cell>)
    requires Holds(slots, table, size, cells)
    requires q / size < |other|
    requires Disjoint(table, other) || (table == other && NoDup(table) && |cells| <= q)
    ensures Holds(Write(slots, Slot(other, size, q), c), table, size, cells)
  {
    forall p: nat | p < |cells| ensures Slot(table, size, p) != Slot(other, size, q) {
      if Disjoint(table, other) {
        SlotsApart(table, other, size, p, q);
      } else {
        SlotInjective(table, size, p, q);
      }
    }
  }

  lemma WriteNext(slots: seq<Cell>, table: seq<nat>, size: Positive, c: Cell, cells: seq<Cell>)
    requires Holds(slots, table, size, cells)
    requires |cells| / size < |table| && Slot(table, size, |cells|) < |slots|
    requires NoDup(table)
    ensures Holds(Write(slots, Slot(table, size, |cells|), c), table, size, cells + [c])
  {
    WriteElsewhere(slots, table, table, size, |cells|, c, cells);
    var written := Write(slots, Slot(table, size, |cells|), c);
    forall p: nat | p < |cells + [c]|
      ensures p / size < |table| && Slot(table, size, p) < |written| && written[Slot(table, size, p)] == (cells + [c])[p]
    {
      if p < |cells| {
        assert written[Slot(table, size, p)] == cells[p];
      }
    }
  }

  /** A table with room for n positions, all of them below `limit`. */
  ghost predicate Reaches(limit: nat, table: seq<nat>, size: Positive, n: nat) {
    && NoDup(table)
    && forall p: nat :: p < n ==> p / size < |table| && Slot(table, size, p) < limit
  }

  lemma ReachesLess(limit: nat, table: seq<nat>, size: Positive, n: nat, m: nat)
    requires Reaches(limit, table, size, n) && m <= n
    ensures Reaches(limit, table, size, m)
  {
  }

  lemma ReachesWithin(table: seq<nat>, size: Positive, count: nat, n: nat)
    requires NoDup(table) && InPool(table, count)
    requires n == 0 || BlocksFor(n, size) <= |table|
    ensures Reaches(count * size, table, size, n)
  {
    forall p: nat | p < n ensures p / size < |table| && Slot(table, size, p) < count * size {
      BlocksForBounds(n, size);
      SlotInRange(table, size, p, count);
    }
  }

  lemma {:induction false} ScatterHeld(slots: seq<Cell>, table: seq<nat>, size: Positive, cells: seq<Cell>)
    requires Reaches(|slots|, table, size, |cells|)
    ensures Holds(Scatter(slots, table, size, cells), table, size, cells)
  {
    if cells != [] {
      var n := |cells| - 1;
      ReachesLess(|slots|, table, size, |cells|, n);
      ScatterHeld(slots, table, size, cells[..n]);
      WriteNext(Scatter(slots, table, size, cells[..n]), table, size, cells[n], cells[..n]);
      assert cells == cells[..n] + [cells[n]];
    }
  }

  lemma {:induction false} ScatterElsewhere(slots: seq<Cell>, table: seq<nat>, other: seq<nat>, size: Positive,
                                            cells: seq<Cell>, held: seq<Cell>)
    requires Holds(slots, table, size, held) && Disjoint(table, other)
    requires Reaches(|slots|, other, size, |cells|)
    ensures Holds(Scatter(slots, other, size, cells), table, size, held)
  {
    if cells != [] {
      var n := |cells| - 1;
      ReachesLess(|slots|, other, size, |cells|, n);
      ScatterElsewhere(slots, table, other, size, cells[..n], held);
      WriteElsewhere(Scatter(slots, other, size, cells[..n]), table, other, size, n, cells[n], held);
    }
  }

  /** What running rows up to the end of a history must leave: the cells, the memory and the sample of an unpaged run. */
  ghost predicate Replayed(k: Kernel, r: Ran, table: seq<nat>, size: Positive, h: seq<Token>) {
    && Holds(r.slots, table, size, Replay(k, h).cells)
    && r.memory == Replay(k, h).memory
  }

  /** Running the rows that follow a history leaves exactly what an unpaged run over the longer history leaves. */
  lemma {:induction false} RunRowsReplays(k: Kernel, slots: seq<Cell>, table: seq<nat>, size: Positive,
                                          h: seq<Token>, tokens: seq<Token>, longer: seq<Token>, memory: Memory)
    requires longer == h + tokens
    requires Replayed(k, Ran(slots, memory, 0), table, size, h)
    requires Reaches(|slots|, table, size, |longer|)
    ensures Replayed(k, RunRows(k, slots, table, size, |h|, tokens, memory), table, size, longer)
    ensures tokens != [] ==> RunRows(k, slots, table, size, |h|, tokens, memory).sample == Next(k, longer)
  {
    if tokens == [] {
      assert longer == h;
    } else {
      var n := |tokens| - 1;
      var shorter := longer[..|longer| - 1];
      ReachesLess(|slots|, table, size, |longer|, |shorter|);
      RunRowsReplays(k, slots, table, size, h, tokens[..n], shorter, memory);
      var before := RunRows(k, slots, table, size, |h|, tokens[..n], memory);
      var r := RunRows(k, slots, table, size, |h|, tokens, memory);
      RowReplays(k, before, table, size, shorter, longer, r);
    }
  }

  lemma RowReplays(k: Kernel, before: Ran, table: seq<nat>, size: Positive, h: seq<Token>, longer: seq<Token>, r: Ran)
    requires longer != [] && h == longer[..|longer| - 1]
    requires Replayed(k, before, table, size, h)
    requires Reaches(|before.slots|, table, size, |longer|)
    requires var out := k.row(before.memory, Gather(before.slots, table, size, |h|), longer[|h|]);
             r == Ran(Write(before.slots, Slot(table, size, |h|), out.cell), out.memory, out.sample)
    ensures Replayed(k, r, table, size, longer)
    ensures r.sample == Next(k, longer)
  {
    var cells := Replay(k, h).cells;
    GatherHeld(before.slots, table, size, cells);
    WriteNext(before.slots, table, size, k.row(before.memory, cells, longer[|h|]).cell, cells);
  }

  /** Rows of one sequence leave every other table, and the earlier positions of its own, as they were. */
  lemma {:induction false} RunRowsElsewhere(k: Kernel, slots: seq<Cell>, table: seq<nat>, other: seq<nat>, size: Positive,
                                            start: nat, tokens: seq<Token>, memory: Memory, held: seq<Cell>)
    requires Holds(slots, table, size, held)
    requires Disjoint(table, other) || (table == other && |held| <= start)
    requires Reaches(|slots|, other, size, start + |tokens|)
    ensures Holds(RunRows(k, slots, other, size, start, tokens, memory).slots, table, size, held)
  {
    if tokens != [] {
      var n := |tokens| - 1;
      ReachesLess(|slots|, other, size, start + |tokens|, start + n);
      RunRowsElsewhere(k, slots, table, other, size, start, tokens[..n], memory, held);
      var before := RunRows(k, slots, other, size, start, tokens[..n], memory);
      var out := k.row(before.memory, Gather(before.slots, other, size, start + n), tokens[n]);
      WriteElsewhere(before.slots, table, other, size, start + n, out.cell, held);
    }
  }
}

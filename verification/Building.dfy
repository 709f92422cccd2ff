/** A batch fresh from schedule() can always be built and begun, and its slots never collide:
    src/model_batch.cc over src/scheduler.cc:275-300. */
module Building {
  import opened Wrappers
  import opened Sums
  import opened Sequences
  import opened Paging
  import opened PrefixCaching
  import opened Batches
  import opened HybridStates
  import opened Residence
  import opened Execution
  import opened Transactions
  import opened Scheduling
  import opened Invariants

  // ---------------------------------------------------------------- what is built

  /** Item i of the built batch: the reserved tokens of its sequence, at their positions, through its table. */
  ghost predicate BuiltItem(m: ModelBatch, items: seq<Item>, i: nat, sequences: map<nat, SeqData>, pages: Pages) {
    && i < |items| && i < |m.items|
    && 0 < items[i].count && items[i].id in sequences
    && sequences[items[i].id].processed + items[i].count <= |sequences[items[i].id].tokens|
    && var item, offset := items[i], RowsBefore(m.items, i);
       && m.items[i] == ModelItem(item.id, offset, item.count,
                                  if item.sample then Some(offset + item.count - 1) else None, pages.Table(item.id))
       && Slice(m.tokens, offset, item.count) == TokensOf(item, sequences)
       && Slice(m.positions, offset, item.count) == PositionsOf(item, sequences)
       && offset + item.count <= |m.tokens|
  }

  function TokensOf(item: Item, sequences: map<nat, SeqData>): seq<Token> {
    if item.id in sequences then Slice(sequences[item.id].tokens, sequences[item.id].processed, item.count) else []
  }

  function PositionsOf(item: Item, sequences: map<nat, SeqData>): seq<nat> {
    if item.id in sequences then Consecutive(sequences[item.id].processed, item.count) else []
  }

  /** The built batch lists exactly the rows of its items, one item after the other. */
  ghost predicate Built(m: ModelBatch, items: seq<Item>, sequences: map<nat, SeqData>, pages: Pages) {
    && |m.items| == |items|
    && |m.tokens| == |m.positions| == RowsBefore(m.items, |m.items|)
    && forall i :: 0 <= i < |items| ==> BuiltItem(m, items, i, sequences, pages)
  }

  lemma {:induction false} RowsBeforePrefix(a: seq<ModelItem>, b: seq<ModelItem>, i: nat)
    requires a <= b && i <= |a|
    ensures RowsBefore(a, i) == RowsBefore(b, i)
  {
    if i > 0 {
      RowsBeforePrefix(a, b, i - 1);
    }
  }

  lemma SlicePrefix<T>(a: seq<T>, b: seq<T>, from: nat, n: nat)
    requires a <= b && from + n <= |a|
    ensures Slice(a, from, n) == Slice(b, from, n)
  {
    assert a[from..from + n] == b[from..from + n];
  }

  lemma BuiltItemGrows(m: ModelBatch, g: ModelBatch, items: seq<Item>, more: seq<Item>, i: nat,
                       sequences: map<nat, SeqData>, pages: Pages)
    requires BuiltItem(m, items, i, sequences, pages) && |m.tokens| == |m.positions|
    requires m.tokens <= g.tokens && m.positions <= g.positions && m.items <= g.items && items <= more
    ensures BuiltItem(g, more, i, sequences, pages)
  {
    RowsBeforePrefix(m.items, g.items, i);
    SlicePrefix(m.tokens, g.tokens, RowsBefore(m.items, i), items[i].count);
    SlicePrefix(m.positions, g.positions, RowsBefore(m.items, i), items[i].count);
  }

  lemma SliceAppended<T>(a: seq<T>, b: seq<T>)
    ensures Slice(a + b, |a|, |b|) == b
  {
  }

  lemma AddItemBuilt(m: ModelBatch, items: seq<Item>, item: Item, sequences: map<nat, SeqData>, pages: Pages)
    requires Built(m, items, sequences, pages) && Buildable([item], sequences)
    ensures Built(AddItem(m, item, sequences, pages), items + [item], sequences, pages)
  {
    var g := AddItem(m, item, sequences, pages);
    var n := |items|;
    assert [item][0] == item;
    forall i | 0 <= i < n ensures BuiltItem(g, items + [item], i, sequences, pages) {
      BuiltItemGrows(m, g, items, items + [item], i, sequences, pages);
    }
    RowsBeforePrefix(m.items, g.items, n);
    SliceAppended(m.tokens, ItemTokens(item, sequences));
    SliceAppended(m.positions, ItemPositions(item, sequences));
    assert BuiltItem(g, items + [item], n, sequences, pages);
  }

  lemma {:induction false} AssembleBuilds(m: ModelBatch, items: seq<Item>, sequences: map<nat, SeqData>, pages: Pages)
    requires m.items == [] && m.tokens == [] && m.positions == []
    requires Buildable(items, sequences)
    ensures Built(Assemble(m, items, sequences, pages), items, sequences, pages)
    ensures var r := Assemble(m, items, sequences, pages); r.id == m.id && r.phase == m.phase && r.blockSize == m.blockSize
  {
    if items != [] {
      var n := |items| - 1;
      AssembleBuilds(m, items[..n], sequences, pages);
      assert [items[n]][0] == items[n];
      AddItemBuilt(Assemble(m, items[..n], sequences, pages), items[..n], items[n], sequences, pages);
      assert items[..n] + [items[n]] == items;
    }
  }

  // ---------------------------------------------------------------- building succeeds

  ghost predicate PositionsInWidth(items: seq<Item>, sequences: map<nat, SeqData>) {
    forall i :: 0 <= i < |items| && items[i].id in sequences ==>
                  sequences[items[i].id].processed + items[i].count - 1 <= MAX_U32
  }

  /** What a batch in flight guarantees of one item, before position widths. */
  lemma ItemHasNoOtherFault(s: Sched, b: Batch, i: nat)
    requires QueuesOk(s) && PendingOk(s, b.phase, b.items) && i < |b.items|
    ensures b.items[i].id in s.sequences && Buildable([b.items[i]], s.sequences)
    ensures !Listed(b.items[..i], b.items[i].id)
    ensures var q := s.sequences[b.items[i].id];
            ItemFault(b.items[i], b.phase, Listed(b.items[..i], b.items[i].id), s.sequences)
            == if q.processed + b.items[i].count - 1 <= MAX_U32 then None else Some(PositionOutOfRange)
  {
    assert ItemOk(s, b.phase, b.items, i);
    var id := b.items[i].id;
    assert id in s.Queue(b.phase);
    assert MemberOk(s, id);
    forall j | 0 <= j < i ensures b.items[j].id != id {
      assert ItemOk(s, b.phase, b.items, j);
    }
  }

  lemma {:induction false} FaultsAreWidths(s: Sched, b: Batch, i: nat)
    requires QueuesOk(s) && PendingOk(s, b.phase, b.items) && i <= |b.items|
    ensures FirstFault(b, s.sequences, i) == None <==> PositionsInWidth(b.items[i..], s.sequences)
    ensures FirstFault(b, s.sequences, i) != None ==> FirstFault(b, s.sequences, i) == Some(PositionOutOfRange)
    decreases |b.items| - i
  {
    hide QueuesOk, PendingOk, ItemFault, Listed;
    if i < |b.items| {
      ItemHasNoOtherFault(s, b, i);
      FaultsAreWidths(s, b, i + 1);
      WidthsSplit(b.items[i..], s.sequences);
      assert b.items[i..][1..] == b.items[i + 1..];
    }
  }

  lemma WidthsSplit(items: seq<Item>, sequences: map<nat, SeqData>)
    requires items != [] && items[0].id in sequences
    ensures PositionsInWidth(items, sequences) <==>
            sequences[items[0].id].processed + items[0].count - 1 <= MAX_U32 && PositionsInWidth(items[1..], sequences)
  {
    assert forall i :: 0 < i < |items| ==> items[i] == items[1..][i - 1];
    assert forall i :: 0 <= i < |items| - 1 ==> items[1..][i] == items[i + 1];
  }

  /** build_model_batch takes a batch in flight exactly when its positions fit 32 bits, and then lists its rows. */
  lemma BuildSucceedsExactly(s: Sched, b: Batch)
    requires QueuesOk(s) && PendingOk(s, b.phase, b.items) && b.items != []
    ensures var r := BuildModelBatch(b, s.sequences, s.state.pages);
            && (r.Ok? <==> PositionsInWidth(b.items, s.sequences))
            && (r.Err? ==> r.error == PositionOutOfRange)
            && (r.Ok? ==> Built(r.value, b.items, s.sequences, s.state.pages)
                          && r.value.id == b.id && r.value.phase == b.phase && r.value.blockSize == s.state.pages.size)
  {
    hide QueuesOk, PendingOk, Built;
    FaultsAreWidths(s, b, 0);
    assert b.items[0..] == b.items;
    if FirstFault(b, s.sequences, 0) == None {
      NoFaultBuildable(b, s.sequences, 0);
      AssembleBuilds(ModelBatch(b.id, b.phase, s.state.pages.size, [], [], []), b.items, s.sequences, s.state.pages);
    }
  }

  // ---------------------------------------------------------------- beginning succeeds

  /** Between batches the scheduler's processed counts are the state's committed counts. */
  ghost predicate CountsInStep(s: Sched) {
    forall id :: id in s.state.sequences && id in s.sequences ==>
                   s.state.sequences[id].committed == s.sequences[id].processed
  }

  /** Every scheduled item was reserved, so its last position is below the model's limit. */
  lemma ItemReserved(s: Sched, phase: Phase, items: seq<Item>, i: nat)
    requires Inv(s, phase, items) && i < |items|
    ensures var id := items[i].id;
            && id in s.sequences && id in s.state.sequences && s.sequences[id].id == id
            && s.sequences[id].scheduled == items[i].count
            && 0 < s.sequences[id].processed + items[i].count <= s.state.sequences[id].reserved <= s.state.shape.maxPositions
            && |s.state.pages.Table(id)| == BlocksFor(s.state.sequences[id].reserved, s.state.pages.size)
            && InPool(s.state.pages.Table(id), s.state.pages.count) && NoDup(s.state.pages.Table(id))
            && (phase == Decode ==> items[i].count == 1)
  {
    hide BlocksFor, Total, Cache.Valid;
    assert ItemOk(s, phase, items, i);
    var id := items[i].id;
    assert id in s.Queue(phase);
    assert MemberOk(s, id) && HoldingOk(s, id) && s.state.Proportioned(id);
  }

  lemma DistinctScheduled(s: Sched, phase: Phase, items: seq<Item>, i: nat, j: nat)
    requires Inv(s, phase, items) && i < j < |items|
    ensures items[i].id != items[j].id
  {
    assert ItemOk(s, phase, items, i) && ItemOk(s, phase, items, j);
  }

  lemma ConsecutiveIs(from: nat, n: nat, i: nat)
    requires i < n
    ensures Consecutive(from, n)[i] == from + i
  {
    ConsecutiveAt(from, n, i);
  }

  /** A row of a built item: its position, and the page that holds it. */
  lemma RowPlaced(m: ModelBatch, items: seq<Item>, i: nat, sequences: map<nat, SeqData>, pages: Pages, row: nat)
    requires Built(m, items, sequences, pages) && i < |items|
    requires m.items[i].offset <= row < m.items[i].offset + m.items[i].count
    ensures row < |m.positions| && items[i].id in sequences
    ensures m.positions[row] == sequences[items[i].id].processed + (row - m.items[i].offset)
  {
    assert BuiltItem(m, items, i, sequences, pages);
    var item, offset := m.items[i], m.items[i].offset;
    ConsecutiveIs(sequences[items[i].id].processed, item.count, row - offset);
    assert m.positions[row] == m.positions[offset..offset + item.count][row - offset];
  }

  /** The slot numbers and the table entries of this batch fit 32 bits, as the batch format needs. */
  ghost predicate Narrow(m: ModelBatch, size: Positive) {
    && EntriesBefore(m.items, |m.items|) <= MAX_U32
    && forall i, row: nat :: 0 <= i < |m.items| && m.items[i].offset <= row < m.items[i].offset + m.items[i].count ==>
                               RowSlot(m, m.items[i].table, row, size) <= MAX_U32
  }

  /** Every row finds its page in its own table, and its slot in the pool. */
  lemma RowWithin(s: Sched, b: Batch, m: ModelBatch, i: nat, row: nat)
    requires Inv(s, b.phase, b.items) && i < |b.items|
    requires Built(m, b.items, s.sequences, s.state.pages)
    requires m.items[i].offset <= row < m.items[i].offset + m.items[i].count
    ensures row < |m.positions| && m.positions[row] < s.state.shape.maxPositions
    ensures m.positions[row] / s.state.pages.size < |m.items[i].table|
    ensures RowSlot(m, m.items[i].table, row, s.state.pages.size) == Slot(m.items[i].table, s.state.pages.size, m.positions[row])
    ensures RowSlot(m, m.items[i].table, row, s.state.pages.size) < s.state.pages.count * s.state.pages.size
  {
    hide Inv, BlocksFor, Slot;
    RowPlaced(m, b.items, i, s.sequences, s.state.pages, row);
    ItemReserved(s, b.phase, b.items, i);
    assert BuiltItem(m, b.items, i, s.sequences, s.state.pages);
    var reserved := s.state.sequences[b.items[i].id].reserved;
    BlocksForBounds(reserved, s.state.pages.size);
    SlotInRange(m.items[i].table, s.state.pages.size, m.positions[row], s.state.pages.count);
  }

  // ---------------------------------------------------------------- table entries in all

  /** The page-table entries of a batch are no more than the pages there are. */
  lemma {:induction false} EntriesWithin(m: ModelBatch, n: nat, tables: map<nat, seq<nat>>)
    requires n <= |m.items|
    requires forall i :: 0 <= i < n ==> m.items[i].id in tables && m.items[i].table == tables[m.items[i].id]
    requires forall i, j :: 0 <= i < j < n ==> m.items[i].id != m.items[j].id
    ensures EntriesBefore(m.items, n) <= Total(Sizes(tables))
  {
    if n > 0 {
      var id := m.items[n - 1].id;
      var rest := tables - {id};
      EntriesWithin(m, n - 1, rest);
      assert Sizes(rest) == Sizes(tables) - {id};
      TotalRemove(Sizes(tables), id);
    }
  }

  lemma {:induction false} EntriesBeforeMonotone(items: seq<ModelItem>, i: nat, j: nat)
    requires i <= j <= |items|
    ensures EntriesBefore(items, i) <= EntriesBefore(items, j)
    decreases j
  {
    if i < j {
      EntriesBeforeMonotone(items, i, j - 1);
    }
  }

  lemma BatchEntries(s: Sched, b: Batch, m: ModelBatch)
    requires Inv(s, b.phase, b.items) && Built(m, b.items, s.sequences, s.state.pages)
    ensures EntriesBefore(m.items, |m.items|) <= s.state.pages.count
  {
    hide BlocksFor, Cache.Valid, QueuesOk, PendingOk;
    forall i | 0 <= i < |m.items|
      ensures m.items[i].id == b.items[i].id && m.items[i].id in s.state.pages.tables
              && m.items[i].table == s.state.pages.tables[m.items[i].id]
    {
      assert BuiltItem(m, b.items, i, s.sequences, s.state.pages);
      ItemReserved(s, b.phase, b.items, i);
    }
    forall i, j | 0 <= i < j < |m.items| ensures m.items[i].id != m.items[j].id {
      DistinctScheduled(s, b.phase, b.items, i, j);
    }
    EntriesWithin(m, |m.items|, s.state.pages.tables);
  }

  // ---------------------------------------------------------------- begin_batch accepts

  lemma ItemShaped(s: Sched, b: Batch, m: ModelBatch, i: nat)
    requires Inv(s, b.phase, b.items) && i < |b.items|
    requires Built(m, b.items, s.sequences, s.state.pages)
    ensures i < |m.items|
    ensures EntriesBefore(m.items, |m.items|) <= MAX_U32 ==> ShapeAcceptable(m, i)
    ensures forall t :: 0 <= t < |m.items[i].table| ==> m.items[i].table[t] < s.state.pages.count
  {
    hide Inv, BlocksFor;
    assert BuiltItem(m, b.items, i, s.sequences, s.state.pages);
    ItemReserved(s, b.phase, b.items, i);
    EntriesBeforeMonotone(m.items, i + 1, |m.items|);
    BlocksForBounds(s.state.sequences[b.items[i].id].reserved, s.state.pages.size);
    var table := m.items[i].table;
    forall t | 0 <= t < |table| ensures table[t] < s.state.pages.count {
      assert table[t] in table;
    }
  }

  /** A built batch passes every test of prepare_paged_batch exactly when its own slots and table entries fit 32 bits. */
  lemma BatchAcceptable(s: Sched, b: Batch, m: ModelBatch)
    requires Inv(s, b.phase, b.items) && b.items != []
    requires Built(m, b.items, s.sequences, s.state.pages) && m.blockSize == s.state.pages.size
    ensures Acceptable(m, s.state.shape.maxPositions, s.state.pages.count, s.state.pages.size) <==> Narrow(m, s.state.pages.size)
  {
    hide Inv, ShapeAcceptable, RowAcceptable, Built, Narrow, Acceptable;
    BuiltLength(m, b.items, s.sequences, s.state.pages);
    if Narrow(m, s.state.pages.size) {
      NarrowAccepted(s, b, m);
    }
    if Acceptable(m, s.state.shape.maxPositions, s.state.pages.count, s.state.pages.size) {
      AcceptedNarrow(m, s.state.shape.maxPositions, s.state.pages.count, s.state.pages.size);
    }
  }

  lemma NarrowAccepted(s: Sched, b: Batch, m: ModelBatch)
    requires Inv(s, b.phase, b.items) && b.items != []
    requires Built(m, b.items, s.sequences, s.state.pages) && m.blockSize == s.state.pages.size && Narrow(m, s.state.pages.size)
    ensures Acceptable(m, s.state.shape.maxPositions, s.state.pages.count, s.state.pages.size)
  {
    hide Inv, ShapeAcceptable, RowSlot, Slot;
    forall i | 0 <= i < |m.items|
      ensures ItemAcceptable(m, i, s.state.shape.maxPositions, s.state.pages.count, s.state.pages.size)
    {
      ItemShaped(s, b, m, i);
      forall row: nat | m.items[i].offset <= row < m.items[i].offset + m.items[i].count
        ensures RowAcceptable(m, m.items[i].table, row, s.state.shape.maxPositions, s.state.pages.size)
      {
        RowWithin(s, b, m, i, row);
      }
    }
    TableNonempty(s, b, m);
  }

  lemma AcceptedNarrow(m: ModelBatch, maxPositions: nat, count: nat, size: Positive)
    requires Acceptable(m, maxPositions, count, size)
    ensures Narrow(m, size)
  {
    hide Slot;
    var n := |m.items| - 1;
    assert ItemAcceptable(m, n, maxPositions, count, size);
    forall i, row: nat | 0 <= i < |m.items| && m.items[i].offset <= row < m.items[i].offset + m.items[i].count
      ensures RowSlot(m, m.items[i].table, row, size) <= MAX_U32
    {
      assert ItemAcceptable(m, i, maxPositions, count, size);
      assert RowAcceptable(m, m.items[i].table, row, maxPositions, size);
    }
  }

  /** At most 2^32 slots and fewer than 2^32 pages: every batch fits. */
  ghost predicate Small(h: Hybrid) {
    h.pages.count * h.pages.size <= MAX_U32 + 1 && h.pages.count <= MAX_U32
  }

  lemma SmallNarrow(s: Sched, b: Batch, m: ModelBatch)
    requires Inv(s, b.phase, b.items) && Small(s.state) && Built(m, b.items, s.sequences, s.state.pages)
    ensures Narrow(m, s.state.pages.size)
  {
    hide Inv, Built, RowSlot;
    BuiltLength(m, b.items, s.sequences, s.state.pages);
    BatchEntries(s, b, m);
    forall i, row: nat | 0 <= i < |m.items| && m.items[i].offset <= row < m.items[i].offset + m.items[i].count
      ensures RowSlot(m, m.items[i].table, row, s.state.pages.size) <= MAX_U32
    {
      RowWithin(s, b, m, i, row);
    }
  }

  lemma TableNonempty(s: Sched, b: Batch, m: ModelBatch)
    requires Inv(s, b.phase, b.items) && b.items != []
    ensures 0 < s.state.pages.count
  {
    hide Inv, BlocksFor;
    ItemReserved(s, b.phase, b.items, 0);
    BlocksForBounds(s.state.sequences[b.items[0].id].reserved, s.state.pages.size);
    assert s.state.pages.Table(b.items[0].id)[0] in s.state.pages.Table(b.items[0].id);
  }

  lemma ItemStarts(s: Sched, b: Batch, m: ModelBatch, i: nat)
    requires Inv(s, b.phase, b.items) && i < |b.items| && CountsInStep(s)
    requires Built(m, b.items, s.sequences, s.state.pages) && m.phase == b.phase
    ensures s.state.ItemStartable(m, i)
  {
    hide Inv, BlocksFor;
    assert BuiltItem(m, b.items, i, s.sequences, s.state.pages);
    ItemReserved(s, b.phase, b.items, i);
    forall j | 0 <= j < i ensures m.items[j].id != m.items[i].id {
      assert BuiltItem(m, b.items, j, s.sequences, s.state.pages);
      DistinctScheduled(s, b.phase, b.items, j, i);
    }
  }

  /** The state begins a batch built from a fresh schedule exactly when its slots and table entries fit 32 bits. */
  lemma BeginSucceeds(s: Sched, b: Batch, m: ModelBatch)
    requires Inv(s, b.phase, b.items) && b.items != [] && CountsInStep(s) && !s.state.open
    requires BuildModelBatch(b, s.sequences, s.state.pages) == Ok(m)
    ensures s.state.BeginBatch(m).1.Ok? <==> Narrow(m, s.state.pages.size)
  {
    hide Inv, Built, Acceptable, Hybrid.ItemStartable, BuildModelBatch, Narrow;
    assert QueuesOk(s) && PendingOk(s, b.phase, b.items) by {
      InvParts(s, b.phase, b.items);
    }
    BuildSucceedsExactly(s, b);
    BatchAcceptable(s, b, m);
    forall i | 0 <= i < |m.items| ensures s.state.ItemStartable(m, i) {
      BuiltLength(m, b.items, s.sequences, s.state.pages);
      ItemStarts(s, b, m, i);
    }
  }

  lemma InvParts(s: Sched, phase: Phase, items: seq<Item>)
    requires Inv(s, phase, items)
    ensures QueuesOk(s) && PendingOk(s, phase, items) && ResourcesOk(s)
  {
  }

  lemma BuiltLength(m: ModelBatch, items: seq<Item>, sequences: map<nat, SeqData>, pages: Pages)
    requires Built(m, items, sequences, pages)
    ensures |m.items| == |items|
  {
  }

  // ---------------------------------------------------------------- slots never collide

  lemma {:induction false} RowSlotsAt(m: ModelBatch, table: seq<nat>, from: nat, count: nat, size: Positive, i: nat)
    requires i < count
    ensures |RowSlots(m, table, from, count, size)| == count
    ensures RowSlots(m, table, from, count, size)[i] == RowSlot(m, table, from + i, size)
  {
    if count > 1 {
      RowSlotsAt(m, table, from, count - 1, size, if i < count - 1 then i else 0);
    }
  }

  ghost predicate OffsetsOk(m: ModelBatch) {
    forall i :: 0 <= i < |m.items| ==> m.items[i].offset == RowsBefore(m.items, i)
  }

  lemma OffsetAt(m: ModelBatch, i: nat)
    requires OffsetsOk(m) && i < |m.items|
    ensures m.items[i].offset == RowsBefore(m.items, i)
  {
  }

  /** Each slot of the first n items belongs to some row of some of them. */
  lemma {:induction false} SlotHasRow(m: ModelBatch, n: nat, size: Positive, at: nat)
    returns (i: nat, row: nat)
    requires n <= |m.items| && at < |ItemSlots(m, n, size)|
    requires OffsetsOk(m)
    ensures i < n && m.items[i].offset <= row < m.items[i].offset + m.items[i].count && row == at
    ensures ItemSlots(m, n, size)[at] == RowSlot(m, m.items[i].table, row, size)
  {
    hide OffsetsOk, RowSlot;
    var item := m.items[n - 1];
    SlotCount(m, n - 1, size);
    SlotCount(m, n, size);
    OffsetAt(m, n - 1);
    if at < |ItemSlots(m, n - 1, size)| {
      i, row := SlotHasRow(m, n - 1, size, at);
    } else {
      i, row := n - 1, at;
      RowSlotsAt(m, item.table, item.offset, item.count, size, at - item.offset);
    }
  }

  lemma {:induction false} SlotCount(m: ModelBatch, n: nat, size: Positive)
    requires n <= |m.items|
    ensures |ItemSlots(m, n, size)| == RowsBefore(m.items, n)
  {
    if n > 0 {
      SlotCount(m, n - 1, size);
      if m.items[n - 1].count > 0 {
        RowSlotsAt(m, m.items[n - 1].table, m.items[n - 1].offset, m.items[n - 1].count, size, 0);
      }
    }
  }

  lemma RowsApart(s: Sched, b: Batch, m: ModelBatch, i: nat, r1: nat, j: nat, r2: nat)
    requires Inv(s, b.phase, b.items) && i < |b.items| && j < |b.items|
    requires Built(m, b.items, s.sequences, s.state.pages)
    requires m.items[i].offset <= r1 < m.items[i].offset + m.items[i].count
    requires m.items[j].offset <= r2 < m.items[j].offset + m.items[j].count
    requires i <= j && r1 != r2
    ensures RowSlot(m, m.items[i].table, r1, s.state.pages.size) != RowSlot(m, m.items[j].table, r2, s.state.pages.size)
    ensures RowSlot(m, m.items[i].table, r1, s.state.pages.size) < s.state.pages.count * s.state.pages.size
  {
    hide Inv, BlocksFor, Slot;
    var size := s.state.pages.size;
    RowWithin(s, b, m, i, r1);
    RowWithin(s, b, m, j, r2);
    ItemReserved(s, b.phase, b.items, i);
    ItemReserved(s, b.phase, b.items, j);
    assert BuiltItem(m, b.items, i, s.sequences, s.state.pages) && BuiltItem(m, b.items, j, s.sequences, s.state.pages);
    RowPlaced(m, b.items, i, s.sequences, s.state.pages, r1);
    RowPlaced(m, b.items, j, s.sequences, s.state.pages, r2);
    if i == j {
      SlotInjective(m.items[i].table, size, m.positions[r1], m.positions[r2]);
    } else {
      DistinctScheduled(s, b.phase, b.items, i, j);
      TablesOfLive(s, b.phase, b.items, b.items[i].id, b.items[j].id);
      SlotsApart(m.items[i].table, m.items[j].table, size, m.positions[r1], m.positions[r2]);
    }
  }

  lemma TablesOfLive(s: Sched, phase: Phase, items: seq<Item>, i: nat, j: nat)
    requires Inv(s, phase, items) && i in s.state.sequences && j in s.state.sequences && i != j
    ensures Disjoint(s.state.pages.Table(i), s.state.pages.Table(j))
  {
    TablesApart(s.state, i, j);
  }

  /** All slots of a built batch are pairwise distinct and inside the pool. */
  lemma BatchSlotsDistinct(s: Sched, b: Batch, m: ModelBatch)
    requires Inv(s, b.phase, b.items) && b.items != []
    requires BuildModelBatch(b, s.sequences, s.state.pages) == Ok(m)
    ensures var slots := MetadataOf(m, |m.items|, s.state.pages.size).slots;
            && |slots| == |m.tokens| && NoDup(slots)
            && forall x :: x in slots ==> x < s.state.pages.count * s.state.pages.size
  {
    hide Inv, Built, BuildModelBatch, RowSlot, OffsetsOk;
    InvParts(s, b.phase, b.items);
    BuildSucceedsExactly(s, b);
    var size := s.state.pages.size;
    var slots := ItemSlots(m, |m.items|, size);
    BuiltOffsets(m, b.items, s.sequences, s.state.pages);
    SlotCount(m, |m.items|, size);
    forall x, y | 0 <= x < y < |slots| ensures slots[x] != slots[y] {
      var i, r1 := SlotHasRow(m, |m.items|, size, x);
      var j, r2 := SlotHasRow(m, |m.items|, size, y);
      if i <= j {
        RowsApart(s, b, m, i, r1, j, r2);
      } else {
        RowsApart(s, b, m, j, r2, i, r1);
      }
    }
    forall x | 0 <= x < |slots| ensures slots[x] < s.state.pages.count * size {
      var i, r1 := SlotHasRow(m, |m.items|, size, x);
      RowWithin(s, b, m, i, r1);
    }
  }

  lemma BuiltOffsets(m: ModelBatch, items: seq<Item>, sequences: map<nat, SeqData>, pages: Pages)
    requires Built(m, items, sequences, pages)
    ensures |m.items| == |items| && |m.tokens| == RowsBefore(m.items, |m.items|) && OffsetsOk(m)
  {
    forall i | 0 <= i < |m.items| ensures m.items[i].offset == RowsBefore(m.items, i) {
      assert BuiltItem(m, items, i, sequences, pages);
    }
  }

  // ---------------------------------------------------------------- every row finds its own table

  lemma {:induction false} RepeatAt(x: nat, n: nat, i: nat)
    ensures |Repeat(x, n)| == n
    ensures i < n ==> Repeat(x, n)[i] == x
  {
    if n > 0 {
      RepeatAt(x, n - 1, i);
    }
  }

  lemma {:induction false} TablesAt(items: seq<ModelItem>, n: nat, i: nat)
    requires i < n <= |items|
    ensures Slice(Tables(items, n), EntriesBefore(items, i), |items[i].table|) == items[i].table
  {
    if i == n - 1 {
      SliceAppended(Tables(items, i), items[i].table);
    } else {
      TablesAt(items, n - 1, i);
      EntriesBeforeMonotone(items, i + 1, n - 1);
      SlicePrefix(Tables(items, n - 1), Tables(items, n), EntriesBefore(items, i), |items[i].table|);
    }
  }

  /** The table that the metadata gives to a row is the table of the row's own item. */
  lemma {:induction false} RowTable(items: seq<ModelItem>, n: nat, i: nat, row: nat)
    requires i < n <= |items|
    requires RowsBefore(items, i) <= row < RowsBefore(items, i) + items[i].count
    ensures |TableOffsets(items, n)| == |TableLengths(items, n)| == RowsBefore(items, n) && row < RowsBefore(items, n)
    ensures TableOffsets(items, n)[row] == EntriesBefore(items, i) && TableLengths(items, n)[row] == |items[i].table|
    ensures Slice(Tables(items, n), TableOffsets(items, n)[row], TableLengths(items, n)[row]) == items[i].table
  {
    TablesAt(items, n, i);
    RowTableOffsets(items, n, i, row);
  }

  lemma {:induction false} RowTableOffsets(items: seq<ModelItem>, n: nat, i: nat, row: nat)
    requires i < n <= |items|
    requires RowsBefore(items, i) <= row < RowsBefore(items, i) + items[i].count
    ensures |TableOffsets(items, n)| == |TableLengths(items, n)| == RowsBefore(items, n) && row < RowsBefore(items, n)
    ensures TableOffsets(items, n)[row] == EntriesBefore(items, i) && TableLengths(items, n)[row] == |items[i].table|
  {
    hide EntriesBefore, Repeat, RowsBefore, TableOffsets, TableLengths;
    MetadataLengths(items, n - 1);
    MetadataLengths(items, n);
    MetadataStep(items, n);
    var item, before := items[n - 1], RowsBefore(items, n - 1);
    if i < n - 1 {
      RowTableOffsets(items, n - 1, i, row);
    } else {
      RepeatAt(EntriesBefore(items, n - 1), item.count, row - before);
      RepeatAt(|item.table|, item.count, row - before);
    }
  }

  lemma MetadataStep(items: seq<ModelItem>, n: nat)
    requires 0 < n <= |items|
    ensures RowsBefore(items, n) == RowsBefore(items, n - 1) + items[n - 1].count
    ensures TableOffsets(items, n) == TableOffsets(items, n - 1) + Repeat(EntriesBefore(items, n - 1), items[n - 1].count)
    ensures TableLengths(items, n) == TableLengths(items, n - 1) + Repeat(|items[n - 1].table|, items[n - 1].count)
  {
  }

  lemma {:induction false} MetadataLengths(items: seq<ModelItem>, n: nat)
    requires n <= |items|
    ensures |TableOffsets(items, n)| == |TableLengths(items, n)| == RowsBefore(items, n)
  {
    if n > 0 {
      MetadataLengths(items, n - 1);
      RepeatAt(EntriesBefore(items, n - 1), items[n - 1].count, 0);
      RepeatAt(|items[n - 1].table|, items[n - 1].count, 0);
    }
  }
}

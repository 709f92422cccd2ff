/** Scheduled work and the flat batch handed to a backend: src/model_batch.cc and the batch types of src/scheduler.h. */
module Batches {
  import opened Wrappers
  import opened Sequences
  import opened Paging

  const MAX_U32 := 0xFFFF_FFFF

  datatype Phase = Prefill | Decode

  datatype Item = Item(id: nat, count: nat, sample: bool)

  datatype Batch = Batch(id: nat, phase: Phase, items: seq<Item>)

  datatype BatchError =
    | EmptyBatch
    | InconsistentBatch
    | ZeroTokenCount
    | DuplicateSequenceId
    | UnknownSequence
    | InvalidSequenceState
    | ScheduledTokenCountMismatch
    | TokenRangeOutOfBounds
    | PositionOutOfRange

  datatype ModelItem = ModelItem(id: nat, offset: nat, count: nat, logits: Option<nat>, table: seq<nat>)

  datatype ModelBatch = ModelBatch(
    id: nat, phase: Phase, blockSize: nat, tokens: seq<Token>, positions: seq<nat>, items: seq<ModelItem>)
  {
    function SampleCount(): nat {
      CountLogits(items)
    }
  }

  function CountLogits(items: seq<ModelItem>): nat {
    if items == [] then 0
    else CountLogits(items[..|items| - 1]) + (if items[|items| - 1].logits.Some? then 1 else 0)
  }

  // ---------------------------------------------------------------- build_model_batch

  function ExpectedStatus(phase: Phase): Status {
    if phase == Prefill then Waiting else Running
  }

  /** The checks on one item, in order; None when it passes. */
  function ItemFault(item: Item, phase: Phase, repeated: bool, sequences: map<nat, SeqData>): Option<BatchError> {
    if item.count == 0 then Some(ZeroTokenCount)
    else if repeated then Some(DuplicateSequenceId)
    else if item.id !in sequences then Some(UnknownSequence)
    else
      var q := sequences[item.id];
      if q.status != ExpectedStatus(phase) then Some(InvalidSequenceState)
      else if item.count != q.scheduled then Some(ScheduledTokenCountMismatch)
      else if q.processed > |q.tokens| || item.count > |q.tokens| - q.processed then Some(TokenRangeOutOfBounds)
      else if q.processed > MAX_U32 || item.count - 1 > MAX_U32 - q.processed then Some(PositionOutOfRange)
      else None
  }

  predicate Listed(items: seq<Item>, id: nat) {
    exists i :: 0 <= i < |items| && items[i].id == id
  }

  /** The first fault from item i on. */
  function FirstFault(b: Batch, sequences: map<nat, SeqData>, i: nat): Option<BatchError>
    requires i <= |b.items|
    decreases |b.items| - i
  {
    if i == |b.items| then None
    else
      var fault := ItemFault(b.items[i], b.phase, Listed(b.items[..i], b.items[i].id), sequences);
      if fault.Some? then fault else FirstFault(b, sequences, i + 1)
  }

  predicate Buildable(items: seq<Item>, sequences: map<nat, SeqData>) {
    forall i :: 0 <= i < |items| ==>
                  && items[i].id in sequences
                  && 0 < items[i].count
                  && sequences[items[i].id].processed + items[i].count <= |sequences[items[i].id].tokens|
  }

  function ItemTokens(item: Item, sequences: map<nat, SeqData>): seq<Token>
    requires item.id in sequences
    requires sequences[item.id].processed + item.count <= |sequences[item.id].tokens|
  {
    var q := sequences[item.id];
    q.tokens[q.processed..q.processed + item.count]
  }

  function Consecutive(from: nat, n: nat): (r: seq<nat>)
    ensures |r| == n
  {
    if n == 0 then [] else Consecutive(from, n - 1) + [from + n - 1]
  }

  function ItemPositions(item: Item, sequences: map<nat, SeqData>): seq<nat>
    requires item.id in sequences
  {
    Consecutive(sequences[item.id].processed, item.count)
  }

  /** Appends one item's rows to a batch under construction. */
  function AddItem(m: ModelBatch, item: Item, sequences: map<nat, SeqData>, pages: Pages): ModelBatch
    requires Buildable([item], sequences)
  {
    assert [item][0] == item;
    var offset := |m.tokens|;
    m.(tokens := m.tokens + ItemTokens(item, sequences),
       positions := m.positions + ItemPositions(item, sequences),
       items := m.items + [ModelItem(item.id, offset, item.count,
                                     if item.sample then Some(offset + item.count - 1) else None,
                                     pages.Table(item.id))])
  }

  function Assemble(m: ModelBatch, items: seq<Item>, sequences: map<nat, SeqData>, pages: Pages): ModelBatch
    requires Buildable(items, sequences)
  {
    if items == [] then m
    else
      var n := |items| - 1;
      assert items[n].id in sequences;
      AddItem(Assemble(m, items[..n], sequences, pages), items[n], sequences, pages)
  }

  lemma {:induction false} NoFaultBuildable(b: Batch, sequences: map<nat, SeqData>, i: nat)
    requires i <= |b.items|
    requires FirstFault(b, sequences, i) == None
    ensures forall j :: i <= j < |b.items| ==>
                          ItemFault(b.items[j], b.phase, Listed(b.items[..j], b.items[j].id), sequences) == None
    decreases |b.items| - i
  {
    if i < |b.items| {
      NoFaultBuildable(b, sequences, i + 1);
    }
  }

  function BuildModelBatch(b: Batch, sequences: map<nat, SeqData>, pages: Pages): (r: Result<ModelBatch, BatchError>) {
    if b.items == [] then Err(EmptyBatch)
    else
      match FirstFault(b, sequences, 0)
      case Some(e) => Err(e)
      case None =>
        NoFaultBuildable(b, sequences, 0);
        Ok(Assemble(ModelBatch(b.id, b.phase, pages.size, [], [], []), b.items, sequences, pages))
  }

  // ---------------------------------------------------------------- prepare_paged_batch

  datatype Metadata = Metadata(
    slots: seq<nat>, blockTable: seq<nat>, tableOffsets: seq<nat>, tableLengths: seq<nat>, logits: seq<nat>)

  /** Rows before item i. */
  function RowsBefore(items: seq<ModelItem>, i: nat): nat
    requires i <= |items|
  {
    if i == 0 then 0 else RowsBefore(items, i - 1) + items[i - 1].count
  }

  /** Page-table entries before item i. */
  function EntriesBefore(items: seq<ModelItem>, i: nat): nat
    requires i <= |items|
  {
    if i == 0 then 0 else EntriesBefore(items, i - 1) + |items[i - 1].table|
  }

  predicate RowAcceptable(b: ModelBatch, table: seq<nat>, row: nat, maxPositions: nat, blockSize: nat) {
    && 0 < blockSize
    && row < |b.positions|
    && b.positions[row] < maxPositions
    && b.positions[row] / blockSize < |table|
    && Slot(table, blockSize, b.positions[row]) <= MAX_U32
  }

  predicate RowsAcceptable(b: ModelBatch, item: ModelItem, n: nat, maxPositions: nat, blockSize: nat) {
    forall row: nat :: item.offset <= row < item.offset + n ==>
                       RowAcceptable(b, item.table, row, maxPositions, blockSize)
  }

  predicate ShapeAcceptable(b: ModelBatch, i: nat)
    requires i < |b.items|
  {
    var item := b.items[i];
    && item.count != 0
    && item.offset == RowsBefore(b.items, i)
    && item.offset + item.count <= |b.tokens|
    && (item.logits.Some? ==> item.offset <= item.logits.value < item.offset + item.count)
    && item.table != []
    && EntriesBefore(b.items, i) + |item.table| <= MAX_U32
  }

  predicate ItemAcceptable(b: ModelBatch, i: nat, maxPositions: nat, blockCount: nat, blockSize: nat)
    requires i < |b.items|
  {
    var item := b.items[i];
    && ShapeAcceptable(b, i)
    && (forall t :: 0 <= t < |item.table| ==> item.table[t] < blockCount)
    && RowsAcceptable(b, item, item.count, maxPositions, blockSize)
  }

  /** Exactly the batches that prepare_paged_batch takes. */
  predicate Acceptable(b: ModelBatch, maxPositions: nat, blockCount: nat, blockSize: nat) {
    && b.items != []
    && 0 < blockSize
    && 0 < blockCount
    && |b.tokens| == |b.positions|
    && b.blockSize == blockSize
    && (forall i :: 0 <= i < |b.items| ==> ItemAcceptable(b, i, maxPositions, blockCount, blockSize))
    && RowsBefore(b.items, |b.items|) == |b.tokens|
  }

  /** The physical slot of a row through a page table; 0 for a row the table does not reach. */
  function RowSlot(b: ModelBatch, table: seq<nat>, row: nat, blockSize: nat): nat
    requires 0 < blockSize
  {
    if row < |b.positions| then Slot(table, blockSize, b.positions[row]) else 0
  }

  /** The slots of `count` rows from `from` on. */
  function RowSlots(b: ModelBatch, table: seq<nat>, from: nat, count: nat, blockSize: nat): seq<nat>
    requires 0 < blockSize
  {
    if count == 0 then []
    else RowSlots(b, table, from, count - 1, blockSize) + [RowSlot(b, table, from + count - 1, blockSize)]
  }

  /** The slots of the first n items, one after the other. */
  function ItemSlots(b: ModelBatch, n: nat, blockSize: nat): seq<nat>
    requires n <= |b.items| && 0 < blockSize
  {
    if n == 0 then []
    else
      var item := b.items[n - 1];
      ItemSlots(b, n - 1, blockSize) + RowSlots(b, item.table, item.offset, item.count, blockSize)
  }

  function Repeat(x: nat, n: nat): seq<nat> {
    if n == 0 then [] else Repeat(x, n - 1) + [x]
  }

  function TableOffsets(items: seq<ModelItem>, n: nat): seq<nat>
    requires n <= |items|
  {
    if n == 0 then [] else TableOffsets(items, n - 1) + Repeat(EntriesBefore(items, n - 1), items[n - 1].count)
  }

  function TableLengths(items: seq<ModelItem>, n: nat): seq<nat>
    requires n <= |items|
  {
    if n == 0 then [] else TableLengths(items, n - 1) + Repeat(|items[n - 1].table|, items[n - 1].count)
  }

  function Tables(items: seq<ModelItem>, n: nat): (r: seq<nat>)
    requires n <= |items|
    ensures |r| == EntriesBefore(items, n)
  {
    if n == 0 then [] else Tables(items, n - 1) + items[n - 1].table
  }

  function LogitRows(items: seq<ModelItem>, n: nat): seq<nat>
    requires n <= |items|
  {
    if n == 0 then []
    else LogitRows(items, n - 1) + (if items[n - 1].logits.Some? then [items[n - 1].logits.value] else [])
  }

  function MetadataOf(b: ModelBatch, n: nat, blockSize: nat): Metadata
    requires n <= |b.items| && 0 < blockSize
  {
    Metadata(ItemSlots(b, n, blockSize), Tables(b.items, n), TableOffsets(b.items, n),
             TableLengths(b.items, n), LogitRows(b.items, n))
  }

  lemma RowAcceptableIs(b: ModelBatch, table: seq<nat>, row: nat, maxPositions: nat, blockSize: nat)
    requires 0 < blockSize && row < |b.positions|
    ensures RowAcceptable(b, table, row, maxPositions, blockSize) <==>
            b.positions[row] < maxPositions && b.positions[row] / blockSize < |table|
            && Slot(table, blockSize, b.positions[row]) <= MAX_U32
  {
    hide Slot;
  }

  /** The row loop of one item; None when a row has no place. */
  method PrepareRows(b: ModelBatch, item: ModelItem, entries: nat, maxPositions: nat, blockSize: nat)
    returns (r: Option<(seq<nat>, seq<nat>, seq<nat>)>)
    requires 0 < blockSize && item.offset + item.count <= |b.positions|
    ensures r.Some? <==> RowsAcceptable(b, item, item.count, maxPositions, blockSize)
    ensures r.Some? ==> r.value == (RowSlots(b, item.table, item.offset, item.count, blockSize),
                                    Repeat(entries, item.count),
                                    Repeat(|item.table|, item.count))
  {
    hide Slot, RowAcceptable;
    var slots: seq<nat>, offsets: seq<nat>, lengths: seq<nat> := [], [], [];
    var n := 0;
    while n < item.count
      invariant n <= item.count
      invariant RowsAcceptable(b, item, n, maxPositions, blockSize)
      invariant slots == RowSlots(b, item.table, item.offset, n, blockSize)
      invariant offsets == Repeat(entries, n) && lengths == Repeat(|item.table|, n)
    {
      var row := item.offset + n;
      var position := b.positions[row];
      RowAcceptableIs(b, item.table, row, maxPositions, blockSize);
      if position >= maxPositions || position / blockSize >= |item.table| {
        assert !RowAcceptable(b, item.table, row, maxPositions, blockSize);
        return None;
      }
      var slot := Slot(item.table, blockSize, position);
      if slot > MAX_U32 {
        assert !RowAcceptable(b, item.table, row, maxPositions, blockSize);
        return None;
      }
      slots := slots + [slot];
      offsets := offsets + [entries];
      lengths := lengths + [|item.table|];
      n := n + 1;
    }
    return Some((slots, offsets, lengths));
  }

  /** The checks and the rows of one item; None when a check fails. */
  method PrepareItem(b: ModelBatch, i: nat, entries: nat, maxPositions: nat, blockCount: nat, blockSize: nat)
    returns (r: Option<(seq<nat>, seq<nat>, seq<nat>)>)
    requires i < |b.items| && entries == EntriesBefore(b.items, i)
    requires |b.tokens| == |b.positions| && 0 < blockSize
    requires b.items[i].offset == RowsBefore(b.items, i) <= |b.tokens|
    ensures r.Some? <==> ItemAcceptable(b, i, maxPositions, blockCount, blockSize)
    ensures r.Some? ==>
              var item := b.items[i];
              r.value == (RowSlots(b, item.table, item.offset, item.count, blockSize),
                          Repeat(entries, item.count),
                          Repeat(|item.table|, item.count))
  {
    var item := b.items[i];
    if item.count == 0
       || item.count > |b.tokens| - item.offset
       || (item.logits.Some? && (item.logits.value < item.offset || item.logits.value >= item.offset + item.count))
       || item.table == []
       || entries > MAX_U32
       || |item.table| > MAX_U32 - entries {
      assert !ShapeAcceptable(b, i);
      return None;
    }
    var t := 0;
    while t < |item.table|
      invariant t <= |item.table|
      invariant forall u :: 0 <= u < t ==> item.table[u] < blockCount
    {
      if item.table[t] >= blockCount {
        return None;
      }
      t := t + 1;
    }
    r := PrepareRows(b, item, entries, maxPositions, blockSize);
  }

  /** prepare_paged_batch: it succeeds exactly on acceptable batches, and then gives every row its own slot and table. */
  method PreparePagedBatch(b: ModelBatch, maxPositions: nat, blockCount: nat, blockSize: nat)
    returns (r: Result<Metadata, BatchError>)
    ensures r.Ok? <==> Acceptable(b, maxPositions, blockCount, blockSize)
    ensures r.Err? ==> r.error == if b.items == [] then EmptyBatch else InconsistentBatch
    ensures r.Ok? ==> r.value == MetadataOf(b, |b.items|, blockSize)
  {
    if b.items == [] {
      return Err(EmptyBatch);
    }
    if blockSize == 0 || blockCount == 0 || |b.tokens| != |b.positions| || b.blockSize != blockSize {
      return Err(InconsistentBatch);
    }
    var m := Metadata([], [], [], [], []);
    var expected := 0;
    var i := 0;
    while i < |b.items|
      invariant i <= |b.items|
      invariant expected == RowsBefore(b.items, i) <= |b.tokens|
      invariant forall j :: 0 <= j < i ==> ItemAcceptable(b, j, maxPositions, blockCount, blockSize)
      invariant m == MetadataOf(b, i, blockSize)
    {
      var item := b.items[i];
      if item.offset != expected {
        assert !ItemAcceptable(b, i, maxPositions, blockCount, blockSize);
        return Err(InconsistentBatch);
      }
      var rows := PrepareItem(b, i, |m.blockTable|, maxPositions, blockCount, blockSize);
      if rows == None {
        return Err(InconsistentBatch);
      }
      m := Metadata(m.slots + rows.value.0, m.blockTable + item.table, m.tableOffsets + rows.value.1,
                    m.tableLengths + rows.value.2,
                    m.logits + (if item.logits.Some? then [item.logits.value] else []));
      expected := expected + item.count;
      i := i + 1;
    }
    if expected != |b.tokens| {
      return Err(InconsistentBatch);
    }
    return Ok(m);
  }
}

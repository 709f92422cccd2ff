/** Which batches build_model_batch makes and prepare_paged_batch accepts, item by item and row by row:
    src/model_batch.cc:34-206. */
module AcceptedBatches {
  import opened Wrappers
  import opened Sequences
  import opened Paging
  import opened Batches
  import opened Building
  import Budgeting

  /** The items take all rows, one after the other, each at least one. */
  ghost predicate Tiled(items: seq<ModelItem>, rows: nat) {
    forall i :: 0 <= i < |items| ==> TiledAt(items, i, rows)
  }

  ghost predicate TiledAt(items: seq<ModelItem>, i: nat, rows: nat)
    requires i < |items|
  {
    && 0 < items[i].count && (i == 0 ==> items[i].offset == 0)
    && items[i].offset + items[i].count == if i + 1 < |items| then items[i + 1].offset else rows
  }

  /** A row whose position the model has, whose page its item's table has, and whose slot has a 32-bit number. */
  ghost predicate RowFits(m: ModelBatch, table: seq<nat>, row: nat, maxPositions: nat, size: Positive) {
    && row < |m.positions| && m.positions[row] < maxPositions && m.positions[row] < |table| * size
    && RowSlot(m, table, row, size) <= MAX_U32
  }

  /** All rows of an item fit, it samples at most one of its own, and its pages are in the pool. */
  ghost predicate ItemFits(m: ModelBatch, i: nat, maxPositions: nat, count: nat, size: Positive)
    requires i < |m.items|
  {
    var item := m.items[i];
    && item.table != [] && InPool(item.table, count)
    && (item.logits.Some? ==> item.offset <= item.logits.value < item.offset + item.count)
    && forall row: nat :: item.offset <= row < item.offset + item.count ==> RowFits(m, item.table, row, maxPositions, size)
  }

  lemma {:induction false} TiledRows(items: seq<ModelItem>, rows: nat, i: nat)
    requires Tiled(items, rows) && i < |items|
    ensures RowsBefore(items, i) == items[i].offset
  {
    if i > 0 {
      TiledRows(items, rows, i - 1);
      assert TiledAt(items, i - 1, rows);
    } else {
      assert TiledAt(items, 0, rows);
    }
  }

  lemma TiledEnd(items: seq<ModelItem>, rows: nat)
    requires Tiled(items, rows) && items != []
    ensures RowsBefore(items, |items|) == rows
    ensures forall i :: 0 <= i < |items| ==> items[i].offset + items[i].count <= rows
  {
    var n := |items| - 1;
    TiledRows(items, rows, n);
    assert TiledAt(items, n, rows);
    forall i | 0 <= i < |items| ensures items[i].offset + items[i].count <= rows {
      TiledRows(items, rows, i);
      RowsGrow(items, i + 1, |items|);
    }
  }

  lemma {:induction false} RowsGrow(items: seq<ModelItem>, i: nat, j: nat)
    requires i <= j <= |items|
    ensures RowsBefore(items, i) <= RowsBefore(items, j)
    decreases j
  {
    if i < j {
      RowsGrow(items, i, j - 1);
    }
  }

  lemma PageOf(position: nat, pages: nat, size: Positive)
    ensures position / size < pages <==> position < pages * size
  {
    DivMod(position, size);
    if position / size < pages {
      Budgeting.TimesAtMost(position / size + 1, pages, size);
    } else {
      Budgeting.TimesAtMost(pages, position / size, size);
    }
  }

  lemma RowFitsIs(m: ModelBatch, table: seq<nat>, row: nat, maxPositions: nat, size: Positive)
    ensures RowFits(m, table, row, maxPositions, size) <==> RowAcceptable(m, table, row, maxPositions, size)
  {
    hide Slot;
    if row < |m.positions| {
      PageOf(m.positions[row], |table|, size);
    }
  }

  lemma InPoolAt(table: seq<nat>, count: nat)
    ensures InPool(table, count) <==> forall t :: 0 <= t < |table| ==> table[t] < count
  {
    if InPool(table, count) {
      forall t | 0 <= t < |table| ensures table[t] < count {
        assert table[t] in table;
      }
    }
  }

  lemma ItemFitsIs(m: ModelBatch, i: nat, maxPositions: nat, count: nat, size: Positive)
    requires i < |m.items| && 0 < m.items[i].count && m.items[i].offset == RowsBefore(m.items, i)
    requires m.items[i].offset + m.items[i].count <= |m.tokens| && EntriesBefore(m.items, i) + |m.items[i].table| <= MAX_U32
    ensures ItemFits(m, i, maxPositions, count, size) <==> ItemAcceptable(m, i, maxPositions, count, size)
  {
    hide RowFits, RowAcceptable;
    var item := m.items[i];
    forall row: nat
      ensures RowFits(m, item.table, row, maxPositions, size) <==> RowAcceptable(m, item.table, row, maxPositions, size)
    {
      RowFitsIs(m, item.table, row, maxPositions, size);
    }
    InPoolAt(item.table, count);
  }

  lemma AcceptedTiled(m: ModelBatch, maxPositions: nat, count: nat, size: Positive)
    requires Acceptable(m, maxPositions, count, size)
    ensures Tiled(m.items, |m.tokens|) && EntriesBefore(m.items, |m.items|) <= MAX_U32
  {
    hide RowsAcceptable, EntriesBefore;
    forall i | 0 <= i < |m.items| ensures TiledAt(m.items, i, |m.tokens|) {
      assert ItemAcceptable(m, i, maxPositions, count, size);
      if i + 1 < |m.items| {
        assert ItemAcceptable(m, i + 1, maxPositions, count, size);
      }
    }
    assert ItemAcceptable(m, |m.items| - 1, maxPositions, count, size);
    LastEntries(m.items);
  }

  lemma LastEntries(items: seq<ModelItem>)
    requires items != []
    ensures EntriesBefore(items, |items|) == EntriesBefore(items, |items| - 1) + |items[|items| - 1].table|
  {
  }

  /** A batch is accepted exactly when it is not empty, was made for pages of this size, has one position per token, its items
      take all rows in order, each fits, and the flattened tables have 32-bit offsets. */
  lemma AcceptsExactly(m: ModelBatch, maxPositions: nat, count: nat, size: Positive)
    ensures Acceptable(m, maxPositions, count, size) <==>
            && m.items != [] && 0 < count && m.blockSize == size && |m.tokens| == |m.positions|
            && Tiled(m.items, |m.tokens|) && EntriesBefore(m.items, |m.items|) <= MAX_U32
            && forall i :: 0 <= i < |m.items| ==> ItemFits(m, i, maxPositions, count, size)
  {
    hide ItemFits, EntriesBefore, RowsBefore, Tiled;
    if Acceptable(m, maxPositions, count, size) {
      AcceptedTiled(m, maxPositions, count, size);
    }
    if m.items != [] && Tiled(m.items, |m.tokens|) && EntriesBefore(m.items, |m.items|) <= MAX_U32 {
      TiledEnd(m.items, |m.tokens|);
      forall i | 0 <= i < |m.items|
        ensures ItemFits(m, i, maxPositions, count, size) <==> ItemAcceptable(m, i, maxPositions, count, size)
      {
        TiledRows(m.items, |m.tokens|, i);
        TiledCount(m.items, |m.tokens|, i);
        EntriesBeforeMonotone(m.items, i + 1, |m.items|);
        NextEntries(m.items, i);
        ItemFitsIs(m, i, maxPositions, count, size);
      }
    }
  }

  lemma TiledCount(items: seq<ModelItem>, rows: nat, i: nat)
    requires Tiled(items, rows) && i < |items|
    ensures 0 < items[i].count
  {
    assert TiledAt(items, i, rows);
  }

  lemma NextEntries(items: seq<ModelItem>, i: nat)
    requires i < |items|
    ensures EntriesBefore(items, i + 1) == EntriesBefore(items, i) + |items[i].table|
  {
  }

  /** Every row of an accepted batch has a slot inside the pool. */
  lemma AcceptedSlot(m: ModelBatch, maxPositions: nat, count: nat, size: Positive, i: nat, row: nat)
    requires Acceptable(m, maxPositions, count, size) && i < |m.items|
    requires m.items[i].offset <= row < m.items[i].offset + m.items[i].count
    ensures RowSlot(m, m.items[i].table, row, size) < count * size
  {
    hide EntriesBefore, RowsBefore, Tiled, Slot;
    AcceptsExactly(m, maxPositions, count, size);
    assert ItemFits(m, i, maxPositions, count, size);
    assert RowFits(m, m.items[i].table, row, maxPositions, size);
    PageOf(m.positions[row], |m.items[i].table|, size);
    SlotInRange(m.items[i].table, size, m.positions[row], count);
  }

  /** The rows to sample, in order: one for each item that samples. */
  lemma {:induction false} LogitRowsAre(items: seq<ModelItem>, n: nat, i: nat)
    requires i < n <= |items|
    ensures |LogitRows(items, n)| == CountLogits(items[..n])
    ensures items[i].logits.Some? ==>
              && CountLogits(items[..i]) < |LogitRows(items, n)|
              && LogitRows(items, n)[CountLogits(items[..i])] == items[i].logits.value
  {
    assert items[..n][..n - 1] == items[..n - 1];
    if n == 1 {
      assert items[..0] == [];
    } else if i < n - 1 {
      LogitRowsAre(items, n - 1, i);
    } else {
      LogitRowsAre(items, n - 1, 0);
    }
  }

  // ---------------------------------------------------------------- build_model_batch

  /** The item is what its sequence has scheduled, and its positions have 32-bit numbers. */
  ghost predicate Matches(b: Batch, sequences: map<nat, SeqData>, i: nat)
    requires i < |b.items|
  {
    && b.items[i].id in sequences
    && var q, count := sequences[b.items[i].id], b.items[i].count;
       && (b.phase == Prefill ==> q.status == Waiting) && (b.phase == Decode ==> q.status == Running)
       && 0 < count == q.scheduled && q.processed + count <= |q.tokens| && q.processed + count - 1 <= MAX_U32
  }

  ghost predicate ItemBuildable(b: Batch, sequences: map<nat, SeqData>, i: nat)
    requires i < |b.items|
  {
    Matches(b, sequences, i) && forall j :: 0 <= j < i ==> b.items[j].id != b.items[i].id
  }

  lemma FaultIs(b: Batch, sequences: map<nat, SeqData>, i: nat)
    requires i < |b.items|
    ensures ItemFault(b.items[i], b.phase, Listed(b.items[..i], b.items[i].id), sequences) == None
            <==> ItemBuildable(b, sequences, i)
  {
    var before := b.items[..i];
    assert Listed(before, b.items[i].id) <==> !(forall j :: 0 <= j < i ==> b.items[j].id != b.items[i].id) by {
      assert forall j :: 0 <= j < i ==> before[j] == b.items[j];
    }
  }

  lemma {:induction false} FirstFaultIs(b: Batch, sequences: map<nat, SeqData>, i: nat)
    requires i <= |b.items|
    ensures FirstFault(b, sequences, i) == None <==> forall j :: i <= j < |b.items| ==> ItemBuildable(b, sequences, j)
    decreases |b.items| - i
  {
    hide ItemFault, ItemBuildable, Listed;
    if i < |b.items| {
      FaultIs(b, sequences, i);
      FirstFaultIs(b, sequences, i + 1);
    }
  }

  /** A batch is built exactly when it has items, no two for one sequence, each for just the tokens that its sequence has
      scheduled in this phase; and then its rows are those tokens at their positions, under the sequence's own page table. */
  lemma BuildsExactly(b: Batch, sequences: map<nat, SeqData>, pages: Pages)
    ensures var r := BuildModelBatch(b, sequences, pages);
            && (r.Ok? <==> b.items != [] && forall i :: 0 <= i < |b.items| ==> ItemBuildable(b, sequences, i))
            && (r.Ok? ==> r.value.id == b.id && r.value.phase == b.phase && r.value.blockSize == pages.size
                          && Built(r.value, b.items, sequences, pages))
  {
    hide Built, FirstFault, ItemBuildable, Assemble;
    FirstFaultIs(b, sequences, 0);
    if FirstFault(b, sequences, 0) == None {
      NoFaultBuildable(b, sequences, 0);
      ToBuild(b, sequences);
      AssembleBuilds(ModelBatch(b.id, b.phase, pages.size, [], [], []), b.items, sequences, pages);
    }
  }

  lemma ToBuild(b: Batch, sequences: map<nat, SeqData>)
    requires FirstFault(b, sequences, 0) == None
    ensures Buildable(b.items, sequences)
  {
    hide FirstFault;
    NoFaultBuildable(b, sequences, 0);
    forall i | 0 <= i < |b.items|
      ensures && b.items[i].id in sequences && 0 < b.items[i].count
              && sequences[b.items[i].id].processed + b.items[i].count <= |sequences[b.items[i].id].tokens|
    {
      FaultIs(b, sequences, i);
    }
  }
}

/** Batch transactions of the model state: begin, run, then commit or abort. */
module Transactions {
  import opened Wrappers
  import opened Sums
  import opened Sequences
  import opened Paging
  import opened PrefixCaching
  import opened Kernels
  import opened Batches
  import opened HybridStates
  import opened Residence
  import opened Execution

  lemma ConsecutiveAt(from: nat, n: nat, i: nat)
    requires i < n
    ensures Consecutive(from, n)[i] == from + i
  {
    if i < n - 1 {
      ConsecutiveAt(from, n - 1, i);
    }
  }

  /** A batch that the state agrees to begin continues the committed histories. */
  lemma StartableContinues(h: Hybrid, hist: History, b: ModelBatch)
    requires h.Sound() && InStep(h, hist) && h.Startable(b)
    ensures Continues(h, hist, b)
  {
    forall i | 0 <= i < |b.items| ensures ItemContinues(h, hist, b, i) {
      assert h.ItemStartable(b, i);
      assert ItemAcceptable(b, i, h.shape.maxPositions, h.pages.count, h.pages.size) && ShapeAcceptable(b, i);
      var item := b.items[i];
      ConsecutiveAt(h.sequences[item.id].committed, item.count, 0);
      assert b.positions[item.offset] == b.positions[item.offset..item.offset + item.count][0];
      TableReaches(h, item.id, |hist[item.id]| + item.count);
    }
    forall i, j | i in hist && j in hist && i != j ensures Disjoint(h.pages.Table(i), h.pages.Table(j)) {
      TablesApart(h, i, j);
    }
  }

  lemma SnapshotsPrefix(h: Hybrid, b: ModelBatch, n: nat)
    requires 0 < n <= |b.items|
    requires forall i :: 0 <= i < |b.items| ==> b.items[i].id in h.sequences
    ensures h.Snapshots(b, n)[..n - 1] == h.Snapshots(b, n - 1)
  {
  }

  ghost predicate DistinctItems(b: ModelBatch) {
    forall i, j :: 0 <= i < j < |b.items| ==> b.items[i].id != b.items[j].id
  }

  /** Committing advances the committed count of each item, in step with its history, and nothing else. */
  ghost predicate Committing(h: Hybrid, hist: History, now: map<nat, SequenceState>, after: map<nat, SequenceState>) {
    && after.Keys == now.Keys
    && forall id :: id in now ==>
         && after[id].memory == now[id].memory && after[id].reserved == now[id].reserved
         && (id in hist ==> after[id].committed == |hist[id]|)
  }

  lemma {:induction false} CommitAdvances(h: Hybrid, hist: History, b: ModelBatch, n: nat, now: map<nat, SequenceState>)
    requires n <= |b.items| && DistinctItems(b)
    requires forall i :: 0 <= i < |b.items| ==> b.items[i].id in h.sequences
    requires forall i :: 0 <= i < |b.items| ==> |ItemInput(b, i)| == b.items[i].count
    requires InStep(h, hist) && now.Keys == h.sequences.Keys
    requires forall id :: id in now ==> now[id].committed == h.sequences[id].committed
    ensures Committing(h, Advance(hist, b, n), now, CommitAll(now, h.Snapshots(b, n)))
    ensures Advance(hist, b, n).Keys == hist.Keys
  {
    AdvanceKeys(hist, b, n);
    if n > 0 {
      CommitAdvances(h, hist, b, n - 1, now);
      SnapshotsPrefix(h, b, n);
      AdvanceOnly(hist, b, n - 1, b.items[n - 1].id);
    }
  }

  lemma {:induction false} RollBackRestores(h: Hybrid, b: ModelBatch, n: nat, now: map<nat, SequenceState>, id: nat)
    requires n <= |b.items| && DistinctItems(b)
    requires forall i :: 0 <= i < |b.items| ==> b.items[i].id in h.sequences
    requires now.Keys == h.sequences.Keys && id in now
    ensures RollBackAll(now, h.Snapshots(b, n))[id]
         == if exists i :: 0 <= i < n && b.items[i].id == id then now[id].(memory := h.sequences[id].memory) else now[id]
  {
    if n > 0 {
      RollBackRestores(h, b, n - 1, now, id);
      SnapshotsPrefix(h, b, n);
    }
  }

  ghost predicate Began(h: Hybrid, b: ModelBatch, h1: Hybrid) {
    !h.open && h.BeginBatch(b) == (h1, Ok(()))
  }

  lemma BeganMeans(h: Hybrid, b: ModelBatch, h1: Hybrid)
    requires Began(h, b, h1)
    ensures h.Startable(b) && DistinctItems(b)
    ensures forall i :: 0 <= i < |b.items| ==> b.items[i].id in h.sequences
    ensures forall i :: 0 <= i < |b.items| ==> |ItemInput(b, i)| == b.items[i].count
    ensures h1 == h.(snapshots := h.Snapshots(b, |b.items|), open := true)
  {
    forall i | 0 <= i < |b.items|
      ensures b.items[i].id in h.sequences && |ItemInput(b, i)| == b.items[i].count
      ensures forall j :: 0 <= j < i ==> b.items[j].id != b.items[i].id
    {
      assert h.ItemStartable(b, i);
      assert ItemAcceptable(b, i, h.shape.maxPositions, h.pages.count, h.pages.size) && ShapeAcceptable(b, i);
    }
  }

  lemma ContinuesBegun(h: Hybrid, hist: History, b: ModelBatch, h1: Hybrid)
    requires Continues(h, hist, b) && h1.pages == h.pages && h1.slots == h.slots && h1.sequences == h.sequences
    ensures Continues(h1, hist, b)
  {
    forall i | 0 <= i < |b.items| ensures ItemContinues(h1, hist, b, i) {
      assert ItemContinues(h, hist, b, i);
    }
  }

  /** A committed transaction advances every history by exactly its item's rows, and its samples are greedy. */
  lemma TransactionCommits(k: Kernel, h: Hybrid, hist: History, b: ModelBatch, h1: Hybrid,
                           run: (Hybrid, seq<Token>), after: Hybrid)
    requires h.Sound() && InStep(h, hist) && Lodged(k, h, hist)
    requires Began(h, b, h1)
    requires run == RunItems(k, h1, b, |b.items|, |b.tokens|)
    requires after == run.0.CommitBatch()
    ensures !after.open && InStep(after, Advance(hist, b, |b.items|))
    ensures Lodged(k, after, Advance(hist, b, |b.items|))
    ensures run.1 == GreedySamples(k, hist, b, |b.items|)
    ensures after == h.(slots := after.slots, sequences := after.sequences, snapshots := [])
  {
    BeganMeans(h, b, h1);
    StartableContinues(h, hist, b);
    ContinuesBegun(h, hist, b, h1);
    LodgedSame(k, h, h1, hist);
    PassAdvances(k, h1, hist, b, |b.items|, run);
    RunItemsFrame(k, h1, b, |b.items|, |b.tokens|);
    CommitAdvances(h, hist, b, |b.items|, run.0.sequences);
    LodgedCommitted(k, run.0, after, Advance(hist, b, |b.items|));
  }

  lemma LodgedSame(k: Kernel, h: Hybrid, g: Hybrid, hist: History)
    requires Lodged(k, h, hist)
    requires g.pages == h.pages && g.slots == h.slots && g.sequences == h.sequences
    ensures Lodged(k, g, hist)
  {
    forall id | id in hist ensures LodgedAt(k, g, id, hist[id]) {
      assert LodgedAt(k, h, id, hist[id]);
    }
  }

  lemma LodgedCommitted(k: Kernel, h: Hybrid, g: Hybrid, hist: History)
    requires Lodged(k, h, hist)
    requires g.pages == h.pages && g.slots == h.slots
    requires forall id :: id in hist && id in h.sequences ==>
               id in g.sequences && g.sequences[id].memory == h.sequences[id].memory
    ensures Lodged(k, g, hist)
  {
    forall id | id in hist ensures LodgedAt(k, g, id, hist[id]) {
      assert LodgedAt(k, h, id, hist[id]);
    }
  }

  lemma RolledBack(k: Kernel, h: Hybrid, b: ModelBatch, h1: Hybrid, limit: nat, ran: Hybrid)
    requires Began(h, b, h1)
    requires ran == RunItems(k, h1, b, |b.items|, limit).0
    requires forall i :: 0 <= i < |b.items| ==> b.items[i].id in h.sequences
    ensures ran.sequences.Keys == h.sequences.Keys
    ensures RollBackAll(ran.sequences, h.Snapshots(b, |b.items|)) == h.sequences
  {
    BeganMeans(h, b, h1);
    RunItemsFrame(k, h1, b, |b.items|, limit);
    var back := RollBackAll(ran.sequences, h.Snapshots(b, |b.items|));
    forall id | id in h.sequences ensures back[id] == h.sequences[id] {
      RollBackRestores(h, b, |b.items|, ran.sequences, id);
      if forall i :: 0 <= i < |b.items| ==> b.items[i].id != id {
        RunItemsUntouchedMemory(k, h1, b, |b.items|, limit, id);
      }
    }
  }

  /** An aborted transaction, however far its pass got, leaves recurrent memories, counts and committed cells as before. */
  lemma TransactionAborts(k: Kernel, h: Hybrid, hist: History, b: ModelBatch, h1: Hybrid, limit: nat,
                          ran: Hybrid, after: Hybrid)
    requires h.Sound() && InStep(h, hist) && Lodged(k, h, hist)
    requires Began(h, b, h1)
    requires ran == RunItems(k, h1, b, |b.items|, limit).0
    requires after == ran.AbortBatch()
    ensures after.sequences == h.sequences
    ensures after == h.(slots := after.slots, snapshots := [])
    ensures |after.slots| == |h.slots| && Lodged(k, after, hist)
  {
    BeganMeans(h, b, h1);
    RunItemsFrame(k, h1, b, |b.items|, limit);
    RolledBack(k, h, b, h1, limit, ran);
    CellsSurvive(k, h, hist, b, h1, limit, ran);
    LodgedAgain(k, h, after, hist);
  }

  lemma CellsSurvive(k: Kernel, h: Hybrid, hist: History, b: ModelBatch, h1: Hybrid, limit: nat, ran: Hybrid)
    requires h.Sound() && InStep(h, hist) && Lodged(k, h, hist)
    requires Began(h, b, h1)
    requires ran == RunItems(k, h1, b, |b.items|, limit).0
    ensures CellsKept(k, ran, hist)
  {
    BeganMeans(h, b, h1);
    StartableContinues(h, hist, b);
    ContinuesBegun(h, hist, b, h1);
    LodgedSame(k, h, h1, hist);
    LodgedKeepsCells(k, h1, hist);
    PassKeepsCells(k, h1, hist, b, |b.items|, limit);
  }

  lemma LodgedAgain(k: Kernel, h: Hybrid, g: Hybrid, hist: History)
    requires Lodged(k, h, hist) && CellsKept(k, g, hist)
    requires g.pages == h.pages && g.sequences == h.sequences
    ensures Lodged(k, g, hist)
  {
    forall id | id in hist ensures LodgedAt(k, g, id, hist[id]) {
      assert LodgedAt(k, h, id, hist[id]);
    }
  }

  // ---------------------------------------------------------------- an open transaction

  /** While a batch is in flight the state is frozen: nothing can be reserved, released, saved, restored or begun. */
  lemma FrozenWhileOpen(h: Hybrid, id: nat, tokens: nat, saved: Saved<Payload>, b: ModelBatch, works: bool)
    requires h.open
    ensures h.Reserve(id, tokens, works) == (h, Err(InvalidReservation)) && h.Release(id) == h
    ensures h.Checkpoint(id, tokens, works) == Err(InvalidReservation)
    ensures h.Restore(id, saved, works) == (h, Err(InvalidReservation))
    ensures h.BeginBatch(b) == (h, Err(InvalidReservation))
  {
  }

  /** And what no batch opened, nothing closes. */
  lemma ClosedStaysClosed(h: Hybrid)
    requires !h.open
    ensures h.CommitBatch() == h && h.AbortBatch() == h
  {
  }

  /** The rows of an item go on where its sequence stopped, within what is reserved, through the sequence's own pages; no other
      item is for the same sequence; and a decode adds one row. */
  ghost predicate GoesOn(h: Hybrid, b: ModelBatch, i: nat)
    requires i < |b.items|
  {
    var item := b.items[i];
    && item.id in h.sequences && (forall j :: 0 <= j < i ==> b.items[j].id != item.id)
    && item.table == h.pages.Table(item.id)
    && h.sequences[item.id].committed + item.count <= h.sequences[item.id].reserved
    && (b.phase == Decode ==> item.count == 1)
    && item.offset + item.count <= |b.positions|
    && forall row: nat :: item.offset <= row < item.offset + item.count ==>
                            b.positions[row] == h.sequences[item.id].committed + (row - item.offset)
  }

  lemma StartsWhereItStopped(h: Hybrid, b: ModelBatch, i: nat)
    requires i < |b.items|
    ensures GoesOn(h, b, i) <==> h.ItemStartable(b, i)
  {
    var item := b.items[i];
    if item.id in h.sequences && item.offset + item.count <= |b.positions| {
      RowsConsecutive(b.positions, item.offset, item.count, h.sequences[item.id].committed);
    }
  }

  lemma RowsConsecutive(positions: seq<nat>, offset: nat, count: nat, committed: nat)
    requires offset + count <= |positions|
    ensures positions[offset..offset + count] == Consecutive(committed, count) <==>
            forall row: nat :: offset <= row < offset + count ==> positions[row] == committed + (row - offset)
  {
    var rows, expected := positions[offset..offset + count], Consecutive(committed, count);
    forall n | 0 <= n < count ensures expected[n] == committed + n {
      ConsecutiveAt(committed, count, n);
    }
    if rows == expected {
      forall row: nat | offset <= row < offset + count ensures positions[row] == committed + (row - offset) {
        assert rows[row - offset] == positions[row];
      }
    }
    if forall row: nat :: offset <= row < offset + count ==> positions[row] == committed + (row - offset) {
      forall n | 0 <= n < count ensures rows[n] == expected[n] {
        assert rows[n] == positions[offset + n];
      }
    }
  }

  /** A transaction begins exactly when none is open, the batch is acceptable, and each item goes on where its sequence stopped;
      beginning changes no sequence and no page. */
  lemma BeginsExactly(h: Hybrid, b: ModelBatch)
    ensures h.BeginBatch(b).1.Ok? <==>
            !h.open && Acceptable(b, h.shape.maxPositions, h.pages.count, h.pages.size)
            && forall i :: 0 <= i < |b.items| ==> GoesOn(h, b, i)
    ensures h.BeginBatch(b).0 == h.(snapshots := h.BeginBatch(b).0.snapshots, open := h.open || h.BeginBatch(b).1.Ok?)
  {
    hide Acceptable, GoesOn, Hybrid.ItemStartable;
    forall i | 0 <= i < |b.items| ensures GoesOn(h, b, i) <==> h.ItemStartable(b, i) {
      StartsWhereItStopped(h, b, i);
    }
  }

  /** A checkpoint is taken of what is committed, neither more nor less, and restored only where nothing is. */
  lemma CheckpointsOfCommitted(h: Hybrid, id: nat, tokens: nat, saved: Saved<Payload>, works: bool)
    requires h.Sound()
    ensures h.Checkpoint(id, tokens, works).Ok? <==>
            && !h.open && works && 0 < tokens && id in h.sequences && h.sequences[id].committed == tokens
    ensures h.Restore(id, saved, works).1.Ok? ==> !h.open && (id in h.sequences ==> h.sequences[id].committed == 0)
  {
    hide Hybrid.Reserve;
    if id in h.sequences && 0 < tokens && h.sequences[id].committed == tokens {
      CommittedPrefix(h, id, tokens);
    }
  }

  lemma CommittedPrefix(h: Hybrid, id: nat, tokens: nat)
    requires h.Sound() && id in h.sequences && 0 < tokens <= h.sequences[id].committed
    ensures h.ValidPrefix(h.pages.Table(id), tokens)
  {
    hide Partition, BlocksFor;
    assert h.Proportioned(id);
    BlocksForMonotone(tokens, h.sequences[id].reserved, h.pages.size);
    TableInPool(h.pages, id);
    BlocksForBounds(tokens, h.pages.size);
    assert BlocksFor(tokens, h.pages.size) * h.pages.size <= h.pages.count * h.pages.size by {
      assert BlocksFor(tokens, h.pages.size) <= h.pages.count;
    }
  }

  /** A table holds pages of the pool, and no more than there are. */
  lemma TableInPool(p: Pages, id: nat)
    requires Partition(p) && id in p.tables
    ensures |p.tables[id]| <= p.count && forall i :: 0 <= i < |p.tables[id]| ==> p.tables[id][i] < p.count
  {
    TotalRemove(Sizes(p.tables), id);
    assert InPool(p.tables[id], p.count);
    forall i | 0 <= i < |p.tables[id]| ensures p.tables[id][i] < p.count {
      assert p.tables[id][i] in p.tables[id];
    }
  }
}

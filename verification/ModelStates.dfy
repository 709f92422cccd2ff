/** The hybrid model state as an object updated in place: src/qwen/qwen3_5_model_state.cc. */
module ModelStates {
  import opened Wrappers
  import opened Paging
  import opened PrefixCaching
  import opened Kernels
  import opened Batches
  import opened HybridStates
  import opened Residence
  import Transactions

  class ModelState {
    const shape: Shape
    const pages: BlockManager
    const slots: array<Cell>
    var sequences: map<nat, SequenceState>
    var snapshots: seq<Snapshot>
    var open: bool

    ghost function View(): Hybrid
      reads this, pages, slots
    {
      Hybrid(shape, pages.View(), slots[..], sequences, snapshots, open)
    }

    constructor (shape: Shape, blockCount: nat, blockSize: Positive, blank: Cell)
      requires 0 < blockCount
      ensures fresh(pages) && fresh(slots)
      ensures View() == Hybrid(shape, Initial(blockCount, blockSize), seq(blockCount * blockSize, i => blank), map[], [], false)
    {
      this.shape := shape;
      pages := new BlockManager(blockCount, blockSize);
      slots := new Cell[blockCount * blockSize](i => blank);
      sequences, snapshots, open := map[], [], false;
    }

    method Reserve(id: nat, tokens: nat, created: bool) returns (r: Result<(), StateError>)
      modifies this`sequences, pages
      ensures (View(), r) == old(View()).Reserve(id, tokens, created)
    {
      if open || tokens == 0 || tokens > shape.maxPositions {
        return Err(InvalidReservation);
      }
      var known := id in sequences;
      if known && tokens <= sequences[id].reserved {
        return Ok(());
      }
      var required := 1 + (tokens - 1) / pages.blockSize;
      var existing := |pages.Resources(id)|;
      if required < existing || required - existing > |pages.free| {
        return Err(CapacityExhausted);
      }
      ghost var before := sequences;
      if !known {
        if !created {
          return Err(BackendFailure);
        }
        sequences := sequences[id := SequenceState(shape.zero, 0, 0)];
      }
      var reserved := pages.Reserve(id, tokens);
      assert reserved.Ok?;
      sequences := sequences[id := sequences[id].(reserved := tokens)];
      assert sequences == before[id := sequences[id]];
      return Ok(());
    }

    method Release(id: nat)
      modifies this`sequences, pages
      ensures View() == old(View()).Release(id)
    {
      if open {
        return;
      }
      sequences := sequences - {id};
      pages.Release(id);
    }

    function Committed(id: nat): Option<nat>
      reads this
    {
      if id in sequences then Some(sequences[id].committed) else None
    }

    method ValidPrefix(blocks: seq<nat>, tokens: nat) returns (r: bool)
      ensures r == View().ValidPrefix(blocks, tokens)
    {
      if tokens == 0 || tokens > pages.blockCount * pages.blockSize {
        return false;
      }
      var required := 1 + (tokens - 1) / pages.blockSize;
      if |blocks| < required {
        return false;
      }
      var i := 0;
      while i < required
        invariant i <= required
        invariant forall j :: 0 <= j < i ==> blocks[j] < pages.blockCount
      {
        if blocks[i] >= pages.blockCount {
          return false;
        }
        i := i + 1;
      }
      return true;
    }

    /** Every position of a valid prefix has a slot. */
    lemma PrefixSlots(blocks: seq<nat>, tokens: nat, p: nat)
      requires View().Sound() && View().ValidPrefix(blocks, tokens) && p < tokens
      ensures p / pages.blockSize < |blocks| && Slot(blocks, pages.blockSize, p) < slots.Length
    {
      var size := pages.blockSize;
      BlocksForBounds(tokens, size);
      DivMod(p, size);
      MulStrict(blocks[p / size], pages.blockCount, size);
    }

    method Checkpoint(id: nat, tokens: nat, saves: bool) returns (r: Result<Saved<Payload>, StateError>)
      requires View().Sound()
      ensures r == View().Checkpoint(id, tokens, saves)
    {
      if open || tokens == 0 || Committed(id) != Some(tokens) {
        return Err(InvalidReservation);
      }
      var blocks := pages.Resources(id);
      var valid := ValidPrefix(blocks, tokens);
      if !valid {
        return Err(InvalidReservation);
      }
      if !saves {
        return Err(AllocationFailed);
      }
      var cells: seq<Cell> := [];
      var p := 0;
      while p < tokens
        invariant p <= tokens
        invariant cells == Gather(slots[..], blocks, pages.blockSize, p)
      {
        PrefixSlots(blocks, tokens, p);
        cells := cells + [slots[Slot(blocks, pages.blockSize, p)]];
        p := p + 1;
      }
      return Ok(Saved(tokens, tokens * shape.cellBytes + shape.memoryBytes, Payload(cells, sequences[id].memory)));
    }

    method CheckpointBytes(tokens: nat) returns (r: nat)
      ensures r == View().CheckpointBytes(tokens)
    {
      if tokens == 0 || tokens > pages.blockCount * pages.blockSize || tokens > shape.maxPositions {
        return 0;
      }
      return tokens * shape.cellBytes + shape.memoryBytes;
    }

    /** metal_kv_cache::restore through this sequence's pages. */
    method Scatter(blocks: seq<nat>, cells: seq<Cell>)
      requires forall p: nat :: p < |cells| ==> Slot(blocks, pages.blockSize, p) < slots.Length
      modifies slots
      ensures slots[..] == HybridStates.Scatter(old(slots[..]), blocks, pages.blockSize, cells)
    {
      var p := 0;
      assert cells[..0] == [];
      while p < |cells|
        invariant p <= |cells|
        invariant slots[..] == HybridStates.Scatter(old(slots[..]), blocks, pages.blockSize, cells[..p])
      {
        assert cells[..p + 1][..p] == cells[..p];
        slots[Slot(blocks, pages.blockSize, p)] := cells[p];
        p := p + 1;
      }
      assert cells[..p] == cells;
    }

    method Restore(id: nat, saved: Saved<Payload>, restores: bool) returns (r: Result<(), StateError>)
      requires View().Sound()
      modifies this`sequences, pages, slots
      ensures (View(), r) == old(View()).Restore(id, saved, restores)
    {
      var bytes := CheckpointBytes(saved.tokenCount);
      if open || bytes == 0 || (id in sequences && sequences[id].committed != 0) {
        return Err(InvalidReservation);
      }
      ReserveKeepsSound(View(), id, saved.tokenCount, restores);
      r := Reserve(id, saved.tokenCount, restores);
      if r.Err? {
        return;
      }
      var blocks := pages.Resources(id);
      var valid := ValidPrefix(blocks, saved.tokenCount);
      if !valid || |saved.payload.cells| != saved.tokenCount {
        return Err(InvalidReservation);
      }
      if !restores || id !in sequences {
        return Err(BackendFailure);
      }
      forall p: nat | p < |saved.payload.cells| ensures Slot(blocks, pages.blockSize, p) < slots.Length {
        PrefixSlots(blocks, saved.tokenCount, p);
      }
      Scatter(blocks, saved.payload.cells);
      sequences := sequences[id := sequences[id].(memory := saved.payload.memory, committed := saved.tokenCount)];
      return Ok(());
    }

    /** The items' rows must append exactly at the committed position. */
    method Appends(b: ModelBatch, item: ModelItem, committed: nat) returns (r: bool)
      requires item.offset + item.count <= |b.positions|
      ensures r <==> b.positions[item.offset..item.offset + item.count] == Consecutive(committed, item.count)
    {
      var n := 0;
      while n < item.count
        invariant n <= item.count
        invariant b.positions[item.offset..item.offset + n] == Consecutive(committed, n)
      {
        if b.positions[item.offset + n] != committed + n {
          Transactions.ConsecutiveAt(committed, item.count, n);
          assert b.positions[item.offset..item.offset + item.count][n] != Consecutive(committed, item.count)[n];
          return false;
        }
        assert b.positions[item.offset..item.offset + n + 1]
            == b.positions[item.offset..item.offset + n] + [b.positions[item.offset + n]];
        n := n + 1;
      }
      return true;
    }

    method StartsItem(b: ModelBatch, i: nat, seen: set<nat>) returns (r: bool)
      requires i < |b.items| && b.items[i].offset + b.items[i].count <= |b.positions|
      requires seen == set j | 0 <= j < i :: b.items[j].id
      requires forall id :: id in sequences ==> sequences[id].committed <= sequences[id].reserved
      ensures r <==> View().ItemStartable(b, i)
    {
      var item := b.items[i];
      if item.id !in sequences || item.id in seen || item.table != pages.Resources(item.id) {
        return false;
      }
      var state := sequences[item.id];
      if item.count > state.reserved - state.committed || (b.phase == Decode && item.count != 1) {
        return false;
      }
      r := Appends(b, item, state.committed);
      assert forall j :: 0 <= j < i ==> b.items[j].id in seen;
    }

    lemma RowsInBatch(b: ModelBatch, i: nat)
      requires Acceptable(b, shape.maxPositions, pages.blockCount, pages.blockSize) && i < |b.items|
      ensures b.items[i].offset + b.items[i].count <= |b.positions|
    {
      assert ItemAcceptable(b, i, shape.maxPositions, pages.blockCount, pages.blockSize);
    }

    method BeginBatch(b: ModelBatch) returns (r: Result<(), StateError>)
      requires View().Sound()
      modifies this`snapshots, this`open
      ensures (View(), r) == old(View()).BeginBatch(b)
    {
      hide Hybrid.ItemStartable, Acceptable, Hybrid.Sound;
      if open {
        return Err(InvalidReservation);
      }
      var prepared := PreparePagedBatch(b, shape.maxPositions, pages.blockCount, pages.blockSize);
      if prepared.Err? {
        return Err(InvalidReservation);
      }
      ghost var before := View();
      CommittedWithin(before);
      var i, seen := 0, {};
      while i < |b.items|
        invariant i <= |b.items|
        invariant seen == set j | 0 <= j < i :: b.items[j].id
        invariant View() == before
        invariant forall j :: 0 <= j < i ==> before.ItemStartable(b, j)
      {
        RowsInBatch(b, i);
        var startable := StartsItem(b, i, seen);
        if !startable {
          return Err(InvalidReservation);
        }
        seen := seen + {b.items[i].id};
        i := i + 1;
      }
      assert before.Startable(b);
      StartableListed(before, b);
      TakeSnapshots(b);
      assert snapshots == before.Snapshots(b, |b.items|);
      open := true;
      return Ok(());
    }

    method TakeSnapshots(b: ModelBatch)
      requires forall i :: 0 <= i < |b.items| ==> b.items[i].id in sequences
      modifies this`snapshots
      ensures snapshots == old(View()).Snapshots(b, |b.items|)
    {
      var taken: seq<Snapshot> := [];
      var i := 0;
      while i < |b.items|
        invariant i <= |b.items|
        invariant taken == View().Snapshots(b, i)
      {
        var item := b.items[i];
        taken := taken + [Snapshot(item.id, sequences[item.id].committed + item.count, sequences[item.id].memory)];
        i := i + 1;
      }
      snapshots := taken;
    }

    method CommitBatch()
      modifies this
      ensures View() == old(View()).CommitBatch()
    {
      if !open {
        return;
      }
      var i := 0;
      while i < |snapshots|
        invariant i <= |snapshots| && snapshots == old(snapshots) && open
        invariant sequences == CommitAll(old(sequences), snapshots[..i])
      {
        var s := snapshots[i];
        assert snapshots[..i + 1][..i] == snapshots[..i];
        if s.id in sequences {
          sequences := sequences[s.id := sequences[s.id].(committed := s.end)];
        }
        i := i + 1;
      }
      assert snapshots[..i] == snapshots;
      snapshots, open := [], false;
    }

    method AbortBatch()
      modifies this
      ensures View() == old(View()).AbortBatch()
    {
      if !open {
        return;
      }
      var i := 0;
      while i < |snapshots|
        invariant i <= |snapshots| && snapshots == old(snapshots) && open
        invariant sequences == RollBackAll(old(sequences), snapshots[..i])
      {
        var s := snapshots[i];
        assert snapshots[..i + 1][..i] == snapshots[..i];
        if s.id in sequences {
          sequences := sequences[s.id := sequences[s.id].(memory := s.memory)];
        }
        i := i + 1;
      }
      assert snapshots[..i] == snapshots;
      snapshots, open := [], false;
    }
  }

  lemma StartableListed(h: Hybrid, b: ModelBatch)
    requires h.Startable(b)
    ensures forall j :: 0 <= j < |b.items| ==> b.items[j].id in h.sequences
  {
    forall j | 0 <= j < |b.items| ensures b.items[j].id in h.sequences {
      assert h.ItemStartable(b, j);
    }
  }

  lemma CommittedWithin(h: Hybrid)
    requires h.Sound()
    ensures forall id :: id in h.sequences ==> h.sequences[id].committed <= h.sequences[id].reserved
  {
    forall id | id in h.sequences ensures h.sequences[id].committed <= h.sequences[id].reserved {
      assert h.Proportioned(id);
    }
  }
}

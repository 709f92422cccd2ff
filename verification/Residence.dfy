/** Paged memory refines per-sequence histories: every operation of the model state keeps,
    for every sequence, exactly what an unpaged run over its history would leave. */
module Residence {
  import opened Wrappers
  import opened Sums
  import opened Sequences
  import opened Paging
  import opened PrefixCaching
  import opened Kernels
  import opened HybridStates

  type History = map<nat, seq<Token>>

  ghost predicate LodgedAt(k: Kernel, h: Hybrid, id: nat, tokens: seq<Token>) {
    id in h.sequences
      && Replayed(k, Ran(h.slots, h.sequences[id].memory, 0), h.pages.Table(id), h.pages.size, tokens)
  }

  /** Every sequence's pages and recurrent memory hold the replay of its history. */
  ghost predicate Lodged(k: Kernel, h: Hybrid, hist: History) {
    forall id :: id in hist ==> LodgedAt(k, h, id, hist[id])
  }

  /** Between batches the state has committed exactly the histories. */
  ghost predicate InStep(h: Hybrid, hist: History) {
    && h.sequences.Keys == hist.Keys
    && forall id :: id in hist ==> h.sequences[id].committed == |hist[id]|
  }

  // ---------------------------------------------------------------- growth

  /** What a reservation may do: lengthen tables, raise reservations, and start new sequences from nothing. */
  ghost predicate Grew(h: Hybrid, g: Hybrid) {
    && g.shape == h.shape && g.slots == h.slots && g.open == h.open && g.snapshots == h.snapshots
    && g.pages.size == h.pages.size && g.pages.count == h.pages.count
    && (forall i :: i in h.sequences ==>
          && i in g.sequences
          && g.sequences[i].memory == h.sequences[i].memory
          && g.sequences[i].committed == h.sequences[i].committed
          && g.sequences[i].reserved >= h.sequences[i].reserved
          && h.pages.Table(i) <= g.pages.Table(i))
    && (forall i :: i in g.sequences && i !in h.sequences ==>
          g.sequences[i].memory == h.shape.zero && g.sequences[i].committed == 0)
  }

  /** A reservation that asks for more than is reserved never needs fewer pages than the table already has:
      the unsigned difference in the source cannot wrap. */
  lemma ReservationNeverWraps(h: Hybrid, id: nat, tokens: nat)
    requires h.Sound() && id in h.sequences && h.sequences[id].reserved <= tokens
    ensures |h.pages.Table(id)| <= BlocksFor(tokens, h.pages.size)
  {
    assert h.Proportioned(id);
    BlocksForMonotone(h.sequences[id].reserved, tokens, h.pages.size);
  }

  /** One sequence's table lengthened and its reservation raised to `tokens`. */
  ghost predicate Raised(h: Hybrid, g: Hybrid, id: nat, tokens: nat) {
    && g == h.(pages := g.pages, sequences := g.sequences)
    && g.pages.size == h.pages.size && g.pages.count == h.pages.count
    && g.pages.tables.Keys == h.pages.tables.Keys + {id}
    && h.pages.Table(id) <= g.pages.Table(id)
    && (forall i :: i in h.pages.tables && i != id ==> g.pages.tables[i] == h.pages.tables[i])
    && g.sequences.Keys == h.sequences.Keys + {id}
    && g.sequences[id].reserved == tokens
    && (if id in h.sequences then
          g.sequences[id] == h.sequences[id].(reserved := tokens) && h.sequences[id].reserved <= tokens
        else g.sequences[id] == SequenceState(h.shape.zero, tokens, 0))
    && (forall i :: i in h.sequences && i != id ==> g.sequences[i] == h.sequences[i])
  }

  lemma ReserveRaises(h: Hybrid, id: nat, tokens: nat, created: bool)
    requires h.Sound()
    ensures var r := h.Reserve(id, tokens, created);
            if r.1.Ok? && !(id in h.sequences && tokens <= h.sequences[id].reserved)
            then Raised(h, r.0, id, tokens) else r.0 == h
  {
  }

  lemma RaisedGrew(h: Hybrid, g: Hybrid, id: nat, tokens: nat)
    requires Raised(h, g, id, tokens) && h.pages.tables.Keys == h.sequences.Keys
    ensures Grew(h, g)
    ensures forall i :: i in h.sequences && i != id ==> g.pages.Table(i) == h.pages.Table(i)
  {
  }

  lemma ReserveGrows(h: Hybrid, id: nat, tokens: nat, created: bool)
    requires h.Sound()
    ensures var r := h.Reserve(id, tokens, created);
            && Grew(h, r.0)
            && r.0.sequences.Keys == (if r.1.Ok? then h.sequences.Keys + {id} else h.sequences.Keys)
            && (r.1.Ok? ==> r.0.sequences[id].reserved >= tokens)
            && (forall i :: i in h.sequences && i != id ==>
                  r.0.sequences[i] == h.sequences[i] && r.0.pages.Table(i) == h.pages.Table(i))
  {
    ReserveRaises(h, id, tokens, created);
    var g := h.Reserve(id, tokens, created).0;
    if g != h {
      RaisedGrew(h, g, id, tokens);
    }
  }

  lemma ReserveKeepsSound(h: Hybrid, id: nat, tokens: nat, created: bool)
    requires h.Sound()
    ensures h.Reserve(id, tokens, created).0.Sound()
  {
    var g := h.Reserve(id, tokens, created).0;
    if g != h {
      if id in h.sequences {
        ReservationNeverWraps(h, id, tokens);
      }
      ReserveKeepsPartition(h.pages, id, tokens);
      assert |g.pages.tables[id]| == BlocksFor(tokens, h.pages.size);
      forall i | i in g.sequences ensures g.Proportioned(i) {
        if i != id {
          assert h.Proportioned(i);
        }
      }
    }
  }

  /** Reserving within a budget that is shared out fairly always succeeds (short of a failing backend). */
  lemma ReserveSucceeds(h: Hybrid, id: nat, tokens: nat, created: bool, budgets: map<nat, nat>)
    requires h.Sound() && !h.open && 0 < tokens <= h.shape.maxPositions
    requires id in h.sequences || created
    requires budgets.Keys == h.sequences.Keys + {id}
    requires forall i :: i in h.sequences ==> |h.pages.Table(i)| <= budgets[i]
    requires Total(budgets) <= h.pages.count
    requires BlocksFor(tokens, h.pages.size) <= budgets[id]
    ensures h.Reserve(id, tokens, created).1.Ok?
    ensures |h.Reserve(id, tokens, created).0.pages.Table(id)| <= budgets[id]
  {
    hide Partition, BlocksFor;
    if id in h.sequences {
      if tokens > h.sequences[id].reserved {
        ReservationNeverWraps(h, id, tokens);
        ReserveWithinBudget(h.pages, id, tokens, budgets);
      }
    } else {
      FirstReserveWithinBudget(h.pages, id, tokens, budgets);
    }
  }

  lemma FirstReserveWithinBudget(p: Pages, id: nat, tokens: nat, budgets: map<nat, nat>)
    requires Partition(p) && id !in p.tables && 0 < tokens
    requires budgets.Keys == p.tables.Keys + {id}
    requires forall i :: i in p.tables ==> |p.tables[i]| <= budgets[i]
    requires Total(budgets) <= p.count
    requires BlocksFor(tokens, p.size) <= budgets[id]
    ensures BlocksFor(tokens, p.size) <= |p.free|
  {
    TotalRemove(budgets, id);
    TotalMonotone(Sizes(p.tables), budgets - {id});
  }

  lemma ReleaseKeepsSound(h: Hybrid, id: nat)
    requires h.Sound()
    ensures h.Release(id).Sound()
  {
    ReleaseKeepsPartition(h.pages, id);
    var g := h.Release(id);
    forall i | i in g.sequences ensures g.Proportioned(i) {
      assert h.Proportioned(i);
    }
  }

  // ---------------------------------------------------------------- residence under growth, release and restore

  lemma HoldsGrown(slots: seq<Cell>, a: seq<nat>, b: seq<nat>, size: Positive, cells: seq<Cell>)
    requires Holds(slots, a, size, cells) && a <= b
    ensures Holds(slots, b, size, cells)
  {
    forall p: nat | p < |cells| ensures p / size < |b| && Slot(b, size, p) == Slot(a, size, p) {
      SlotStable(a, b, size, p);
    }
  }

  lemma LodgedGrows(k: Kernel, h: Hybrid, g: Hybrid, id: nat, tokens: seq<Token>)
    requires LodgedAt(k, h, id, tokens) && Grew(h, g)
    ensures LodgedAt(k, g, id, tokens)
  {
    HoldsGrown(h.slots, h.pages.Table(id), g.pages.Table(id), h.pages.size, Replay(k, tokens).cells);
  }

  lemma LodgedFresh(k: Kernel, h: Hybrid, g: Hybrid, id: nat)
    requires Grew(h, g) && id in g.sequences && id !in h.sequences && h.shape.zero == k.zero
    ensures LodgedAt(k, g, id, [])
  {
  }

  lemma LodgedReleased(k: Kernel, h: Hybrid, id: nat, other: nat, tokens: seq<Token>)
    requires LodgedAt(k, h, other, tokens) && other != id
    ensures LodgedAt(k, h.Release(id), other, tokens)
  {
  }

  /** A checkpoint that holds the replay of these tokens. */
  ghost predicate Faithful(k: Kernel, saved: Saved<Payload>, tokens: seq<Token>) {
    saved.tokenCount == |tokens| && saved.payload == Payload(Replay(k, tokens).cells, Replay(k, tokens).memory)
  }

  /** A checkpoint of a lodged sequence is faithful. */
  lemma CheckpointFaithful(k: Kernel, h: Hybrid, id: nat, tokens: seq<Token>, saves: bool)
    requires LodgedAt(k, h, id, tokens)
    requires h.Checkpoint(id, |tokens|, saves).Ok?
    ensures Faithful(k, h.Checkpoint(id, |tokens|, saves).value, tokens)
  {
    GatherHeld(h.slots, h.pages.Table(id), h.pages.size, Replay(k, tokens).cells);
  }

  lemma TablesApart(h: Hybrid, i: nat, j: nat)
    requires h.Sound() && i in h.sequences && j in h.sequences && i != j
    ensures Disjoint(h.pages.Table(i), h.pages.Table(j))
  {
  }

  lemma TableReaches(h: Hybrid, id: nat, n: nat)
    requires h.Sound() && id in h.sequences
    requires n <= h.sequences[id].reserved
    ensures Reaches(|h.slots|, h.pages.Table(id), h.pages.size, n)
  {
    assert h.Proportioned(id);
    if n > 0 {
      BlocksForMonotone(n, h.sequences[id].reserved, h.pages.size);
    }
    assert NoDup(h.pages.tables[id]) && InPool(h.pages.tables[id], h.pages.count);
    ReachesWithin(h.pages.Table(id), h.pages.size, h.pages.count, n);
  }

  /** The part of a restore after the reservation: it writes only this sequence's slots and memory. */
  ghost predicate Restored(h: Hybrid, g: Hybrid, id: nat, saved: Saved<Payload>) {
    && id in h.sequences
    && g.slots == Scatter(h.slots, h.pages.Table(id), h.pages.size, saved.payload.cells)
    && g == h.(slots := g.slots,
               sequences := h.sequences[id := h.sequences[id].(memory := saved.payload.memory,
                                                               committed := saved.tokenCount)])
  }

  lemma RestoreIs(h: Hybrid, id: nat, saved: Saved<Payload>, restores: bool)
    requires h.Sound()
    ensures var r := h.Restore(id, saved, restores);
            var grown := h.Reserve(id, saved.tokenCount, restores).0;
            (r.1.Err? ==> r.0 == h || r.0 == grown)
            && (r.1.Ok? ==> saved.tokenCount <= grown.sequences[id].reserved && Restored(grown, r.0, id, saved)
                            && |saved.payload.cells| == saved.tokenCount)
  {
    ReserveGrows(h, id, saved.tokenCount, restores);
  }

  lemma RestoreKeepsSound(h: Hybrid, id: nat, saved: Saved<Payload>, restores: bool)
    requires h.Sound()
    ensures h.Restore(id, saved, restores).0.Sound()
  {
    var r := h.Restore(id, saved, restores);
    var grown := h.Reserve(id, saved.tokenCount, restores).0;
    ReserveKeepsSound(h, id, saved.tokenCount, restores);
    RestoreIs(h, id, saved, restores);
    if r.1.Ok? {
      forall i | i in r.0.sequences ensures r.0.Proportioned(i) {
        assert grown.Proportioned(i);
      }
    }
  }

  lemma RestoredLodges(k: Kernel, h: Hybrid, g: Hybrid, id: nat, saved: Saved<Payload>, tokens: seq<Token>)
    requires h.Sound() && Restored(h, g, id, saved) && Faithful(k, saved, tokens)
    requires saved.tokenCount <= h.sequences[id].reserved
    ensures LodgedAt(k, g, id, tokens)
  {
    TableReaches(h, id, |tokens|);
    ScatterHeld(h.slots, h.pages.Table(id), h.pages.size, saved.payload.cells);
  }

  lemma RestoredElsewhere(k: Kernel, h: Hybrid, g: Hybrid, id: nat, saved: Saved<Payload>, other: nat, tokens: seq<Token>)
    requires h.Sound() && Restored(h, g, id, saved)
    requires |saved.payload.cells| <= h.sequences[id].reserved
    requires LodgedAt(k, h, other, tokens) && other != id
    ensures LodgedAt(k, g, other, tokens)
  {
    TablesApart(h, other, id);
    TableReaches(h, id, |saved.payload.cells|);
    ScatterElsewhere(h.slots, h.pages.Table(other), h.pages.Table(id), h.pages.size, saved.payload.cells,
                     Replay(k, tokens).cells);
  }
}

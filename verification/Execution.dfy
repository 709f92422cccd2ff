/** One forward pass over a batch, and the transaction around it: the state side of
    src/inference_engine.cc:88-117 and src/qwen/qwen3_5_model_state.cc:284-370. */
module Execution {
  import opened Wrappers
  import opened Sequences
  import opened Paging
  import opened Kernels
  import opened Batches
  import opened HybridStates
  import opened Residence

  function Slice<T>(s: seq<T>, from: nat, n: nat): seq<T> {
    if from + n <= |s| then s[from..from + n] else []
  }

  /** The position of an item's first row. */
  function Start(b: ModelBatch, item: ModelItem): nat {
    if item.offset < |b.positions| then b.positions[item.offset] else 0
  }

  /** How many rows of item i are among the first `limit` rows of the batch. */
  function RowsWithin(b: ModelBatch, i: nat, limit: nat): (r: nat)
    requires i < |b.items|
    ensures r <= b.items[i].count
  {
    if limit <= RowsBefore(b.items, i) then 0
    else if limit - RowsBefore(b.items, i) < b.items[i].count then limit - RowsBefore(b.items, i)
    else b.items[i].count
  }

  /** Runs those of the first `limit` rows that belong to the first n items; collects the samples asked for. */
  ghost function RunItems(k: Kernel, h: Hybrid, b: ModelBatch, n: nat, limit: nat): (r: (Hybrid, seq<Token>))
    requires n <= |b.items|
  {
    if n == 0 then (h, [])
    else
      var before := RunItems(k, h, b, n - 1, limit);
      RunItem(k, before, b, n - 1, RowsWithin(b, n - 1, limit))
  }

  ghost function RunItem(k: Kernel, before: (Hybrid, seq<Token>), b: ModelBatch, i: nat, rows: nat): (Hybrid, seq<Token>)
    requires i < |b.items|
  {
    var g, item := before.0, b.items[i];
    if item.id !in g.sequences then before
    else
      var ran := RunRows(k, g.slots, item.table, g.pages.size, Start(b, item), Slice(b.tokens, item.offset, rows),
                         g.sequences[item.id].memory);
      (g.(slots := ran.slots, sequences := g.sequences[item.id := g.sequences[item.id].(memory := ran.memory)]),
       before.1 + (if item.logits.Some? then [ran.sample] else []))
  }

  /** model_runner::execute: the samples, or None when the pass fails after some of its rows were written. */
  ghost function Execute(k: Kernel, h: Hybrid, b: ModelBatch, fault: Fault): (Hybrid, Option<seq<Token>>) {
    match fault
    case NoFault =>
      var r := RunItems(k, h, b, |b.items|, |b.tokens|);
      (r.0, Some(r.1))
    case FailAfter(rows) => (RunItems(k, h, b, |b.items|, rows).0, None)
    case Miscount(samples) =>
      var r := RunItems(k, h, b, |b.items|, |b.tokens|);
      (r.0, Some(if |samples| == |r.1| then r.1 else samples))
  }

  // ---------------------------------------------------------------- what a pass leaves

  /** The batch continues the histories: each item starts where its history ends, through its own table. */
  ghost predicate ItemContinues(h: Hybrid, hist: History, b: ModelBatch, i: nat)
    requires i < |b.items|
  {
    var item := b.items[i];
    && item.id in hist && item.id in h.sequences
    && (forall j :: 0 <= j < i ==> b.items[j].id != item.id)
    && item.table == h.pages.Table(item.id)
    && 0 < item.count
    && item.offset == RowsBefore(b.items, i)
    && item.offset + item.count <= |b.tokens|
    && Start(b, item) == |hist[item.id]|
    && Reaches(|h.slots|, item.table, h.pages.size, |hist[item.id]| + item.count)
  }

  ghost predicate Continues(h: Hybrid, hist: History, b: ModelBatch) {
    && (forall i :: 0 <= i < |b.items| ==> ItemContinues(h, hist, b, i))
    && (forall i, j :: i in hist && j in hist && i != j ==> Disjoint(h.pages.Table(i), h.pages.Table(j)))
  }

  function ItemInput(b: ModelBatch, i: nat): seq<Token>
    requires i < |b.items|
  {
    Slice(b.tokens, b.items[i].offset, b.items[i].count)
  }

  /** The histories after the first n items. */
  function Advance(hist: History, b: ModelBatch, n: nat): (r: History)
    requires n <= |b.items|
    ensures hist.Keys <= r.Keys
  {
    if n == 0 then hist
    else
      var before := Advance(hist, b, n - 1);
      var id := b.items[n - 1].id;
      if id in before then before[id := before[id] + ItemInput(b, n - 1)] else before
  }

  /** The greedy token after each sampled item's longer history. */
  function GreedySamples(k: Kernel, hist: History, b: ModelBatch, n: nat): seq<Token>
    requires n <= |b.items|
  {
    if n == 0 then []
    else
      var id := b.items[n - 1].id;
      GreedySamples(k, hist, b, n - 1)
        + (if b.items[n - 1].logits.Some? && id in hist && ItemInput(b, n - 1) != []
           then [Next(k, hist[id] + ItemInput(b, n - 1))] else [])
  }

  lemma {:induction false} AdvanceOnly(hist: History, b: ModelBatch, n: nat, id: nat)
    requires n <= |b.items| && id in hist
    requires forall i :: 0 <= i < n ==> b.items[i].id != id
    ensures Advance(hist, b, n)[id] == hist[id]
    ensures Advance(hist, b, n).Keys == hist.Keys
  {
    if n > 0 {
      AdvanceOnly(hist, b, n - 1, id);
    }
  }

  lemma {:induction false} AdvanceKeys(hist: History, b: ModelBatch, n: nat)
    requires n <= |b.items|
    ensures Advance(hist, b, n).Keys == hist.Keys
  {
    if n > 0 {
      AdvanceKeys(hist, b, n - 1);
    }
  }

  lemma {:induction false} AdvanceOnce(hist: History, b: ModelBatch, n: nat, i: nat)
    requires i < n <= |b.items| && b.items[i].id in hist
    requires forall i, j :: 0 <= i < j < n ==> b.items[i].id != b.items[j].id
    ensures b.items[i].id in Advance(hist, b, n)
    ensures Advance(hist, b, n)[b.items[i].id] == hist[b.items[i].id] + ItemInput(b, i)
  {
    AdvanceKeys(hist, b, n);
    if i == n - 1 {
      AdvanceOnly(hist, b, n - 1, b.items[i].id);
    } else {
      AdvanceOnce(hist, b, n - 1, i);
    }
  }

  /** What a pass keeps of the state whatever it runs: everything but slot contents and recurrent memories. */
  ghost predicate SameFrame(h: Hybrid, g: Hybrid) {
    && g == h.(slots := g.slots, sequences := g.sequences)
    && |g.slots| == |h.slots|
    && g.sequences.Keys == h.sequences.Keys
    && forall i :: i in h.sequences ==>
         g.sequences[i].reserved == h.sequences[i].reserved && g.sequences[i].committed == h.sequences[i].committed
  }

  lemma {:induction false} RunItemsFrame(k: Kernel, h: Hybrid, b: ModelBatch, n: nat, limit: nat)
    requires n <= |b.items|
    ensures SameFrame(h, RunItems(k, h, b, n, limit).0)
  {
    if n > 0 {
      RunItemsFrame(k, h, b, n - 1, limit);
    }
  }

  lemma {:induction false} RunItemsUntouchedMemory(k: Kernel, h: Hybrid, b: ModelBatch, n: nat, limit: nat, id: nat)
    requires n <= |b.items| && id in h.sequences
    requires forall i :: 0 <= i < n ==> b.items[i].id != id
    ensures id in RunItems(k, h, b, n, limit).0.sequences
    ensures RunItems(k, h, b, n, limit).0.sequences[id] == h.sequences[id]
  {
    if n > 0 {
      RunItemsUntouchedMemory(k, h, b, n - 1, limit, id);
    }
  }

  /** Every table still holds its history's cells. */
  ghost predicate CellsKept(k: Kernel, h: Hybrid, hist: History) {
    forall id :: id in hist ==> Holds(h.slots, h.pages.Table(id), h.pages.size, Replay(k, hist[id]).cells)
  }

  lemma LodgedKeepsCells(k: Kernel, h: Hybrid, hist: History)
    requires Lodged(k, h, hist)
    ensures CellsKept(k, h, hist)
  {
    forall id | id in hist ensures Holds(h.slots, h.pages.Table(id), h.pages.size, Replay(k, hist[id]).cells) {
      assert LodgedAt(k, h, id, hist[id]);
    }
  }

  /** However far a pass gets, no committed cell of any sequence changes. */
  lemma {:induction false} PassKeepsCells(k: Kernel, h: Hybrid, hist: History, b: ModelBatch, n: nat, limit: nat)
    requires n <= |b.items|
    requires Continues(h, hist, b) && CellsKept(k, h, hist)
    ensures CellsKept(k, RunItems(k, h, b, n, limit).0, hist)
  {
    if n > 0 {
      PassKeepsCells(k, h, hist, b, n - 1, limit);
      var before := RunItems(k, h, b, n - 1, limit);
      RunItemsFrame(k, h, b, n - 1, limit);
      assert ItemContinues(h, hist, b, n - 1);
      ItemKeepsCells(k, h, before, hist, b, n - 1, RowsWithin(b, n - 1, limit));
    }
  }

  lemma ItemKeepsCells(k: Kernel, h: Hybrid, before: (Hybrid, seq<Token>), hist: History, b: ModelBatch, i: nat, rows: nat)
    requires i < |b.items| && rows <= b.items[i].count
    requires Continues(h, hist, b) && ItemContinues(h, hist, b, i)
    requires SameFrame(h, before.0) && CellsKept(k, before.0, hist)
    ensures CellsKept(k, RunItem(k, before, b, i, rows).0, hist)
  {
    var g, item := before.0, b.items[i];
    var tokens := Slice(b.tokens, item.offset, rows);
    ReachesLess(|g.slots|, item.table, g.pages.size, |hist[item.id]| + item.count, |hist[item.id]| + |tokens|);
    forall id | id in hist
      ensures Holds(RunItem(k, before, b, i, rows).0.slots, g.pages.Table(id), g.pages.size, Replay(k, hist[id]).cells)
    {
      RunRowsElsewhere(k, g.slots, g.pages.Table(id), item.table, g.pages.size, Start(b, item), tokens,
                       g.sequences[item.id].memory, Replay(k, hist[id]).cells);
    }
  }

  /** A pass over the first n items that went well: every history advanced by its rows, samples greedy. */
  ghost predicate WentWell(k: Kernel, hist: History, b: ModelBatch, n: nat, r: (Hybrid, seq<Token>))
    requires n <= |b.items|
  {
    Lodged(k, r.0, Advance(hist, b, n)) && r.1 == GreedySamples(k, hist, b, n)
  }

  /** A completed pass advances every history by its item's rows, and samples greedily. */
  lemma {:induction false} PassAdvances(k: Kernel, h: Hybrid, hist: History, b: ModelBatch, n: nat,
                                        after: (Hybrid, seq<Token>))
    requires n <= |b.items|
    requires Continues(h, hist, b) && Lodged(k, h, hist)
    requires after == RunItems(k, h, b, n, |b.tokens|)
    ensures WentWell(k, hist, b, n, after)
  {
    if n > 0 {
      var before := RunItems(k, h, b, n - 1, |b.tokens|);
      PassAdvances(k, h, hist, b, n - 1, before);
      RunItemsFrame(k, h, b, n - 1, |b.tokens|);
      HistoryBefore(h, hist, b, n);
      assert after == RunItem(k, before, b, n - 1, b.items[n - 1].count);
      WellStep(k, h, hist, b, n, before, after);
    }
  }

  lemma HistoryBefore(h: Hybrid, hist: History, b: ModelBatch, n: nat)
    requires 0 < n <= |b.items| && Continues(h, hist, b)
    ensures ItemContinues(h, hist, b, n - 1)
    ensures Advance(hist, b, n - 1).Keys == hist.Keys
    ensures Advance(hist, b, n - 1)[b.items[n - 1].id] == hist[b.items[n - 1].id]
  {
    assert ItemContinues(h, hist, b, n - 1);
    AdvanceOnly(hist, b, n - 1, b.items[n - 1].id);
    AdvanceKeys(hist, b, n - 1);
  }

  lemma WellStep(k: Kernel, h: Hybrid, hist: History, b: ModelBatch, n: nat,
                 before: (Hybrid, seq<Token>), after: (Hybrid, seq<Token>))
    requires 0 < n <= |b.items|
    requires Continues(h, hist, b) && ItemContinues(h, hist, b, n - 1)
    requires SameFrame(h, before.0) && WentWell(k, hist, b, n - 1, before)
    requires after == RunItem(k, before, b, n - 1, b.items[n - 1].count)
    requires Advance(hist, b, n - 1).Keys == hist.Keys
    requires Advance(hist, b, n - 1)[b.items[n - 1].id] == hist[b.items[n - 1].id]
    ensures WentWell(k, hist, b, n, after)
  {
    var now := Advance(hist, b, n - 1);
    var id := b.items[n - 1].id;
    assert ItemInput(b, n - 1) != [];
    assert Advance(hist, b, n) == now[id := now[id] + ItemInput(b, n - 1)];
    ItemAdvances(k, h, before, hist, now, b, n - 1, after, Advance(hist, b, n));
  }

  lemma ItemAdvances(k: Kernel, h: Hybrid, before: (Hybrid, seq<Token>), hist: History, now: History,
                     b: ModelBatch, i: nat, r: (Hybrid, seq<Token>), next: History)
    requires i < |b.items|
    requires Continues(h, hist, b) && ItemContinues(h, hist, b, i)
    requires SameFrame(h, before.0) && Lodged(k, before.0, now)
    requires now.Keys == hist.Keys && now[b.items[i].id] == hist[b.items[i].id]
    requires r == RunItem(k, before, b, i, b.items[i].count)
    requires next == now[b.items[i].id := now[b.items[i].id] + ItemInput(b, i)]
    ensures Lodged(k, r.0, next)
    ensures r.1 == before.1 + (if b.items[i].logits.Some? then [Next(k, next[b.items[i].id])] else [])
  {
    var g, item := before.0, b.items[i];
    var id := item.id;
    assert LodgedAt(k, g, id, now[id]);
    RunRowsReplays(k, g.slots, item.table, g.pages.size, now[id], ItemInput(b, i), next[id], g.sequences[id].memory);
    assert LodgedAt(k, r.0, id, next[id]);
    forall other | other in now && other != id ensures LodgedAt(k, r.0, other, now[other]) {
      assert LodgedAt(k, g, other, now[other]);
      RunRowsElsewhere(k, g.slots, g.pages.Table(other), item.table, g.pages.size, Start(b, item), ItemInput(b, i),
                       g.sequences[id].memory, Replay(k, now[other]).cells);
    }
  }
}

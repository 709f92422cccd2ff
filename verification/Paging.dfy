/** The page allocator: src/block_manager.cc. */
module Paging {
  import opened Wrappers
  import opened Sums

  datatype StateError = CapacityExhausted | InvalidReservation | BackendFailure | AllocationFailed

  /** One flat pool of pages: a FIFO of free page ids and one page table per sequence. */
  datatype Pages = Pages(count: nat, size: Positive, free: seq<nat>, tables: map<nat, seq<nat>>)
  {
    function Table(id: nat): seq<nat> {
      if id in tables then tables[id] else []
    }

    /** block_manager::reserve: take the missing pages from the front of the free list. */
    function Reserve(id: nat, tokens: nat): (r: (Pages, Result<(), StateError>)) {
      if tokens == 0 then (this, Err(InvalidReservation))
      else
        var required := BlocksFor(tokens, size);
        var existing := |Table(id)|;
        if required <= existing then (this, Ok(()))
        else if required - existing > |free| then (this, Err(CapacityExhausted))
        else
          var n := required - existing;
          (this.(free := free[n..], tables := tables[id := Table(id) + free[..n]]), Ok(()))
    }

    /** block_manager::release: every page of the table goes to the back of the free list. */
    function Release(id: nat): Pages {
      if id !in tables then this
      else this.(free := free + tables[id], tables := tables - {id})
    }
  }

  /** How many pages hold `tokens` tokens. */
  function BlocksFor(tokens: nat, size: Positive): nat
    requires 0 < tokens
  {
    1 + (tokens - 1) / size
  }

  lemma BlocksForBounds(tokens: nat, size: Positive)
    requires 0 < tokens
    ensures (BlocksFor(tokens, size) - 1) * size < tokens <= BlocksFor(tokens, size) * size
    ensures forall p: nat :: p < tokens ==> p / size < BlocksFor(tokens, size)
  {
    DivMod(tokens - 1, size);
    forall p: nat | p < tokens ensures p / size < BlocksFor(tokens, size) {
      DivMonotone(p, tokens - 1, size);
    }
  }

  lemma DivMod(a: nat, d: nat)
    requires 0 < d
    ensures a == (a / d) * d + a % d && 0 <= a % d < d
  {
  }

  lemma MulStrict(a: nat, b: nat, d: nat)
    requires a < b
    ensures a * d + d <= b * d
  {
    assert b * d == a * d + d + (b - a - 1) * d;
  }

  lemma DivMonotone(a: nat, b: nat, d: nat)
    requires 0 < d && a <= b
    ensures a / d <= b / d
  {
    DivMod(a, d);
    DivMod(b, d);
    if a / d > b / d {
      MulStrict(b / d, a / d, d);
    }
  }

  lemma BlocksForMonotone(a: nat, b: nat, size: Positive)
    requires 0 < a <= b
    ensures BlocksFor(a, size) <= BlocksFor(b, size)
  {
    DivMonotone(a - 1, b - 1, size);
  }

  function Initial(count: nat, size: Positive): Pages {
    Pages(count, size, seq(count, i => i), map[])
  }

  ghost predicate Disjoint(a: seq<nat>, b: seq<nat>) {
    forall x :: x in a ==> x !in b
  }

  ghost predicate OwnedOnce(p: Pages) {
    && NoDup(p.free)
    && (forall id :: id in p.tables ==> NoDup(p.tables[id]) && Disjoint(p.tables[id], p.free))
    && (forall i, j :: i in p.tables && j in p.tables && i != j ==> Disjoint(p.tables[i], p.tables[j]))
  }

  ghost predicate InPool(s: seq<nat>, count: nat) {
    forall b :: b in s ==> b < count
  }

  ghost predicate Covers(p: Pages) {
    && InPool(p.free, p.count)
    && (forall id :: id in p.tables ==> InPool(p.tables[id], p.count))
    && (forall b :: 0 <= b < p.count && b !in p.free ==> exists id :: id in p.tables && b in p.tables[id])
  }

  ghost function Sizes(tables: map<nat, seq<nat>>): map<nat, nat> {
    map id | id in tables :: |tables[id]|
  }

  /** The free list and the tables partition [0, count): no page is lost, shared or listed twice. */
  ghost predicate Partition(p: Pages) {
    && OwnedOnce(p)
    && Covers(p)
    && |p.free| + Total(Sizes(p.tables)) == p.count
  }

  lemma InitialPartition(count: nat, size: Positive)
    ensures Partition(Initial(count, size))
  {
    var p := Initial(count, size);
    assert Sizes(p.tables) == map[];
    forall b | 0 <= b < count ensures b in p.free {
      assert p.free[b] == b;
    }
  }

  lemma SplitNoDup(s: seq<nat>, n: nat)
    requires NoDup(s) && n <= |s|
    ensures NoDup(s[..n]) && NoDup(s[n..]) && Disjoint(s[..n], s[n..])
    ensures forall x :: x in s <==> x in s[..n] || x in s[n..]
  {
    assert s == s[..n] + s[n..];
  }

  lemma JoinNoDup(a: seq<nat>, b: seq<nat>)
    requires NoDup(a) && NoDup(b) && Disjoint(a, b)
    ensures NoDup(a + b)
  {
    forall i, j | 0 <= i < j < |a + b| ensures (a + b)[i] != (a + b)[j] {
      if i < |a| <= j {
        assert a[i] in a && b[j - |a|] in b;
      }
    }
  }

  lemma ReserveKeepsPartition(p: Pages, id: nat, tokens: nat)
    requires Partition(p)
    ensures Partition(p.Reserve(id, tokens).0)
  {
    var q := p.Reserve(id, tokens).0;
    if q != p {
      var n := BlocksFor(tokens, p.size) - |p.Table(id)|;
      MoveKeepsPartition(p, id, n, q);
    }
  }

  lemma MoveKeepsPartition(p: Pages, id: nat, n: nat, q: Pages)
    requires Partition(p) && Moved(p, id, n, q) && q.size == p.size
    ensures Partition(q)
  {
    MoveOwned(p, id, n, q);
    MoveCovers(p, id, n, q);
    MoveTotals(p, id, n, q);
  }

  lemma MoveTotals(p: Pages, id: nat, n: nat, q: Pages)
    requires Moved(p, id, n, q)
    ensures |q.free| + Total(Sizes(q.tables)) == |p.free| + Total(Sizes(p.tables))
  {
    assert Sizes(q.tables) == Sizes(p.tables)[id := |p.Table(id)| + n];
    TotalUpdate(Sizes(p.tables), id, |p.Table(id)| + n);
  }

  ghost predicate Moved(p: Pages, id: nat, n: nat, q: Pages) {
    && n <= |p.free|
    && q.count == p.count
    && q.free == p.free[n..]
    && q.tables == p.tables[id := p.Table(id) + p.free[..n]]
  }

  lemma MoveOwned(p: Pages, id: nat, n: nat, q: Pages)
    requires OwnedOnce(p) && Moved(p, id, n, q)
    ensures OwnedOnce(q)
  {
    SplitNoDup(p.free, n);
    JoinNoDup(p.Table(id), p.free[..n]);
    forall i | i in q.tables ensures NoDup(q.tables[i]) && Disjoint(q.tables[i], q.free) {
    }
    forall i, j | i in q.tables && j in q.tables && i != j ensures Disjoint(q.tables[i], q.tables[j]) {
      if i == id {
        assert Disjoint(p.tables[j], p.free);
      }
    }
  }

  lemma MoveCovers(p: Pages, id: nat, n: nat, q: Pages)
    requires Covers(p) && Moved(p, id, n, q)
    ensures Covers(q)
  {
    assert p.free == p.free[..n] + p.free[n..];
    forall b | b in q.free ensures b < q.count {
      assert b in p.free;
    }
    forall b | b in q.tables[id] ensures b < q.count {
      assert b in p.free || b in p.Table(id);
    }
    forall b | 0 <= b < q.count && b !in q.free ensures exists i :: i in q.tables && b in q.tables[i] {
      if b in p.free {
        assert b in p.free[..n];
        assert b in q.tables[id];
      } else {
        var i :| i in p.tables && b in p.tables[i];
        assert b in q.tables[i];
      }
    }
  }

  lemma ReleaseKeepsPartition(p: Pages, id: nat)
    requires Partition(p)
    ensures Partition(p.Release(id))
  {
    if id in p.tables {
      var q := p.Release(id);
      JoinNoDup(p.free, p.tables[id]) by {
        assert Disjoint(p.tables[id], p.free);
      }
      assert OwnedOnce(q);
      forall b | 0 <= b < q.count && b !in q.free ensures exists i :: i in q.tables && b in q.tables[i] {
        var i :| i in p.tables && b in p.tables[i];
        assert i != id;
        assert b in q.tables[i];
      }
      assert Sizes(q.tables) == Sizes(p.tables) - {id};
      TotalRemove(Sizes(p.tables), id);
    }
  }

  /** Pages are reused oldest first: what a release gives back is not taken while pages freed earlier suffice. */
  lemma OldestFreeFirst(p: Pages, id: nat, other: nat, tokens: nat)
    requires id in p.tables && other != id && 0 < tokens
    requires |p.Table(other)| <= BlocksFor(tokens, p.size) <= |p.Table(other)| + |p.free|
    ensures var r := p.Release(id).Reserve(other, tokens);
            && r.1.Ok?
            && r.0.Table(other) == p.Table(other) + p.free[..BlocksFor(tokens, p.size) - |p.Table(other)|]
            && r.0.free == p.free[BlocksFor(tokens, p.size) - |p.Table(other)|..] + p.tables[id]
  {
    hide BlocksFor;
    var n := BlocksFor(tokens, p.size) - |p.Table(other)|;
    assert p.Release(id).Table(other) == p.Table(other);
    assert (p.free + p.tables[id])[..n] == p.free[..n] && (p.free + p.tables[id])[n..] == p.free[n..] + p.tables[id];
    assert n == 0 ==> p.Table(other) + [] == p.Table(other);
  }

  /** What one sequence may ever hold, summed over all live sequences, fits: so no reservation within a budget fails. */
  lemma ReserveWithinBudget(p: Pages, id: nat, tokens: nat, budgets: map<nat, nat>)
    requires Partition(p)
    requires budgets.Keys == p.tables.Keys && id in p.tables
    requires forall i :: i in p.tables ==> |p.tables[i]| <= budgets[i]
    requires Total(budgets) <= p.count
    requires 0 < tokens && BlocksFor(tokens, p.size) <= budgets[id]
    ensures p.Reserve(id, tokens).1.Ok?
    ensures |p.Reserve(id, tokens).0.Table(id)| <= budgets[id]
  {
    var sizes := Sizes(p.tables);
    TotalRemove(sizes, id);
    TotalRemove(budgets, id);
    TotalMonotone(sizes - {id}, budgets - {id});
  }

  // ---------------------------------------------------------------- physical slots

  /** The physical slot of logical position `pos` (src/model_batch.cc:178-185); 0 where the table does not reach. */
  function Slot(table: seq<nat>, size: Positive, pos: nat): nat {
    if pos / size < |table| then table[pos / size] * size + pos % size else 0
  }

  lemma SlotParts(block: nat, offset: nat, size: nat)
    requires offset < size
    ensures (block * size + offset) / size == block
    ensures (block * size + offset) % size == offset
  {
    var a := block * size + offset;
    DivMod(a, size);
    var q := a / size;
    if q < block {
      MulStrict(q, block, size);
    } else if q > block {
      MulStrict(block, q, size);
    }
  }

  lemma SlotInRange(table: seq<nat>, size: Positive, pos: nat, count: nat)
    requires pos / size < |table|
    requires InPool(table, count)
    ensures Slot(table, size, pos) < count * size
  {
    var b := table[pos / size];
    assert b in table;
    DivMod(pos, size);
    MulStrict(b, count, size);
  }

  /** Distinct positions of one table have distinct slots. */
  lemma SlotInjective(table: seq<nat>, size: Positive, p: nat, q: nat)
    requires p / size < |table| && q / size < |table|
    requires NoDup(table)
    ensures Slot(table, size, p) == Slot(table, size, q) ==> p == q
  {
    DivMod(p, size);
    DivMod(q, size);
    SlotParts(table[p / size], p % size, size);
    SlotParts(table[q / size], q % size, size);
    if p / size < q / size {
    } else if q / size < p / size {
    }
  }

  /** Positions of tables that share no page never share a slot. */
  lemma SlotsApart(a: seq<nat>, b: seq<nat>, size: Positive, p: nat, q: nat)
    requires p / size < |a| && q / size < |b|
    requires Disjoint(a, b)
    ensures Slot(a, size, p) != Slot(b, size, q)
  {
    DivMod(p, size);
    DivMod(q, size);
    SlotParts(a[p / size], p % size, size);
    SlotParts(b[q / size], q % size, size);
    assert a[p / size] in a && b[q / size] in b;
  }

  /** A table that only grew gives every old position the slot it had. */
  lemma SlotStable(a: seq<nat>, b: seq<nat>, size: Positive, p: nat)
    requires p / size < |a|
    requires a <= b
    ensures p / size < |b| && Slot(a, size, p) == Slot(b, size, p)
  {
  }

  // ---------------------------------------------------------------- the allocator object

  class BlockManager {
    const blockCount: nat
    const blockSize: Positive
    var free: seq<nat>
    var tables: map<nat, seq<nat>>

    function View(): Pages
      reads this
    {
      Pages(blockCount, blockSize, free, tables)
    }

    constructor (count: nat, size: Positive)
      requires 0 < count
      ensures View() == Initial(count, size)
    {
      blockCount, blockSize := count, size;
      free, tables := [], map[];
      new;
      var i := 0;
      while i < count
        invariant i <= count
        invariant free == seq(i, k => k)
        invariant tables == map[]
      {
        free := free + [i];
        i := i + 1;
      }
    }

    function Resources(id: nat): seq<nat>
      reads this
    {
      if id in tables then tables[id] else []
    }

    method Reserve(id: nat, tokens: nat) returns (r: Result<(), StateError>)
      modifies this
      ensures (View(), r) == old(View()).Reserve(id, tokens)
    {
      if tokens == 0 {
        return Err(InvalidReservation);
      }
      var required := 1 + (tokens - 1) / blockSize;
      var existing := |Resources(id)|;
      if required <= existing {
        return Ok(());
      }
      var additional := required - existing;
      if additional > |free| {
        return Err(CapacityExhausted);
      }
      ghost var free0 := free;
      ghost var table0 := Resources(id);
      tables := tables[id := Resources(id)];
      assert table0 + free0[..0] == table0;
      var i := 0;
      while i < additional
        invariant i <= additional
        invariant free == free0[i..]
        invariant tables == old(tables)[id := table0 + free0[..i]]
      {
        assert table0 + free0[..i + 1] == table0 + free0[..i] + [free[0]];
        tables := tables[id := tables[id] + [free[0]]];
        free := free[1..];
        i := i + 1;
      }
      return Ok(());
    }

    method Release(id: nat)
      modifies this
      ensures View() == old(View()).Release(id)
    {
      if id !in tables {
        return;
      }
      var table := tables[id];
      var i := 0;
      while i < |table|
        invariant i <= |table|
        invariant free == old(free) + table[..i]
        invariant tables == old(tables)
      {
        free := free + [table[i]];
        i := i + 1;
      }
      assert table[..i] == table;
      tables := tables - {id};
    }
  }
}

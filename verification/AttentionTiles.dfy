/** The bounds scan and the greedy query tiling of prepared attention batches: src/tensor/attention.cc:104-167. */
module AttentionTiles {
  import opened Wrappers
  import opened Paging
  import opened Batches
  import opened Building

  const TILE := 8
  const WIDTH := 0x1_0000_0000

  datatype TileError = RangeOutOfBounds | BlockOutOfRange

  datatype Rows = Rows(positions: seq<nat>, offsets: seq<nat>, lengths: seq<nat>, table: seq<nat>)
  {
    /** One table offset and one table length per row (checked before the scan). */
    predicate Valid() {
      |positions| == |offsets| == |lengths|
    }
  }

  datatype Tile = Tile(start: nat, count: nat)

  predicate RowInBounds(r: Rows, blockSize: nat, row: nat)
    requires r.Valid() && row < |r.positions| && 0 < blockSize
  {
    r.offsets[row] + r.lengths[row] <= |r.table| && r.positions[row] / blockSize + 1 <= r.lengths[row]
  }

  /** The next row continues this one: same table slice, next position in 32-bit arithmetic. */
  predicate Follows(r: Rows, row: nat)
    requires r.Valid() && row + 1 < |r.positions|
  {
    && r.offsets[row + 1] == r.offsets[row]
    && r.lengths[row + 1] == r.lengths[row]
    && r.positions[row + 1] == (r.positions[row] + 1) % WIDTH
  }

  /** A tile is a run of 1 to 8 rows, each following the one before. */
  ghost predicate IsTile(r: Rows, t: Tile)
    requires r.Valid()
  {
    && 0 < t.count <= TILE && t.start + t.count <= |r.positions|
    && forall row :: t.start <= row < t.start + t.count - 1 ==> Follows(r, row)
  }

  /** A tile that could not have been longer. */
  ghost predicate Maximal(r: Rows, t: Tile)
    requires r.Valid() && IsTile(r, t)
  {
    t.count == TILE || t.start + t.count == |r.positions| || !Follows(r, t.start + t.count - 1)
  }

  /** The tiles cover the rows up to `end` one after the other, each as long as possible. */
  ghost predicate Covering(r: Rows, tiles: seq<Tile>, end: nat)
    requires r.Valid()
  {
    && (forall i :: 0 <= i < |tiles| ==> IsTile(r, tiles[i]) && Maximal(r, tiles[i]))
    && (forall i :: 0 <= i < |tiles| - 1 ==> tiles[i + 1].start == tiles[i].start + tiles[i].count)
    && (if tiles == [] then end == 0 else tiles[0].start == 0 && end == tiles[|tiles| - 1].start + tiles[|tiles| - 1].count)
  }

  method NextTile(r: Rows, row: nat) returns (t: Tile)
    requires r.Valid() && row < |r.positions|
    ensures t.start == row && IsTile(r, t) && Maximal(r, t)
  {
    var count := 1;
    while count < TILE && row + count < |r.positions| && Follows(r, row + count - 1)
      invariant 1 <= count <= TILE && row + count <= |r.positions|
      invariant forall k :: row <= k < row + count - 1 ==> Follows(r, k)
    {
      count := count + 1;
    }
    return Tile(row, count);
  }

  method MakeTiles(r: Rows) returns (tiles: seq<Tile>)
    requires r.Valid()
    ensures Covering(r, tiles, |r.positions|)
  {
    tiles := [];
    var row := 0;
    while row < |r.positions|
      invariant row <= |r.positions|
      invariant Covering(r, tiles, row)
    {
      var t := NextTile(r, row);
      tiles := tiles + [t];
      row := row + t.count;
    }
  }

  /** The whole preparation: it succeeds exactly when every row's slice reaches its position inside the table and every
      page exists. */
  method Prepare(r: Rows, blockSize: nat, blockCount: nat) returns (result: Result<seq<Tile>, TileError>)
    requires r.Valid() && 0 < blockSize
    ensures (forall row :: 0 <= row < |r.positions| ==> RowInBounds(r, blockSize, row)) && InPool(r.table, blockCount)
            <==> result.Ok?
    ensures result.Ok? ==> Covering(r, result.value, |r.positions|)
    ensures result == Err(RangeOutOfBounds) <==>
            !(forall row :: 0 <= row < |r.positions| ==> RowInBounds(r, blockSize, row))
  {
    var row := 0;
    while row < |r.positions|
      invariant row <= |r.positions|
      invariant forall k :: 0 <= k < row ==> RowInBounds(r, blockSize, k)
    {
      if r.offsets[row] > |r.table| || r.lengths[row] > |r.table| - r.offsets[row]
         || r.positions[row] / blockSize + 1 > r.lengths[row] {
        assert !RowInBounds(r, blockSize, row);
        return Err(RangeOutOfBounds);
      }
      row := row + 1;
    }
    var index := 0;
    while index < |r.table|
      invariant index <= |r.table|
      invariant forall k :: 0 <= k < index ==> r.table[k] < blockCount
    {
      if r.table[index] >= blockCount {
        assert r.table[index] in r.table;
        return Err(BlockOutOfRange);
      }
      index := index + 1;
    }
    var tiles := MakeTiles(r);
    return Ok(tiles);
  }

  // ---------------------------------------------------------------- tiles partition the rows

  /** Every row is in exactly one tile. */
  lemma {:induction false} TileOfRow(r: Rows, tiles: seq<Tile>, end: nat, row: nat) returns (i: nat)
    requires r.Valid() && Covering(r, tiles, end) && row < end
    ensures i < |tiles| && tiles[i].start <= row < tiles[i].start + tiles[i].count
    ensures forall j :: 0 <= j < |tiles| && j != i ==> !(tiles[j].start <= row < tiles[j].start + tiles[j].count)
    decreases |tiles|
  {
    var n := |tiles| - 1;
    var t := tiles[n];
    if t.start <= row {
      i := n;
      forall j | 0 <= j < n ensures tiles[j].start + tiles[j].count <= row {
        StartsBefore(r, tiles, end, j, n);
      }
    } else {
      assert Covering(r, tiles[..n], t.start);
      i := TileOfRow(r, tiles[..n], t.start, row);
    }
  }

  lemma {:induction false} StartsBefore(r: Rows, tiles: seq<Tile>, end: nat, i: nat, j: nat)
    requires r.Valid() && Covering(r, tiles, end) && i < j < |tiles|
    ensures tiles[i].start + tiles[i].count <= tiles[j].start
    decreases j
  {
    if i < j - 1 {
      StartsBefore(r, tiles, end, i, j - 1);
    }
  }

  // ---------------------------------------------------------------- tiles stay inside one sequence

  lemma {:induction false} TileShares(r: Rows, t: Tile, row: nat)
    requires r.Valid() && IsTile(r, t) && t.start <= row < t.start + t.count
    ensures r.offsets[row] == r.offsets[t.start] && r.lengths[row] == r.lengths[t.start]
    decreases row
  {
    if row > t.start {
      TileShares(r, t, row - 1);
      assert Follows(r, row - 1);
    }
  }

  /** The rows as prepare_paged_batch lays them out. */
  ghost function RowsOf(b: ModelBatch, blockSize: Positive): Rows {
    var m := MetadataOf(b, |b.items|, blockSize);
    Rows(b.positions, m.tableOffsets, m.tableLengths, m.blockTable)
  }

  lemma {:induction false} EntriesGrow(items: seq<ModelItem>, i: nat, j: nat)
    requires i < j <= |items| && forall k :: 0 <= k < |items| ==> items[k].table != []
    ensures EntriesBefore(items, i) < EntriesBefore(items, j)
    decreases j
  {
    if i < j - 1 {
      EntriesGrow(items, i, j - 1);
    }
  }

  /** Of a batch that prepare_paged_batch accepts, the rows of one tile belong to one sequence. */
  lemma TileWithinItem(b: ModelBatch, maxPositions: nat, blockCount: nat, blockSize: Positive, t: Tile, i: nat, j: nat,
                       row1: nat, row2: nat)
    requires Acceptable(b, maxPositions, blockCount, blockSize) && RowsOf(b, blockSize).Valid()
    requires IsTile(RowsOf(b, blockSize), t)
    requires t.start <= row1 < t.start + t.count && t.start <= row2 < t.start + t.count
    requires i < |b.items| && RowsBefore(b.items, i) <= row1 < RowsBefore(b.items, i) + b.items[i].count
    requires j < |b.items| && RowsBefore(b.items, j) <= row2 < RowsBefore(b.items, j) + b.items[j].count
    ensures i == j
  {
    hide RowsBefore, EntriesBefore, TableOffsets, TableLengths, Tables, ItemSlots, LogitRows, IsTile;
    var r := RowsOf(b, blockSize);
    TileShares(r, t, row1);
    TileShares(r, t, row2);
    RowTableOffsets(b.items, |b.items|, i, row1);
    RowTableOffsets(b.items, |b.items|, j, row2);
    TablesNonempty(b, maxPositions, blockCount, blockSize);
    if i < j {
      EntriesGrow(b.items, i, j);
    } else if j < i {
      EntriesGrow(b.items, j, i);
    }
  }

  lemma TablesNonempty(b: ModelBatch, maxPositions: nat, blockCount: nat, blockSize: nat)
    requires Acceptable(b, maxPositions, blockCount, blockSize)
    ensures forall k :: 0 <= k < |b.items| ==> b.items[k].table != []
  {
    forall k | 0 <= k < |b.items| ensures b.items[k].table != [] {
      assert ItemAcceptable(b, k, maxPositions, blockCount, blockSize) && ShapeAcceptable(b, k);
    }
  }

  /** And the preparation accepts every such batch. */
  lemma AcceptableInBounds(b: ModelBatch, maxPositions: nat, blockCount: nat, blockSize: Positive, i: nat, row: nat)
    requires Acceptable(b, maxPositions, blockCount, blockSize)
    requires i < |b.items| && RowsBefore(b.items, i) <= row < RowsBefore(b.items, i) + b.items[i].count
    ensures var r := RowsOf(b, blockSize); r.Valid() && row < |r.positions| && RowInBounds(r, blockSize, row)
  {
    hide RowsBefore, TableOffsets, TableLengths, Tables, ItemSlots, LogitRows, Slot;
    assert ItemAcceptable(b, i, maxPositions, blockCount, blockSize) && ShapeAcceptable(b, i);
    assert RowAcceptable(b, b.items[i].table, row, maxPositions, blockSize);
    RowTableOffsets(b.items, |b.items|, i, row);
    EntriesBeforeMonotone(b.items, i + 1, |b.items|);
  }
}

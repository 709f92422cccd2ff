/** The paged key/value buffers and their packed checkpoints: src/metal/metal_kv_cache.cc. */
module KvCaches {
  import opened Wrappers
  import opened Sums
  import opened Paging

  /** One stored number. */
  type Element(!new, ==, 0)

  datatype Geometry = Geometry(layers: Positive, blockCount: Positive, blockSize: Positive, heads: Positive, dim: Positive)
  {
    function PerToken(): nat {
      heads * dim
    }

    function PerBlock(): nat {
      blockSize * PerToken()
    }

    function Count(): nat {
      layers * blockCount * PerBlock()
    }
  }

  datatype OffsetError = LayerOutOfRange | BlockOutOfRange | TokenOffsetOutOfRange | HeadOutOfRange | FeatureOutOfRange

  datatype Place = Place(layer: nat, block: nat, offset: nat, head: nat, feature: nat)

  ghost predicate Within(g: Geometry, p: Place) {
    p.layer < g.layers && p.block < g.blockCount && p.offset < g.blockSize && p.head < g.heads && p.feature < g.dim
  }

  // ---------------------------------------------------------------- element offsets

  /** metal_kv_cache::element_offset: checked Horner evaluation over the five dimensions. */
  function ElementOffset(g: Geometry, p: Place): (r: Result<nat, OffsetError>) {
    if p.layer >= g.layers then Err(LayerOutOfRange)
    else if p.block >= g.blockCount then Err(BlockOutOfRange)
    else if p.offset >= g.blockSize then Err(TokenOffsetOutOfRange)
    else if p.head >= g.heads then Err(HeadOutOfRange)
    else if p.feature >= g.dim then Err(FeatureOutOfRange)
    else Ok((((p.layer * g.blockCount + p.block) * g.blockSize + p.offset) * g.heads + p.head) * g.dim + p.feature)
  }

  /** The place of a flat index, by repeated division. */
  function PlaceOf(g: Geometry, x: nat): Place {
    var h := x / g.dim;
    var t := h / g.heads;
    var b := t / g.blockSize;
    Place(b / g.blockCount, b % g.blockCount, t % g.blockSize, h % g.heads, x % g.dim)
  }

  lemma ScaleBound(a: nat, n: nat, r: nat, d: nat)
    requires a < n && r < d
    ensures a * d + r < n * d
  {
    MulStrict(a, n, d);
  }

  lemma MulAssoc(a: nat, b: nat, c: nat)
    ensures a * b * c == a * (b * c)
  {
  }

  lemma CountFlat(g: Geometry)
    ensures g.Count() == g.layers * g.blockCount * g.blockSize * g.heads * g.dim
  {
    var lb := g.layers * g.blockCount;
    MulAssoc(lb, g.blockSize, g.PerToken());
    MulAssoc(lb * g.blockSize, g.heads, g.dim);
  }

  /** element_offset is a bijection from the places within the geometry onto [0, element_count). */
  lemma OffsetOfPlace(g: Geometry, p: Place)
    ensures ElementOffset(g, p).Ok? <==> Within(g, p)
    ensures Within(g, p) ==> ElementOffset(g, p).value < g.Count() && PlaceOf(g, ElementOffset(g, p).value) == p
  {
    if Within(g, p) {
      var b := p.layer * g.blockCount + p.block;
      var t := b * g.blockSize + p.offset;
      var h := t * g.heads + p.head;
      SlotParts(p.layer, p.block, g.blockCount);
      SlotParts(b, p.offset, g.blockSize);
      SlotParts(t, p.head, g.heads);
      SlotParts(h, p.feature, g.dim);
      ScaleBound(p.layer, g.layers, p.block, g.blockCount);
      ScaleBound(b, g.layers * g.blockCount, p.offset, g.blockSize);
      ScaleBound(t, g.layers * g.blockCount * g.blockSize, p.head, g.heads);
      ScaleBound(h, g.layers * g.blockCount * g.blockSize * g.heads, p.feature, g.dim);
      CountFlat(g);
    }
  }

  lemma QuotientBound(x: nat, n: nat, d: nat)
    requires 0 < d && x < n * d
    ensures x / d < n
  {
    DivMod(x, d);
    if x / d >= n {
      MulMonotone(n, x / d, d);
    }
  }

  lemma MulMonotone(a: nat, b: nat, d: nat)
    requires a <= b
    ensures a * d <= b * d
  {
    if a < b {
      MulStrict(a, b, d);
    }
  }

  function Join(q: nat, r: nat, d: nat): nat {
    q * d + r
  }

  lemma JoinSplits(x: nat, n: nat, d: nat)
    requires 0 < d && x < n * d
    ensures x / d < n && x % d < d && Join(x / d, x % d, d) == x
  {
    DivMod(x, d);
    QuotientBound(x, n, d);
  }

  lemma OffsetJoins(g: Geometry, p: Place)
    requires Within(g, p)
    ensures ElementOffset(g, p)
         == Ok(Join(Join(Join(Join(p.layer, p.block, g.blockCount), p.offset, g.blockSize), p.head, g.heads), p.feature, g.dim))
  {
  }

  lemma PlaceOfOffset(g: Geometry, x: nat)
    requires x < g.Count()
    ensures Within(g, PlaceOf(g, x)) && ElementOffset(g, PlaceOf(g, x)) == Ok(x)
  {
    hide Join, ElementOffset, Geometry.Count;
    CountFlat(g);
    JoinSplits(x, g.layers * g.blockCount * g.blockSize * g.heads, g.dim);
    JoinSplits(x / g.dim, g.layers * g.blockCount * g.blockSize, g.heads);
    JoinSplits(x / g.dim / g.heads, g.layers * g.blockCount, g.blockSize);
    JoinSplits(x / g.dim / g.heads / g.blockSize, g.layers, g.blockCount);
    OffsetJoins(g, PlaceOf(g, x));
  }

  // ---------------------------------------------------------------- copy_prefix

  /** std::memcpy of `count` elements; nothing when the ranges do not fit. */
  function Blit(target: seq<Element>, at: nat, source: seq<Element>, from: nat, count: nat): (r: seq<Element>)
    ensures |r| == |target|
  {
    if at + count <= |target| && from + count <= |source|
    then target[..at] + source[from..from + count] + target[at + count..] else target
  }

  /** How many pages the first n tokens span. */
  function PageSpan(g: Geometry, n: nat): nat {
    if n == 0 then 0 else BlocksFor(n, g.blockSize)
  }

  /** Elements of page k among the first n tokens: a full page, or the partial last one. */
  function ChunkLen(g: Geometry, n: nat, k: nat): nat {
    if n <= k * g.blockSize then 0
    else if n - k * g.blockSize < g.blockSize then (n - k * g.blockSize) * g.PerToken()
    else g.PerBlock()
  }

  /** Where page k of a layer starts: in the paged buffer through the table, or in the packed one. */
  function Base(g: Geometry, blocks: seq<nat>, n: nat, paged: bool, layer: nat, k: nat): nat {
    if paged then
      if k < |blocks| then layer * (g.blockCount * g.PerBlock()) + blocks[k] * g.PerBlock() else 0
    else (layer * n + k * g.blockSize) * g.PerToken()
  }

  function CopyChunk(g: Geometry, target: seq<Element>, source: seq<Element>, blocks: seq<nat>, n: nat, restore: bool,
                     layer: nat, k: nat): (r: seq<Element>)
    ensures |r| == |target|
  {
    Blit(target, Base(g, blocks, n, restore, layer, k), source, Base(g, blocks, n, !restore, layer, k), ChunkLen(g, n, k))
  }

  /** The target after all pages of the layers before `layer`, and the first k pages of that layer. */
  function Copied(g: Geometry, target: seq<Element>, source: seq<Element>, blocks: seq<nat>, n: nat, restore: bool,
                  layer: nat, k: nat): (r: seq<Element>)
    ensures |r| == |target|
    decreases layer, k
  {
    if k > 0 then
      CopyChunk(g, Copied(g, target, source, blocks, n, restore, layer, k - 1), source, blocks, n, restore, layer, k - 1)
    else if layer > 0 then Copied(g, target, source, blocks, n, restore, layer - 1, PageSpan(g, n))
    else target
  }

  /** A table prefix through which n tokens can be moved: long enough and in range. */
  ghost predicate Usable(g: Geometry, blocks: seq<nat>, n: nat) {
    && 0 < n <= g.blockCount * g.blockSize
    && PageSpan(g, n) <= |blocks|
    && InPool(blocks[..PageSpan(g, n)], g.blockCount)
  }

  function Buffer(g: Geometry, n: nat, paged: bool): nat {
    if paged then g.Count() else g.layers * n * g.PerToken()
  }

  lemma PageStarts(g: Geometry, n: nat, k: nat)
    requires 0 < n && k < PageSpan(g, n)
    ensures k * g.blockSize < n && 0 < ChunkLen(g, n, k) <= g.PerBlock()
    ensures k * g.blockSize + (if n - k * g.blockSize < g.blockSize then n - k * g.blockSize else g.blockSize) <= n
  {
    BlocksForBounds(n, g.blockSize);
    MulMonotone(k, PageSpan(g, n) - 1, g.blockSize);
    PerTokenPositive(g);
    var rest := n - k * g.blockSize;
    if rest < g.blockSize {
      MulMonotone(1, rest, g.PerToken());
      MulMonotone(rest, g.blockSize, g.PerToken());
    } else {
      MulMonotone(1, g.blockSize, g.PerToken());
    }
  }

  lemma PerTokenPositive(g: Geometry)
    ensures 0 < g.PerToken()
  {
    MulMonotone(1, g.heads, g.dim);
  }

  lemma Distribute(a: nat, b: nat, d: nat)
    ensures (a + b) * d == a * d + b * d
  {
  }

  /** Paged chunks start at multiples of the page size. */
  lemma PagedBase(g: Geometry, blocks: seq<nat>, n: nat, layer: nat, k: nat)
    requires k < |blocks|
    ensures Base(g, blocks, n, true, layer, k) == (layer * g.blockCount + blocks[k]) * g.PerBlock()
  {
    Distribute(layer * g.blockCount, blocks[k], g.PerBlock());
    MulAssoc(layer, g.blockCount, g.PerBlock());
  }

  lemma UsableBlock(g: Geometry, blocks: seq<nat>, n: nat, k: nat)
    requires Usable(g, blocks, n) && k < PageSpan(g, n)
    ensures k < |blocks| && blocks[k] < g.blockCount
  {
    assert blocks[..PageSpan(g, n)][k] in blocks[..PageSpan(g, n)];
  }

  /** Every chunk lies inside both buffers. */
  lemma ChunkFits(g: Geometry, blocks: seq<nat>, n: nat, paged: bool, layer: nat, k: nat)
    requires Usable(g, blocks, n) && layer < g.layers && k < PageSpan(g, n)
    ensures Base(g, blocks, n, paged, layer, k) + ChunkLen(g, n, k) <= Buffer(g, n, paged)
  {
    PageStarts(g, n, k);
    if paged {
      UsableBlock(g, blocks, n, k);
      PagedBase(g, blocks, n, layer, k);
      ScaleBound(layer, g.layers, blocks[k], g.blockCount);
      MulStrict(layer * g.blockCount + blocks[k], g.layers * g.blockCount, g.PerBlock());
    } else {
      PackedFits(g, n, layer, k);
    }
  }

  /** Tokens of page k among the first n. */
  function ChunkTokens(g: Geometry, n: nat, k: nat): nat {
    if n <= k * g.blockSize then 0
    else if n - k * g.blockSize < g.blockSize then n - k * g.blockSize else g.blockSize
  }

  lemma ChunkLenIs(g: Geometry, n: nat, k: nat)
    ensures ChunkLen(g, n, k) == ChunkTokens(g, n, k) * g.PerToken()
  {
  }

  lemma PackedFits(g: Geometry, n: nat, layer: nat, k: nat)
    requires 0 < n && layer < g.layers && k < PageSpan(g, n)
    ensures Base(g, [], n, false, layer, k) + ChunkLen(g, n, k) <= g.layers * n * g.PerToken()
  {
    PackedRows(g, n, layer, k);
    ChunkLenIs(g, n, k);
    hide Geometry.PerToken, ChunkLen, PageSpan, ChunkTokens;
    ScaledSum(layer * n + k * g.blockSize, ChunkTokens(g, n, k), g.layers * n, g.PerToken());
  }

  /** The rows of a page lie within those of its layer. */
  lemma PackedRows(g: Geometry, n: nat, layer: nat, k: nat)
    requires 0 < n && layer < g.layers && k < PageSpan(g, n)
    ensures layer * n + k * g.blockSize + ChunkTokens(g, n, k) <= g.layers * n
  {
    hide Geometry.PerToken, ChunkLen, PageSpan, Geometry.PerBlock;
    PageStarts(g, n, k);
    MulStrict(layer, g.layers, n);
  }

  lemma ScaledSum(a: nat, b: nat, most: nat, d: nat)
    requires a + b <= most
    ensures a * d + b * d <= most * d
  {
    Distribute(a, b, d);
    MulMonotone(a + b, most, d);
  }

  // ---------------------------------------------------------------- chunks never overlap

  /** Layer and page can be read back from a position in the paged buffer. */
  lemma PagedDecodes(g: Geometry, blocks: seq<nat>, n: nat, layer: nat, k: nat, j: nat)
    requires k < |blocks| && blocks[k] < g.blockCount && j < g.PerBlock()
    ensures var u := (Base(g, blocks, n, true, layer, k) + j) / g.PerBlock();
            u / g.blockCount == layer && u % g.blockCount == blocks[k]
  {
    PagedBase(g, blocks, n, layer, k);
    SlotParts(layer * g.blockCount + blocks[k], j, g.PerBlock());
    SlotParts(layer, blocks[k], g.blockCount);
  }

  /** Layer, token and feature can be read back from a position in the packed buffer. */
  lemma PackedDecodes(g: Geometry, n: nat, layer: nat, t: nat, e: nat)
    requires t < n && e < g.PerToken()
    ensures var pos := (layer * n + t) * g.PerToken() + e;
            && pos / g.PerToken() / n == layer && pos / g.PerToken() % n == t
  {
    SlotParts(layer * n + t, e, g.PerToken());
    SlotParts(layer, t, n);
  }

  /** Offset j of page k is feature j % per-token of token k * size + j / per-token. */
  lemma ChunkToken(g: Geometry, n: nat, k: nat, j: nat)
    requires 0 < n && k < PageSpan(g, n) && j < ChunkLen(g, n, k)
    ensures 0 < g.PerToken() && j / g.PerToken() < g.blockSize && k * g.blockSize + j / g.PerToken() < n
    ensures (k * g.blockSize + j / g.PerToken()) / g.blockSize == k
    ensures (k * g.blockSize + j / g.PerToken()) % g.blockSize == j / g.PerToken()
  {
    PerTokenPositive(g);
    PageStarts(g, n, k);
    ChunkLenIs(g, n, k);
    QuotientBound(j, ChunkTokens(g, n, k), g.PerToken());
    SlotParts(k, j / g.PerToken(), g.blockSize);
  }

  lemma PackedPosition(g: Geometry, blocks: seq<nat>, n: nat, layer: nat, k: nat, j: nat)
    requires 0 < n && k < PageSpan(g, n) && j < ChunkLen(g, n, k)
    ensures 0 < g.PerToken()
    ensures Base(g, blocks, n, false, layer, k) + j
         == (layer * n + (k * g.blockSize + j / g.PerToken())) * g.PerToken() + j % g.PerToken()
  {
    PerTokenPositive(g);
    DivMod(j, g.PerToken());
    Distribute(layer * n + k * g.blockSize, j / g.PerToken(), g.PerToken());
  }

  lemma PackedPageDecodes(g: Geometry, blocks: seq<nat>, n: nat, layer: nat, k: nat, j: nat)
    requires 0 < n && k < PageSpan(g, n) && j < ChunkLen(g, n, k)
    ensures 0 < g.PerToken()
    ensures var pos := Base(g, blocks, n, false, layer, k) + j;
            pos / g.PerToken() / n == layer && pos / g.PerToken() % n / g.blockSize == k
  {
    ChunkToken(g, n, k, j);
    PackedPosition(g, blocks, n, layer, k, j);
    DivMod(j, g.PerToken());
    PackedDecodes(g, n, layer, k * g.blockSize + j / g.PerToken(), j % g.PerToken());
  }

  lemma PagedApart(g: Geometry, blocks: seq<nat>, n: nat, l1: nat, k1: nat, j1: nat, l2: nat, k2: nat, j2: nat)
    requires Usable(g, blocks, n) && NoDup(blocks[..PageSpan(g, n)])
    requires k1 < PageSpan(g, n) && j1 < ChunkLen(g, n, k1) && k2 < PageSpan(g, n) && j2 < ChunkLen(g, n, k2)
    requires l1 != l2 || k1 != k2
    ensures Base(g, blocks, n, true, l1, k1) + j1 != Base(g, blocks, n, true, l2, k2) + j2
  {
    hide Base, ChunkLen, Geometry.PerToken, Geometry.PerBlock;
    PageStarts(g, n, k1);
    PageStarts(g, n, k2);
    UsableBlock(g, blocks, n, k1);
    UsableBlock(g, blocks, n, k2);
    PagedDecodes(g, blocks, n, l1, k1, j1);
    PagedDecodes(g, blocks, n, l2, k2, j2);
    TablesDiffer(g, blocks, n, k1, k2);
  }

  lemma TablesDiffer(g: Geometry, blocks: seq<nat>, n: nat, k1: nat, k2: nat)
    requires Usable(g, blocks, n) && NoDup(blocks[..PageSpan(g, n)]) && k1 < PageSpan(g, n) && k2 < PageSpan(g, n)
    ensures blocks[k1] == blocks[k2] ==> k1 == k2
  {
    var table := blocks[..PageSpan(g, n)];
    assert table[k1] == blocks[k1] && table[k2] == blocks[k2];
    if k1 < k2 {
      assert table[k1] != table[k2];
    } else if k2 < k1 {
      assert table[k2] != table[k1];
    }
  }

  // ---------------------------------------------------------------- what a copy leaves

  /** The chunk was copied by the time the copy reached page k of `layer`. */
  ghost predicate Reached(l: nat, at: nat, layer: nat, k: nat) {
    l < layer || (l == layer && at < k)
  }

  lemma BlitAt(target: seq<Element>, at: nat, source: seq<Element>, from: nat, count: nat, j: nat)
    requires at + count <= |target| && from + count <= |source| && j < count
    ensures Blit(target, at, source, from, count)[at + j] == source[from + j]
  {
  }

  lemma BlitElsewhere(target: seq<Element>, at: nat, source: seq<Element>, from: nat, count: nat, x: nat)
    requires x < |target| && !(at <= x < at + count)
    ensures Blit(target, at, source, from, count)[x] == target[x]
  {
  }

  ghost predicate Copyable(g: Geometry, target: seq<Element>, source: seq<Element>, blocks: seq<nat>, n: nat, restore: bool) {
    && Usable(g, blocks, n)
    && |target| == Buffer(g, n, restore) && |source| == Buffer(g, n, !restore)
    && (restore ==> NoDup(blocks[..PageSpan(g, n)]))
  }

  /** Every copied element arrives, and stays while the later pages are copied. */
  lemma {:induction false} CopiedAt(g: Geometry, target: seq<Element>, source: seq<Element>, blocks: seq<nat>, n: nat,
                                    restore: bool, layer: nat, k: nat, l: nat, at: nat, j: nat)
    requires Copyable(g, target, source, blocks, n, restore)
    requires Reached(l, at, layer, k) && (layer < g.layers || (layer == g.layers && k == 0)) && k <= PageSpan(g, n)
    requires at < PageSpan(g, n) && j < ChunkLen(g, n, at)
    ensures Base(g, blocks, n, restore, l, at) + j < |target| && Base(g, blocks, n, !restore, l, at) + j < |source|
    ensures Copied(g, target, source, blocks, n, restore, layer, k)[Base(g, blocks, n, restore, l, at) + j]
         == source[Base(g, blocks, n, !restore, l, at) + j]
    decreases layer, k
  {
    hide Base, ChunkLen, Blit, PageSpan, Buffer;
    ChunkFits(g, blocks, n, restore, l, at);
    ChunkFits(g, blocks, n, !restore, l, at);
    if k > 0 {
      ChunkFits(g, blocks, n, restore, layer, k - 1);
      ChunkFits(g, blocks, n, !restore, layer, k - 1);
      var before := Copied(g, target, source, blocks, n, restore, layer, k - 1);
      if l == layer && at == k - 1 {
        BlitAt(before, Base(g, blocks, n, restore, l, at), source, Base(g, blocks, n, !restore, l, at), ChunkLen(g, n, at), j);
      } else {
        CopiedAt(g, target, source, blocks, n, restore, layer, k - 1, l, at, j);
        OutsideChunk(g, blocks, n, restore, l, at, j, layer, k - 1);
        BlitElsewhere(before, Base(g, blocks, n, restore, layer, k - 1), source, Base(g, blocks, n, !restore, layer, k - 1),
                      ChunkLen(g, n, k - 1), Base(g, blocks, n, restore, l, at) + j);
      }
    } else {
      CopiedAt(g, target, source, blocks, n, restore, layer - 1, PageSpan(g, n), l, at, j);
    }
  }

  lemma OutsideChunk(g: Geometry, blocks: seq<nat>, n: nat, paged: bool, l1: nat, k1: nat, j1: nat, l2: nat, k2: nat)
    requires Usable(g, blocks, n) && (paged ==> NoDup(blocks[..PageSpan(g, n)]))
    requires k1 < PageSpan(g, n) && j1 < ChunkLen(g, n, k1) && k2 < PageSpan(g, n)
    requires l1 != l2 || k1 != k2
    ensures var x, at := Base(g, blocks, n, paged, l1, k1) + j1, Base(g, blocks, n, paged, l2, k2);
            !(at <= x < at + ChunkLen(g, n, k2))
  {
    hide Base, ChunkLen, PageSpan;
    var x, at := Base(g, blocks, n, paged, l1, k1) + j1, Base(g, blocks, n, paged, l2, k2);
    if at <= x < at + ChunkLen(g, n, k2) {
      if paged {
        PagedApart(g, blocks, n, l1, k1, j1, l2, k2, x - at);
      } else {
        PackedApart(g, blocks, n, l1, k1, j1, l2, k2, x - at);
      }
    }
  }

  lemma PackedApart(g: Geometry, blocks: seq<nat>, n: nat, l1: nat, k1: nat, j1: nat, l2: nat, k2: nat, j2: nat)
    requires 0 < n && k1 < PageSpan(g, n) && j1 < ChunkLen(g, n, k1) && k2 < PageSpan(g, n) && j2 < ChunkLen(g, n, k2)
    requires l1 != l2 || k1 != k2
    ensures Base(g, blocks, n, false, l1, k1) + j1 != Base(g, blocks, n, false, l2, k2) + j2
  {
    hide Base, ChunkLen, Geometry.PerToken;
    PackedPageDecodes(g, blocks, n, l1, k1, j1);
    PackedPageDecodes(g, blocks, n, l2, k2, j2);
  }

  /** A position that belongs to no page of the prefix keeps its element. */
  lemma {:induction false} CopiedElsewhere(g: Geometry, target: seq<Element>, source: seq<Element>, blocks: seq<nat>, n: nat,
                                           restore: bool, layer: nat, k: nat, x: nat)
    requires x < |target| && (layer < g.layers || (layer == g.layers && k == 0)) && k <= PageSpan(g, n)
    requires forall l: nat, at: nat {:trigger Base(g, blocks, n, restore, l, at)} :: l < g.layers && at < PageSpan(g, n) ==>
               !(Base(g, blocks, n, restore, l, at) <= x < Base(g, blocks, n, restore, l, at) + ChunkLen(g, n, at))
    ensures Copied(g, target, source, blocks, n, restore, layer, k)[x] == target[x]
    decreases layer, k
  {
    hide Base, ChunkLen, Blit, PageSpan;
    if k > 0 {
      CopiedElsewhere(g, target, source, blocks, n, restore, layer, k - 1, x);
      BlitElsewhere(Copied(g, target, source, blocks, n, restore, layer, k - 1), Base(g, blocks, n, restore, layer, k - 1),
                    source, Base(g, blocks, n, !restore, layer, k - 1), ChunkLen(g, n, k - 1), x);
    } else if layer > 0 {
      CopiedElsewhere(g, target, source, blocks, n, restore, layer - 1, PageSpan(g, n), x);
    }
  }

  // ---------------------------------------------------------------- relocation

  /** Where feature e of token t lies in one layer of the paged buffer. */
  function TokenIndex(g: Geometry, blocks: seq<nat>, layer: nat, t: nat, e: nat): nat {
    Base(g, blocks, 0, true, layer, t / g.blockSize) + (t % g.blockSize) * g.PerToken() + e
  }

  /** The flat index of the copy agrees with element_offset. */
  lemma TokenIndexIsOffset(g: Geometry, blocks: seq<nat>, layer: nat, t: nat, e: nat)
    requires layer < g.layers && t / g.blockSize < |blocks| && blocks[t / g.blockSize] < g.blockCount && e < g.PerToken()
    ensures ElementOffset(g, Place(layer, blocks[t / g.blockSize], t % g.blockSize, e / g.dim, e % g.dim))
         == Ok(TokenIndex(g, blocks, layer, t, e))
  {
    var b, o := blocks[t / g.blockSize], t % g.blockSize;
    DivMod(t, g.blockSize);
    DivMod(e, g.dim);
    QuotientBound(e, g.heads, g.dim);
    PagedBase(g, blocks, 0, layer, t / g.blockSize);
    Flatten(layer * g.blockCount + b, o, e / g.dim, e % g.dim, g.blockSize, g.heads, g.dim);
  }

  lemma Flatten(u: nat, o: nat, h: nat, f: nat, size: nat, heads: nat, dim: nat)
    ensures ((u * size + o) * heads + h) * dim + f == u * (size * (heads * dim)) + o * (heads * dim) + (h * dim + f)
  {
    var w := u * size + o;
    calc {
      (w * heads + h) * dim + f;
    == { Distribute(w * heads, h, dim); }
      w * heads * dim + h * dim + f;
    == { MulAssoc(w, heads, dim); }
      w * (heads * dim) + h * dim + f;
    == { Distribute(u * size, o, heads * dim); }
      u * size * (heads * dim) + o * (heads * dim) + h * dim + f;
    == { MulAssoc(u, size, heads * dim); }
      u * (size * (heads * dim)) + o * (heads * dim) + (h * dim + f);
    }
  }

  /** Within a layer the copy addresses exactly the physical slot of prepare_paged_batch. */
  lemma TokenIndexIsSlot(g: Geometry, blocks: seq<nat>, layer: nat, t: nat, e: nat)
    requires t / g.blockSize < |blocks|
    ensures TokenIndex(g, blocks, layer, t, e)
         == layer * (g.blockCount * g.PerBlock()) + Slot(blocks, g.blockSize, t) * g.PerToken() + e
  {
    var b, o := blocks[t / g.blockSize], t % g.blockSize;
    Distribute(b * g.blockSize, o, g.PerToken());
    MulAssoc(b, g.blockSize, g.PerToken());
  }

  /** A token of the prefix as an offset into its page. */
  lemma TokenChunk(g: Geometry, blocks: seq<nat>, n: nat, layer: nat, t: nat, e: nat)
    requires t < n && e < g.PerToken()
    ensures var k, j := t / g.blockSize, (t % g.blockSize) * g.PerToken() + e;
            && k < PageSpan(g, n) && j < ChunkLen(g, n, k)
            && Base(g, blocks, n, true, layer, k) + j == TokenIndex(g, blocks, layer, t, e)
            && Base(g, blocks, n, false, layer, k) + j == (layer * n + t) * g.PerToken() + e
  {
    var k, o := t / g.blockSize, t % g.blockSize;
    BlocksForBounds(n, g.blockSize);
    DivMod(t, g.blockSize);
    ChunkLenIs(g, n, k);
    ScaleBound(o, ChunkTokens(g, n, k), e, g.PerToken());
    Distribute(layer * n + k * g.blockSize, o, g.PerToken());
  }

  /** A checkpoint of the first n tokens taken through one table, and what a restore through another one leaves. */
  ghost predicate Relocated(g1: Geometry, a: seq<nat>, source: seq<Element>, blank: seq<Element>,
                            g2: Geometry, b: seq<nat>, target: seq<Element>, n: nat, after: seq<Element>) {
    && g1.layers == g2.layers && g1.heads == g2.heads && g1.dim == g2.dim
    && Usable(g1, a, n) && |source| == g1.Count() && |blank| == g1.layers * n * g1.PerToken()
    && Usable(g2, b, n) && |target| == g2.Count() && NoDup(b[..PageSpan(g2, n)])
    && after == Copied(g2, target, Copied(g1, blank, source, a, n, false, g1.layers, 0), b, n, true, g2.layers, 0)
  }

  /** Place of a token's element in the packed buffer. */
  function PackedIndex(g: Geometry, n: nat, layer: nat, t: nat, e: nat): nat {
    (layer * n + t) * g.PerToken() + e
  }

  lemma SavedAt(g: Geometry, blank: seq<Element>, source: seq<Element>, blocks: seq<nat>, n: nat, l: nat, t: nat, e: nat)
    requires Usable(g, blocks, n) && |source| == g.Count() && |blank| == g.layers * n * g.PerToken()
    requires l < g.layers && t < n && e < g.PerToken()
    ensures var r := Copied(g, blank, source, blocks, n, false, g.layers, 0);
            && TokenIndex(g, blocks, l, t, e) < |source| && PackedIndex(g, n, l, t, e) < |r| == |blank|
            && r[PackedIndex(g, n, l, t, e)] == source[TokenIndex(g, blocks, l, t, e)]
  {
    hide Copied, Base, ChunkLen, PageSpan, TokenIndex;
    TokenChunk(g, blocks, n, l, t, e);
    CopiedAt(g, blank, source, blocks, n, false, g.layers, 0, l, t / g.blockSize, (t % g.blockSize) * g.PerToken() + e);
  }

  lemma RestoredAt(g: Geometry, target: seq<Element>, saved: seq<Element>, blocks: seq<nat>, n: nat, l: nat, t: nat, e: nat)
    requires Usable(g, blocks, n) && |target| == g.Count() && |saved| == g.layers * n * g.PerToken()
    requires NoDup(blocks[..PageSpan(g, n)]) && l < g.layers && t < n && e < g.PerToken()
    ensures var r := Copied(g, target, saved, blocks, n, true, g.layers, 0);
            && TokenIndex(g, blocks, l, t, e) < |r| == |target| && PackedIndex(g, n, l, t, e) < |saved|
            && r[TokenIndex(g, blocks, l, t, e)] == saved[PackedIndex(g, n, l, t, e)]
  {
    hide Copied, Base, ChunkLen, PageSpan, TokenIndex;
    TokenChunk(g, blocks, n, l, t, e);
    CopiedAt(g, target, saved, blocks, n, true, g.layers, 0, l, t / g.blockSize, (t % g.blockSize) * g.PerToken() + e);
  }

  /** Checkpointing through one table and restoring through another, possibly into a cache with other pages, moves every
      element of the prefix to its new place. */
  lemma RelocationMoves(g1: Geometry, a: seq<nat>, source: seq<Element>, blank: seq<Element>,
                        g2: Geometry, b: seq<nat>, target: seq<Element>, n: nat, after: seq<Element>, l: nat, t: nat, e: nat)
    requires Relocated(g1, a, source, blank, g2, b, target, n, after)
    requires l < g1.layers && t < n && e < g1.PerToken()
    ensures TokenIndex(g1, a, l, t, e) < |source| && TokenIndex(g2, b, l, t, e) < |after| == |target|
    ensures after[TokenIndex(g2, b, l, t, e)] == source[TokenIndex(g1, a, l, t, e)]
  {
    hide Copied, TokenIndex, Usable, PageSpan;
    SavedAt(g1, blank, source, a, n, l, t, e);
    RestoredAt(g2, target, Copied(g1, blank, source, a, n, false, g1.layers, 0), b, n, l, t, e);
  }

  /** Nothing else in the target changes. */
  lemma RelocationSpares(g1: Geometry, a: seq<nat>, source: seq<Element>, blank: seq<Element>,
                         g2: Geometry, b: seq<nat>, target: seq<Element>, n: nat, after: seq<Element>, x: nat)
    requires Relocated(g1, a, source, blank, g2, b, target, n, after) && x < |target|
    requires forall l: nat, t: nat, e: nat :: l < g2.layers && t < n && e < g2.PerToken() ==> TokenIndex(g2, b, l, t, e) != x
    ensures |after| == |target| && after[x] == target[x]
  {
    hide Copied, ChunkLen, PageSpan, TokenIndex, Base;
    forall l: nat, k: nat {:trigger Base(g2, b, n, true, l, k)} | l < g2.layers && k < PageSpan(g2, n)
      ensures !(Base(g2, b, n, true, l, k) <= x < Base(g2, b, n, true, l, k) + ChunkLen(g2, n, k))
    {
      if Base(g2, b, n, true, l, k) <= x < Base(g2, b, n, true, l, k) + ChunkLen(g2, n, k) {
        var j := x - Base(g2, b, n, true, l, k);
        ChunkIsToken(g2, b, n, l, k, j);
      }
    }
    CopiedElsewhere(g2, target, Copied(g1, blank, source, a, n, false, g1.layers, 0), b, n, true, g2.layers, 0, x);
  }

  /** Every offset of a page belongs to a token of the prefix. */
  lemma ChunkIsToken(g: Geometry, blocks: seq<nat>, n: nat, l: nat, k: nat, j: nat)
    requires 0 < n && k < PageSpan(g, n) && j < ChunkLen(g, n, k)
    ensures 0 < g.PerToken()
    ensures var t, e := k * g.blockSize + j / g.PerToken(), j % g.PerToken();
            t < n && e < g.PerToken() && TokenIndex(g, blocks, l, t, e) == Base(g, blocks, n, true, l, k) + j
  {
    ChunkToken(g, n, k, j);
    DivMod(j, g.PerToken());
  }

  // ---------------------------------------------------------------- cells

  /** Where feature e of a slot lies in one layer: the part of the buffer that one cell of the unlayered model stands for. */
  function CellIndex(g: Geometry, layer: nat, slot: nat, e: nat): nat {
    layer * (g.blockCount * g.PerBlock()) + slot * g.PerToken() + e
  }

  /** Two slots hold the same cell: equal elements in every layer. */
  ghost predicate SameCell(g1: Geometry, x: seq<Element>, slot1: nat, g2: Geometry, y: seq<Element>, slot2: nat) {
    forall l: nat, e: nat :: l < g1.layers && e < g1.PerToken() ==>
      CellIndex(g1, l, slot1, e) < |x| && CellIndex(g2, l, slot2, e) < |y|
      && x[CellIndex(g1, l, slot1, e)] == y[CellIndex(g2, l, slot2, e)]
  }

  /** Layer and slot can be read back from a position. */
  lemma CellDecodes(g: Geometry, layer: nat, slot: nat, e: nat)
    requires slot < g.blockCount * g.blockSize && e < g.PerToken()
    ensures var x := CellIndex(g, layer, slot, e);
            0 < g.blockCount * g.PerBlock() && x / (g.blockCount * g.PerBlock()) == layer
            && x % (g.blockCount * g.PerBlock()) / g.PerToken() == slot
  {
    ScaleBound(slot, g.blockCount * g.blockSize, e, g.PerToken());
    MulAssoc(g.blockCount, g.blockSize, g.PerToken());
    SlotParts(layer, slot * g.PerToken() + e, g.blockCount * g.PerBlock());
    SlotParts(slot, e, g.PerToken());
  }

  /** Checkpoint and restore over all layers gather the cells of the first n positions of one table and scatter them over
      those of the other. */
  lemma RelocationScatters(g1: Geometry, a: seq<nat>, source: seq<Element>, blank: seq<Element>,
                           g2: Geometry, b: seq<nat>, target: seq<Element>, n: nat, after: seq<Element>, t: nat)
    requires Relocated(g1, a, source, blank, g2, b, target, n, after) && t < n
    ensures SameCell(g1, source, Slot(a, g1.blockSize, t), g2, after, Slot(b, g2.blockSize, t))
  {
    hide Copied, Base, ChunkLen, TokenIndex, Slot;
    forall l: nat, e: nat | l < g1.layers && e < g1.PerToken()
      ensures var i, j := CellIndex(g1, l, Slot(a, g1.blockSize, t), e), CellIndex(g2, l, Slot(b, g2.blockSize, t), e);
              i < |source| && j < |after| && source[i] == after[j]
    {
      TokenChunk(g1, a, n, l, t, e);
      TokenChunk(g2, b, n, l, t, e);
      TokenIndexIsSlot(g1, a, l, t, e);
      TokenIndexIsSlot(g2, b, l, t, e);
      RelocationMoves(g1, a, source, blank, g2, b, target, n, after, l, t, e);
    }
  }

  /** Every other slot keeps its cell. */
  lemma RelocationKeepsCells(g1: Geometry, a: seq<nat>, source: seq<Element>, blank: seq<Element>,
                             g2: Geometry, b: seq<nat>, target: seq<Element>, n: nat, after: seq<Element>, slot: nat)
    requires Relocated(g1, a, source, blank, g2, b, target, n, after)
    requires slot < g2.blockCount * g2.blockSize && forall t: nat :: t < n ==> Slot(b, g2.blockSize, t) != slot
    ensures SameCell(g2, target, slot, g2, after, slot)
  {
    hide Copied, Base, ChunkLen, TokenIndex, Slot, CellIndex;
    forall l: nat, e: nat | l < g2.layers && e < g2.PerToken()
      ensures var x := CellIndex(g2, l, slot, e); x < |target| && x < |after| && target[x] == after[x]
    {
      CellWithin(g2, l, slot, e);
      forall m: nat, t: nat, f: nat | m < g2.layers && t < n && f < g2.PerToken()
        ensures TokenIndex(g2, b, m, t, f) != CellIndex(g2, l, slot, e)
      {
        OtherCell(g2, b, n, m, t, f, l, slot, e);
      }
      RelocationSpares(g1, a, source, blank, g2, b, target, n, after, CellIndex(g2, l, slot, e));
    }
  }

  lemma CellWithin(g: Geometry, l: nat, slot: nat, e: nat)
    requires l < g.layers && slot < g.blockCount * g.blockSize && e < g.PerToken()
    ensures CellIndex(g, l, slot, e) < g.Count()
  {
    ScaleBound(slot, g.blockCount * g.blockSize, e, g.PerToken());
    MulAssoc(g.blockCount, g.blockSize, g.PerToken());
    ScaleBound(l, g.layers, slot * g.PerToken() + e, g.blockCount * g.PerBlock());
    MulAssoc(g.layers, g.blockCount, g.PerBlock());
  }

  lemma OtherCell(g: Geometry, b: seq<nat>, n: nat, m: nat, t: nat, f: nat, l: nat, slot: nat, e: nat)
    requires Usable(g, b, n) && t < n && f < g.PerToken() && e < g.PerToken()
    requires slot < g.blockCount * g.blockSize && Slot(b, g.blockSize, t) != slot
    ensures TokenIndex(g, b, m, t, f) != CellIndex(g, l, slot, e)
  {
    TokenChunk(g, b, n, m, t, f);
    TokenIndexIsSlot(g, b, m, t, f);
    UsableSlot(g, b, n, t);
    hide Slot, TokenIndex, CellIndex, Base, ChunkLen;
    CellDecodes(g, m, Slot(b, g.blockSize, t), f);
    CellDecodes(g, l, slot, e);
    assert TokenIndex(g, b, m, t, f) == CellIndex(g, m, Slot(b, g.blockSize, t), f) by {
      CellIsToken(g, b, m, t, f);
    }
  }

  lemma CellIsToken(g: Geometry, b: seq<nat>, m: nat, t: nat, f: nat)
    requires t / g.blockSize < |b|
    ensures TokenIndex(g, b, m, t, f) == CellIndex(g, m, Slot(b, g.blockSize, t), f)
  {
    TokenIndexIsSlot(g, b, m, t, f);
  }

  lemma UsableSlot(g: Geometry, b: seq<nat>, n: nat, t: nat)
    requires Usable(g, b, n) && t < n
    ensures t / g.blockSize < |b| && Slot(b, g.blockSize, t) < g.blockCount * g.blockSize
  {
    BlocksForBounds(n, g.blockSize);
    DivMod(t, g.blockSize);
    DivMonotone(t, n - 1, g.blockSize);
    var k := t / g.blockSize;
    assert b[..PageSpan(g, n)][k] == b[k] && b[k] in b[..PageSpan(g, n)];
    ScaleBound(b[k], g.blockCount, t % g.blockSize, g.blockSize);
  }

  // ---------------------------------------------------------------- the cache object

  datatype KvCheckpoint = KvCheckpoint(geometry: Geometry, tokenCount: nat, keys: seq<Element>, values: seq<Element>)

  /** The block-copy loop: std::memcpy element by element. */
  method Memcpy(target: array<Element>, at: nat, source: seq<Element>, from: nat, count: nat)
    requires at + count <= target.Length && from + count <= |source|
    modifies target
    ensures target[..] == Blit(old(target[..]), at, source, from, count)
  {
    ghost var before := target[..];
    var i := 0;
    while i < count
      invariant i <= count
      invariant forall x :: 0 <= x < target.Length ==>
                  target[x] == if at <= x < at + i then source[from + (x - at)] else before[x]
    {
      target[at + i] := source[from + i];
      i := i + 1;
    }
  }

  /** copy_prefix: page by page within each layer, out of the paged buffer or back into it. */
  method CopyPrefix(g: Geometry, target: array<Element>, source: seq<Element>, blocks: seq<nat>, tokens: nat, restore: bool)
    requires Usable(g, blocks, tokens)
    requires target.Length == Buffer(g, tokens, restore) && |source| == Buffer(g, tokens, !restore)
    modifies target
    ensures target[..] == Copied(g, old(target[..]), source, blocks, tokens, restore, g.layers, 0)
  {
    hide Blit, Base, ChunkLen, Buffer, Usable;
    var layer := 0;
    while layer < g.layers
      invariant layer <= g.layers
      invariant target[..] == Copied(g, old(target[..]), source, blocks, tokens, restore, layer, 0)
    {
      var token, k := 0, 0;
      while token < tokens
        invariant token == k * g.blockSize && k <= PageSpan(g, tokens)
        invariant k == PageSpan(g, tokens) <==> tokens <= token
        invariant target[..] == Copied(g, old(target[..]), source, blocks, tokens, restore, layer, k)
        decreases PageSpan(g, tokens) - k
      {
        ChunkFits(g, blocks, tokens, restore, layer, k);
        ChunkFits(g, blocks, tokens, !restore, layer, k);
        Memcpy(target, Base(g, blocks, tokens, restore, layer, k), source, Base(g, blocks, tokens, !restore, layer, k),
               ChunkLen(g, tokens, k));
        NextPage(g, tokens, k);
        token, k := token + g.blockSize, k + 1;
      }
      layer := layer + 1;
    }
  }

  lemma NextPage(g: Geometry, n: nat, k: nat)
    requires 0 < n && k < PageSpan(g, n)
    ensures (k + 1) * g.blockSize == k * g.blockSize + g.blockSize
    ensures k + 1 == PageSpan(g, n) <==> n <= (k + 1) * g.blockSize
  {
    BlocksForBounds(n, g.blockSize);
    if k + 1 < PageSpan(g, n) {
      MulMonotone(k + 1, PageSpan(g, n) - 1, g.blockSize);
    }
  }

  /** checkpoint_bytes: keys and values of n tokens as 32-bit floats; 0 when there are none, too many, or too large for a
      size_t. The product itself cannot wrap: it is at most the size of the whole buffer. */
  function CheckpointBytes(g: Geometry, n: nat): nat {
    if n == 0 || n > g.blockCount * g.blockSize then 0
    else
      var bytes := g.layers * n * g.PerToken() * FLOAT_BYTES;
      if bytes <= MAX_SIZE / 2 then 2 * bytes else 0
  }

  const FLOAT_BYTES := 4
  const MAX_SIZE := 0xFFFF_FFFF_FFFF_FFFF

  /** The bytes of both packed buffers, four to a number, when that many fit a size_t; otherwise none. */
  lemma BytesOfBoth(g: Geometry, n: nat)
    ensures var packed := g.layers * n * g.PerToken();
            CheckpointBytes(g, n) == (if 0 < n <= g.blockCount * g.blockSize && 4 * packed + 4 * packed <= MAX_SIZE
                                      then 4 * packed + 4 * packed else 0)
  {
    var packed := g.layers * n * g.PerToken();
    assert packed * FLOAT_BYTES == 4 * packed;
  }

  /** valid_prefix. */
  ghost predicate Savable(g: Geometry, blocks: seq<nat>, n: nat) {
    CheckpointBytes(g, n) != 0 && Usable(g, blocks, n)
  }

  class KvCache {
    const geometry: Geometry
    const keys: array<Element>
    const values: array<Element>

    ghost predicate Valid() {
      keys.Length == values.Length == geometry.Count() && keys != values
    }

    constructor (geometry: Geometry, blank: Element)
      ensures Valid() && this.geometry == geometry && fresh(keys) && fresh(values)
    {
      this.geometry := geometry;
      keys := new Element[geometry.Count()](i => blank);
      values := new Element[geometry.Count()](i => blank);
    }

    /** valid_prefix: n tokens are held by the first pages of the table. */
    method ValidPrefix(blocks: seq<nat>, tokens: nat) returns (r: bool)
      ensures r <==> Savable(geometry, blocks, tokens)
    {
      if CheckpointBytes(geometry, tokens) == 0 {
        return false;
      }
      var required := 1 + (tokens - 1) / geometry.blockSize;
      assert required == PageSpan(geometry, tokens);
      if |blocks| < required {
        return false;
      }
      var i := 0;
      while i < required
        invariant i <= required
        invariant forall j :: 0 <= j < i ==> blocks[j] < geometry.blockCount
      {
        if blocks[i] >= geometry.blockCount {
          assert blocks[..required][i] in blocks[..required];
          return false;
        }
        i := i + 1;
      }
      return true;
    }

    method Checkpoint(blocks: seq<nat>, tokens: nat, blank: Element) returns (r: Result<KvCheckpoint, StateError>)
      requires Valid()
      ensures r.Ok? <==> Savable(geometry, blocks, tokens)
      ensures r.Err? ==> r.error == InvalidReservation
      ensures r.Ok? ==>
                var packed := seq(geometry.layers * tokens * geometry.PerToken(), i => blank);
                r.value == KvCheckpoint(geometry, tokens,
                                        Copied(geometry, packed, keys[..], blocks, tokens, false, geometry.layers, 0),
                                        Copied(geometry, packed, values[..], blocks, tokens, false, geometry.layers, 0))
    {
      var valid := ValidPrefix(blocks, tokens);
      if !valid {
        return Err(InvalidReservation);
      }
      var savedKeys := Pack(keys[..], blocks, tokens, blank);
      var savedValues := Pack(values[..], blocks, tokens, blank);
      return Ok(KvCheckpoint(geometry, tokens, savedKeys, savedValues));
    }

    method Pack(source: seq<Element>, blocks: seq<nat>, tokens: nat, blank: Element) returns (r: seq<Element>)
      requires Usable(geometry, blocks, tokens) && |source| == geometry.Count()
      ensures r == Copied(geometry, seq(geometry.layers * tokens * geometry.PerToken(), i => blank), source, blocks, tokens,
                          false, geometry.layers, 0)
    {
      hide Usable, PageSpan, Base, ChunkLen;
      var packed := new Element[geometry.layers * tokens * geometry.PerToken()](i => blank);
      assert packed[..] == seq(geometry.layers * tokens * geometry.PerToken(), i => blank);
      CopyPrefix(geometry, packed, source, blocks, tokens, false);
      return packed[..];
    }

    /** A checkpoint that this cache can take in, whatever pages it was made with. */
    ghost predicate Compatible(blocks: seq<nat>, saved: KvCheckpoint) {
      && Savable(geometry, blocks, saved.tokenCount)
      && saved.geometry.layers == geometry.layers && saved.geometry.heads == geometry.heads && saved.geometry.dim == geometry.dim
      && |saved.keys| == |saved.values| == geometry.layers * saved.tokenCount * geometry.PerToken()
    }

    method Restore(blocks: seq<nat>, saved: KvCheckpoint) returns (r: Result<(), StateError>)
      requires Valid()
      modifies keys, values
      ensures r.Ok? <==> Compatible(blocks, saved)
      ensures r.Err? ==> r.error == InvalidReservation && keys[..] == old(keys[..]) && values[..] == old(values[..])
      ensures r.Ok? ==>
                && keys[..] == Copied(geometry, old(keys[..]), saved.keys, blocks, saved.tokenCount, true, geometry.layers, 0)
                && values[..] == Copied(geometry, old(values[..]), saved.values, blocks, saved.tokenCount, true, geometry.layers, 0)
    {
      var valid := ValidPrefix(blocks, saved.tokenCount);
      if !valid
         || saved.geometry.layers != geometry.layers
         || saved.geometry.heads != geometry.heads
         || saved.geometry.dim != geometry.dim
         || |saved.keys| != geometry.layers * saved.tokenCount * geometry.PerToken()
         || |saved.values| != |saved.keys| {
        return Err(InvalidReservation);
      }
      CopyPrefix(geometry, keys, saved.keys, blocks, saved.tokenCount, true);
      CopyPrefix(geometry, values, saved.values, blocks, saved.tokenCount, true);
      return Ok(());
    }
  }
}

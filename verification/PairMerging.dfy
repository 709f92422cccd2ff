/** Byte-pair encoding of one piece: src/qwen/qwen_tokenizer.cc:252-261 and 498-555. */
module PairMerging {
  import opened Wrappers
  import opened Utf8
  import opened Utf8Units
  import opened ByteCodecs

  /** The tables of a tokenizer; ranks is what the merge list says about pairs, keys the hash table by joined key. */
  datatype Vocab = Vocab(
    ids: map<Str, nat>,
    tokens: seq<Str>,
    special: seq<bool>,
    added: seq<(Str, nat)>,
    ranks: map<(Str, Str), nat>,
    keys: map<Str, nat>,
    encoder: map<Key, Str>,
    decoder: map<Key, Byte>)

  // ---------------------------------------------------------------- what a symbol stands for

  /** The bytes behind a list of characters; None at a character that stands for no byte. */
  function Bytes(v: Vocab, units: seq<Unit>): Option<Str> {
    if units == [] then Some([])
    else if Key(units[0].codepoint) !in v.decoder then None
    else
      var rest := Bytes(v, units[1..]);
      if rest == None then None else Some([v.decoder[Key(units[0].codepoint)]] + rest.value)
  }

  /** The bytes behind a symbol, as decode computes them. */
  function BytesOf(v: Vocab, s: Str): Option<Str> {
    var units := SplitUtf8(s);
    if units == None then None else Bytes(v, units.value)
  }

  function Both(a: Option<Str>, b: Option<Str>): Option<Str> {
    if a.Some? && b.Some? then Some(a.value + b.value) else None
  }

  function ByteOfUnit(v: Vocab, unit: Unit): Option<Str> {
    if Key(unit.codepoint) in v.decoder then Some([v.decoder[Key(unit.codepoint)]]) else None
  }

  lemma BytesCons(v: Vocab, unit: Unit, rest: seq<Unit>)
    ensures Bytes(v, [unit] + rest) == Both(ByteOfUnit(v, unit), Bytes(v, rest))
  {
    assert ([unit] + rest)[1..] == rest;
  }

  lemma BothEmpty(r: Option<Str>)
    ensures Both(Some([]), r) == r
  {
    if r.Some? {
      assert [] + r.value == r.value;
    }
  }

  lemma BothAssoc(a: Option<Str>, b: Option<Str>, c: Option<Str>)
    ensures Both(Both(a, b), c) == Both(a, Both(b, c))
  {
    if a.Some? && b.Some? && c.Some? {
      assert a.value + b.value + c.value == a.value + (b.value + c.value);
    }
  }

  lemma {:induction false} BytesConcat(v: Vocab, a: seq<Unit>, b: seq<Unit>)
    ensures Bytes(v, a + b) == Both(Bytes(v, a), Bytes(v, b))
    decreases |a|
  {
    hide Both, ByteOfUnit;
    if a == [] {
      assert a + b == b;
      BothEmpty(Bytes(v, b));
    } else {
      hide Bytes;
      var first, rest := a[0], a[1..];
      assert a == [first] + rest && a + b == [first] + (rest + b);
      BytesConcat(v, rest, b);
      BytesCons(v, first, rest);
      BytesCons(v, first, rest + b);
      BothAssoc(ByteOfUnit(v, first), Bytes(v, rest), Bytes(v, b));
    }
  }

  lemma {:induction false} SplitConcat(a: Str, b: Str)
    requires SplitUtf8(a).Some?
    ensures SplitUtf8(a + b) == Prepended(SplitUtf8(a).value, SplitUtf8(b))
    decreases |a|
  {
    hide SplitUtf8, Announced, Point;
    if a == [] {
      assert a + b == b;
      SplitNothing();
      PrependNone(SplitUtf8(b));
    } else {
      SplitStep(a);
      SplitStep(a + b);
      var n := Announced(a[0]);
      assert (a + b)[..n] == a[..n] && (a + b)[n..] == a[n..] + b;
      SplitConcat(a[n..], b);
      var head := Unit(Point(a[..n]).value, a[..n]);
      PrependTwo(head, SplitUtf8(a[n..]).value, SplitUtf8(b));
    }
  }

  lemma PrependTwo(head: Unit, units: seq<Unit>, rest: Option<seq<Unit>>)
    ensures Prepended([head], Prepended(units, rest)) == Prepended([head] + units, rest)
  {
    if rest.Some? {
      assert [head] + (units + rest.value) == [head] + units + rest.value;
    }
  }

  /** Joining two symbols joins the bytes behind them. */
  lemma BytesOfConcat(v: Vocab, a: Str, b: Str)
    requires BytesOf(v, a).Some? && BytesOf(v, b).Some?
    ensures BytesOf(v, a + b) == Some(BytesOf(v, a).value + BytesOf(v, b).value)
  {
    hide SplitUtf8;
    SplitConcat(a, b);
    BytesConcat(v, SplitUtf8(a).value, SplitUtf8(b).value);
  }

  // ---------------------------------------------------------------- symbols and merges

  /** The initial symbols of a piece: one character per byte. */
  function Symbols(v: Vocab, piece: Str): seq<Str> {
    if piece == [] then []
    else [if Key(piece[0]) in v.encoder then v.encoder[Key(piece[0])] else []] + Symbols(v, piece[1..])
  }

  datatype Best = Best(rank: nat, first: Str, second: Str)

  /** The lowest-ranked adjacent pair from entry i on, the leftmost among equals. */
  function BestPair(v: Vocab, symbols: seq<Str>, i: nat, best: Option<Best>): (r: Option<Best>)
    requires 0 < |symbols| && i < |symbols|
    decreases |symbols| - i
  {
    if i + 1 == |symbols| then best
    else
      var pair := (symbols[i], symbols[i + 1]);
      BestPair(v, symbols, i + 1,
               if pair in v.ranks && (best == None || v.ranks[pair] < best.value.rank)
               then Some(Best(v.ranks[pair], pair.0, pair.1)) else best)
  }

  /** One merge pass, left to right. */
  function MergePair(symbols: seq<Str>, first: Str, second: Str): (r: seq<Str>)
    ensures |r| <= |symbols|
    decreases |symbols|
  {
    if symbols == [] then []
    else if |symbols| > 1 && symbols[0] == first && symbols[1] == second
    then [symbols[0] + symbols[1]] + MergePair(symbols[2..], first, second)
    else [symbols[0]] + MergePair(symbols[1..], first, second)
  }

  ghost predicate Adjacent(symbols: seq<Str>, first: Str, second: Str) {
    exists i :: 0 <= i < |symbols| - 1 && symbols[i] == first && symbols[i + 1] == second
  }

  lemma {:induction false} MergeShrinks(symbols: seq<Str>, first: Str, second: Str)
    requires Adjacent(symbols, first, second)
    ensures |MergePair(symbols, first, second)| < |symbols|
    decreases |symbols|
  {
    if !(symbols[0] == first && symbols[1] == second) {
      var i :| 0 <= i < |symbols| - 1 && symbols[i] == first && symbols[i + 1] == second;
      assert symbols[1..][i - 1] == first && symbols[1..][i] == second;
      MergeShrinks(symbols[1..], first, second);
    }
  }

  lemma {:induction false} BestIsAdjacent(v: Vocab, symbols: seq<Str>, i: nat, best: Option<Best>)
    requires i < |symbols|
    requires best.Some? ==> Adjacent(symbols, best.value.first, best.value.second) && (best.value.first, best.value.second) in v.ranks
    ensures var r := BestPair(v, symbols, i, best);
            r.Some? ==> Adjacent(symbols, r.value.first, r.value.second) && (r.value.first, r.value.second) in v.ranks
    decreases |symbols| - i
  {
    if i + 1 < |symbols| {
      var pair := (symbols[i], symbols[i + 1]);
      BestIsAdjacent(v, symbols, i + 1,
                     if pair in v.ranks && (best == None || v.ranks[pair] < best.value.rank)
                     then Some(Best(v.ranks[pair], pair.0, pair.1)) else best);
    }
  }

  /** Merge passes until no adjacent pair has a rank. */
  function MergeAll(v: Vocab, symbols: seq<Str>): seq<Str>
    decreases |symbols|
  {
    if |symbols| <= 1 then symbols
    else
      var best := BestPair(v, symbols, 0, None);
      if best == None then symbols
      else
        BestIsAdjacent(v, symbols, 0, None);
        MergeShrinks(symbols, best.value.first, best.value.second);
        MergeAll(v, MergePair(symbols, best.value.first, best.value.second))
  }

  function Lookup(v: Vocab, symbols: seq<Str>): Option<seq<nat>> {
    if symbols == [] then Some([])
    else if symbols[0] !in v.ids then None
    else
      var rest := Lookup(v, symbols[1..]);
      if rest == None then None else Some([v.ids[symbols[0]]] + rest.value)
  }

  /** encode_piece without its cache. */
  function EncodePiece(v: Vocab, piece: Str): Option<seq<nat>> {
    Lookup(v, MergeAll(v, Symbols(v, piece)))
  }

  // ---------------------------------------------------------------- merging keeps the bytes

  /** The codec tables of make_byte_codec. */
  ghost predicate CodecOk(v: Vocab) {
    (forall b: Byte :: Codec(v.encoder, v.decoder, b)) && OnlyCodes(v.decoder)
  }

  /** A symbol that merging can produce: one byte's character, or the two sides of a known merge. */
  ghost predicate IsSymbol(v: Vocab, s: Str) {
    && s != [] && BytesOf(v, s).Some?
    && (|BytesOf(v, s).value| == 1 || exists pair :: pair in v.ranks && s == pair.0 + pair.1)
  }

  ghost predicate AllSymbols(v: Vocab, symbols: seq<Str>) {
    forall i :: 0 <= i < |symbols| ==> IsSymbol(v, symbols[i])
  }

  /** The text behind a list of symbols. */
  function Text(v: Vocab, symbols: seq<Str>): Option<Str> {
    if symbols == [] then Some([]) else Both(BytesOf(v, symbols[0]), Text(v, symbols[1..]))
  }

  lemma SymbolOfByte(v: Vocab, b: Byte)
    requires CodecOk(v)
    ensures Key(b) in v.encoder && BytesOf(v, v.encoder[Key(b)]) == Some([b]) && v.encoder[Key(b)] != []
  {
    hide CodeOf, EncodeUtf8, SplitUtf8, OnlyCodes;
    assert Codec(v.encoder, v.decoder, b);
    CodesDiffer(b, b);
    var c := CodeOf(b);
    EncodedPoint(c);
    SplitEncoded(c, []);
    SplitNothing();
    assert EncodeUtf8(c) + [] == EncodeUtf8(c);
    var unit := Unit(c, EncodeUtf8(c));
    assert SplitUtf8(EncodeUtf8(c)) == Some([unit]) by {
      assert [unit] + [] == [unit];
    }
    BytesOfOne(v, unit, b);
  }

  lemma BytesOfOne(v: Vocab, unit: Unit, b: Byte)
    requires Key(unit.codepoint) in v.decoder && v.decoder[Key(unit.codepoint)] == b
    ensures Bytes(v, [unit]) == Some([b])
  {
    assert [unit][1..] == [];
    assert [b] + [] == [b];
  }

  lemma {:induction false} SymbolsText(v: Vocab, piece: Str)
    requires CodecOk(v)
    ensures Text(v, Symbols(v, piece)) == Some(piece) && AllSymbols(v, Symbols(v, piece))
  {
    hide BytesOf;
    if piece != [] {
      SymbolOfByte(v, piece[0]);
      SymbolsText(v, piece[1..]);
      var first, rest := v.encoder[Key(piece[0])], Symbols(v, piece[1..]);
      assert ([first] + rest)[1..] == rest;
      assert [piece[0]] + piece[1..] == piece;
    }
  }

  lemma TextCons(v: Vocab, first: Str, rest: seq<Str>)
    ensures Text(v, [first] + rest) == Both(BytesOf(v, first), Text(v, rest))
  {
    assert ([first] + rest)[1..] == rest;
  }

  lemma MergedSymbol(v: Vocab, a: Str, b: Str)
    requires IsSymbol(v, a) && IsSymbol(v, b) && (a, b) in v.ranks
    ensures IsSymbol(v, a + b) && BytesOf(v, a + b) == Both(BytesOf(v, a), BytesOf(v, b))
  {
    hide BytesOf;
    BytesOfConcat(v, a, b);
    assert a + b == (a, b).0 + (a, b).1;
  }

  lemma SymbolsCons(v: Vocab, first: Str, rest: seq<Str>)
    requires IsSymbol(v, first) && AllSymbols(v, rest)
    ensures AllSymbols(v, [first] + rest)
  {
    hide IsSymbol;
    var all := [first] + rest;
    forall i | 0 <= i < |all| ensures IsSymbol(v, all[i]) {
      if i > 0 {
        assert all[i] == rest[i - 1];
      }
    }
  }

  lemma SymbolsRest(v: Vocab, symbols: seq<Str>, n: nat)
    requires AllSymbols(v, symbols) && n <= |symbols|
    ensures AllSymbols(v, symbols[n..])
  {
    hide IsSymbol;
  }

  lemma {:induction false} MergeKeepsText(v: Vocab, symbols: seq<Str>, first: Str, second: Str)
    requires AllSymbols(v, symbols) && (first, second) in v.ranks
    ensures Text(v, MergePair(symbols, first, second)) == Text(v, symbols)
    ensures AllSymbols(v, MergePair(symbols, first, second))
    decreases |symbols|
  {
    hide BytesOf, IsSymbol, Text, Both, AllSymbols;
    if symbols == [] {
    } else if |symbols| > 1 && symbols[0] == first && symbols[1] == second {
      SymbolsAt(v, symbols);
      SymbolsRest(v, symbols, 2);
      MergeKeepsText(v, symbols[2..], first, second);
      var rest := MergePair(symbols[2..], first, second);
      MergedSymbol(v, first, second);
      SymbolsCons(v, first + second, rest);
      TextCons(v, first + second, rest);
      TextCons(v, second, symbols[2..]);
      TextCons(v, first, [second] + symbols[2..]);
      assert symbols == [first] + ([second] + symbols[2..]);
      BothAssoc(BytesOf(v, first), BytesOf(v, second), Text(v, rest));
    } else {
      SymbolsAt(v, symbols);
      SymbolsRest(v, symbols, 1);
      MergeKeepsText(v, symbols[1..], first, second);
      var rest := MergePair(symbols[1..], first, second);
      SymbolsCons(v, symbols[0], rest);
      TextCons(v, symbols[0], rest);
      TextCons(v, symbols[0], symbols[1..]);
      assert symbols == [symbols[0]] + symbols[1..];
    }
  }

  lemma SymbolsAt(v: Vocab, symbols: seq<Str>)
    requires AllSymbols(v, symbols)
    ensures |symbols| > 0 ==> IsSymbol(v, symbols[0])
    ensures |symbols| > 1 ==> IsSymbol(v, symbols[1])
  {
    hide IsSymbol;
  }

  /** However many merges happen, the symbols still spell the same bytes. */
  lemma {:induction false} MergeAllKeepsText(v: Vocab, symbols: seq<Str>)
    requires AllSymbols(v, symbols)
    ensures Text(v, MergeAll(v, symbols)) == Text(v, symbols) && AllSymbols(v, MergeAll(v, symbols))
    decreases |symbols|
  {
    hide Text, AllSymbols, BestPair, MergePair;
    if |symbols| > 1 {
      var best := BestPair(v, symbols, 0, None);
      if best.Some? {
        BestIsAdjacent(v, symbols, 0, None);
        MergeShrinks(symbols, best.value.first, best.value.second);
        MergeKeepsText(v, symbols, best.value.first, best.value.second);
        MergeAllKeepsText(v, MergePair(symbols, best.value.first, best.value.second));
      }
    }
  }

  // ---------------------------------------------------------------- the joined merge key

  function MergeKey(first: Str, second: Str): Str {
    first + [0] + second
  }

  /** Joining with a zero byte identifies the pair as long as the first symbol holds none. */
  lemma MergeKeyInjective(a: Str, b: Str, c: Str, d: Str)
    requires 0 !in a && 0 !in c && MergeKey(a, b) == MergeKey(c, d)
    ensures a == c && b == d
  {
    var k := MergeKey(a, b);
    assert k[|a|] == 0 && k[|c|] == 0;
    forall i | 0 <= i < |a| ensures k[i] != 0 {
      assert k[i] == a[i] && a[i] in a;
    }
    forall i | 0 <= i < |c| ensures k[i] != 0 {
      assert k[i] == c[i] && c[i] in c;
    }
    assert a == k[..|a|] && c == k[..|c|] && b == k[|a| + 1..] && d == k[|c| + 1..];
  }

  /** The key of two symbols without zero bytes is the key of no other pair, whatever the other pair holds. */
  lemma KeyOfSymbols(a: Str, b: Str, c: Str, d: Str)
    requires 0 !in a && 0 !in b && MergeKey(a, b) == MergeKey(c, d)
    ensures a == c && b == d
  {
    var k := MergeKey(a, b);
    forall i | 0 <= i < |k| && i != |a| ensures k[i] != 0 {
      assert if i < |a| then k[i] in a else k[i] == b[i - |a| - 1] && b[i - |a| - 1] in b;
    }
    forall i | 0 <= i < |c| ensures c[i] != 0 {
      assert k[i] == c[i] && k[|c|] == 0;
    }
    MergeKeyInjective(a, b, c, d);
  }

  /** The pairs of the merge list, each with the rank of its first listing. */
  function Ranked(merges: seq<(Str, Str)>): map<(Str, Str), nat> {
    if merges == [] then map[]
    else
      var n := |merges| - 1;
      var before := Ranked(merges[..n]);
      if merges[n] in before then before else before[merges[n] := n]
  }

  /** The hash table that loading fills: emplace keeps the first rank of a key. */
  function Keyed(merges: seq<(Str, Str)>): map<Str, nat> {
    if merges == [] then map[]
    else
      var n := |merges| - 1;
      var before := Keyed(merges[..n]);
      var key := MergeKey(merges[n].0, merges[n].1);
      if key in before then before else before[key := n]
  }

  lemma {:induction false} RankedFirst(merges: seq<(Str, Str)>, pair: (Str, Str))
    ensures pair in Ranked(merges) <==> pair in merges
    ensures pair in Ranked(merges) ==>
              Ranked(merges)[pair] < |merges| && merges[Ranked(merges)[pair]] == pair && pair !in merges[..Ranked(merges)[pair]]
  {
    if merges != [] {
      var n := |merges| - 1;
      RankedFirst(merges[..n], pair);
      assert merges == merges[..n] + [merges[n]];
      if pair in Ranked(merges[..n]) {
        var r := Ranked(merges[..n])[pair];
        assert merges[..n][..r] == merges[..r];
      }
    }
  }

  /** Looking a pair of symbols up by its joined key finds what the merge list says about the pair. */
  ghost predicate KeysOk(v: Vocab) {
    forall a, b | 0 !in a && 0 !in b :: KeyOk(v.keys, v.ranks, a, b)
  }

  ghost predicate KeyOk(keys: map<Str, nat>, ranks: map<(Str, Str), nat>, a: Str, b: Str) {
    && (MergeKey(a, b) in keys <==> (a, b) in ranks)
    && ((a, b) in ranks ==> keys[MergeKey(a, b)] == ranks[(a, b)])
  }

  lemma {:induction false} LoadedKey(merges: seq<(Str, Str)>, a: Str, b: Str)
    requires 0 !in a && 0 !in b
    ensures KeyOk(Keyed(merges), Ranked(merges), a, b)
  {
    hide MergeKey;
    if merges != [] {
      var n := |merges| - 1;
      LoadedKey(merges[..n], a, b);
      if MergeKey(a, b) == MergeKey(merges[n].0, merges[n].1) {
        KeyOfSymbols(a, b, merges[n].0, merges[n].1);
      }
    }
  }

  /** Whatever the merge list holds, zero bytes included. */
  lemma LoadedKeys(v: Vocab, merges: seq<(Str, Str)>)
    requires v.keys == Keyed(merges) && v.ranks == Ranked(merges)
    ensures KeysOk(v)
  {
    hide KeyOk;
    forall a, b | 0 !in a && 0 !in b ensures KeyOk(v.keys, v.ranks, a, b) {
      LoadedKey(merges, a, b);
    }
  }

  /** The loop of add_merge over the list. */
  method LoadMerges(merges: seq<(Str, Str)>) returns (keys: map<Str, nat>)
    ensures keys == Keyed(merges)
  {
    hide MergeKey;
    keys := map[];
    var rank := 0;
    while rank < |merges|
      invariant rank <= |merges| && keys == Keyed(merges[..rank])
    {
      assert merges[..rank + 1][..rank] == merges[..rank];
      var key := MergeKey(merges[rank].0, merges[rank].1);
      if key !in keys {
        keys := keys[key := rank];
      }
      rank := rank + 1;
    }
    assert merges[..rank] == merges;
  }

  ghost predicate NoZero(symbols: seq<Str>) {
    forall i :: 0 <= i < |symbols| ==> 0 !in symbols[i]
  }

  lemma CodeHasNoZero(b: Byte)
    ensures CodeOf(b) <= 0x10FFFF && 0 !in EncodeUtf8(CodeOf(b))
  {
    var c := CodeOf(b);
    CodesDiffer(b, b);
    if c > 0x7F {
      LeadTwo(c);
      LeadNonzero(c);
    }
  }

  lemma LeadNonzero(c: bv32)
    ensures 0xC0 | (c >> 6) != 0 && Low(c) != 0
  {
  }

  lemma {:induction false} SymbolsNoZero(v: Vocab, piece: Str)
    requires CodecOk(v)
    ensures NoZero(Symbols(v, piece))
  {
    hide CodeOf, EncodeUtf8;
    if piece != [] {
      SymbolsNoZero(v, piece[1..]);
      assert Codec(v.encoder, v.decoder, piece[0]);
      CodeHasNoZero(piece[0]);
    }
  }

  lemma {:induction false} MergeKeepsNoZero(symbols: seq<Str>, first: Str, second: Str)
    requires NoZero(symbols)
    ensures NoZero(MergePair(symbols, first, second))
    decreases |symbols|
  {
    if symbols != [] {
      if |symbols| > 1 && symbols[0] == first && symbols[1] == second {
        MergeKeepsNoZero(symbols[2..], first, second);
      } else {
        MergeKeepsNoZero(symbols[1..], first, second);
      }
    }
  }

  // ---------------------------------------------------------------- the loops

  method ListSymbols(v: Vocab, piece: Str) returns (symbols: seq<Str>)
    ensures symbols == Symbols(v, piece)
  {
    symbols := [];
    var i := 0;
    assert piece[0..] == piece;
    while i < |piece|
      invariant i <= |piece|
      invariant symbols + Symbols(v, piece[i..]) == Symbols(v, piece)
    {
      var s := if Key(piece[i]) in v.encoder then v.encoder[Key(piece[i])] else [];
      assert piece[i..][1..] == piece[i + 1..] && piece[i..][0] == piece[i];
      assert symbols + ([s] + Symbols(v, piece[i + 1..])) == symbols + [s] + Symbols(v, piece[i + 1..]);
      symbols := symbols + [s];
      i := i + 1;
    }
    assert symbols + [] == symbols;
  }

  method FindBest(v: Vocab, symbols: seq<Str>) returns (best: Option<Best>)
    requires symbols != [] && NoZero(symbols) && KeysOk(v)
    ensures best == BestPair(v, symbols, 0, None)
  {
    hide MergeKey;
    best := None;
    var index := 0;
    while index + 1 < |symbols|
      invariant index < |symbols|
      invariant BestPair(v, symbols, index, best) == BestPair(v, symbols, 0, None)
    {
      var key := MergeKey(symbols[index], symbols[index + 1]);
      assert KeyOk(v.keys, v.ranks, symbols[index], symbols[index + 1]);
      if key in v.keys && (best == None || v.keys[key] < best.value.rank) {
        best := Some(Best(v.keys[key], symbols[index], symbols[index + 1]));
      }
      index := index + 1;
    }
  }

  method MergePass(symbols: seq<Str>, first: Str, second: Str) returns (merged: seq<Str>)
    ensures merged == MergePair(symbols, first, second)
  {
    merged := [];
    var index := 0;
    assert symbols[0..] == symbols;
    while index < |symbols|
      invariant index <= |symbols|
      invariant merged + MergePair(symbols[index..], first, second) == MergePair(symbols, first, second)
    {
      var rest := symbols[index..];
      if index + 1 < |symbols| && symbols[index] == first && symbols[index + 1] == second {
        assert rest[2..] == symbols[index + 2..];
        MoveFront(merged, symbols[index] + symbols[index + 1], MergePair(rest[2..], first, second));
        merged := merged + [symbols[index] + symbols[index + 1]];
        index := index + 2;
      } else {
        assert rest[1..] == symbols[index + 1..];
        MoveFront(merged, symbols[index], MergePair(rest[1..], first, second));
        merged := merged + [symbols[index]];
        index := index + 1;
      }
    }
    assert merged + [] == merged;
  }

  lemma MoveFront<T>(a: seq<T>, x: T, b: seq<T>)
    ensures a + ([x] + b) == a + [x] + b
  {
  }

  method Merge(v: Vocab, initial: seq<Str>) returns (symbols: seq<Str>)
    requires NoZero(initial) && KeysOk(v)
    ensures symbols == MergeAll(v, initial)
  {
    hide BestPair, MergePair, NoZero, KeysOk;
    symbols := initial;
    while |symbols| > 1
      invariant MergeAll(v, symbols) == MergeAll(v, initial) && NoZero(symbols)
      decreases |symbols|
    {
      var best := FindBest(v, symbols);
      if best == None {
        break;
      }
      BestIsAdjacent(v, symbols, 0, None);
      MergeShrinks(symbols, best.value.first, best.value.second);
      MergeKeepsNoZero(symbols, best.value.first, best.value.second);
      symbols := MergePass(symbols, best.value.first, best.value.second);
    }
  }

  function Looked(output: seq<nat>, rest: Option<seq<nat>>): Option<seq<nat>> {
    if rest == None then None else Some(output + rest.value)
  }

  method LookUp(v: Vocab, symbols: seq<Str>) returns (r: Option<seq<nat>>)
    ensures r == Lookup(v, symbols)
  {
    var output: seq<nat> := [];
    var i := 0;
    assert symbols[0..] == symbols;
    LookedNothing(Lookup(v, symbols));
    while i < |symbols|
      invariant i <= |symbols|
      invariant Lookup(v, symbols) == Looked(output, Lookup(v, symbols[i..]))
    {
      assert symbols[i..][1..] == symbols[i + 1..] && symbols[i..][0] == symbols[i];
      if symbols[i] !in v.ids {
        return None;
      }
      LookedOne(output, v.ids[symbols[i]], Lookup(v, symbols[i + 1..]));
      output := output + [v.ids[symbols[i]]];
      i := i + 1;
    }
    assert output + [] == output;
    return Some(output);
  }

  lemma LookedNothing(r: Option<seq<nat>>)
    ensures Looked([], r) == r
  {
    if r.Some? {
      assert [] + r.value == r.value;
    }
  }

  lemma LookedOne(output: seq<nat>, id: nat, rest: Option<seq<nat>>)
    ensures Looked(output, Looked([id], rest)) == Looked(output + [id], rest)
  {
    if rest.Some? {
      MoveFront(output, id, rest.value);
    }
  }
}

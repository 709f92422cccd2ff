/** Which symbols a piece ends in: the run of merges as a relation that fixes it. src/qwen/qwen_tokenizer.cc:505-551. */
module MergeOrder {
  import opened Wrappers
  import opened Utf8Units
  import opened PairMerging

  /** Two neighbours that the merge list knows. */
  predicate RankedAt(v: Vocab, symbols: seq<Str>, i: nat) {
    i + 1 < |symbols| && (symbols[i], symbols[i + 1]) in v.ranks
  }

  function RankAt(v: Vocab, symbols: seq<Str>, i: nat): nat
    requires RankedAt(v, symbols, i)
  {
    v.ranks[(symbols[i], symbols[i + 1])]
  }

  /** No ranked neighbours have a lower rank, and none further left have the same. */
  ghost predicate LeastAt(v: Vocab, symbols: seq<Str>, i: nat) {
    && RankedAt(v, symbols, i)
    && forall j: nat :: RankedAt(v, symbols, j) ==>
         RankAt(v, symbols, i) < RankAt(v, symbols, j) || (RankAt(v, symbols, i) == RankAt(v, symbols, j) && i <= j)
  }

  /** The same among the neighbours that start before n. */
  ghost predicate LeastBefore(v: Vocab, symbols: seq<Str>, i: nat, n: nat) {
    && RankedAt(v, symbols, i) && i < n
    && forall j: nat :: j < n && RankedAt(v, symbols, j) ==>
         RankAt(v, symbols, i) < RankAt(v, symbols, j) || (RankAt(v, symbols, i) == RankAt(v, symbols, j) && i <= j)
  }

  /** The pair stands at position i. */
  predicate PairAt(symbols: seq<Str>, i: nat, first: Str, second: Str) {
    i + 1 < |symbols| && symbols[i] == first && symbols[i + 1] == second
  }

  /** Reading from left to right, new symbol j starts at old symbol at[j], and takes two exactly where the pair stands. */
  ghost predicate JoinedAt(symbols: seq<Str>, first: Str, second: Str, merged: seq<Str>, at: seq<nat>) {
    && |at| == |merged| + 1 && at[0] == 0 && at[|merged|] == |symbols|
    && forall j :: 0 <= j < |merged| ==> StartsAt(symbols, first, second, merged, at, j)
  }

  ghost predicate StartsAt(symbols: seq<Str>, first: Str, second: Str, merged: seq<Str>, at: seq<nat>, j: nat)
    requires j < |merged| < |at|
  {
    && at[j] < |symbols|
    && if PairAt(symbols, at[j], first, second)
       then at[j + 1] == at[j] + 2 && merged[j] == first + second
       else at[j + 1] == at[j] + 1 && merged[j] == symbols[at[j]]
  }

  ghost predicate Joined(symbols: seq<Str>, first: Str, second: Str, merged: seq<Str>) {
    exists at :: JoinedAt(symbols, first, second, merged, at)
  }

  /** One pass: every occurrence of the least-ranked pair is joined. */
  ghost predicate Passed(v: Vocab, symbols: seq<Str>, merged: seq<Str>) {
    exists i: nat :: PassedAt(v, symbols, merged, i)
  }

  ghost predicate PassedAt(v: Vocab, symbols: seq<Str>, merged: seq<Str>, i: nat) {
    LeastAt(v, symbols, i) && Joined(symbols, symbols[i], symbols[i + 1], merged)
  }

  /** No neighbours are ranked. */
  ghost predicate Settled(v: Vocab, symbols: seq<Str>) {
    forall i: nat :: !RankedAt(v, symbols, i)
  }

  /** A whole run of passes, up to the end. */
  ghost predicate Merging(v: Vocab, run: seq<seq<Str>>) {
    && run != [] && Settled(v, run[|run| - 1])
    && forall n :: 0 <= n < |run| - 1 ==> Passed(v, run[n], run[n + 1])
  }

  // ---------------------------------------------------------------- the relation fixes the run

  lemma LeastOnce(v: Vocab, symbols: seq<Str>, i: nat, j: nat)
    requires LeastAt(v, symbols, i) && LeastAt(v, symbols, j)
    ensures i == j
  {
  }

  lemma {:induction false} SameStarts(symbols: seq<Str>, first: Str, second: Str, a: seq<Str>, b: seq<Str>,
                                      at: seq<nat>, bt: seq<nat>, n: nat)
    requires JoinedAt(symbols, first, second, a, at) && JoinedAt(symbols, first, second, b, bt)
    requires n <= |a| && n <= |b|
    ensures at[n] == bt[n] && a[..n] == b[..n]
  {
    if n > 0 {
      SameStarts(symbols, first, second, a, b, at, bt, n - 1);
      assert StartsAt(symbols, first, second, a, at, n - 1) && StartsAt(symbols, first, second, b, bt, n - 1);
      assert a[..n] == a[..n - 1] + [a[n - 1]] && b[..n] == b[..n - 1] + [b[n - 1]];
    }
  }

  lemma JoinedOnce(symbols: seq<Str>, first: Str, second: Str, a: seq<Str>, b: seq<Str>)
    requires Joined(symbols, first, second, a) && Joined(symbols, first, second, b)
    ensures a == b
  {
    var at :| JoinedAt(symbols, first, second, a, at);
    var bt :| JoinedAt(symbols, first, second, b, bt);
    var n := if |a| <= |b| then |a| else |b|;
    SameStarts(symbols, first, second, a, b, at, bt, n);
    assert n < |a| ==> StartsAt(symbols, first, second, a, at, n);
    assert n < |b| ==> StartsAt(symbols, first, second, b, bt, n);
  }

  lemma PassedOnce(v: Vocab, symbols: seq<Str>, a: seq<Str>, b: seq<Str>)
    requires Passed(v, symbols, a) && Passed(v, symbols, b)
    ensures a == b
  {
    hide LeastAt, Joined;
    var i: nat :| PassedAt(v, symbols, a, i);
    var j: nat :| PassedAt(v, symbols, b, j);
    LeastOnce(v, symbols, i, j);
    assert LeastAt(v, symbols, i) && RankedAt(v, symbols, i) by {
      LeastRanked(v, symbols, i);
    }
    JoinedOnce(symbols, symbols[i], symbols[i + 1], a, b);
  }

  lemma LeastRanked(v: Vocab, symbols: seq<Str>, i: nat)
    requires LeastAt(v, symbols, i)
    ensures RankedAt(v, symbols, i)
  {
  }

  lemma PassedUnsettled(v: Vocab, symbols: seq<Str>, merged: seq<Str>)
    requires Passed(v, symbols, merged)
    ensures !Settled(v, symbols)
  {
    var i: nat :| PassedAt(v, symbols, merged, i);
    assert RankedAt(v, symbols, i);
  }

  /** Two runs from the same symbols are the same run. */
  lemma {:induction false} MergingOnce(v: Vocab, a: seq<seq<Str>>, b: seq<seq<Str>>)
    requires Merging(v, a) && Merging(v, b) && a[0] == b[0]
    ensures a == b
    decreases |a|
  {
    hide Passed, Settled;
    if |a| == 1 {
      if |b| > 1 {
        PassedUnsettled(v, b[0], b[1]);
      }
    } else if |b| == 1 {
      PassedUnsettled(v, a[0], a[1]);
    } else {
      PassedOnce(v, a[0], a[1], b[1]);
      RunRest(v, a);
      RunRest(v, b);
      MergingOnce(v, a[1..], b[1..]);
      assert a == [a[0]] + a[1..] && b == [b[0]] + b[1..];
    }
  }

  lemma RunRest(v: Vocab, run: seq<seq<Str>>)
    requires Merging(v, run) && |run| > 1
    ensures Merging(v, run[1..])
  {
    hide Passed, Settled;
    var rest := run[1..];
    forall n | 0 <= n < |rest| - 1 ensures Passed(v, rest[n], rest[n + 1]) {
      assert Passed(v, run[n + 1], run[n + 2]);
    }
  }

  // ---------------------------------------------------------------- what the code does is such a run

  /** The scan for the best pair finds the least-ranked neighbours. */
  lemma {:induction false} ScanIsLeast(v: Vocab, symbols: seq<Str>, i: nat, best: Option<Best>, at: nat) returns (found: nat)
    requires i < |symbols|
    requires best == None ==> forall j: nat :: j < i ==> !RankedAt(v, symbols, j)
    requires best.Some? ==> LeastBefore(v, symbols, at, i)
                            && best.value == Best(RankAt(v, symbols, at), symbols[at], symbols[at + 1])
    ensures var r := BestPair(v, symbols, i, best);
            if r == None then Settled(v, symbols)
            else LeastAt(v, symbols, found) && r.value.first == symbols[found] && r.value.second == symbols[found + 1]
    decreases |symbols| - i
  {
    if i + 1 == |symbols| {
      found := at;
    } else if (symbols[i], symbols[i + 1]) in v.ranks
              && (best == None || v.ranks[(symbols[i], symbols[i + 1])] < best.value.rank) {
      assert RankedAt(v, symbols, i);
      found := ScanIsLeast(v, symbols, i + 1, Some(Best(RankAt(v, symbols, i), symbols[i], symbols[i + 1])), i);
    } else {
      found := ScanIsLeast(v, symbols, i + 1, best, at);
    }
  }

  lemma {:induction false} PassIsJoined(symbols: seq<Str>, first: Str, second: Str) returns (at: seq<nat>)
    ensures JoinedAt(symbols, first, second, MergePair(symbols, first, second), at)
    decreases |symbols|
  {
    var merged := MergePair(symbols, first, second);
    if symbols == [] {
      at := [0];
    } else {
      var n := if PairAt(symbols, 0, first, second) then 2 else 1;
      var later := PassIsJoined(symbols[n..], first, second);
      var rest := MergePair(symbols[n..], first, second);
      at := StartsShifted(symbols, first, second, n, rest, later);
      assert merged == [if n == 2 then first + second else symbols[0]] + rest;
    }
  }

  lemma PassJoins(symbols: seq<Str>, first: Str, second: Str)
    ensures Joined(symbols, first, second, MergePair(symbols, first, second))
  {
    var at := PassIsJoined(symbols, first, second);
  }

  lemma StartsShifted(symbols: seq<Str>, first: Str, second: Str, n: nat, rest: seq<Str>, later: seq<nat>)
    returns (at: seq<nat>)
    requires symbols != [] && n == (if PairAt(symbols, 0, first, second) then 2 else 1)
    requires JoinedAt(symbols[n..], first, second, rest, later)
    ensures JoinedAt(symbols, first, second, [if n == 2 then first + second else symbols[0]] + rest, at)
  {
    var merged := [if n == 2 then first + second else symbols[0]] + rest;
    at := [0] + seq(|later|, i requires 0 <= i < |later| => later[i] + n);
    forall j | 0 <= j < |merged| ensures StartsAt(symbols, first, second, merged, at, j) {
      if j > 0 {
        assert StartsAt(symbols[n..], first, second, rest, later, j - 1);
        assert merged[j] == rest[j - 1] && at[j] == later[j - 1] + n && at[j + 1] == later[j] + n;
        StartMoved(symbols, first, second, n, later[j - 1]);
      }
    }
  }

  lemma StartMoved(symbols: seq<Str>, first: Str, second: Str, n: nat, i: nat)
    requires n <= |symbols| && i < |symbols[n..]|
    ensures PairAt(symbols, n + i, first, second) <==> PairAt(symbols[n..], i, first, second)
    ensures symbols[n + i] == symbols[n..][i]
  {
  }

  /** Merging a piece's symbols is such a run, from the symbols to the result. */
  lemma {:induction false} MergeAllRuns(v: Vocab, symbols: seq<Str>) returns (run: seq<seq<Str>>)
    ensures Merging(v, run) && run[0] == symbols && run[|run| - 1] == MergeAll(v, symbols)
    decreases |symbols|
  {
    hide LeastAt, Joined, BestPair, MergePair;
    run := [symbols];
    if |symbols| <= 1 {
      assert Settled(v, symbols);
    } else {
      var i := ScanIsLeast(v, symbols, 0, None, 0);
      var best := BestPair(v, symbols, 0, None);
      if best.Some? {
        LeastRanked(v, symbols, i);
        var first, second := symbols[i], symbols[i + 1];
        var merged := MergePair(symbols, first, second);
        PassJoins(symbols, first, second);
        assert PassedAt(v, symbols, merged, i);
        BestIsAdjacent(v, symbols, 0, None);
        MergeShrinks(symbols, first, second);
        var later := MergeAllRuns(v, merged);
        run := [symbols] + later;
        RunLonger(v, symbols, later);
      }
    }
  }

  lemma RunLonger(v: Vocab, symbols: seq<Str>, later: seq<seq<Str>>)
    requires Merging(v, later) && Passed(v, symbols, later[0])
    ensures Merging(v, [symbols] + later)
  {
    hide Passed, Settled;
    var run := [symbols] + later;
    forall n | 0 <= n < |run| - 1 ensures Passed(v, run[n], run[n + 1]) {
      if n > 0 {
        assert Passed(v, later[n - 1], later[n]);
      }
    }
  }

  // ---------------------------------------------------------------- the ids of a piece

  /** The identifiers of the symbols, one by one. */
  ghost predicate Identified(v: Vocab, symbols: seq<Str>, ids: seq<nat>) {
    |ids| == |symbols| && forall i :: 0 <= i < |ids| ==> symbols[i] in v.ids && ids[i] == v.ids[symbols[i]]
  }

  lemma {:induction false} LookupIs(v: Vocab, symbols: seq<Str>)
    ensures Lookup(v, symbols).Some? ==> Identified(v, symbols, Lookup(v, symbols).value)
    ensures Lookup(v, symbols) == None ==> exists i :: 0 <= i < |symbols| && symbols[i] !in v.ids
  {
    if symbols != [] {
      LookupIs(v, symbols[1..]);
      if symbols[0] in v.ids && Lookup(v, symbols[1..]) == None {
        var i :| 0 <= i < |symbols[1..]| && symbols[1..][i] !in v.ids;
        assert symbols[i + 1] !in v.ids;
      }
    }
  }

  /** A piece is encoded as the identifiers of the symbols in which any run of merges over its bytes' characters ends, and
      refused exactly when one of them has none. */
  lemma PieceEncodes(v: Vocab, piece: Str, run: seq<seq<Str>>)
    requires Merging(v, run) && run[0] == Symbols(v, piece)
    ensures var last := run[|run| - 1];
            match EncodePiece(v, piece)
            case Some(ids) => Identified(v, last, ids)
            case None => exists i :: 0 <= i < |last| && last[i] !in v.ids
  {
    hide Merging, MergeAll, Lookup, Symbols;
    var own := MergeAllRuns(v, Symbols(v, piece));
    MergingOnce(v, run, own);
    LookupIs(v, MergeAll(v, Symbols(v, piece)));
  }
}

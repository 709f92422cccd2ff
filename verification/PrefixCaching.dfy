/** The byte-bounded LRU of prompt-prefix checkpoints: src/prefix_cache.cc. */
module PrefixCaching {
  import opened Wrappers
  import opened Sequences

  const TOKEN_BYTES := 4

  /** A backend-owned copy of the state after an exact prefix of `tokenCount` tokens. */
  datatype Saved<+P> = Saved(tokenCount: nat, bytes: nat, payload: P)

  datatype Entry<+P> = Entry(tokens: seq<Token>, state: Saved<P>)
  {
    function SizeBytes(): nat {
      |tokens| * TOKEN_BYTES + state.bytes
    }

    predicate ProperPrefixOf(prompt: seq<Token>) {
      |tokens| < |prompt| && tokens == prompt[..|tokens|]
    }
  }

  /** Entries run from the most to the least recently used. */
  datatype Cache<+P> = Cache(capacity: nat, bytes: nat, entries: seq<Entry<P>>)
  {
    predicate Contains(prefix: seq<Token>) {
      exists i :: 0 <= i < |entries| && entries[i].tokens == prefix
    }

    predicate Fits(tokens: nat, stateBytes: nat) {
      stateBytes != 0 && stateBytes <= capacity && tokens <= (capacity - stateBytes) / TOKEN_BYTES
    }

    /** prefix_cache::find: the checkpoint of the longest stored proper prefix, made most recent. */
    function Find(prompt: seq<Token>): (r: (Cache<P>, Option<Saved<P>>)) {
      match Best(entries, prompt, 0, None)
      case None => (this, None)
      case Some(i) => (this.(entries := ToFront(entries, i)), Some(entries[i].state))
    }

    /** prefix_cache::make_room: forget the least recent entries until the new one fits. */
    function MakeRoom(tokens: nat, stateBytes: nat): (r: Cache<P>) {
      if !Fits(tokens, stateBytes) then this
      else Evict(this, tokens * TOKEN_BYTES + stateBytes)
    }

    function Insert(prefix: seq<Token>, state: Saved<P>): (r: Cache<P>) {
      if state.tokenCount != |prefix| || !Fits(|prefix|, state.bytes) || Contains(prefix) then this
      else
        var roomy := MakeRoom(|prefix|, state.bytes);
        var entry := Entry(prefix, state);
        roomy.(entries := [entry] + roomy.entries, bytes := roomy.bytes + entry.SizeBytes())
    }

    ghost predicate Valid() {
      && bytes == Sum(entries) <= capacity
      && DistinctKeys(entries)
      && forall i :: 0 <= i < |entries| ==> entries[i].state.tokenCount == |entries[i].tokens|
    }
  }

  predicate Better<P>(entries: seq<Entry<P>>, prompt: seq<Token>, i: nat, best: Option<nat>)
    requires i < |entries|
    requires best.Some? ==> best.value < |entries|
  {
    && |entries[i].tokens| < |prompt|
    && (best == None || |entries[i].tokens| > |entries[best.value].tokens|)
    && entries[i].tokens == prompt[..|entries[i].tokens|]
  }

  /** The scan of `find` from entry i on, given the best entry so far. */
  function Best<P>(entries: seq<Entry<P>>, prompt: seq<Token>, i: nat, best: Option<nat>): (r: Option<nat>)
    requires i <= |entries|
    requires best.Some? ==> best.value < |entries|
    ensures r.Some? ==> r.value < |entries|
    decreases |entries| - i
  {
    if i == |entries| then best
    else Best(entries, prompt, i + 1, if Better(entries, prompt, i, best) then Some(i) else best)
  }

  function ToFront<T>(s: seq<T>, i: nat): (r: seq<T>)
    requires i < |s|
  {
    [s[i]] + s[..i] + s[i + 1..]
  }

  function Evict<P>(c: Cache<P>, needed: nat): (r: Cache<P>)
    requires needed <= c.capacity
    decreases |c.entries|
  {
    if c.bytes <= c.capacity - needed || c.entries == [] then c
    else
      var last := c.entries[|c.entries| - 1];
      Evict(c.(bytes := if c.bytes >= last.SizeBytes() then c.bytes - last.SizeBytes() else 0,
               entries := c.entries[..|c.entries| - 1]), needed)
  }

  function Sum<P>(entries: seq<Entry<P>>): nat {
    if entries == [] then 0 else Sum(entries[..|entries| - 1]) + entries[|entries| - 1].SizeBytes()
  }

  ghost predicate DistinctKeys<P>(entries: seq<Entry<P>>) {
    forall i, j :: 0 <= i < j < |entries| ==> entries[i].tokens != entries[j].tokens
  }

  lemma {:induction false} SumAppend<P>(a: seq<Entry<P>>, b: seq<Entry<P>>)
    ensures Sum(a + b) == Sum(a) + Sum(b)
    decreases |b|
  {
    if b == [] {
      assert a + b == a;
    } else {
      var n := |b| - 1;
      assert (a + b)[..|a + b| - 1] == a + b[..n];
      SumAppend(a, b[..n]);
    }
  }

  // ---------------------------------------------------------------- find

  lemma {:induction false} BestIsLongest<P>(entries: seq<Entry<P>>, prompt: seq<Token>, i: nat, best: Option<nat>)
    requires i <= |entries|
    requires best.Some? ==> best.value < i && entries[best.value].ProperPrefixOf(prompt)
    requires best == None ==> forall j :: 0 <= j < i ==> !entries[j].ProperPrefixOf(prompt)
    requires best.Some? ==> forall j :: 0 <= j < i && entries[j].ProperPrefixOf(prompt) ==>
                              |entries[j].tokens| <= |entries[best.value].tokens|
    ensures var r := Best(entries, prompt, i, best);
            match r
            case None => forall j :: 0 <= j < |entries| ==> !entries[j].ProperPrefixOf(prompt)
            case Some(b) =>
              && entries[b].ProperPrefixOf(prompt)
              && forall j :: 0 <= j < |entries| && entries[j].ProperPrefixOf(prompt) ==>
                   |entries[j].tokens| <= |entries[b].tokens|
    decreases |entries| - i
  {
    if i < |entries| {
      BestIsLongest(entries, prompt, i + 1, if Better(entries, prompt, i, best) then Some(i) else best);
    }
  }

  /** What a lookup answers: the longest stored proper prefix of the prompt, or nothing when none is stored. */
  ghost predicate Answers<P>(c: Cache<P>, prompt: seq<Token>, r: (Cache<P>, Option<Saved<P>>)) {
    match r.1
    case None =>
      && r.0 == c
      && forall j :: 0 <= j < |c.entries| ==> !c.entries[j].ProperPrefixOf(prompt)
    case Some(saved) =>
      exists b :: 0 <= b < |c.entries|
        && c.entries[b].ProperPrefixOf(prompt)
        && c.entries[b].state == saved
        && (forall j :: 0 <= j < |c.entries| && j != b && c.entries[j].ProperPrefixOf(prompt) ==>
              |c.entries[j].tokens| < |c.entries[b].tokens|)
        && r.0 == c.(entries := [c.entries[b]] + c.entries[..b] + c.entries[b + 1..])
  }

  lemma FindAnswers<P>(c: Cache<P>, prompt: seq<Token>)
    requires c.Valid()
    ensures Answers(c, prompt, c.Find(prompt))
    ensures c.Find(prompt).0.Valid()
  {
    BestIsLongest(c.entries, prompt, 0, None);
    match Best(c.entries, prompt, 0, None) {
      case None =>
      case Some(b) =>
        forall j | 0 <= j < |c.entries| && j != b && c.entries[j].ProperPrefixOf(prompt)
          ensures |c.entries[j].tokens| < |c.entries[b].tokens|
        {
        }
        ToFrontValid(c, b);
    }
  }

  lemma ToFrontValid<P>(c: Cache<P>, b: nat)
    requires c.Valid() && b < |c.entries|
    ensures c.(entries := ToFront(c.entries, b)).Valid()
  {
    ToFrontSum(c.entries, b);
    ToFrontKeys(c.entries, b);
  }

  lemma ToFrontSum<P>(entries: seq<Entry<P>>, b: nat)
    requires b < |entries|
    ensures Sum(ToFront(entries, b)) == Sum(entries)
  {
    SplitAround(entries, b);
    SumSwap(entries, entries[..b], [entries[b]], entries[b + 1..]);
  }

  lemma SplitAround<T>(s: seq<T>, b: nat)
    requires b < |s|
    ensures s == s[..b] + [s[b]] + s[b + 1..]
  {
  }

  lemma SumSwap<P>(entries: seq<Entry<P>>, a: seq<Entry<P>>, b: seq<Entry<P>>, c: seq<Entry<P>>)
    requires entries == a + b + c
    ensures Sum(b + a + c) == Sum(entries)
  {
    SumAppend(a + b, c);
    SumAppend(a, b);
    SumAppend(b + a, c);
    SumAppend(b, a);
  }

  lemma ToFrontKeys<P>(entries: seq<Entry<P>>, b: nat)
    requires b < |entries| && DistinctKeys(entries)
    ensures DistinctKeys(ToFront(entries, b))
  {
    var s := ToFront(entries, b);
    assert forall i :: 0 < i < |s| ==> s[i] == entries[if i <= b then i - 1 else i];
  }

  // ---------------------------------------------------------------- make_room and insert

  /** Exactly the longest recency-ordered prefix of the entries that leaves `needed` bytes free. */
  ghost predicate LongestFitting<P>(c: Cache<P>, needed: nat, r: Cache<P>) {
    && r.capacity == c.capacity
    && r.entries <= c.entries
    && r.bytes == Sum(r.entries)
    && r.bytes + needed <= c.capacity
    && forall k :: |r.entries| < k <= |c.entries| ==> Sum(c.entries[..k]) + needed > c.capacity
  }

  lemma {:induction false} EvictKeepsLongest<P>(c: Cache<P>, needed: nat)
    requires c.bytes == Sum(c.entries) && needed <= c.capacity
    ensures LongestFitting(c, needed, Evict(c, needed))
    decreases |c.entries|
  {
    if c.bytes > c.capacity - needed && c.entries != [] {
      var n := |c.entries| - 1;
      var d := c.(bytes := c.bytes - c.entries[n].SizeBytes(), entries := c.entries[..n]);
      EvictKeepsLongest(d, needed);
      var r := Evict(c, needed);
      forall k | |r.entries| < k <= |c.entries| ensures Sum(c.entries[..k]) + needed > c.capacity {
        if k <= n {
          assert c.entries[..k] == d.entries[..k];
        } else {
          assert c.entries[..k] == c.entries;
        }
      }
    }
  }

  lemma FitsMeans<P>(c: Cache<P>, tokens: nat, stateBytes: nat)
    ensures c.Fits(tokens, stateBytes) <==> stateBytes != 0 && tokens * TOKEN_BYTES + stateBytes <= c.capacity
  {
  }

  lemma MakeRoomKeepsLongest<P>(c: Cache<P>, tokens: nat, stateBytes: nat)
    requires c.Valid()
    ensures c.MakeRoom(tokens, stateBytes).Valid()
    ensures c.Fits(tokens, stateBytes) ==>
              LongestFitting(c, tokens * TOKEN_BYTES + stateBytes, c.MakeRoom(tokens, stateBytes))
    ensures c.MakeRoom(tokens, stateBytes).entries <= c.entries
  {
    FitsMeans(c, tokens, stateBytes);
    if c.Fits(tokens, stateBytes) {
      EvictKeepsLongest(c, tokens * TOKEN_BYTES + stateBytes);
      var r := c.MakeRoom(tokens, stateBytes);
      assert forall i :: 0 <= i < |r.entries| ==> r.entries[i] == c.entries[i];
    }
  }

  /** An insertion is refused exactly when it must be; otherwise the entry is first and nothing more than needed went. */
  lemma InsertKeepsBound<P>(c: Cache<P>, prefix: seq<Token>, state: Saved<P>)
    requires c.Valid()
    ensures c.Insert(prefix, state).Valid()
    ensures var r := c.Insert(prefix, state);
            if state.tokenCount == |prefix| && state.bytes != 0
               && |prefix| * TOKEN_BYTES + state.bytes <= c.capacity && !c.Contains(prefix)
            then
              && r.entries != [] && r.entries[0] == Entry(prefix, state)
              && LongestFitting(c, |prefix| * TOKEN_BYTES + state.bytes,
                                Cache(c.capacity, Sum(r.entries[1..]), r.entries[1..]))
            else r == c
  {
    FitsMeans(c, |prefix|, state.bytes);
    MakeRoomKeepsLongest(c, |prefix|, state.bytes);
    var r := c.Insert(prefix, state);
    if r != c {
      var roomy := c.MakeRoom(|prefix|, state.bytes);
      var entry := Entry(prefix, state);
      assert r.entries == [entry] + roomy.entries && r.entries[1..] == roomy.entries;
      FrontSum(entry, roomy.entries);
      FrontDistinct(c, entry, roomy.entries);
    }
  }

  lemma FrontSum<P>(entry: Entry<P>, rest: seq<Entry<P>>)
    ensures Sum([entry] + rest) == entry.SizeBytes() + Sum(rest)
  {
    assert Sum([entry]) == entry.SizeBytes() by {
      assert [entry][..0] == [];
    }
    SumAppend([entry], rest);
  }

  lemma FrontDistinct<P>(c: Cache<P>, entry: Entry<P>, rest: seq<Entry<P>>)
    requires c.Valid() && !c.Contains(entry.tokens) && rest <= c.entries
    ensures var all := [entry] + rest; forall i, j :: 0 <= i < j < |all| ==> all[i].tokens != all[j].tokens
  {
    var all := [entry] + rest;
    forall i, j | 0 <= i < j < |all| ensures all[i].tokens != all[j].tokens {
      assert all[j] == c.entries[j - 1];
      if i > 0 {
        assert all[i] == c.entries[i - 1];
      }
    }
  }

  /** Every entry of a cache after any operation was there before, except the one inserted. */
  lemma OnlyKnownEntries<P>(c: Cache<P>, prompt: seq<Token>, tokens: nat, stateBytes: nat)
    requires c.Valid()
    ensures forall e :: e in c.Find(prompt).0.entries ==> e in c.entries
    ensures forall e :: e in c.MakeRoom(tokens, stateBytes).entries ==> e in c.entries
  {
    MakeRoomKeepsLongest(c, tokens, stateBytes);
  }

  // ---------------------------------------------------------------- the cache object

  class PrefixCache<P> {
    const capacity: nat
    var bytes: nat
    var entries: seq<Entry<P>>

    function View(): Cache<P>
      reads this
    {
      Cache(capacity, bytes, entries)
    }

    constructor (capacityBytes: nat)
      ensures View() == Cache(capacityBytes, 0, [])
    {
      capacity, bytes, entries := capacityBytes, 0, [];
    }

    method Find(prompt: seq<Token>) returns (r: Option<Saved<P>>)
      modifies this
      ensures (View(), r) == old(View()).Find(prompt)
    {
      var best: Option<nat> := None;
      var i := 0;
      while i < |entries|
        invariant i <= |entries|
        invariant best.Some? ==> best.value < |entries|
        invariant Best(entries, prompt, i, best) == Best(entries, prompt, 0, None)
        invariant View() == old(View())
      {
        var count := |entries[i].tokens|;
        if count < |prompt|
           && (best == None || count > |entries[best.value].tokens|)
           && entries[i].tokens == prompt[..count] {
          best := Some(i);
        }
        i := i + 1;
      }
      if best == None {
        return None;
      }
      var found := entries[best.value];
      entries := [found] + entries[..best.value] + entries[best.value + 1..];
      return Some(entries[0].state);
    }

    method Contains(prefix: seq<Token>) returns (r: bool)
      ensures r == View().Contains(prefix)
    {
      var i := 0;
      while i < |entries|
        invariant i <= |entries|
        invariant forall j :: 0 <= j < i ==> entries[j].tokens != prefix
      {
        if entries[i].tokens == prefix {
          return true;
        }
        i := i + 1;
      }
      return false;
    }

    function Fits(tokens: nat, stateBytes: nat): bool
      reads this
    {
      stateBytes != 0 && stateBytes <= capacity && tokens <= (capacity - stateBytes) / TOKEN_BYTES
    }

    method MakeRoom(tokens: nat, stateBytes: nat)
      requires View().Valid()
      modifies this
      ensures View() == old(View()).MakeRoom(tokens, stateBytes)
    {
      if !Fits(tokens, stateBytes) {
        return;
      }
      var needed := tokens * TOKEN_BYTES + stateBytes;
      while bytes > capacity - needed
        invariant needed <= capacity
        invariant bytes == Sum(entries)
        invariant Evict(View(), needed) == Evict(old(View()), needed)
        decreases |entries|
      {
        var last := |entries| - 1;
        bytes := bytes - entries[last].SizeBytes();
        entries := entries[..last];
      }
    }

    method Insert(prefix: seq<Token>, state: Saved<P>)
      requires View().Valid()
      modifies this
      ensures View() == old(View()).Insert(prefix, state)
    {
      if state.tokenCount != |prefix| || !Fits(|prefix|, state.bytes) {
        return;
      }
      var present := Contains(prefix);
      if present {
        return;
      }
      MakeRoom(|prefix|, state.bytes);
      entries := [Entry(prefix, state)] + entries;
      bytes := bytes + entries[0].SizeBytes();
    }
  }
}

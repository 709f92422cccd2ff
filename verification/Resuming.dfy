/** Where an admission resumes: at the longest stored proper prefix of its prompt that can be restored, and otherwise at the
    start. src/scheduler.cc:200-228. */
module Resuming {
  import opened Wrappers
  import opened Sums
  import opened Sequences
  import opened Paging
  import opened PrefixCaching
  import opened Kernels
  import opened HybridStates
  import opened Residence
  import opened Scheduling
  import opened Invariants
  import opened Lifecycle
  import opened Generation
  import opened Engine
  import opened Choosing
  import Entries = Admission
  import Transactions

  /** No stored proper prefix of the prompt is longer than n tokens. */
  ghost predicate NoneLonger(s: Sched, prompt: seq<Token>, n: nat) {
    forall m :: n < m < |prompt| ==> !Stored(s, prompt[..m])
  }

  ghost predicate NoneStored(s: Sched, prompt: seq<Token>) {
    NoneLonger(s, prompt, 0) && (prompt != [] ==> !Stored(s, prompt[..0]))
  }

  ghost predicate Longest(s: Sched, prompt: seq<Token>, n: nat) {
    n < |prompt| && Stored(s, prompt[..n]) && NoneLonger(s, prompt, n)
  }

  /** Admitted, with the first n tokens already in memory. */
  ghost predicate Starts(q: SeqData, r: (Sched, Result<Admission, SchedError>), n: nat) {
    && r.1 == Ok(Admitted) && q.id in r.0.sequences
    && r.0.sequences[q.id] == q.(processed := n, cached := if n == 0 then q.cached else n)
    && q.id in r.0.state.sequences && r.0.state.sequences[q.id].committed == n
  }

  // ---------------------------------------------------------------- the newcomer's reservations

  lemma NewcomerHolds(s: Sched, q: SeqData, h: Hybrid)
    requires ResourcesOk(s) && WaitingOk(q) && q.id !in s.sequences
    requires ApartFrom(s.state, h, q.id) && h.Sound()
    requires q.id in h.sequences ==> Counts(h, q.id, 1, 0)
    ensures var size := s.config.kvBlockSize;
            var budgets := Budgets(s)[q.id := Budget(q, size)];
            && budgets.Keys == h.sequences.Keys + {q.id}
            && forall i :: i in h.sequences ==> |h.pages.Table(i)| <= budgets[i]
  {
    hide Budget, Partition;
    HoldersAreMembers(s);
    var budgets := Budgets(s)[q.id := Budget(q, s.config.kvBlockSize)];
    assert budgets.Keys == h.sequences.Keys + {q.id};
    forall i | i in h.sequences ensures |h.pages.Table(i)| <= budgets[i] {
      if i != q.id {
        assert HoldingOk(s, i);
      } else {
        assert h.Proportioned(i);
        BudgetCovers(q, s.config.kvBlockSize, 1);
      }
    }
  }

  /** With room for its budget, the newcomer's own reservations never lack pages. */
  lemma NewcomerReserves(s: Sched, q: SeqData, h: Hybrid, tokens: nat, created: bool)
    requires ResourcesOk(s) && WaitingOk(q) && q.id !in s.sequences && HasRoom(s, q)
    requires ApartFrom(s.state, h, q.id) && h.Sound() && !h.open
    requires q.id in h.sequences ==> Counts(h, q.id, 1, 0)
    requires q.id in h.sequences || created
    requires 0 < tokens <= q.promptCount && tokens <= h.shape.maxPositions
    ensures h.Reserve(q.id, tokens, created).1.Ok?
  {
    hide Budget, Hybrid.Sound, Hybrid.Reserve, WaitingOk;
    NewcomerHolds(s, q, h);
    HoldersAreMembers(s);
    assert q.id !in Budgets(s);
    TotalUpdate(Budgets(s), q.id, Budget(q, s.config.kvBlockSize));
    PromptCovered(q, s.config.kvBlockSize, tokens);
    ReserveSucceeds(h, q.id, tokens, created, Budgets(s)[q.id := Budget(q, s.config.kvBlockSize)]);
  }

  lemma PromptCovered(q: SeqData, size: Positive, tokens: nat)
    requires WaitingOk(q) && 0 < tokens <= q.promptCount
    ensures BlocksFor(tokens, size) <= Budget(q, size)
  {
    BudgetCovers(q, size, tokens);
  }

  /** A faithful checkpoint of fewer tokens than the prompt has is restored exactly when the backend can and it is usable. */
  lemma NewcomerRestores(k: Kernel, s: Sched, q: SeqData, h: Hybrid, saved: Saved<Payload>, tokens: seq<Token>, restores: bool)
    requires ResourcesOk(s) && WaitingOk(q) && q.id !in s.sequences && HasRoom(s, q)
    requires ApartFrom(s.state, h, q.id) && h.Sound() && !h.open && Counts(h, q.id, 1, 0)
    requires Faithful(k, saved, tokens) && |tokens| < q.promptCount <= s.config.kvBlockCount * s.config.kvBlockSize
    ensures h.Restore(q.id, saved, restores).1.Ok? <==> restores && 0 < StateBytes(s, |tokens|)
  {
    hide Budget, Hybrid.Sound, Hybrid.Reserve, WaitingOk;
    assert |saved.payload.cells| == saved.tokenCount == |tokens|;
    assert (h.CheckpointBytes(|tokens|) == 0) <==> StateBytes(s, |tokens|) == 0;
    if 0 < StateBytes(s, |tokens|) {
      NewcomerReserves(s, q, h, |tokens|, restores);
      ReserveKeepsSound(h, q.id, |tokens|, restores);
      ReserveGrows(h, q.id, |tokens|, restores);
      var grown := h.Reserve(q.id, |tokens|, restores).0;
      PrefixReserved(grown, q.id, |tokens|);
    }
  }

  lemma PrefixReserved(h: Hybrid, id: nat, tokens: nat)
    requires h.Sound() && id in h.sequences && 0 < tokens <= h.sequences[id].reserved && tokens <= h.pages.count * h.pages.size
    ensures h.ValidPrefix(h.pages.Table(id), tokens)
  {
    hide Partition, BlocksFor;
    assert h.Proportioned(id);
    BlocksForMonotone(tokens, h.sequences[id].reserved, h.pages.size);
    Transactions.TableInPool(h.pages, id);
  }

  // ---------------------------------------------------------------- what the lookup finds

  lemma StoredEntry(s: Sched, prompt: seq<Token>, i: nat)
    requires i < |s.prefixes.entries| && s.prefixes.entries[i].ProperPrefixOf(prompt)
    ensures Stored(s, prompt[..|s.prefixes.entries[i].tokens|])
  {
  }

  lemma EntryStored(s: Sched, prompt: seq<Token>, m: nat) returns (i: nat)
    requires m < |prompt| && Stored(s, prompt[..m])
    ensures i < |s.prefixes.entries| && |s.prefixes.entries[i].tokens| == m && s.prefixes.entries[i].ProperPrefixOf(prompt)
  {
    i :| 0 <= i < |s.prefixes.entries| && s.prefixes.entries[i].tokens == prompt[..m];
  }

  lemma FindsNone(s: Sched, prompt: seq<Token>)
    requires s.prefixes.Valid() && NoneStored(s, prompt)
    ensures s.prefixes.Find(prompt).1 == None
  {
    hide Cache.Find, Cache.Valid, Stored;
    FindAnswers(s.prefixes, prompt);
    if s.prefixes.Find(prompt).1.Some? {
      var b :| 0 <= b < |s.prefixes.entries| && s.prefixes.entries[b].ProperPrefixOf(prompt);
      StoredEntry(s, prompt, b);
      assert false;
    }
  }

  lemma FindsLongest(k: Kernel, s: Sched, prompt: seq<Token>, n: nat)
    requires s.prefixes.Valid() && CacheFaithful(k, s.prefixes) && Longest(s, prompt, n)
    ensures s.prefixes.Find(prompt).1.Some? && Faithful(k, s.prefixes.Find(prompt).1.value, prompt[..n])
  {
    hide Cache.Find, Stored, Faithful;
    FindAnswers(s.prefixes, prompt);
    var i := EntryStored(s, prompt, n);
    assert s.prefixes.Find(prompt).1.Some?;
    var b :| 0 <= b < |s.prefixes.entries| && s.prefixes.entries[b].ProperPrefixOf(prompt)
      && s.prefixes.entries[b].state == s.prefixes.Find(prompt).1.value
      && (forall j :: 0 <= j < |s.prefixes.entries| && j != b && s.prefixes.entries[j].ProperPrefixOf(prompt) ==>
            |s.prefixes.entries[j].tokens| < |s.prefixes.entries[b].tokens|);
    StoredEntry(s, prompt, b);
    assert |s.prefixes.entries[b].tokens| == n;
    assert s.prefixes.entries[b].tokens == prompt[..n];
  }

  // ---------------------------------------------------------------- admission

  /** Everything an admission with room relies on. */
  ghost predicate Ready(k: Kernel, s: Sched, q: SeqData) {
    && ResourcesOk(s) && !s.state.open && s.prefixes.Valid() && CacheFaithful(k, s.prefixes)
    && Pristine(q) && WaitingOk(q) && q.id !in s.sequences && HasRoom(s, q)
    && q.promptCount <= s.config.kvBlockCount * s.config.kvBlockSize
  }

  lemma RetryStarts(k: Kernel, s: Sched, q: SeqData, env: AdmitEnv, h: Hybrid, cache: Cache<Payload>)
    requires Ready(k, s, q) && 0 < h.shape.maxPositions
    requires h.Sound() && !h.open && ApartFrom(s.state, h, q.id)
    ensures var r := Retry(s.(prefixes := cache), q, env, h);
            if env.recreated then Starts(q, r, 0) else r.1.Err?
  {
    hide Hybrid.Sound, Hybrid.Reserve, Hybrid.Release, ApartFrom, ResourcesOk, HasRoom, CacheFaithful, Cache.Valid;
    var released := h.Release(q.id);
    ReleaseApart(h, q.id);
    ApartTransitive(s.state, h, released, q.id);
    Entries.ApartShape(h, released, q.id);
    FirstReserveApart(released, q.id, 1, env.recreated, released.Reserve(q.id, 1, env.recreated));
    FirstReserved(s, q, released, env.recreated);
  }

  /** A first reservation of one token succeeds exactly when the backend can create the sequence's memory. */
  lemma FirstReserved(s: Sched, q: SeqData, h: Hybrid, created: bool)
    requires ResourcesOk(s) && WaitingOk(q) && q.id !in s.sequences && HasRoom(s, q)
    requires ApartFrom(s.state, h, q.id) && h.Sound() && !h.open && q.id !in h.sequences
    ensures h.Reserve(q.id, 1, created).1.Ok? <==> created && 0 < h.shape.maxPositions
  {
    hide ResourcesOk, HasRoom, ApartFrom, Hybrid.Sound;
    if created && 0 < h.shape.maxPositions {
      NewcomerReserves(s, q, h, 1, created);
    }
  }

  lemma HitStarts(k: Kernel, s: Sched, q: SeqData, env: AdmitEnv, h: Hybrid, cache: Cache<Payload>, saved: Saved<Payload>,
                  tokens: seq<Token>)
    requires Ready(k, s, q) && 0 < h.shape.maxPositions
    requires h.Sound() && !h.open && ApartFrom(s.state, h, q.id) && Counts(h, q.id, 1, 0)
    requires Faithful(k, saved, tokens) && |tokens| < q.promptCount
    ensures var r := Hit(s, q, env, h, cache, saved);
            if env.restored && 0 < StateBytes(s, |tokens|) then Starts(q, r, |tokens|)
            else if env.recreated then Starts(q, r, 0) else r.1.Err?
  {
    hide Hybrid.Sound, Hybrid.Reserve, Hybrid.Release, Hybrid.Restore, ApartFrom, ResourcesOk, HasRoom, CacheFaithful,
      Cache.Valid, Retry;
    NewcomerRestores(k, s, q, h, saved, tokens, env.restored);
    var restored := h.Restore(q.id, saved, env.restored);
    RestoreApart(h, q.id, saved, env.restored, restored);
    ApartTransitive(s.state, h, restored.0, q.id);
    Entries.ApartShape(h, restored.0, q.id);
    if restored.1.Err? {
      RetryStarts(k, s, q, env, restored.0, cache);
    }
  }

  /** The backend's part in the first reservation. */
  predicate Created(s: Sched, created: bool) {
    created && 0 < s.state.shape.maxPositions
  }

  lemma AdmitStarts(k: Kernel, s: Sched, q: SeqData, env: AdmitEnv)
    requires Ready(k, s, q)
    ensures !Created(s, env.created) ==> s.Admit(q, env).1.Err?
    ensures Created(s, env.created) && NoneStored(s, q.tokens) ==> Starts(q, s.Admit(q, env), 0)
    ensures forall n: nat :: Created(s, env.created) && Longest(s, q.tokens, n) ==>
              if env.restored && 0 < StateBytes(s, n) then Starts(q, s.Admit(q, env), n)
              else if env.recreated then Starts(q, s.Admit(q, env), 0) else s.Admit(q, env).1.Err?
  {
    hide Hybrid.Sound, Hybrid.Reserve, Hybrid.Release, Hybrid.Restore, ApartFrom, HasRoom, CacheFaithful, Faithful,
      Cache.Valid, Cache.Find, Retry, Hit, Longest, NoneStored, Sched.Admit, StateBytes;
    assert q.Prompt() == q.tokens;
    NewcomerApart(k, s, q);
    AdmitPaths(s, q, env);
    var first := s.state.Reserve(q.id, 1, env.created);
    FirstReserveApart(s.state, q.id, 1, env.created, first);
    FirstReserved(s, q, s.state, env.created);
    Entries.ApartShape(s.state, first.0, q.id);
    if Created(s, env.created) {
      if NoneStored(s, q.tokens) {
        FindsNone(s, q.tokens);
      }
      var found := s.prefixes.Find(q.tokens);
      forall n: nat | Longest(s, q.tokens, n)
        ensures if env.restored && 0 < StateBytes(s, n) then Starts(q, s.Admit(q, env), n)
                else if env.recreated then Starts(q, s.Admit(q, env), 0) else s.Admit(q, env).1.Err?
      {
        FindsLongest(k, s, q.tokens, n);
        LongestLength(s, q.tokens, n);
        HitStarts(k, s, q, env, first.0, found.0, found.1.value, q.tokens[..n]);
      }
    }
  }

  lemma LongestLength(s: Sched, prompt: seq<Token>, n: nat)
    requires Longest(s, prompt, n)
    ensures n < |prompt|
  {
  }

  lemma NewcomerApart(k: Kernel, s: Sched, q: SeqData)
    requires Ready(k, s, q)
    ensures s.state.Sound() && q.id !in s.state.sequences && ApartFrom(s.state, s.state, q.id)
  {
    hide Hybrid.Sound;
    HoldersAreMembers(s);
    ApartRefl(s.state, q.id);
  }

  lemma AdmittedReady(k: Kernel, s: Sched, q: SeqData, env: AdmitEnv)
    requires EngineInv(k, s) && q.Valid()
    requires s.TryAdd(q, env).1 != Ok(TooLarge) && s.TryAdd(q, env).1 != Ok(Deferred)
    ensures q.id !in s.sequences && Pristine(q) ==> Ready(k, s, q) && s.TryAdd(q, env) == s.Admit(q, env)
  {
    hide Hybrid.Sound, QueuesOk, PendingOk, Sched.Admit, Budget, ResourcesOk, Budgets, CacheFaithful, Cache.Valid, HasRoom;
    if q.id !in s.sequences && Pristine(q) {
      Entries.PromisedFits(s);
      RoomThere(s, q, env);
      PoolThere(s, q);
    }
  }

  lemma RoomThere(s: Sched, q: SeqData, env: AdmitEnv)
    requires s.active == None && q.id !in s.sequences && Pristine(q)
    requires s.Promised(s.waiting) + s.Promised(s.running) == Total(Budgets(s))
    requires s.TryAdd(q, env).1 != Ok(TooLarge) && s.TryAdd(q, env).1 != Ok(Deferred)
    ensures s.FitsCache(q) && HasRoom(s, q) && s.TryAdd(q, env) == s.Admit(q, env)
  {
    hide Budget, Budgets, Sched.FitsCache, Sched.Admit;
  }

  lemma PoolThere(s: Sched, q: SeqData)
    requires s.FitsCache(q) && q.Valid()
    ensures q.promptCount <= s.config.kvBlockCount * s.config.kvBlockSize
  {
    BlocksForBounds(Horizon(q), s.config.kvBlockSize);
    var b := Budget(q, s.config.kvBlockSize);
    assert b * s.config.kvBlockSize <= s.config.kvBlockCount * s.config.kvBlockSize by {
      assert b <= s.config.kvBlockCount;
    }
  }

  /** An admission that is neither too large nor deferred: the backend must create the sequence's memory; with nothing stored
      it starts at the first token; with a stored proper prefix it resumes after the longest one when that can be restored, and
      otherwise starts anew when the backend creates the memory once more. */
  lemma AdmissionResumes(k: Kernel, s: Sched, q: SeqData, env: AdmitEnv)
    requires EngineInv(k, s) && Pristine(q) && q.id !in s.sequences
    requires s.TryAdd(q, env).1 != Ok(TooLarge) && s.TryAdd(q, env).1 != Ok(Deferred)
    ensures var r := s.TryAdd(q, env);
            && (!Created(s, env.created) ==> r.1.Err?)
            && (Created(s, env.created) && NoneStored(s, q.tokens) ==> Starts(q, r, 0))
            && (forall n: nat :: Created(s, env.created) && Longest(s, q.tokens, n) ==>
                  if env.restored && 0 < StateBytes(s, n) then Starts(q, r, n)
                  else if env.recreated then Starts(q, r, 0) else r.1.Err?)
  {
    hide Ready, EngineInv, Sched.TryAdd, Sched.Admit, NoneStored, Longest, StateBytes, Starts, Created;
    AdmittedReady(k, s, q, env);
    AdmitStarts(k, s, q, env);
  }

  // ---------------------------------------------------------------- what a stored prefix is good for

  lemma LongestFrom(s: Sched, prompt: seq<Token>, c: nat) returns (n: nat)
    requires c < |prompt| && Stored(s, prompt[..c])
    ensures c <= n && Longest(s, prompt, n)
    decreases |prompt| - c
  {
    hide Stored;
    if NoneLonger(s, prompt, c) {
      n := c;
    } else {
      var m :| c < m < |prompt| && Stored(s, prompt[..m]);
      n := LongestFrom(s, prompt, m);
    }
  }

  /** While a proper prefix of the prompt is stored and the restore succeeds, the admission resumes at it or beyond. */
  lemma StoredServes(k: Kernel, s: Sched, q: SeqData, env: AdmitEnv, c: nat) returns (n: nat)
    requires EngineInv(k, s) && Pristine(q) && q.id !in s.sequences
    requires s.TryAdd(q, env).1 != Ok(TooLarge) && s.TryAdd(q, env).1 != Ok(Deferred)
    requires c < q.promptCount <= s.state.shape.maxPositions && Stored(s, q.tokens[..c]) && 0 < StateBytes(s, c)
    requires env.created && env.restored
    ensures c <= n && Starts(q, s.TryAdd(q, env), n)
  {
    hide EngineInv, Sched.TryAdd, Sched.Admit, Stored, Starts, Longest;
    AdmissionResumes(k, s, q, env);
    n := LongestFrom(s, q.tokens, c);
    LongestLength(s, q.tokens, n);
    AdmittedReady(k, s, q, env);
    LongerBytes(k, s, q, c, n);
  }

  lemma LongerBytes(k: Kernel, s: Sched, q: SeqData, c: nat, n: nat)
    requires Ready(k, s, q) && c <= n < q.promptCount <= s.state.shape.maxPositions && 0 < StateBytes(s, c)
    ensures 0 < StateBytes(s, n)
  {
    hide Hybrid.Sound, HasRoom, CacheFaithful;
    assert c * s.state.shape.cellBytes <= n * s.state.shape.cellBytes;
  }

  /** However a request is admitted, it starts somewhere inside its prompt. */
  lemma AdmittedStarts(k: Kernel, s: Sched, q: SeqData, env: AdmitEnv) returns (n: nat)
    requires EngineInv(k, s) && Pristine(q) && q.id !in s.sequences && s.TryAdd(q, env).1 == Ok(Admitted)
    ensures n < q.promptCount && Starts(q, s.TryAdd(q, env), n)
  {
    hide EngineInv, Sched.TryAdd, Stored, Starts, Longest, Created, StateBytes;
    AdmissionResumes(k, s, q, env);
    n := 0;
    if !NoneStored(s, q.tokens) {
      var m: nat :| m < |q.tokens| && Stored(s, q.tokens[..m]);
      var longest := LongestFrom(s, q.tokens, m);
      LongestLength(s, q.tokens, longest);
      n := if env.restored && 0 < StateBytes(s, longest) then longest else 0;
    }
  }
}

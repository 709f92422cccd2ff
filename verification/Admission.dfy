/** Admission, cancellation and removal keep histories resident and tokens greedy. */
module Admission {
  import opened Wrappers
  import opened Sums
  import opened Sequences
  import opened Paging
  import opened PrefixCaching
  import opened Kernels
  import opened HybridStates
  import opened Residence
  import opened Execution
  import opened Scheduling
  import opened Invariants
  import opened Lifecycle
  import opened Generation
  import opened Engine

  // ---------------------------------------------------------------- the state during an admission

  lemma ReserveLodged(k: Kernel, h: Hybrid, hist: History, id: nat, tokens: nat, created: bool)
    requires h.Sound() && Lodged(k, h, hist)
    ensures Lodged(k, h.Reserve(id, tokens, created).0, hist)
  {
    hide Hybrid.Sound, Hybrid.Reserve, LodgedAt, Grew;
    ReserveGrows(h, id, tokens, created);
    forall i | i in hist ensures LodgedAt(k, h.Reserve(id, tokens, created).0, i, hist[i]) {
      LodgedGrows(k, h, h.Reserve(id, tokens, created).0, i, hist[i]);
    }
  }

  lemma ReleaseLodged(k: Kernel, h: Hybrid, hist: History, id: nat)
    requires Lodged(k, h, hist) && id !in hist
    ensures Lodged(k, h.Release(id), hist)
  {
    hide Hybrid.Release, LodgedAt;
    forall i | i in hist ensures LodgedAt(k, h.Release(id), i, hist[i]) {
      LodgedReleased(k, h, id, i, hist[i]);
    }
  }

  lemma RestoreLodged(k: Kernel, h: Hybrid, hist: History, id: nat, saved: Saved<Payload>, restores: bool)
    requires h.Sound() && Lodged(k, h, hist) && id !in hist
    ensures Lodged(k, h.Restore(id, saved, restores).0, hist)
  {
    hide Hybrid.Sound, Hybrid.Reserve, Hybrid.Restore, LodgedAt, Restored;
    var grown := h.Reserve(id, saved.tokenCount, restores).0;
    var r := h.Restore(id, saved, restores);
    ReserveLodged(k, h, hist, id, saved.tokenCount, restores);
    ReserveKeepsSound(h, id, saved.tokenCount, restores);
    ReserveGrows(h, id, saved.tokenCount, restores);
    RestoreIs(h, id, saved, restores);
    if r.1.Ok? {
      forall i | i in hist ensures LodgedAt(k, r.0, i, hist[i]) {
        RestoredElsewhere(k, grown, r.0, id, saved, i, hist[i]);
      }
    }
  }

  lemma RestoreLodgesOwn(k: Kernel, h: Hybrid, id: nat, saved: Saved<Payload>, restores: bool, tokens: seq<Token>)
    requires h.Sound() && Faithful(k, saved, tokens) && h.Restore(id, saved, restores).1.Ok?
    ensures LodgedAt(k, h.Restore(id, saved, restores).0, id, tokens)
  {
    hide Hybrid.Sound, Hybrid.Reserve, Hybrid.Restore, LodgedAt, Restored, Faithful;
    ReserveKeepsSound(h, id, saved.tokenCount, restores);
    ReserveGrows(h, id, saved.tokenCount, restores);
    RestoreIs(h, id, saved, restores);
    RestoredLodges(k, h.Reserve(id, saved.tokenCount, restores).0, h.Restore(id, saved, restores).0, id, saved, tokens);
  }

  lemma FirstReserveLodges(k: Kernel, h: Hybrid, id: nat, tokens: nat, created: bool)
    requires h.Sound() && id !in h.sequences && h.shape.zero == k.zero && h.Reserve(id, tokens, created).1.Ok?
    ensures LodgedAt(k, h.Reserve(id, tokens, created).0, id, [])
  {
    hide Hybrid.Sound, Hybrid.Reserve, LodgedAt;
    ReserveGrows(h, id, tokens, created);
    LodgedFresh(k, h, h.Reserve(id, tokens, created).0, id);
  }

  /** The others stay resident, and the newcomer's cached prefix is. */
  ghost predicate Welcomed(k: Kernel, hist: History, q: SeqData, r: (Sched, Result<Admission, SchedError>)) {
    && Lodged(k, r.0.state, hist)
    && (r.1.Ok? ==> q.id in r.0.sequences
                    && LodgedAt(k, r.0.state, q.id, Slice(r.0.sequences[q.id].tokens, 0, r.0.sequences[q.id].processed)))
  }

  lemma EnqueueWelcomes(k: Kernel, s: Sched, hist: History, p: SeqData, h: Hybrid)
    requires Lodged(k, h, hist) && LodgedAt(k, h, p.id, Slice(p.tokens, 0, p.processed))
    ensures Welcomed(k, hist, p, (s.Enqueue(p, h), Ok(Admitted)))
  {
    hide Lodged, LodgedAt;
  }

  lemma RetryWelcomes(k: Kernel, s: Sched, hist: History, q: SeqData, env: AdmitEnv, h: Hybrid)
    requires h.Sound() && !h.open && h.shape.zero == k.zero && Lodged(k, h, hist) && q.id !in hist && q.processed == 0
    ensures Welcomed(k, hist, q, Retry(s, q, env, h))
  {
    hide Hybrid.Sound, Hybrid.Reserve, Hybrid.Release, Lodged, LodgedAt, ApartFrom;
    var released := h.Release(q.id);
    ReleaseLodged(k, h, hist, q.id);
    ReleaseApart(h, q.id);
    ApartShape(h, released, q.id);
    var again := released.Reserve(q.id, 1, env.recreated);
    ReserveLodged(k, released, hist, q.id, 1, env.recreated);
    if again.1.Err? {
      ReleaseLodged(k, again.0, hist, q.id);
    } else {
      FirstReserveLodges(k, released, q.id, 1, env.recreated);
      assert Slice(q.tokens, 0, 0) == [];
      EnqueueWelcomes(k, s, hist, q, again.0);
    }
  }

  lemma ApartShape(h: Hybrid, g: Hybrid, id: nat)
    requires ApartFrom(h, g, id)
    ensures g.shape == h.shape && g.open == h.open
  {
  }

  /** What a lookup finds is faithful to the prefix of the prompt that it covers. */
  lemma FoundFaithful(k: Kernel, c: Cache<Payload>, prompt: seq<Token>)
    requires c.Valid() && CacheFaithful(k, c)
    ensures CacheFaithful(k, c.Find(prompt).0)
    ensures c.Find(prompt).1.Some? ==> Faithful(k, c.Find(prompt).1.value, Slice(prompt, 0, c.Find(prompt).1.value.tokenCount))
  {
    hide Faithful, Cache.Find;
    FindAnswers(c, prompt);
    OnlyKnownEntries(c, prompt, 0, 0);
    var r := c.Find(prompt);
    forall i | 0 <= i < |r.0.entries| ensures Faithful(k, r.0.entries[i].state, r.0.entries[i].tokens) {
      assert r.0.entries[i] in c.entries;
    }
    if r.1.Some? {
      var b :| 0 <= b < |c.entries| && c.entries[b].ProperPrefixOf(prompt) && c.entries[b].state == r.1.value;
      assert Faithful(k, c.entries[b].state, c.entries[b].tokens);
    }
  }

  lemma AdmitWelcomes(k: Kernel, s: Sched, hist: History, q: SeqData, env: AdmitEnv)
    requires CanEnter(s, q) && CacheFaithful(k, s.prefixes)
    requires s.state.shape.zero == k.zero && Lodged(k, s.state, hist) && q.id !in hist
    ensures Welcomed(k, hist, q, s.Admit(q, env))
  {
    hide Hybrid.Sound, Hybrid.Reserve, Hybrid.Release, Hybrid.Restore, Cache.Find, Cache.Valid, ApartFrom, Lodged, LodgedAt,
      Sched.Admit, Sched.Enqueue, Faithful, CacheFaithful, Retry, Welcomed;
    AdmitPaths(s, q, env);
    var first := s.state.Reserve(q.id, 1, env.created);
    FirstReserveApart(s.state, q.id, 1, env.created, first);
    ApartShape(s.state, first.0, q.id);
    ReserveLodged(k, s.state, hist, q.id, 1, env.created);
    var found := s.prefixes.Find(q.Prompt());
    FoundFaithful(k, s.prefixes, q.Prompt());
    if first.1.Err? {
      ReleaseLodged(k, first.0, hist, q.id);
      RefusedWelcomes(k, s.(state := first.0.Release(q.id)), hist, q, first.1.error);
    } else {
      FirstReserveLodges(k, s.state, q.id, 1, env.created);
      if found.1 == None {
        assert Slice(q.tokens, 0, 0) == [];
        EnqueueWelcomes(k, s.(prefixes := found.0), hist, q, first.0);
      } else {
        var restored := first.0.Restore(q.id, found.1.value, env.restored);
        RestoreLodged(k, first.0, hist, q.id, found.1.value, env.restored);
        RestoreApart(first.0, q.id, found.1.value, env.restored, restored);
        ApartShape(first.0, restored.0, q.id);
        if restored.1.Ok? {
          var count := found.1.value.tokenCount;
          assert q.Prompt() == q.tokens;
          RestoreLodgesOwn(k, first.0, q.id, found.1.value, env.restored, Slice(q.tokens, 0, count));
          EnqueueWelcomes(k, s.(prefixes := found.0), hist, Resumed(q, count), restored.0);
          WelcomedAs(k, hist, q, Resumed(q, count), (s.(prefixes := found.0).Enqueue(Resumed(q, count), restored.0), Ok(Admitted)));
        } else {
          RetryWelcomes(k, s.(prefixes := found.0), hist, q, env, restored.0);
        }
      }
    }
  }

  lemma RefusedWelcomes(k: Kernel, s: Sched, hist: History, q: SeqData, e: StateError)
    requires Lodged(k, s.state, hist)
    ensures Welcomed(k, hist, q, (s, Err(BlockManagerFailure(e))))
  {
  }

  lemma WelcomedAs(k: Kernel, hist: History, q: SeqData, p: SeqData, r: (Sched, Result<Admission, SchedError>))
    requires Welcomed(k, hist, p, r) && p.id == q.id
    ensures Welcomed(k, hist, q, r)
  {
  }

  // ---------------------------------------------------------------- admission keeps the engine's invariant

  lemma PristineTold(k: Kernel, q: SeqData, p: SeqData, eos: Token)
    requires Pristine(q) && SameRequest(q, p)
    ensures Told(k, p, eos)
  {
    assert p.Prompt() == p.tokens;
  }

  lemma EnteredBehind(s: Sched, p: SeqData, t: Sched)
    requires InStep(s.state, Behind(s)) && Entered(s, p, t) && p.id !in s.sequences
    ensures Behind(t) == Behind(s)[p.id := Slice(p.tokens, 0, p.processed)]
  {
    hide Hybrid.Sound, Cache.Valid, WaitingOk;
    assert s.state.sequences.Keys == Behind(s).Keys;
    assert t.state.sequences.Keys == s.state.sequences.Keys + {p.id};
  }

  lemma EnteredInStep(s: Sched, p: SeqData, t: Sched)
    requires InStep(s.state, Behind(s)) && Entered(s, p, t) && p.id !in s.sequences
    ensures Behind(t) == Behind(s)[p.id := Slice(p.tokens, 0, p.processed)]
    ensures InStep(t.state, Behind(t))
  {
    hide Hybrid.Sound, Cache.Valid;
    EnteredBehind(s, p, t);
    hide Behind;
    assert t.state.sequences.Keys == s.state.sequences.Keys + {p.id};
  }

  lemma RefusedInStep(s: Sched, id: nat, t: Sched)
    requires InStep(s.state, Behind(s)) && Refused(s, id, t) && id !in s.sequences
    ensures Behind(t) == Behind(s) && InStep(t.state, Behind(t))
  {
    hide Hybrid.Sound, Cache.Valid;
    assert s.state.sequences.Keys == Behind(s).Keys;
    assert t.state.sequences.Keys == s.state.sequences.Keys;
  }

  lemma AdmittedRests(k: Kernel, s: Sched, q: SeqData, env: AdmitEnv, r: (Sched, Result<Admission, SchedError>))
    requires EngineInv(k, s) && CanEnter(s, q) && q.id !in s.sequences
    requires r == s.Admit(q, env)
    ensures Resting(k, r.0)
  {
    hide Inv, Hybrid.Sound, Lodged, LodgedAt, Faithful, Told, Sched.Admit, Entered, Refused, CanEnter, InStep, Behind;
    assert q.id !in Behind(s) by {
      NotBehind(s, q.id);
    }
    assert s.prefixes.Valid() && Pristine(q) by {
      EnterMeans(s, q);
    }
    AdmitEnds(s, q, env);
    AdmitWelcomes(k, s, Behind(s), q, env);
    AdmittedCache(k, s, q, env);
    if r.1.Ok? {
      var p := r.0.sequences[q.id];
      EnteredInStep(s, p, r.0);
      EnteredTold(k, s, q, p, r.0);
      EnteredLodged(k, r.0.state, Behind(s), p.id, Slice(p.tokens, 0, p.processed));
      EnteredShape(s, p, r.0);
    } else {
      RefusedInStep(s, q.id, r.0);
      RefusedShape(s, q.id, r.0);
    }
  }

  lemma EnterMeans(s: Sched, q: SeqData)
    requires CanEnter(s, q)
    ensures s.prefixes.Valid() && Pristine(q)
  {
  }

  lemma NotBehind(s: Sched, id: nat)
    requires id !in s.sequences
    ensures id !in Behind(s)
  {
  }

  lemma EnteredShape(s: Sched, p: SeqData, t: Sched)
    requires Entered(s, p, t)
    ensures t.state.shape == s.state.shape
  {
  }

  lemma RefusedShape(s: Sched, id: nat, t: Sched)
    requires Refused(s, id, t)
    ensures t.state.shape == s.state.shape && t.sequences == s.sequences && t.eos == s.eos
  {
  }

  lemma EnteredTold(k: Kernel, s: Sched, q: SeqData, p: SeqData, t: Sched)
    requires AllTold(k, s) && Entered(s, p, t) && Pristine(q) && SameRequest(q, p)
    ensures AllTold(k, t)
  {
    hide Told, ApartFrom, Hybrid.Sound, Cache.Valid;
    PristineTold(k, q, p, s.eos);
  }

  lemma EnteredLodged(k: Kernel, h: Hybrid, hist: History, id: nat, tokens: seq<Token>)
    requires Lodged(k, h, hist) && LodgedAt(k, h, id, tokens)
    ensures Lodged(k, h, hist[id := tokens])
  {
    hide LodgedAt;
  }

  /** Whatever an admission does, the cache holds the entries it had. */
  lemma AdmittedCache(k: Kernel, s: Sched, q: SeqData, env: AdmitEnv)
    requires s.prefixes.Valid() && Pristine(q) && CacheFaithful(k, s.prefixes)
    ensures CacheFaithful(k, s.Admit(q, env).0.prefixes)
  {
    hide Hybrid.Reserve, Hybrid.Release, Hybrid.Restore, Cache.Find, Cache.Valid, CacheFaithful;
    FoundFaithful(k, s.prefixes, q.Prompt());
    AdmitPaths(s, q, env);
  }

  /** Admission keeps the engine's invariant, cache hit or miss, whether the restore works or not. */
  lemma TryAddRests(k: Kernel, s: Sched, q: SeqData, env: AdmitEnv)
    requires EngineInv(k, s) && q.Valid()
    ensures EngineInv(k, s.TryAdd(q, env).0)
  {
    hide Inv, Resting, Hybrid.Sound, Budget, Sched.Admit, Entered, Refused;
    TryAddKeeps(s, q, env);
    var r := s.TryAdd(q, env);
    if q.id !in s.sequences && Pristine(q) && s.FitsCache(q) && HasRoom(s, q) {
      MembersCanEnter(s, q);
      PromisedFits(s);
      AdmittedRests(k, s, q, env, s.Admit(q, env));
      AdmittingNow(s, q, env);
    }
  }

  lemma MembersCanEnter(s: Sched, q: SeqData)
    requires SchedInv(s) && s.active == None && Pristine(q) && q.id !in s.sequences
    ensures CanEnter(s, q)
  {
    hide QueuesOk, PendingOk, Hybrid.Sound;
    HoldersAreMembers(s);
  }

  lemma PromisedFits(s: Sched)
    requires SchedInv(s) && s.active == None
    ensures s.Promised(s.waiting) + s.Promised(s.running) == Total(Budgets(s))
  {
    PromisedIsTotal(s);
  }

  lemma AdmittingNow(s: Sched, q: SeqData, env: AdmitEnv)
    requires s.active == None && q.id !in s.sequences && Pristine(q) && s.FitsCache(q) && HasRoom(s, q)
    requires s.Promised(s.waiting) + s.Promised(s.running) == Total(Budgets(s))
    ensures s.TryAdd(q, env) == s.Admit(q, env)
    ensures s.Admit(q, env).0.active == None
  {
    hide Budget, Sched.FitsCache, Budgets, Hybrid.Reserve, Hybrid.Release, Hybrid.Restore;
  }

  // ---------------------------------------------------------------- cancellation and removal

  lemma StoppedTold(k: Kernel, q: SeqData, eos: Token)
    requires Told(k, q, eos) && q.reason == NoReason
    ensures Told(k, Stopped(q), eos)
  {
    assert Stopped(q).Prompt() == q.Prompt();
  }

  lemma CancelRests(k: Kernel, s: Sched, id: nat)
    requires EngineInv(k, s)
    ensures EngineInv(k, s.Cancel(id).0)
  {
    hide Inv, Resting, Sched.Cancel, CancelledIs;
    CancelKeeps(s, id);
    var t := s.Cancel(id).0;
    if id in s.sequences && s.sequences[id].status != Finished {
      CancelledRests(k, s, id, t);
    }
  }

  lemma CancelledRests(k: Kernel, s: Sched, id: nat, t: Sched)
    requires EngineInv(k, s) && CancelledIs(s, id, t) && s.sequences[id].status != Finished
    ensures Resting(k, t) && t.active == None
  {
    hide Hybrid.Sound, ResourcesOk, Told, Lodged, CacheFaithful, Without, Sched.TurnWithout, PendingOk, Cache.Valid;
    assert MemberOk(s, id);
    StoppedTold(k, s.sequences[id], s.eos);
    assert Behind(t) == Behind(s) - {id};
    LodgedLess(k, s.state, Behind(s), id);
    ReleaseLodged(k, s.state, Behind(s) - {id}, id);
  }

  lemma LodgedLess(k: Kernel, h: Hybrid, hist: History, id: nat)
    requires Lodged(k, h, hist)
    ensures Lodged(k, h, hist - {id})
  {
    hide LodgedAt;
  }

  lemma RemoveRests(k: Kernel, s: Sched, id: nat)
    requires EngineInv(k, s)
    ensures EngineInv(k, s.Remove(id).0)
  {
    hide Inv, Resting, Sched.Remove;
    RemoveKeeps(s, id);
    var t := s.Remove(id).0;
    if id in s.sequences && s.sequences[id].status == Finished {
      RemovedRests(k, s, id, t);
    }
  }

  lemma RemovedRests(k: Kernel, s: Sched, id: nat, t: Sched)
    requires EngineInv(k, s) && t == s.(sequences := s.sequences - {id}) && id !in s.waiting && id !in s.running
    ensures Resting(k, t)
  {
    hide Hybrid.Sound, Told, Housed, CacheFaithful, QueuesOk, PendingOk;
    assert id !in s.state.sequences;
    assert Behind(t) == Behind(s);
  }
}

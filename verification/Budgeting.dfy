/** Admission in plain arithmetic: least numbers of pages, their sum, and the size of the pool. src/scheduler.cc:13-22 and
    src/scheduler.cc:162-198. */
module Budgeting {
  import opened Sums
  import opened Wrappers
  import opened Sequences
  import opened Paging
  import opened HybridStates
  import opened Scheduling
  import opened Invariants
  import opened Lifecycle
  import PrefixCaching

  /** The prompt and all outputs but the last. */
  function Tokens(q: SeqData): int {
    q.promptCount + q.params.maxNewTokens - 1
  }

  /** The least number of pages that holds so many tokens. */
  predicate Covers(pages: nat, tokens: int, size: Positive) {
    (pages - 1) * size < tokens <= pages * size
  }

  lemma CoversOnce(a: nat, b: nat, tokens: int, size: Positive)
    requires Covers(a, tokens, size) && Covers(b, tokens, size)
    ensures a == b
  {
    if a < b {
      TimesAtMost(a, b - 1, size);
    } else if b < a {
      TimesAtMost(b, a - 1, size);
    }
  }

  lemma TimesAtMost(a: int, b: int, size: Positive)
    requires a <= b
    ensures a * size <= b * size
  {
  }

  /** The budget of a request is the least number of pages for its tokens. */
  lemma BudgetCovers(q: SeqData, size: Positive)
    requires q.Valid()
    ensures Covers(Budget(q, size), Tokens(q), size)
  {
    BlocksForBounds(Horizon(q), size);
  }

  lemma PoolHolds(pages: nat, tokens: int, size: Positive, count: nat)
    requires Covers(pages, tokens, size)
    ensures pages <= count <==> tokens <= count * size
  {
    if pages <= count {
      TimesAtMost(pages, count, size);
    } else {
      TimesAtMost(count, pages - 1, size);
    }
  }

  /** It can never be served: its tokens overflow, or exceed all slots of the pool. */
  predicate Oversized(s: Sched, q: SeqData) {
    Tokens(q) > MAX_SIZE || Tokens(q) > s.config.kvBlockCount * s.config.kvBlockSize
  }

  /** Least numbers of pages for every live request. */
  ghost predicate Priced(s: Sched, pages: map<nat, nat>) {
    forall id :: id in s.waiting || id in s.running ==>
      id in pages && id in s.sequences && Covers(pages[id], Tokens(s.sequences[id]), s.config.kvBlockSize)
  }

  lemma {:induction false} PromisedAlong(s: Sched, queue: seq<nat>, pages: map<nat, nat>)
    requires forall id :: id in queue ==> id in pages && id in s.sequences && s.sequences[id].Valid()
    requires forall id :: id in queue ==> Covers(pages[id], Tokens(s.sequences[id]), s.config.kvBlockSize)
    ensures s.Promised(queue) == Along(queue, pages)
  {
    hide Covers, Budget;
    if queue != [] {
      var id := queue[0];
      assert id in queue;
      BudgetCovers(s.sequences[id], s.config.kvBlockSize);
      CoversOnce(pages[id], Budget(s.sequences[id], s.config.kvBlockSize), Tokens(s.sequences[id]), s.config.kvBlockSize);
      PromisedAlong(s, queue[1..], pages);
    }
  }

  lemma FitsExactly(s: Sched, q: SeqData)
    requires q.Valid()
    ensures s.FitsCache(q) <==> !Oversized(s, q)
  {
    hide Budget, Covers;
    BudgetCovers(q, s.config.kvBlockSize);
    PoolHolds(Budget(q, s.config.kvBlockSize), Tokens(q), s.config.kvBlockSize, s.config.kvBlockCount);
  }

  lemma RoomExactly(s: Sched, q: SeqData, pages: map<nat, nat>, mine: nat)
    requires SchedInv(s) && q.Valid() && Priced(s, pages) && Covers(mine, Tokens(q), s.config.kvBlockSize)
    ensures Budget(q, s.config.kvBlockSize) == mine
    ensures s.Promised(s.waiting) == Along(s.waiting, pages) && s.Promised(s.running) == Along(s.running, pages)
  {
    hide Covers, Budget, ResourcesOk, PendingOk;
    BudgetCovers(q, s.config.kvBlockSize);
    CoversOnce(mine, Budget(q, s.config.kvBlockSize), Tokens(q), s.config.kvBlockSize);
    LiveValid(s);
    PromisedAlong(s, s.waiting, pages);
    PromisedAlong(s, s.running, pages);
  }

  lemma LiveValid(s: Sched)
    requires SchedInv(s)
    ensures forall id :: id in s.waiting || id in s.running ==> id in s.sequences && s.sequences[id].Valid()
  {
    hide ResourcesOk, PendingOk;
    forall id | id in s.waiting || id in s.running ensures id in s.sequences && s.sequences[id].Valid() {
      assert id in s.sequences && MemberOk(s, id);
    }
  }

  /** try_add on an idle scheduler and a new, untouched request: too large exactly when its tokens exceed the pool; otherwise
      deferred exactly when max_sequences are live or the least numbers of pages of all of them and of the request together
      exceed the pool; and otherwise it is up to the backend alone. */
  lemma TryAddDecides(s: Sched, q: SeqData, env: AdmitEnv, pages: map<nat, nat>, mine: nat)
    requires SchedInv(s) && s.active == None && Pristine(q) && q.id !in s.sequences
    requires Priced(s, pages) && Covers(mine, Tokens(q), s.config.kvBlockSize)
    ensures var r := s.TryAdd(q, env);
            if Oversized(s, q) then r == (s, Ok(TooLarge))
            else if || |s.waiting| + |s.running| >= s.config.maxSequences
                    || Along(s.waiting, pages) + Along(s.running, pages) + mine > s.config.kvBlockCount
            then r == (s, Ok(Deferred))
            else Admitting(s, q, r)
  {
    hide SchedInv, Priced, Covers, Budget, Sched.FitsCache, Sched.Admit, Admitting, Oversized;
    FitsExactly(s, q);
    RoomExactly(s, q, pages, mine);
    TryAddKeeps(s, q, env);
    if s.FitsCache(q) {
      RoomUnfolds(s, q, env);
    }
  }

  lemma RoomUnfolds(s: Sched, q: SeqData, env: AdmitEnv)
    requires SchedInv(s) && s.active == None && Pristine(q) && q.id !in s.sequences && s.FitsCache(q)
    ensures var needed := s.Promised(s.waiting) + s.Promised(s.running) + Budget(q, s.config.kvBlockSize);
            if |s.waiting| + |s.running| >= s.config.maxSequences || needed > s.config.kvBlockCount
            then s.TryAdd(q, env) == (s, Ok(Deferred)) else Admitting(s, q, s.TryAdd(q, env))
  {
    hide QueuesOk, PendingOk, ResourcesOk, Budget, Sched.FitsCache, Sched.Admit, Admitting, PrefixCaching.Cache.Valid;
    PromisedIsTotal(s);
    TryAddKeeps(s, q, env);
  }
}

/** What the page tables and the recurrent memories hold in every reachable state of the engine. */
module Resident {
  import opened Wrappers
  import opened Sequences
  import opened Paging
  import opened Kernels
  import opened HybridStates
  import opened Residence
  import opened Execution
  import opened Scheduling
  import opened Invariants
  import opened Generation
  import opened Engine
  import opened Runs

  /** Position p of a live sequence, looked up through its page table, holds what a run over its tokens alone computes
      for position p. */
  ghost predicate HoldsToken(k: Kernel, s: Sched, id: nat, p: nat)
    requires id in s.sequences && p < |s.sequences[id].tokens|
  {
    var table, size := s.state.pages.Table(id), s.state.pages.size;
    && p / size < |table|
    && Slot(table, size, p) < |s.state.slots|
    && s.state.slots[Slot(table, size, p)] == Replay(k, s.sequences[id].tokens).cells[p]
  }

  lemma ResidentCell(k: Kernel, r: Ran, table: seq<nat>, size: Positive, tokens: seq<Token>, n: nat, p: nat)
    requires n <= |tokens| && p < n && Replayed(k, r, table, size, Slice(tokens, 0, n))
    ensures p / size < |table| && Slot(table, size, p) < |r.slots|
    ensures r.slots[Slot(table, size, p)] == Replay(k, tokens).cells[p]
  {
    assert Slice(tokens, 0, n) == tokens[..n];
    ReplayPrefix(k, tokens, n);
  }

  /** In every state that a run of the engine reaches, every live sequence has committed exactly its processed tokens and
      reserved at least as many; every processed token is in its slot; the recurrent memory is that of its own history;
      and pages are either free or in one table, once. */
  lemma MemoryRefinesHistories(k: Kernel, s: Sched, ops: seq<Op>, id: nat, p: nat)
    requires EngineInv(k, s)
    requires id in Run(k, s, ops).waiting || id in Run(k, s, ops).running
    requires id in Run(k, s, ops).sequences && p < Run(k, s, ops).sequences[id].processed <= |Run(k, s, ops).sequences[id].tokens|
    ensures var t := Run(k, s, ops);
            && HoldsToken(k, t, id, p)
            && id in t.state.sequences
            && t.state.sequences[id].committed == t.sequences[id].processed <= t.state.sequences[id].reserved
            && t.state.sequences[id].memory == Replay(k, t.sequences[id].tokens[..t.sequences[id].processed]).memory
            && Partition(t.state.pages)
  {
    hide EngineInv, Run;
    RunKeeps(k, s, ops);
    var t := Run(k, s, ops);
    LiveResident(k, t, id);
    var q := t.sequences[id];
    assert Slice(q.tokens, 0, q.processed) == q.tokens[..q.processed];
    ResidentCell(k, Ran(t.state.slots, t.state.sequences[id].memory, 0), t.state.pages.Table(id), t.state.pages.size,
                 q.tokens, q.processed, p);
  }

  lemma LiveResident(k: Kernel, s: Sched, id: nat)
    requires EngineInv(k, s) && id in s.sequences && (id in s.waiting || id in s.running)
    ensures id in s.state.sequences && s.sequences[id].processed <= |s.sequences[id].tokens|
    ensures LodgedAt(k, s.state, id, Slice(s.sequences[id].tokens, 0, s.sequences[id].processed))
    ensures s.state.sequences[id].committed == s.sequences[id].processed <= s.state.sequences[id].reserved
    ensures Partition(s.state.pages)
  {
    hide PendingOk, Partition, CacheFaithful, Told, LodgedAt;
    assert MemberOk(s, id);
    assert HoldingOk(s, id);
    assert id in Behind(s);
  }
}

/** The updates that a successful step returns: src/scheduler.cc:376-428. They tell exactly which sequences got a token,
    which token, and which of them stopped; the serving layer forwards nothing else. */
module Delivery {
  import opened Wrappers
  import opened Sequences
  import opened PrefixCaching
  import opened Kernels
  import opened Batches
  import opened Scheduling
  import opened Invariants
  import opened Selection
  import opened Completion
  import opened Building
  import opened Protocol
  import opened Generation
  import opened Engine
  import opened Steps
  import opened Runs

  /** The sequence got this token, and stopped for this reason if there is one. */
  ghost predicate GotToken(a: SeqData, b: SeqData, u: Update) {
    && a.status != Finished
    && b.tokens == a.tokens + [u.token] && b.reason == u.reason
    && (b.status == Finished <==> u.reason != NoReason)
    && (u.reason == NoReason || u.reason == Eos || u.reason == LenLimit)
  }

  ghost predicate SameStory(a: SeqData, b: SeqData) {
    b.tokens == a.tokens && b.reason == a.reason && (b.status == Finished <==> a.status == Finished)
  }

  ghost predicate Told1(s: map<nat, SeqData>, t: map<nat, SeqData>, u: Update) {
    u.id in s && u.id in t && GotToken(s[u.id], t[u.id], u)
  }

  ghost predicate Mentions(updates: seq<Update>, id: nat) {
    exists i :: 0 <= i < |updates| && updates[i].id == id
  }

  ghost predicate OncePerId(updates: seq<Update>) {
    forall i, j :: 0 <= i < j < |updates| ==> updates[i].id != updates[j].id
  }

  /** One update per sequence that got a token, and none for the others. */
  ghost predicate Delivered(s: map<nat, SeqData>, t: map<nat, SeqData>, updates: seq<Update>) {
    && t.Keys == s.Keys
    && OncePerId(updates)
    && (forall i :: 0 <= i < |updates| ==> Told1(s, t, updates[i]))
    && (forall id :: id in s && !Mentions(updates, id) ==> SameStory(s[id], t[id]))
  }

  lemma SettleStory(q: SeqData, sample: bool, token: Token, eos: Token)
    requires LiveOk(q)
    ensures var r := Settle(q, sample, token, eos);
            if r.1 == ToWaiting then SameStory(q, r.0) else GotToken(q, r.0, Update(q.id, token, r.0.reason))
  {
  }

  /** One completed item: its own sequence changes as its update says, or not at all. */
  lemma ItemDelivered(s: Sched, phase: Phase, items: seq<Item>, token: Token, saves: bool,
                      r: (Sched, Result<Option<Update>, SchedError>))
    requires Inv(s, phase, items) && items != []
    requires r == s.CompleteItem(phase, items[0], token, saves)
    ensures r.1.Ok? && items[0].id in s.sequences
    ensures r.0.sequences.Keys == s.sequences.Keys
    ensures forall id :: id in s.sequences && id != items[0].id ==> r.0.sequences[id] == s.sequences[id]
    ensures if r.1.value.Some?
            then r.1.value.value.id == items[0].id && Told1(s.sequences, r.0.sequences, r.1.value.value)
            else SameStory(s.sequences[items[0].id], r.0.sequences[items[0].id])
  {
    hide Inv, Sched.CompleteItem, Settle, Cache.Valid, LiveOk, Settled, GotToken, SameStory;
    ItemFacts(s, phase, items);
    CompleteItemShifts(s, phase, items, token, saves);
    var q := s.sequences[items[0].id];
    SettledId(q, phase, Settle(q, items[0].sample, token, s.eos));
    SettleStory(q, items[0].sample, token, s.eos);
  }

  /** Updates of the remaining items come after the first one's, about other sequences. */
  lemma FirstThenRest(a: map<nat, SeqData>, b: map<nat, SeqData>, c: map<nat, SeqData>, id: nat,
                      first: Option<Update>, rest: seq<Update>)
    requires id in a && b.Keys == a.Keys && (forall i :: i in a && i != id ==> b[i] == a[i])
    requires if first.Some? then first.value.id == id && Told1(a, b, first.value) else SameStory(a[id], b[id])
    requires Delivered(b, c, rest) && !Mentions(rest, id)
    ensures Delivered(a, c, (if first.Some? then [first.value] else []) + rest)
  {
    hide GotToken;
    var all := (if first.Some? then [first.value] else []) + rest;
    var n := if first.Some? then 1 else 0;
    assert forall i :: n <= i < |all| ==> all[i] == rest[i - n];
    forall i | 0 <= i < |all| ensures Told1(a, c, all[i]) {
      if i < n {
        GotThenSame(a[id], b[id], c[id], all[i]);
      } else {
        assert rest[i - n].id != id;
        assert Told1(b, c, rest[i - n]);
      }
    }
    if first.Some? {
      assert all[0].id == id;
      assert Mentions(all, id);
    }
    forall i | i in a && !Mentions(all, i) ensures SameStory(a[i], c[i]) {
      MentionsLater(all, n, i);
      assert all[n..] == rest;
    }
  }

  lemma MentionsLater(all: seq<Update>, n: nat, id: nat)
    requires n <= |all|
    ensures Mentions(all[n..], id) ==> Mentions(all, id)
  {
    if j :| 0 <= j < |all[n..]| && all[n..][j].id == id {
      assert all[n + j].id == id;
    }
  }

  lemma GotThenSame(a: SeqData, b: SeqData, c: SeqData, u: Update)
    requires GotToken(a, b, u) && SameStory(b, c)
    ensures GotToken(a, c, u)
  {
  }

  /** The first n updates are known, the others are about sequences listed in these items. */
  ghost predicate UpdatesFrom(s: Sched, items: seq<Item>, before: seq<Update>, r: (Sched, Result<seq<Update>, SchedError>)) {
    && r.1.Ok? && before <= r.1.value
    && Delivered(s.sequences, r.0.sequences, r.1.value[|before|..])
    && forall i :: |before| <= i < |r.1.value| ==> Listed(items, r.1.value[i].id)
  }

  lemma {:induction false} ItemsDelivered(s: Sched, phase: Phase, items: seq<Item>, samples: seq<Token>,
                                          updates: seq<Update>, saves: set<nat>,
                                          r: (Sched, Result<seq<Update>, SchedError>))
    requires Inv(s, phase, items) && !s.state.open && |samples| == CountSamples(items)
    requires r == s.CompleteItems(phase, items, samples, updates, saves)
    ensures UpdatesFrom(s, items, updates, r)
    decreases |items|
  {
    hide Inv, Sched.CompleteItem, Delivered, Told1;
    if items == [] {
      assert updates[|updates|..] == [];
      NothingDelivered(s.sequences);
    } else {
      CountSamplesCons(items);
      var token := if items[0].sample then samples[0] else 0;
      var done := s.CompleteItem(phase, items[0], token, items[0].id in saves);
      CompleteItemKeeps(s, phase, items, token, items[0].id in saves, done);
      ItemDelivered(s, phase, items, token, items[0].id in saves, done);
      var rest := if items[0].sample then samples[1..] else samples;
      var more := if done.1.value.Some? then updates + [done.1.value.value] else updates;
      ItemsDelivered(done.0, phase, items[1..], rest, more, saves, r);
      UpdatesJoin(s, phase, items, updates, done, more, r);
    }
  }

  lemma NothingDelivered(s: map<nat, SeqData>)
    ensures Delivered(s, s, [])
  {
  }

  lemma HeadListedOnce(s: Sched, phase: Phase, items: seq<Item>)
    requires Inv(s, phase, items) && items != []
    ensures !Listed(items[1..], items[0].id)
  {
    hide Inv;
    forall i | 0 <= i < |items| - 1 ensures items[1..][i].id != items[0].id {
      DistinctScheduled(s, phase, items, 0, i + 1);
    }
  }

  lemma UpdatesJoin(s: Sched, phase: Phase, items: seq<Item>, updates: seq<Update>,
                    done: (Sched, Result<Option<Update>, SchedError>), more: seq<Update>,
                    r: (Sched, Result<seq<Update>, SchedError>))
    requires Inv(s, phase, items) && items != [] && done.1.Ok? && items[0].id in s.sequences
    requires more == if done.1.value.Some? then updates + [done.1.value.value] else updates
    requires UpdatesFrom(done.0, items[1..], more, r)
    requires done.0.sequences.Keys == s.sequences.Keys
    requires forall id :: id in s.sequences && id != items[0].id ==> done.0.sequences[id] == s.sequences[id]
    requires if done.1.value.Some?
             then done.1.value.value.id == items[0].id && Told1(s.sequences, done.0.sequences, done.1.value.value)
             else SameStory(s.sequences[items[0].id], done.0.sequences[items[0].id])
    ensures UpdatesFrom(s, items, updates, r)
  {
    hide Inv, Delivered, Told1, SameStory;
    HeadListedOnce(s, phase, items);
    var all := r.1.value;
    var rest := all[|more|..];
    assert updates <= all;
    forall j | 0 <= j < |rest| ensures rest[j].id != items[0].id {
      assert Listed(items[1..], all[|more| + j].id);
    }
    FirstThenRest(s.sequences, done.0.sequences, r.0.sequences, items[0].id, done.1.value, rest);
    assert all[|updates|..] == (if done.1.value.Some? then [done.1.value.value] else []) + rest;
    forall i | |updates| <= i < |all| ensures Listed(items, all[i].id) {
      if i < |more| {
        assert all[i] == more[i];
        assert items[0].id == all[i].id;
      } else {
        var j :| 0 <= j < |items[1..]| && items[1..][j].id == all[i].id;
        assert items[j + 1].id == all[i].id;
      }
    }
  }

  lemma CompletedDelivers(t: Sched, b: Batch, samples: seq<Token>, saves: set<nat>)
    requires SchedInv(t) && t.active == Some(b) && |samples| == CountSamples(b.items)
    ensures Completed(t, b, samples, saves).1.Ok?
    ensures Delivered(t.sequences, Completed(t, b, samples, saves).0.sequences, Completed(t, b, samples, saves).1.value)
  {
    hide Inv, Sched.CompleteItems, Delivered;
    ClosedKeeps(t, b.phase, b.items, true);
    var closed := Closed(t, true);
    var done := closed.CompleteItems(b.phase, b.items, samples, [], saves);
    ItemsDelivered(closed, b.phase, b.items, samples, [], saves, done);
    assert done.1.value[0..] == done.1.value;
    assert t.Complete(b.id, samples, saves).0.sequences == done.0.sequences;
  }

  lemma ReservedStories(s: Sched, t: Sched)
    requires OnlyReservations(s, t)
    ensures t.sequences.Keys == s.sequences.Keys
    ensures forall id :: id in s.sequences ==> SameStory(s.sequences[id], t.sequences[id])
  {
    forall id | id in s.sequences ensures SameStory(s.sequences[id], t.sequences[id]) {
      assert SameWork(s.sequences[id], t.sequences[id]);
    }
  }

  lemma StoriesThenDelivered(a: map<nat, SeqData>, b: map<nat, SeqData>, c: map<nat, SeqData>, updates: seq<Update>)
    requires b.Keys == a.Keys && forall id :: id in a ==> SameStory(a[id], b[id])
    requires Delivered(b, c, updates)
    ensures Delivered(a, c, updates)
  {
    forall i | 0 <= i < |updates| ensures Told1(a, c, updates[i]) {
      assert Told1(b, c, updates[i]);
      assert SameStory(a[updates[i].id], b[updates[i].id]);
    }
    forall id | id in a && !Mentions(updates, id) ensures SameStory(a[id], c[id]) {
      assert SameStory(a[id], b[id]) && SameStory(b[id], c[id]);
    }
  }

  /** A successful step reports exactly the tokens that it appended, each sequence once. */
  lemma StepDelivers(k: Kernel, s: Sched, env: StepEnv)
    requires EngineInv(k, s) && Step(k, s, env).1.Ok?
    ensures Delivered(s.sequences, Step(k, s, env).0.sequences, Step(k, s, env).1.value)
  {
    hide Inv, Resting, Sched.Schedule, RunBatch, Completed, Wanted, Delivered, SameStory, OnlyReservations;
    var r := Step(k, s, env);
    ScheduledRests(k, s);
    var t, b := s.Schedule().0, s.Schedule().1.value;
    RunBatchRan(k, t, b, env);
    var u, samples, saves :| r == Completed(u, b, samples, saves) && Passed(k, t, b, u, samples);
    ActiveNonempty(u, b);
    CompletedDelivers(u, b, samples, saves);
    var o := s.Opening().(active := Some(b), nextBatch := s.nextBatch + 1);
    ReservedStories(o, t);
    StoriesThenDelivered(s.sequences, t.sequences, r.0.sequences, r.1.value);
  }
}

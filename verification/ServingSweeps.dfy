/** A cancellation takes effect before the next admission and before the next engine step: src/serving_runtime.cc:186-218 and
    src/serving_runtime.cc:351-377. */
module ServingSweeps {
  import opened Wrappers
  import opened Sequences
  import opened Kernels
  import opened Scheduling
  import opened Engine
  import opened Serving
  import opened ServingBooks
  import opened ServingRuns
  import opened ServingHistories

  ghost predicate NonePending(pending: seq<SeqData>, n: nat, asked: set<nat>) {
    n <= |pending| && forall j :: 0 <= j < n ==> pending[j].id !in asked
  }

  /** How far the worker has come with these flagged requests since it began its round. */
  ghost predicate Swept(s: Server, asked: set<nat>) {
    && (forall id :: id in asked ==> id in s.requests && s.requests[id].cancelled)
    && match s.place
       case Draining => true
       case Preparing(_) => true
       case CancellingPending(i) => NonePending(s.pending, i, asked)
       case CancellingActive(left) =>
         NonePending(s.pending, |s.pending|, asked) && forall id :: id in asked && id in s.active ==> id in left
       case Admitting => NonePending(s.pending, |s.pending|, asked) && asked !! s.active
       case Deciding => NonePending(s.pending, |s.pending|, asked) && asked !! s.active
       case _ => false
  }

  ghost predicate Flagged(s: Server, asked: set<nat>) {
    forall id :: id in asked ==> id in s.requests && s.requests[id].cancelled
  }

  lemma FlagsStay(s: Server, t: Server, asked: set<nat>)
    requires AllOnward(s, t) && Flagged(s, asked)
    ensures Flagged(t, asked)
  {
  }

  // ---------------------------------------------------------------- the worker's steps

  lemma SweepPending(s: Server, asked: set<nat>, i: nat)
    requires Flagged(s, asked) && i < |s.pending| && NonePending(s.pending, i, asked)
    ensures var t := s.CancelPending(i);
            if s.Of(s.pending[i].id).cancelled then t.place == s.place && NonePending(t.pending, i, asked)
            else t.place == CancellingPending(i + 1) && NonePending(t.pending, i + 1, asked)
  {
    var t := s.CancelPending(i);
    if s.Of(s.pending[i].id).cancelled {
      assert forall j :: 0 <= j < i ==> t.pending[j] == s.pending[j];
    }
  }

  lemma SweepActive(s: Server, asked: set<nat>, left: seq<nat>)
    requires Flagged(s, asked) && left != [] && forall id :: id in asked && id in s.active ==> id in left
    ensures var t := s.CancelActive(left[0]);
            t.pending == s.pending && forall id :: id in asked && id in t.active ==> id in left[1..]
  {
    hide ReleaseSequence;
    var t := s.CancelActive(left[0]);
    forall id | id in asked && id in t.active ensures id in left[1..] {
      assert id in left && left == [left[0]] + left[1..];
    }
  }

  lemma SweepAdmitted(s: Server, asked: set<nat>, env: AdmitEnv)
    requires s.pending != [] && NonePending(s.pending, |s.pending|, asked) && asked !! s.active && s.place.Admitting?
    ensures var t := s.AdmitFront(env);
            NonePending(t.pending, |t.pending|, asked) && asked !! t.active && (t.place.Admitting? || t.place.Deciding?)
  {
    hide Sched.TryAdd;
  }

  lemma SweepWorks(k: Kernel, v: Text.Vocabulary, s: Server, env: WorkEnv, asked: set<nat>)
    requires Swept(s, asked) && Flagged(s.Work(k, v, env), asked) && !s.place.Deciding?
    ensures Swept(s.Work(k, v, env), asked)
  {
    hide Server.CancelPending, Server.CancelActive, Server.AdmitFront, Server.Prepare, NonePending, Step;
    match s.place {
      case CancellingPending(i) =>
        if i < |s.pending| {
          SweepPending(s, asked, i);
        } else {
          AllSwept(s, asked, i);
        }
      case CancellingActive(left) =>
        if left != [] {
          SweepActive(s, asked, left);
        }
      case Admitting =>
        if s.pending != [] {
          SweepAdmitted(s, asked, env.admit);
        }
      case Draining => NothingSwept(s, asked);
      case Preparing(next) => NothingSwept(s.Prepare(next, env), asked);
    }
  }

  lemma AllSwept(s: Server, asked: set<nat>, i: nat)
    requires NonePending(s.pending, i, asked) && i >= |s.pending|
    ensures NonePending(s.pending, |s.pending|, asked)
  {
  }

  lemma NothingSwept(s: Server, asked: set<nat>)
    ensures NonePending(s.pending, 0, asked)
  {
  }

  lemma SweepGoesOn(k: Kernel, v: Text.Vocabulary, s: Server, e: Event, asked: set<nat>)
    requires ServerInv(k, v, s) && Unprepared(s) && Swept(s, asked) && (e.WorkEvent? ==> !s.place.Deciding?)
    ensures Swept(Happen(k, v, s, e), asked)
  {
    hide ServerInv, Unprepared, Server.Work, NonePending, Onward;
    HappenOnward(k, v, s, e);
    FlagsStay(s, Happen(k, v, s, e), asked);
    if e.WorkEvent? {
      SweepWorks(k, v, s, e.env, asked);
    }
  }

  // ---------------------------------------------------------------- whole rounds

  /** A run in which the worker does not go beyond its decision whether to step the engine. */
  ghost predicate BeforeStep(k: Kernel, v: Text.Vocabulary, s: Server, events: seq<Event>)
    decreases |events|
  {
    events == [] || ((events[0].WorkEvent? ==> !s.place.Deciding?) && BeforeStep(k, v, Happen(k, v, s, events[0]), events[1..]))
  }

  lemma {:induction false} SweepRuns(k: Kernel, v: Text.Vocabulary, s: Server, events: seq<Event>, asked: set<nat>)
    requires ServerInv(k, v, s) && Unprepared(s) && Swept(s, asked) && BeforeStep(k, v, s, events)
    ensures var t := Serve(k, v, s, events); ServerInv(k, v, t) && Swept(t, asked)
    decreases |events|
  {
    hide ServerInv, Unprepared, Swept, Happen, Onward;
    if events != [] {
      HappenKeeps(k, v, s, events[0]);
      HappenOnward(k, v, s, events[0]);
      SweepGoesOn(k, v, s, events[0], asked);
      SweepRuns(k, v, Happen(k, v, s, events[0]), events[1..], asked);
    }
  }

  /** Requests flagged when the worker begins a round are neither pending nor active when it comes to admit and to step the
      engine, whatever other threads do meanwhile: they are finished, or were not even drained yet. */
  lemma CancelledInTime(k: Kernel, v: Text.Vocabulary, s: Server, events: seq<Event>, asked: set<nat>)
    requires ServerInv(k, v, s) && Unprepared(s) && s.place.Draining? && Flagged(s, asked) && BeforeStep(k, v, s, events)
    ensures var t := Serve(k, v, s, events);
            t.place.Admitting? || t.place.Deciding? ==>
              forall id :: id in asked ==>
                && id !in t.active && (forall i :: 0 <= i < |t.pending| ==> t.pending[i].id != id)
                && id in t.requests
                && (t.requests[id].status == RequestStatus.Finished || id in SubmittedIds(t.submissions))
  {
    hide ServerInv, Unprepared, Happen, BeforeStep;
    SweepRuns(k, v, s, events, asked);
    var t := Serve(k, v, s, events);
    hide Serve;
    if t.place.Admitting? || t.place.Deciding? {
      forall id | id in asked
        ensures id !in t.active && (forall i :: 0 <= i < |t.pending| ==> t.pending[i].id != id)
        ensures id in t.requests
        ensures t.requests[id].status == RequestStatus.Finished || id in SubmittedIds(t.submissions)
      {
        SweptAway(k, v, t, asked, id);
      }
    }
  }

  lemma SweptAway(k: Kernel, v: Text.Vocabulary, t: Server, asked: set<nat>, id: nat)
    requires ServerInv(k, v, t) && Swept(t, asked) && id in asked && (t.place.Admitting? || t.place.Deciding?)
    ensures id !in t.active && (forall i :: 0 <= i < |t.pending| ==> t.pending[i].id != id)
    ensures id in t.requests && (t.requests[id].status == RequestStatus.Finished || id in SubmittedIds(t.submissions))
  {
    hide Housing, RequestsOk, PlaceOk, Books;
    if t.requests[id].status != RequestStatus.Finished {
      StillSubmitted(t, id);
    }
  }

  /** An unfinished request that is neither active nor pending is not drained yet. */
  lemma StillSubmitted(t: Server, id: nat)
    requires Books(t) && Taken(t.place) == [] && Unfinished(t.requests, id) && id !in t.active
    requires forall i :: 0 <= i < |t.pending| ==> t.pending[i].id != id
    ensures id in SubmittedIds(t.submissions)
  {
    hide InOrder, Line;
    assert id in Line(t);
    LineOf(t);
  }

  lemma LineOf(t: Server)
    requires Taken(t.place) == []
    ensures Line(t) == PendingIds(t.pending) + SubmittedIds(t.submissions)
  {
    var a, c := PendingIds(t.pending), SubmittedIds(t.submissions);
    assert a + [] + c == a + c;
  }
}

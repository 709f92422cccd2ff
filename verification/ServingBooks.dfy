/** Who is where in the serving runtime: outstanding_ counts exactly the unfinished requests, each request is finished once,
    and requests move through the runtime in the order in which they were accepted. */
module ServingBooks {
  import opened Sequences
  import opened Serving

  function PendingIds(pending: seq<SeqData>): (r: seq<nat>)
    ensures |r| == |pending| && forall i :: 0 <= i < |r| ==> r[i] == pending[i].id
  {
    if pending == [] then [] else [pending[0].id] + PendingIds(pending[1..])
  }

  function SubmittedIds(subs: seq<Submission>): (r: seq<nat>)
    ensures |r| == |subs| && forall i :: 0 <= i < |r| ==> r[i] == subs[i].id
  {
    if subs == [] then [] else [subs[0].id] + SubmittedIds(subs[1..])
  }

  /** Submissions that the worker has taken out of the shared queue. */
  function Taken(place: Place): seq<Submission> {
    match place
    case Preparing(next) => [next]
    case Refusing(taken) => taken
    case _ => []
  }

  /** Everything that waits for admission, oldest first: prepared, being prepared, submitted. */
  function Line(s: Server): seq<nat> {
    PendingIds(s.pending) + SubmittedIds(Taken(s.place)) + SubmittedIds(s.submissions)
  }

  function Dropped(line: seq<nat>, i: nat): seq<nat>
    requires i < |line|
  {
    line[..i] + line[i + 1..]
  }

  ghost predicate Unfinished(requests: map<nat, Request>, id: nat) {
    id in requests && requests[id].status != RequestStatus.Finished
  }

  /** Acceptance order along the line, behind everything that was ever admitted. */
  ghost predicate InOrder(requests: map<nat, Request>, line: seq<nat>, accepted: nat) {
    && (forall i, j :: 0 <= i < j < |line| && line[i] in requests && line[j] in requests ==>
          requests[line[i]].stamp < requests[line[j]].stamp)
    && (forall i, id :: 0 <= i < |line| && line[i] in requests && id in requests && requests[id].admitted ==>
          requests[id].stamp < requests[line[i]].stamp)
    && (forall id :: id in requests ==> requests[id].stamp < accepted)
  }

  /** Every unfinished request is in exactly one place, and every finished one was finished once. */
  ghost predicate Placed(requests: map<nat, Request>, line: seq<nat>, active: set<nat>, finished: seq<nat>) {
    && (forall i :: 0 <= i < |line| ==> Unfinished(requests, line[i]) && line[i] !in active)
    && (forall id :: id in active ==> Unfinished(requests, id) && requests[id].admitted)
    && (forall id :: Unfinished(requests, id) ==> id in line || id in active)
    && (forall i, j :: 0 <= i < j < |finished| ==> finished[i] != finished[j])
    && (forall id :: id in finished <==> id in requests && requests[id].status == RequestStatus.Finished)
  }

  ghost predicate Books(s: Server) {
    && s.outstanding == |Line(s)| + |s.active| && s.outstanding <= s.limit
    && Placed(s.requests, Line(s), s.active, s.finished)
    && InOrder(s.requests, Line(s), s.accepted)
  }

  // ---------------------------------------------------------------- what the books say

  lemma LineDistinct(s: Server, i: nat, j: nat)
    requires Books(s) && i < j < |Line(s)|
    ensures Line(s)[i] != Line(s)[j]
  {
    assert Unfinished(s.requests, Line(s)[i]) && Unfinished(s.requests, Line(s)[j]);
  }

  ghost function UnfinishedIds(s: Server): set<nat> {
    set id | id in s.requests && s.requests[id].status != RequestStatus.Finished
  }

  lemma {:induction false} CountDistinct(line: seq<nat>, active: set<nat>, all: set<nat>)
    requires forall i, j :: 0 <= i < j < |line| ==> line[i] != line[j]
    requires forall i :: 0 <= i < |line| ==> line[i] !in active
    requires forall id :: id in all <==> id in line || id in active
    ensures |all| == |line| + |active|
    decreases |line|
  {
    if line == [] {
      assert all == active;
    } else {
      var last := line[|line| - 1];
      var rest := line[..|line| - 1];
      assert line == rest + [last];
      assert last !in rest;
      CountDistinct(rest, active, all - {last});
      assert |all - {last}| == |all| - 1;
    }
  }

  /** outstanding_ is the number of accepted requests that are not finished. */
  lemma OutstandingCounts(s: Server)
    requires Books(s)
    ensures s.outstanding == |UnfinishedIds(s)| && 0 <= s.outstanding <= s.limit
  {
    forall i, j | 0 <= i < j < |Line(s)| ensures Line(s)[i] != Line(s)[j] {
      LineDistinct(s, i, j);
    }
    forall id ensures id in UnfinishedIds(s) <==> id in Line(s) || id in s.active {
      if id in Line(s) {
        var i :| 0 <= i < |Line(s)| && Line(s)[i] == id;
        assert Unfinished(s.requests, Line(s)[i]);
      }
      if id in UnfinishedIds(s) {
        assert Unfinished(s.requests, id);
      }
    }
    CountDistinct(Line(s), s.active, UnfinishedIds(s));
  }

  // ---------------------------------------------------------------- the ways the books change

  /** Requests keep their place in the order. */
  ghost predicate SameOrder(a: map<nat, Request>, b: map<nat, Request>) {
    b.Keys == a.Keys && forall id :: id in a ==> b[id].stamp == a[id].stamp && b[id].admitted == a[id].admitted
  }

  /** Nothing was finished, accepted or admitted. */
  lemma BooksSame(s: Server, t: Server)
    requires Books(s) && Line(t) == Line(s) && t.active == s.active && t.finished == s.finished && t.limit == s.limit
    requires t.outstanding == s.outstanding && t.accepted == s.accepted
    requires SameOrder(s.requests, t.requests)
    requires forall id :: id in s.requests ==>
               (t.requests[id].status == RequestStatus.Finished <==> s.requests[id].status == RequestStatus.Finished)
    ensures Books(t)
  {
    hide Line;
    forall i | 0 <= i < |Line(t)| ensures Unfinished(t.requests, Line(t)[i]) {
      assert Unfinished(s.requests, Line(s)[i]);
    }
    forall id | Unfinished(t.requests, id) ensures id in Line(t) || id in t.active {
      assert Unfinished(s.requests, id);
    }
    forall id | id in t.active ensures Unfinished(t.requests, id) {
      assert Unfinished(s.requests, id);
    }
  }

  /** One request was finished: at position i of the line, or an active one. */
  ghost predicate FinishedOne(s: Server, id: nat, t: Server) {
    && t.limit == s.limit && t.accepted == s.accepted
    && t.outstanding == s.outstanding - 1 && t.finished == s.finished + [id]
    && id in s.requests && SameOrder(s.requests, t.requests)
    && t.requests[id].status == RequestStatus.Finished
    && forall other :: other in s.requests && other != id ==> t.requests[other] == s.requests[other]
  }

  /** Members of a shortened line. */
  lemma LeftMembers(line: seq<nat>, i: nat)
    requires i < |line| && forall a, b :: 0 <= a < b < |line| ==> line[a] != line[b]
    ensures forall id :: id in Dropped(line, i) <==> id in line && id != line[i]
  {
    var rest := Dropped(line, i);
    forall id | id in line && id != line[i] ensures id in rest {
      var b :| 0 <= b < |line| && line[b] == id;
      assert rest[if b < i then b else b - 1] == id;
    }
    forall id | id in rest ensures id in line && id != line[i] {
      var j :| 0 <= j < |rest| && rest[j] == id;
      assert line[if j < i then j else j + 1] == id;
    }
  }

  /** The same as Placed, with members instead of positions. */
  ghost predicate PlacedBySet(requests: map<nat, Request>, line: seq<nat>, active: set<nat>, finished: seq<nat>) {
    && (forall id :: id in line ==> Unfinished(requests, id) && id !in active)
    && (forall id :: id in active ==> Unfinished(requests, id) && requests[id].admitted)
    && (forall id :: Unfinished(requests, id) ==> id in line || id in active)
    && (forall i, j :: 0 <= i < j < |finished| ==> finished[i] != finished[j])
    && (forall id :: id in finished <==> id in requests && requests[id].status == RequestStatus.Finished)
  }

  lemma PlacedAsSet(requests: map<nat, Request>, line: seq<nat>, active: set<nat>, finished: seq<nat>)
    ensures Placed(requests, line, active, finished) <==> PlacedBySet(requests, line, active, finished)
  {
    if Placed(requests, line, active, finished) {
      forall id | id in line ensures Unfinished(requests, id) && id !in active {
        var i :| 0 <= i < |line| && line[i] == id;
      }
    }
  }

  lemma PlacedFinish(a: map<nat, Request>, line: seq<nat>, active: set<nat>, finished: seq<nat>, id: nat,
                     b: map<nat, Request>, less: seq<nat>, fewer: set<nat>)
    requires PlacedBySet(a, line, active, finished) && Unfinished(a, id) && SameOrder(a, b)
    requires b[id].status == RequestStatus.Finished && forall other :: other in a && other != id ==> b[other] == a[other]
    requires forall other :: other in less <==> other in line && other != id
    requires forall other :: other in fewer <==> other in active && other != id
    ensures PlacedBySet(b, less, fewer, finished + [id])
  {
    assert id !in finished;
  }

  lemma BooksDrop(s: Server, i: nat, t: Server)
    requires Books(s) && i < |Line(s)| && FinishedOne(s, Line(s)[i], t)
    requires Line(t) == Dropped(Line(s), i) && t.active == s.active
    ensures Books(t)
  {
    hide Line, Placed, InOrder, PlacedBySet;
    LineUnfinished(s, i);
    forall a, b | 0 <= a < b < |Line(s)| ensures Line(s)[a] != Line(s)[b] {
      LineDistinct(s, a, b);
    }
    LeftMembers(Line(s), i);
    PlacedAsSet(s.requests, Line(s), s.active, s.finished);
    PlacedFinish(s.requests, Line(s), s.active, s.finished, Line(s)[i], t.requests, Line(t), t.active);
    PlacedAsSet(t.requests, Line(t), t.active, t.finished);
    ShorterLine(s.requests, Line(s), s.accepted, i, t.requests);
  }

  lemma LineUnfinished(s: Server, i: nat)
    requires Books(s) && i < |Line(s)|
    ensures Unfinished(s.requests, Line(s)[i]) && Line(s)[i] !in s.active
  {
  }

  lemma ShorterLine(a: map<nat, Request>, line: seq<nat>, accepted: nat, i: nat, b: map<nat, Request>)
    requires InOrder(a, line, accepted) && i < |line| && SameOrder(a, b)
    ensures InOrder(b, Dropped(line, i), accepted)
  {
    var rest := Dropped(line, i);
    assert forall j :: 0 <= j < |rest| ==> rest[j] == line[if j < i then j else j + 1];
  }

  lemma BooksDone(s: Server, id: nat, t: Server)
    requires Books(s) && id in s.active && FinishedOne(s, id, t)
    requires Line(t) == Line(s) && t.active == s.active - {id}
    ensures Books(t)
  {
    hide Line, InOrder, PlacedBySet;
    assert Unfinished(s.requests, id);
    assert id !in Line(s);
    PlacedAsSet(s.requests, Line(s), s.active, s.finished);
    hide Placed;
    PlacedFinish(s.requests, Line(s), s.active, s.finished, id, t.requests, Line(t), t.active);
    PlacedAsSet(t.requests, Line(t), t.active, t.finished);
    ShorterSet(s.active, id);
    SameLine(s.requests, Line(s), s.accepted, t.requests);
  }

  lemma SameLine(a: map<nat, Request>, line: seq<nat>, accepted: nat, b: map<nat, Request>)
    requires InOrder(a, line, accepted) && SameOrder(a, b)
    ensures InOrder(b, line, accepted)
  {
  }

  lemma ShorterSet(a: set<nat>, id: nat)
    requires id in a
    ensures |a - {id}| == |a| - 1
  {
  }

  /** Only this request was marked as admitted. */
  ghost predicate AdmittedOne(a: map<nat, Request>, id: nat, b: map<nat, Request>) {
    && b.Keys == a.Keys && id in a
    && forall other :: other in a ==>
         && b[other].stamp == a[other].stamp && b[other].status == a[other].status
         && (b[other].admitted <==> a[other].admitted || other == id)
  }

  lemma PlacedAdmit(a: map<nat, Request>, line: seq<nat>, active: set<nat>, finished: seq<nat>, id: nat,
                    b: map<nat, Request>, less: seq<nat>)
    requires PlacedBySet(a, line, active, finished) && id in line && AdmittedOne(a, id, b)
    requires forall other :: other in less <==> other in line && other != id
    ensures PlacedBySet(b, less, active + {id}, finished)
  {
    forall other ensures Unfinished(b, other) <==> Unfinished(a, other) {
    }
  }

  lemma OrderAdmit(a: map<nat, Request>, line: seq<nat>, accepted: nat, b: map<nat, Request>)
    requires InOrder(a, line, accepted) && line != [] && AdmittedOne(a, line[0], b)
    ensures InOrder(b, Dropped(line, 0), accepted)
  {
    var rest := Dropped(line, 0);
    assert forall j :: 0 <= j < |rest| ==> rest[j] == line[j + 1];
  }

  /** The oldest of the line became active. */
  lemma BooksAdmit(s: Server, t: Server)
    requires Books(s) && Line(s) != [] && Line(t) == Dropped(Line(s), 0) && t.active == s.active + {Line(s)[0]}
    requires t.limit == s.limit && t.accepted == s.accepted && t.outstanding == s.outstanding && t.finished == s.finished
    requires AdmittedOne(s.requests, Line(s)[0], t.requests)
    ensures Books(t)
  {
    hide Line, Placed, InOrder, PlacedBySet, AdmittedOne;
    LineUnfinished(s, 0);
    forall a, b | 0 <= a < b < |Line(s)| ensures Line(s)[a] != Line(s)[b] {
      LineDistinct(s, a, b);
    }
    LeftMembers(Line(s), 0);
    PlacedAsSet(s.requests, Line(s), s.active, s.finished);
    PlacedAdmit(s.requests, Line(s), s.active, s.finished, Line(s)[0], t.requests, Line(t));
    PlacedAsSet(t.requests, Line(t), t.active, t.finished);
    OrderAdmit(s.requests, Line(s), s.accepted, t.requests);
  }

  /** A new request joined the back of the line. */
  lemma BooksAccept(s: Server, id: nat, t: Server)
    requires Books(s) && id !in s.requests && s.outstanding < s.limit
    requires Line(t) == Line(s) + [id] && t.active == s.active && t.finished == s.finished && t.limit == s.limit
    requires t.outstanding == s.outstanding + 1 && t.accepted == s.accepted + 1
    requires t.requests == s.requests[id := NewRequest(s.accepted)]
    ensures Books(t)
  {
    hide Line;
    forall j | 0 <= j < |Line(t)| ensures Unfinished(t.requests, Line(t)[j]) && Line(t)[j] !in t.active {
      if j < |Line(s)| {
        assert Line(t)[j] == Line(s)[j];
        assert Unfinished(s.requests, Line(s)[j]);
      } else {
        assert id in s.active ==> Unfinished(s.requests, id);
      }
    }
    forall other | Unfinished(t.requests, other) ensures other in Line(t) || other in t.active {
      if other != id {
        assert Unfinished(s.requests, other);
      } else {
        assert Line(t)[|Line(s)|] == id;
      }
    }
    forall other | other in t.active ensures Unfinished(t.requests, other) && t.requests[other].admitted {
      assert Unfinished(s.requests, other);
    }
    LongerLine(s.requests, Line(s), s.accepted, id);
  }

  lemma LongerLine(a: map<nat, Request>, line: seq<nat>, accepted: nat, id: nat)
    requires InOrder(a, line, accepted) && id !in a && forall i :: 0 <= i < |line| ==> line[i] in a
    ensures InOrder(a[id := NewRequest(accepted)], line + [id], accepted + 1)
  {
  }
}

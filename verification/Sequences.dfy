/** One generation request: src/seq.h and src/seq.cc. */
module Sequences {
  import opened Wrappers

  type Token = int

  datatype Status = Waiting | Running | Finished

  datatype Reason = NoReason | Eos | LenLimit | Cancelled

  datatype SeqError =
    | EmptyPrompt
    | InvalidMaxNewTokens
    | AlreadyFinished
    | InvalidStateTransition
    | InvalidFinishReason
    | ZeroScheduledTokens
    | WorkAlreadyScheduled
    | TooManyScheduledTokens
    | NoWorkScheduled
    | InvalidCachedPrefix

  datatype Params = Params(maxNewTokens: nat, ignoreEos: bool)

  /** The value of a sequence object; the class Sequence below holds it in fields. */
  datatype SeqData = SeqData(
    id: nat,
    status: Status,
    reason: Reason,
    tokens: seq<Token>,
    promptCount: nat,
    processed: nat,
    cached: nat,
    checkpoints: seq<nat>,
    scheduled: nat,
    params: Params)
  {
    /** The conditions of assert_invariants, and those that `make` establishes for good. */
    ghost predicate Valid() {
      && 0 < promptCount <= |tokens|
      && processed + scheduled <= |tokens|
      && (status == Finished <==> reason != NoReason)
      && (status == Finished ==> scheduled == 0)
      && 0 < params.maxNewTokens
      && Increasing(checkpoints)
      && forall c :: c in checkpoints ==> 0 < c < promptCount
    }

    function Prompt(): seq<Token>
      requires promptCount <= |tokens|
    {
      tokens[..promptCount]
    }

    function Completions(): int {
      |tokens| - promptCount
    }

    function Schedulable(): int {
      |tokens| - processed - scheduled
    }

    function RestorePrefix(count: nat): (r: Result<SeqData, SeqError>) {
      if status != Waiting || processed != 0 || scheduled != 0 || Completions() != 0
         || count == 0 || count >= promptCount
      then Err(InvalidCachedPrefix)
      else Ok(this.(processed := count, cached := count))
    }

    function AppendToken(token: Token): (r: Result<SeqData, SeqError>) {
      if status == Finished then Err(AlreadyFinished)
      else if status != Running then Err(InvalidStateTransition)
      else if scheduled != 0 then Err(WorkAlreadyScheduled)
      else if processed != |tokens| then Err(InvalidStateTransition)
      else Ok(this.(tokens := tokens + [token]))
    }

    function MarkRunning(): (r: Result<SeqData, SeqError>) {
      if status == Finished then Err(AlreadyFinished)
      else if status != Waiting then Err(InvalidStateTransition)
      else if scheduled > 0 then Err(WorkAlreadyScheduled)
      else if |tokens| != processed then Err(InvalidStateTransition)
      else Ok(this.(status := Running))
    }

    function Finish(why: Reason): (r: Result<SeqData, SeqError>) {
      if status == Finished then Err(AlreadyFinished)
      else if why == NoReason then Err(InvalidFinishReason)
      else if scheduled > 0 then Err(WorkAlreadyScheduled)
      else Ok(this.(status := Finished, reason := why))
    }

    function ScheduleTokens(count: nat): (r: Result<SeqData, SeqError>) {
      if status == Finished then Err(AlreadyFinished)
      else if scheduled != 0 then Err(WorkAlreadyScheduled)
      else if count == 0 then Err(ZeroScheduledTokens)
      else if count > Schedulable() then Err(TooManyScheduledTokens)
      else Ok(this.(scheduled := count))
    }

    function CommitScheduled(): (r: Result<SeqData, SeqError>) {
      if status == Finished then Err(AlreadyFinished)
      else if scheduled == 0 then Err(NoWorkScheduled)
      else Ok(this.(processed := processed + scheduled, scheduled := 0))
    }

    function CancelScheduled(): SeqData {
      this.(scheduled := 0)
    }

    /** EOS takes precedence over the length limit. */
    function EvaluateStop(eos: Token): Reason
      requires tokens != []
    {
      if Completions() == 0 then NoReason
      else if !params.ignoreEos && tokens[|tokens| - 1] == eos then Eos
      else if Completions() >= params.maxNewTokens then LenLimit
      else NoReason
    }
  }

  ghost predicate Increasing(s: seq<nat>) {
    forall i, j :: 0 <= i < j < |s| ==> s[i] < s[j]
  }

  ghost predicate Sorted(s: seq<nat>) {
    forall i, j :: 0 <= i < j < |s| ==> s[i] <= s[j]
  }

  /** std::ranges::sort on the checkpoint offsets. */
  function Sort(s: seq<nat>): seq<nat> {
    if s == [] then [] else Insert(s[0], Sort(s[1..]))
  }

  function Insert(x: nat, s: seq<nat>): seq<nat> {
    if s == [] || x <= s[0] then [x] + s else [s[0]] + Insert(x, s[1..])
  }

  lemma {:induction false} InsertKeeps(x: nat, s: seq<nat>)
    ensures multiset(Insert(x, s)) == multiset(s) + multiset{x}
  {
    if s != [] && x > s[0] {
      InsertKeeps(x, s[1..]);
      assert s == [s[0]] + s[1..];
    }
  }

  lemma {:induction false} InsertSorts(x: nat, s: seq<nat>)
    requires Sorted(s)
    ensures Sorted(Insert(x, s))
  {
    if s == [] || x <= s[0] {
      ConsSorted(x, s);
    } else {
      InsertSorts(x, s[1..]);
      InsertKeeps(x, s[1..]);
      var t := Insert(x, s[1..]);
      forall i | 0 <= i < |t| ensures s[0] <= t[i] {
        assert t[i] in multiset(s[1..]) + multiset{x};
      }
      ConsSorted(s[0], t);
    }
  }

  lemma ConsSorted(x: nat, s: seq<nat>)
    requires Sorted(s) && forall i :: 0 <= i < |s| ==> x <= s[i]
    ensures Sorted([x] + s)
  {
    var t := [x] + s;
    forall i, j | 0 <= i < j < |t| ensures t[i] <= t[j] {
      assert t[j] == s[j - 1];
    }
  }

  lemma {:induction false} SortSorts(s: seq<nat>)
    ensures multiset(Sort(s)) == multiset(s)
    ensures Sorted(Sort(s))
  {
    if s != [] {
      SortSorts(s[1..]);
      InsertKeeps(s[0], Sort(s[1..]));
      InsertSorts(s[0], Sort(s[1..]));
      assert s == [s[0]] + s[1..];
    }
  }

  predicate HasAdjacentEqual(s: seq<nat>) {
    exists i :: 0 <= i < |s| - 1 && s[i] == s[i + 1]
  }

  function Fresh(id: nat, prompt: seq<Token>, params: Params, checkpoints: seq<nat>): SeqData {
    SeqData(id, Waiting, NoReason, prompt, |prompt|, 0, 0, checkpoints, 0, params)
  }

  /** seq::make: default checkpoint, sort, and the three rejections. */
  function Make(id: nat, prompt: seq<Token>, params: Params, checkpoints: seq<nat>): (r: Result<SeqData, SeqError>) {
    if prompt == [] then Err(EmptyPrompt)
    else if params.maxNewTokens == 0 then Err(InvalidMaxNewTokens)
    else
      var chosen := if checkpoints == [] && |prompt| > 1 then [|prompt| - 1] else checkpoints;
      var sorted := Sort(chosen);
      if (sorted != [] && (sorted[0] == 0 || sorted[|sorted| - 1] >= |prompt|)) || HasAdjacentEqual(sorted)
      then Err(InvalidCachedPrefix)
      else Ok(Fresh(id, prompt, params, sorted))
  }

  lemma {:induction false} IncreasingFromAdjacent(s: seq<nat>)
    requires Sorted(s) && !HasAdjacentEqual(s)
    ensures Increasing(s)
  {
    forall i, j | 0 <= i < j < |s| ensures s[i] < s[j] {
      assert s[i] != s[i + 1];
      assert s[i] <= s[i + 1] <= s[j];
    }
  }

  ghost predicate Pristine(q: SeqData) {
    && q.Valid()
    && q.status == Waiting
    && q.scheduled == 0
    && q.processed == 0
    && |q.tokens| == q.promptCount
  }

  /** Offsets strictly inside a prompt, none of them given twice. */
  ghost predicate ProperOffsets(offsets: seq<nat>, length: nat) {
    && (forall c :: c in offsets ==> 0 < c < length)
    && (forall c :: c in offsets ==> multiset(offsets)[c] == 1)
  }

  lemma ProperIsPermutationInvariant(a: seq<nat>, b: seq<nat>, length: nat)
    requires multiset(a) == multiset(b)
    requires ProperOffsets(a, length)
    ensures ProperOffsets(b, length)
  {
    forall c | c in b ensures 0 < c < length && multiset(b)[c] == 1 {
      assert c in multiset(b);
      assert c in a;
    }
  }

  lemma SortedProper(s: seq<nat>, length: nat)
    requires Sorted(s)
    ensures ProperOffsets(s, length) <==>
            !((s != [] && (s[0] == 0 || s[|s| - 1] >= length)) || HasAdjacentEqual(s))
    ensures ProperOffsets(s, length) ==> Increasing(s)
  {
    if HasAdjacentEqual(s) {
      var i :| 0 <= i < |s| - 1 && s[i] == s[i + 1];
      TwiceMeansTwo(s, i, i + 1);
      assert s[i] in s;
    } else {
      IncreasingFromAdjacent(s);
      forall c | c in s ensures multiset(s)[c] == 1 {
        OnceInIncreasing(s, c);
      }
    }
    if s != [] {
      assert s[0] in s && s[|s| - 1] in s;
    }
  }

  /** A made sequence is pristine, and `make` accepts exactly the offsets strictly inside the prompt; given none, it takes
      the last one. */
  lemma MakeAcceptsExactly(id: nat, prompt: seq<Token>, params: Params, checkpoints: seq<nat>)
    ensures Make(id, prompt, params, checkpoints).Ok? <==>
            prompt != [] && params.maxNewTokens != 0 && ProperOffsets(checkpoints, |prompt|)
    ensures Make(id, prompt, params, checkpoints).Ok? ==>
              var q := Make(id, prompt, params, checkpoints).value;
              && Pristine(q) && q.id == id && q.tokens == prompt && q.params == params && q.cached == 0
              && multiset(q.checkpoints) == multiset(if checkpoints == [] && |prompt| > 1 then [|prompt| - 1] else checkpoints)
  {
    var chosen := if checkpoints == [] && |prompt| > 1 then [|prompt| - 1] else checkpoints;
    var sorted := Sort(chosen);
    SortSorts(chosen);
    SortedProper(sorted, |prompt|);
    if ProperOffsets(checkpoints, |prompt|) {
      assert ProperOffsets(chosen, |prompt|);
      ProperIsPermutationInvariant(chosen, sorted, |prompt|);
    }
    if ProperOffsets(sorted, |prompt|) {
      ProperIsPermutationInvariant(sorted, chosen, |prompt|);
    }
  }

  // ---------------------------------------------------------------- the protocol of one sequence

  /** Work is scheduled once, no more of it than is left, and then either taken back or committed once; meanwhile the sequence
      cannot move on. */
  lemma WorkIsExclusive(q: SeqData, n: nat, m: nat, token: Token, why: Reason)
    requires q.Valid()
    ensures q.ScheduleTokens(n).Ok? <==> q.status != Finished && q.scheduled == 0 && 0 < n && q.processed + n <= |q.tokens|
    ensures q.ScheduleTokens(n).Ok? ==>
              var w := q.ScheduleTokens(n).value;
              && w.Valid() && w.CancelScheduled() == q
              && w.ScheduleTokens(m).Err? && w.MarkRunning().Err? && w.AppendToken(token).Err? && w.Finish(why).Err?
              && w.RestorePrefix(m).Err?
              && w.CommitScheduled().Ok? && w.CommitScheduled().value == q.(processed := q.processed + n)
    ensures q.scheduled == 0 ==> q.CommitScheduled().Err?
  {
  }

  /** A waiting sequence starts to run when its prompt is processed, and then takes one token each time it has caught up. */
  lemma TokensInTurn(q: SeqData, token: Token)
    requires q.Valid() && q.scheduled == 0
    ensures q.MarkRunning().Ok? <==> q.status == Waiting && q.processed == |q.tokens|
    ensures q.AppendToken(token).Ok? <==> q.status == Running && q.processed == |q.tokens|
    ensures q.AppendToken(token).Ok? ==>
              var g := q.AppendToken(token).value;
              && g.Valid() && g.tokens == q.tokens + [token]
              && g.AppendToken(token).Err? && g.ScheduleTokens(1).Ok? && g.ScheduleTokens(2).Err?
  {
  }

  /** Only an untouched sequence resumes after a prefix, which lies strictly inside its prompt; and only once. */
  lemma ResumesOnce(q: SeqData, n: nat, m: nat)
    requires q.Valid()
    ensures q.RestorePrefix(n).Ok? <==> Pristine(q) && 0 < n < q.promptCount
    ensures q.RestorePrefix(n).Ok? ==> q.RestorePrefix(n).value.Valid() && q.RestorePrefix(n).value.RestorePrefix(m).Err?
  {
  }

  /** A sequence finishes once, with a reason, and nothing happens to it afterwards. */
  lemma FinishedIsFinal(q: SeqData, why: Reason, n: nat, token: Token, other: Reason)
    requires q.Valid()
    ensures q.Finish(why).Ok? <==> q.status != Finished && why != NoReason && q.scheduled == 0
    ensures q.Finish(why).Ok? ==>
              var f := q.Finish(why).value;
              && f.Valid() && f.reason == why && f.CancelScheduled() == f
              && f.ScheduleTokens(n) == Err(AlreadyFinished) && f.CommitScheduled() == Err(AlreadyFinished)
              && f.MarkRunning() == Err(AlreadyFinished) && f.AppendToken(token) == Err(AlreadyFinished)
              && f.Finish(other) == Err(AlreadyFinished) && f.RestorePrefix(n).Err?
  {
  }

  lemma TwiceMeansTwo(s: seq<nat>, i: nat, j: nat)
    requires i < j < |s| && s[i] == s[j]
    ensures multiset(s)[s[i]] >= 2
  {
    assert s == s[..j] + s[j..];
    assert s[i] in s[..j] && s[j] in s[j..];
    assert multiset(s) == multiset(s[..j]) + multiset(s[j..]);
  }

  lemma OnceInIncreasing(s: seq<nat>, c: nat)
    requires Increasing(s) && c in s
    ensures multiset(s)[c] == 1
  {
    var i :| 0 <= i < |s| && s[i] == c;
    assert s == s[..i] + [c] + s[i + 1..];
    assert c !in s[..i] && c !in s[i + 1..];
    assert multiset(s) == multiset(s[..i]) + multiset{c} + multiset(s[i + 1..]);
  }

  /** What an operation did: it took the new value and succeeded, or changed nothing and failed. */
  predicate Applied(before: SeqData, spec: Result<SeqData, SeqError>, after: SeqData, r: Result<(), SeqError>) {
    match spec
    case Ok(d) => r == Ok(()) && after == d
    case Err(e) => r == Err(e) && after == before
  }

  /** struct seq: the same operations as updates in place. */
  class Sequence {
    const id: nat
    var status: Status
    var reason: Reason
    var tokens: seq<Token>
    const promptCount: nat
    var processed: nat
    var cached: nat
    const checkpoints: seq<nat>
    var scheduled: nat
    const params: Params

    function Data(): SeqData
      reads this
    {
      SeqData(id, status, reason, tokens, promptCount, processed, cached, checkpoints, scheduled, params)
    }

    constructor (data: SeqData)
      ensures Data() == data
    {
      id, status, reason, tokens, promptCount := data.id, data.status, data.reason, data.tokens, data.promptCount;
      processed, cached, checkpoints, scheduled, params :=
        data.processed, data.cached, data.checkpoints, data.scheduled, data.params;
    }

    method RestorePrefix(count: nat) returns (r: Result<(), SeqError>)
      modifies this
      ensures Applied(old(Data()), old(Data()).RestorePrefix(count), Data(), r)
    {
      if status != Waiting || processed != 0 || scheduled != 0 || |tokens| != promptCount
         || count == 0 || count >= promptCount {
        return Err(InvalidCachedPrefix);
      }
      processed, cached := count, count;
      return Ok(());
    }

    method AppendToken(token: Token) returns (r: Result<(), SeqError>)
      modifies this
      ensures Applied(old(Data()), old(Data()).AppendToken(token), Data(), r)
    {
      if status == Finished {
        return Err(AlreadyFinished);
      }
      if status != Running {
        return Err(InvalidStateTransition);
      }
      if scheduled != 0 {
        return Err(WorkAlreadyScheduled);
      }
      if processed != |tokens| {
        return Err(InvalidStateTransition);
      }
      tokens := tokens + [token];
      return Ok(());
    }

    method MarkRunning() returns (r: Result<(), SeqError>)
      modifies this
      ensures Applied(old(Data()), old(Data()).MarkRunning(), Data(), r)
    {
      if status == Finished {
        return Err(AlreadyFinished);
      }
      if status != Waiting {
        return Err(InvalidStateTransition);
      }
      if scheduled > 0 {
        return Err(WorkAlreadyScheduled);
      }
      if |tokens| != processed {
        return Err(InvalidStateTransition);
      }
      status := Running;
      return Ok(());
    }

    method Finish(why: Reason) returns (r: Result<(), SeqError>)
      modifies this
      ensures Applied(old(Data()), old(Data()).Finish(why), Data(), r)
    {
      if status == Finished {
        return Err(AlreadyFinished);
      }
      if why == NoReason {
        return Err(InvalidFinishReason);
      }
      if scheduled > 0 {
        return Err(WorkAlreadyScheduled);
      }
      status, reason := Finished, why;
      return Ok(());
    }

    method ScheduleTokens(count: nat) returns (r: Result<(), SeqError>)
      modifies this
      ensures Applied(old(Data()), old(Data()).ScheduleTokens(count), Data(), r)
    {
      if status == Finished {
        return Err(AlreadyFinished);
      }
      if scheduled != 0 {
        return Err(WorkAlreadyScheduled);
      }
      if count == 0 {
        return Err(ZeroScheduledTokens);
      }
      if count > |tokens| - processed - scheduled {
        return Err(TooManyScheduledTokens);
      }
      scheduled := count;
      return Ok(());
    }

    method CommitScheduled() returns (r: Result<(), SeqError>)
      modifies this
      ensures Applied(old(Data()), old(Data()).CommitScheduled(), Data(), r)
    {
      if status == Finished {
        return Err(AlreadyFinished);
      }
      if scheduled == 0 {
        return Err(NoWorkScheduled);
      }
      processed, scheduled := processed + scheduled, 0;
      return Ok(());
    }

    method CancelScheduled()
      modifies this
      ensures Data() == old(Data()).CancelScheduled()
    {
      scheduled := 0;
    }
  }
}

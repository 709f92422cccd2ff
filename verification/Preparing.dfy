/** What becomes of one submission, decided by arithmetic on its own data: src/serving_runtime.cc:107-183. */
module Preparing {
  import opened Wrappers
  import opened Sequences
  import opened Scheduling
  import opened Serving
  import Budgeting

  /** Everything but the decoder that a submission needs to be served: its messages encode to at least one token, prompt and
      answer fit the context window and the slots of the pool (the last output token needs none), it asks for an answer, and
      its checkpoint offsets lie strictly inside the prompt, none of them twice. */
  ghost predicate Preparable(s: Server, sub: Submission, encoded: Option<(seq<Token>, seq<nat>)>) {
    encoded.Some? &&
    var n := |encoded.value.0|;
    && 0 < n < s.contextLimit && 0 < sub.maxTokens && n + sub.maxTokens <= s.contextLimit
    && ProperOffsets(encoded.value.1, n)
    && n + sub.maxTokens - 1 <= MAX_SIZE
    && n + sub.maxTokens - 1 <= s.engine.config.kvBlockCount * s.engine.config.kvBlockSize
  }

  /** The request's last update, and one fewer outstanding. */
  ghost predicate Ended(s: Server, t: Server, id: nat, last: Request) {
    t == s.(requests := s.requests[id := last.(status := RequestStatus.Finished)],
            outstanding := s.outstanding - 1, finished := s.finished + [id])
  }

  /** The sequence of a submission: its own tokens and limit, nothing processed yet, and the offsets to remember in order. */
  ghost predicate Represents(q: SeqData, sub: Submission, chat: (seq<Token>, seq<nat>)) {
    && q.id == sub.id && q.tokens == chat.0 && q.promptCount == |chat.0| && q.params == Params(sub.maxTokens, false)
    && q.status == Status.Waiting && q.reason == NoReason && q.processed == 0 && q.cached == 0 && q.scheduled == 0
    && Increasing(q.checkpoints)
    && multiset(q.checkpoints) == multiset(if chat.1 == [] && |chat.0| > 1 then [|chat.0| - 1] else chat.1)
  }

  /** It joined the back of the line, and nothing else changed. */
  ghost predicate Joined(s: Server, t: Server, sub: Submission, chat: (seq<Token>, seq<nat>)) {
    && t.pending != [] && t.pending[..|t.pending| - 1] == s.pending
    && Represents(t.pending[|t.pending| - 1], sub, chat)
    && t == s.(pending := t.pending,
               requests := s.requests[sub.id := s.Of(sub.id).(status := Ready, promptTokens := |chat.0|, prompt := chat.0,
                                                              params := Params(sub.maxTokens, false))])
  }

  lemma SequencedExactly(s: Server, sub: Submission, env: WorkEnv)
    ensures var r := s.Sequenced(sub, env);
            if !Preparable(s, sub, env.encoded) then r == Err(InvalidInput)
            else if !env.decoder then r == Err(ExecutionFailure)
            else env.encoded.Some? && r.Ok? && Represents(r.value, sub, env.encoded.value)
  {
    hide Sched.FitsCache, Make, ProperOffsets;
    if env.encoded.Some? {
      var chat := env.encoded.value;
      var params := Params(sub.maxTokens, false);
      MakeAcceptsExactly(sub.id, chat.0, params, chat.1);
      var made := Make(sub.id, chat.0, params, chat.1);
      if made.Ok? {
        Budgeting.FitsExactly(s.engine, made.value);
      }
    }
  }

  /** An uncancelled submission joins the line exactly when it can be prepared and there is a decoder; otherwise it ends at once,
      with the failure of the first test. */
  lemma PrepareDecides(s: Server, sub: Submission, env: WorkEnv)
    ensures var r, t := s.Of(sub.id), s.Prepare(sub, env);
            if r.cancelled then Ended(s, t, sub.id, r.(reason := Cancelled))
            else if !Preparable(s, sub, env.encoded) then Ended(s, t, sub.id, r.(error := Some(InvalidInput)))
            else if !env.decoder then Ended(s, t, sub.id, r.(error := Some(ExecutionFailure)))
            else Joined(s, t, sub, env.encoded.value)
  {
    hide Preparable, Represents, Server.Sequenced;
    SequencedExactly(s, sub, env);
    var q := s.Sequenced(sub, env);
    if q.Ok? {
      RepresentsThese(q.value, sub, env.encoded.value);
      var line := s.pending + [q.value];
      assert line[..|line| - 1] == s.pending && line[|line| - 1] == q.value;
    }
  }

  lemma RepresentsThese(q: SeqData, sub: Submission, chat: (seq<Token>, seq<nat>))
    requires Represents(q, sub, chat)
    ensures q.tokens == chat.0 && q.promptCount == |chat.0| && q.params == Params(sub.maxTokens, false)
  {
  }
}

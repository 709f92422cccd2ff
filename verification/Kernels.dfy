/** The model as the scheduler sees it: one row of work per token, and greedy generation from it. */
module Kernels {
  import opened Sequences

  /** The keys and values of one token, over all layers and heads. */
  type Cell(!new, ==, 0)

  /** The recurrent memory of one sequence, over all linear-attention layers. */
  type Memory(!new, ==, 0)

  datatype RowOut = RowOut(cell: Cell, memory: Memory, sample: Token)

  /** A row reads the recurrent memory, the cells of all earlier positions and its token. */
  datatype Kernel = Kernel(zero: Memory, row: (Memory, seq<Cell>, Token) -> RowOut)

  datatype After = After(memory: Memory, cells: seq<Cell>)

  /** What a dedicated, unpaged run over a history leaves behind. */
  function Replay(k: Kernel, h: seq<Token>): (r: After)
    ensures |r.cells| == |h|
  {
    if h == [] then After(k.zero, [])
    else
      var before := Replay(k, h[..|h| - 1]);
      var out := k.row(before.memory, before.cells, h[|h| - 1]);
      After(out.memory, before.cells + [out.cell])
  }

  /** The greedy token after a history. */
  function Next(k: Kernel, h: seq<Token>): Token
    requires h != []
  {
    var before := Replay(k, h[..|h| - 1]);
    k.row(before.memory, before.cells, h[|h| - 1]).sample
  }

  lemma {:induction false} ReplayPrefix(k: Kernel, h: seq<Token>, n: nat)
    requires n <= |h|
    ensures Replay(k, h[..n]).cells == Replay(k, h).cells[..n]
    decreases |h| - n
  {
    if n < |h| {
      assert h[..n + 1][..n] == h[..n];
      ReplayPrefix(k, h, n + 1);
      assert Replay(k, h[..n + 1]).cells[..n] == Replay(k, h[..n]).cells;
      assert Replay(k, h).cells[..n + 1][..n] == Replay(k, h).cells[..n];
    } else {
      assert h[..n] == h;
    }
  }

  /** The prompt followed by n greedily chosen tokens. */
  function Generated(k: Kernel, prompt: seq<Token>, n: nat): (r: seq<Token>)
    requires prompt != []
    ensures |r| == |prompt| + n
    ensures prompt <= r
  {
    if n == 0 then prompt
    else
      var before := Generated(k, prompt, n - 1);
      before + [Next(k, before)]
  }

  datatype Outcome = Outcome(tokens: seq<Token>, reason: Reason)

  /** The one-sequence greedy loop: sample, append, stop at EOS (unless ignored) or at the limit. */
  function GreedyFrom(k: Kernel, tokens: seq<Token>, promptCount: nat, params: Params, eos: Token): (r: Outcome)
    requires tokens != [] && promptCount <= |tokens| < promptCount + params.maxNewTokens
    decreases promptCount + params.maxNewTokens - |tokens|
  {
    var token := Next(k, tokens);
    var grown := tokens + [token];
    if !params.ignoreEos && token == eos then Outcome(grown, Eos)
    else if |grown| - promptCount >= params.maxNewTokens then Outcome(grown, LenLimit)
    else GreedyFrom(k, grown, promptCount, params, eos)
  }

  /** The reference answer for a request on its own. */
  function Greedy(k: Kernel, prompt: seq<Token>, params: Params, eos: Token): (r: Outcome)
    requires prompt != [] && 0 < params.maxNewTokens
  {
    GreedyFrom(k, prompt, |prompt|, params, eos)
  }

  /** A generation in progress: greedy so far, and not yet at a stop. */
  ghost predicate Unstopped(k: Kernel, prompt: seq<Token>, tokens: seq<Token>, params: Params, eos: Token)
    requires prompt != []
  {
    && |prompt| <= |tokens| < |prompt| + params.maxNewTokens
    && tokens == Generated(k, prompt, |tokens| - |prompt|)
    && (!params.ignoreEos ==> forall i :: |prompt| <= i < |tokens| ==> tokens[i] != eos)
  }

  lemma {:induction false} GreedyContinues(k: Kernel, prompt: seq<Token>, n: nat, params: Params, eos: Token)
    requires prompt != []
    requires Unstopped(k, prompt, Generated(k, prompt, n), params, eos)
    ensures Greedy(k, prompt, params, eos) == GreedyFrom(k, Generated(k, prompt, n), |prompt|, params, eos)
  {
    if n > 0 {
      var before := Generated(k, prompt, n - 1);
      UnstoppedBefore(k, prompt, n, params, eos);
      GreedyContinues(k, prompt, n - 1, params, eos);
    }
  }

  lemma UnstoppedBefore(k: Kernel, prompt: seq<Token>, n: nat, params: Params, eos: Token)
    requires prompt != [] && 0 < n
    requires Unstopped(k, prompt, Generated(k, prompt, n), params, eos)
    ensures Unstopped(k, prompt, Generated(k, prompt, n - 1), params, eos)
    ensures params.ignoreEos || Next(k, Generated(k, prompt, n - 1)) != eos
  {
    var before, now := Generated(k, prompt, n - 1), Generated(k, prompt, n);
    assert now == before + [Next(k, before)];
    assert forall i :: |prompt| <= i < |before| ==> before[i] == now[i];
    assert now[|now| - 1] == Next(k, before);
  }

  lemma GeneratedStep(k: Kernel, prompt: seq<Token>, n: nat)
    requires prompt != []
    ensures Generated(k, prompt, n + 1) == Generated(k, prompt, n) + [Next(k, Generated(k, prompt, n))]
  {
  }

  /** Whether the greedy loop stops after appending `token` to n completions. */
  function StopAfter(token: Token, n: nat, params: Params, eos: Token): Reason {
    if !params.ignoreEos && token == eos then Eos
    else if n + 1 >= params.maxNewTokens then LenLimit
    else NoReason
  }

  /** A greedy token that does not stop the generation keeps it unstopped. */
  lemma GreedyGrows(k: Kernel, prompt: seq<Token>, tokens: seq<Token>, params: Params, eos: Token)
    requires prompt != []
    requires Unstopped(k, prompt, tokens, params, eos)
    requires StopAfter(Next(k, tokens), |tokens| - |prompt|, params, eos) == NoReason
    ensures Unstopped(k, prompt, tokens + [Next(k, tokens)], params, eos)
  {
    GeneratedStep(k, prompt, |tokens| - |prompt|);
  }

  lemma GreedyFromStops(k: Kernel, tokens: seq<Token>, promptCount: nat, params: Params, eos: Token)
    requires tokens != [] && promptCount <= |tokens| < promptCount + params.maxNewTokens
    requires StopAfter(Next(k, tokens), |tokens| - promptCount, params, eos) != NoReason
    ensures GreedyFrom(k, tokens, promptCount, params, eos)
         == Outcome(tokens + [Next(k, tokens)], StopAfter(Next(k, tokens), |tokens| - promptCount, params, eos))
  {
  }

  /** A greedy token that stops the generation makes it the reference answer. */
  lemma GreedyStops(k: Kernel, prompt: seq<Token>, tokens: seq<Token>, params: Params, eos: Token)
    requires prompt != []
    requires Unstopped(k, prompt, tokens, params, eos)
    requires StopAfter(Next(k, tokens), |tokens| - |prompt|, params, eos) != NoReason
    ensures Greedy(k, prompt, params, eos)
         == Outcome(tokens + [Next(k, tokens)], StopAfter(Next(k, tokens), |tokens| - |prompt|, params, eos))
  {
    GreedyContinues(k, prompt, |tokens| - |prompt|, params, eos);
    GreedyFromStops(k, tokens, |prompt|, params, eos);
  }
}

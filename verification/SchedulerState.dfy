/**
 The data of the continuous-batching scheduler and the arithmetic it does on one
 request: how many tokens a running or a waiting request is given in a step, and
 how the counters move when the step is issued and when its output comes back.
 */
module SchedulerState {
  import opened Seqs

  datatype ReqId = ReqId(name: string)
  type Token = int

  datatype Policy = Fcfs | Priority

  datatype Pause = Unpaused | PausedNew | PausedAll

  datatype Status = Waiting | WaitingForGrammar | Running | Preempted

  datatype Config = Config(
    policy: Policy,
    maxRunning: nat,
    maxScheduledTokens: nat,
    maxModelLen: nat,
    numSpecTokens: nat,
    dynamicSpec: bool,
    longPrefillThreshold: nat,
    maxPartialPrefills: nat,
    chunkedPrefill: bool)

  /** `tokens` is the prompt followed by the output; `spec` the pending drafts.
      `numComputed` is an int: that it never goes negative is proved. */
  datatype Request = Request(
    tokens: seq<Token>,
    numPrompt: nat,
    maxTokens: nat,
    spec: seq<Token>,
    numComputed: int,
    isPrefillChunk: bool,
    status: Status,
    priority: int,
    arrival: int,
    numPreemptions: nat)

  /** One request's share of an issued step: the tokens to compute, and the
      drafts that are among them. */
  datatype Row = Row(n: int, drafts: seq<Token>)

  /** What the step depends on outside the scheduler, as functions that may answer
      anything: whether the k-th allocation of the step succeeds, the encoder and
      block-alignment trims, the locally cached prefix, the grammars that are ready
      and the requests an adapter or connector constraint holds back. */
  datatype Env = Env(
    alloc: nat -> bool,
    cap: (ReqId, bool) -> nat,
    hit: ReqId -> nat,
    ready: set<ReqId>,
    held: set<ReqId>)

  predicate Blocked(s: Status) {
    s == WaitingForGrammar
  }

  // ---------------------------------------------------------------------
  // Tokens for one request
  // ---------------------------------------------------------------------

  function Threshold(cfg: Config, n: int): int {
    if 0 < cfg.longPrefillThreshold < n then cfg.longPrefillThreshold else n
  }

  /** Tokens for a running request, before the encoder and alignment trims. */
  function RunningTokens(cfg: Config, r: Request, budget: int): int {
    Min(Min(Threshold(cfg, |r.tokens| + |r.spec| - r.numComputed), budget),
        cfg.maxModelLen - r.numComputed - 1)
  }

  /** The drafts of `r` that fit in a row of `n` tokens. */
  function RowDrafts(r: Request, n: int): seq<Token> {
    var k := n + r.numComputed - |r.tokens|;
    if k <= 0 then []
    else if |r.spec| > k then r.spec[..k]
    else r.spec
  }

  datatype Admission = Stop | Fault | Admit(row: Row, computed: int)

  /** The computed tokens an admitted request starts from: the local prefix hit,
      which never covers the last token, if nothing is computed yet. */
  function StartComputed(r: Request, hit: nat): int {
    if r.numComputed == 0 then Min(hit, |r.tokens| - 1) else r.numComputed
  }

  /** The decision about a waiting request up to the block allocation. `Fault` is
      the failed assertion that at least one token is scheduled. */
  function Admitted(cfg: Config, r: Request, budget: int, hit: nat, cap: bool -> nat,
                    decodesOnly: bool, deferPrefills: bool): Admission {
    var computed := StartComputed(r, hit);
    if deferPrefills && computed < |r.tokens| - 1 then Stop
    else
      var pad := cfg.numSpecTokens > 0 && !cfg.dynamicSpec && |r.tokens| - computed == 1 && decodesOnly;
      var wanted := if pad then 1 + cfg.numSpecTokens else |r.tokens| - computed;
      if pad && (wanted > budget || computed + wanted > cfg.maxModelLen) then Stop
      else
        var limited := Threshold(cfg, wanted);
        if !cfg.chunkedPrefill && limited > budget then Stop
        else
          var n := Min(limited, budget);
          if n <= 0 then Fault
          else if Min(n, cap(pad)) == 0 then Stop
          else Admit(Row(Min(n, cap(pad)),
                         if pad then seq(cfg.numSpecTokens, _ => -1) else []),
                     computed)
  }

  // ---------------------------------------------------------------------
  // Counters when a step is issued and when its output returns
  // ---------------------------------------------------------------------

  function Advance(r: Request, row: Row): Request {
    var computed := r.numComputed + row.n;
    r.(numComputed := computed, isPrefillChunk := computed < |r.tokens|)
  }

  /** The length limits; end-of-sequence tokens are given as a predicate. */
  predicate Stops(cfg: Config, isEos: Token -> bool, r: Request) {
    |r.tokens| >= cfg.maxModelLen
    || |r.tokens| - r.numPrompt >= r.maxTokens
    || (r.tokens != [] && isEos(r.tokens[|r.tokens| - 1]))
  }

  datatype Appended = Appended(r: Request, kept: seq<Token>, stopped: bool)

  /** Append generated tokens until one stops the request. */
  function Append(cfg: Config, isEos: Token -> bool, r: Request, generated: seq<Token>): (a: Appended)
    ensures a.r == r.(tokens := r.tokens + a.kept)
    ensures a.kept <= generated
    ensures !a.stopped ==> a.kept == generated
    ensures a.stopped ==> Stops(cfg, isEos, a.r)
    decreases generated
  {
    if generated == [] then Appended(r, [], false)
    else
      var r1 := r.(tokens := r.tokens + [generated[0]]);
      if Stops(cfg, isEos, r1) then Appended(r1, [generated[0]], true)
      else
        var rest := Append(cfg, isEos, r1, generated[1..]);
        Appended(rest.r, [generated[0]] + rest.kept, rest.stopped)
  }

  /** Take back the tokens of rejected drafts. */
  function Reject(r: Request, row: Row, generated: seq<Token>): Request {
    if row.drafts != [] && generated != [] && r.numComputed > 0 then
      r.(numComputed := r.numComputed - (|row.drafts| - Max(|generated| - 1, 0)))
    else r
  }

  function Receive(cfg: Config, isEos: Token -> bool, r: Request, row: Row, generated: seq<Token>): Appended {
    Append(cfg, isEos, Reject(r, row, generated), generated)
  }

  // ---------------------------------------------------------------------
  // The accounting invariant of one request
  // ---------------------------------------------------------------------

  /** A running request between steps: still prefilling, or exactly one token behind. */
  ghost predicate Settled(r: Request) {
    && 0 < r.numComputed < |r.tokens|
    && (r.isPrefillChunk || r.numComputed == |r.tokens| - 1)
  }

  /** While a step with `row` is out: a prefill chunk without drafts, or all known
      tokens and all drafts counted as computed. */
  ghost predicate InFlight(r: Request, row: Row) {
    if r.isPrefillChunk then 0 < r.numComputed < |r.tokens| && row.drafts == []
    else r.numComputed == |r.tokens| + |row.drafts|
  }

  /** `row` may be issued for `r`: it makes progress and, when it reaches the end
      of the known tokens, goes on for exactly its drafts. */
  ghost predicate RowFits(r: Request, row: Row) {
    && row.n > 0
    && (if r.numComputed + row.n < |r.tokens| then row.drafts == []
        else r.numComputed + row.n == |r.tokens| + |row.drafts|)
  }

  /** The runner's answer to a row: nothing for a prefill chunk, otherwise one
      token and at most one more per draft. */
  ghost predicate RunnerAnswer(r: Request, row: Row, generated: seq<Token>) {
    if r.isPrefillChunk then generated == [] else 1 <= |generated| <= |row.drafts| + 1
  }

  lemma RunningTokensBounds(cfg: Config, r: Request, budget: int)
    requires Settled(r) && |r.tokens| <= cfg.maxModelLen && budget > 0
    ensures 0 <= RunningTokens(cfg, r, budget) <= budget
    ensures RunningTokens(cfg, r, budget) == 0 <==> |r.tokens| == cfg.maxModelLen && r.numComputed == |r.tokens| - 1
  {
  }

  /** Whatever the threshold, the budget, the length limit and the trims leave of a
      running request's row, its drafts are cut to match. */
  lemma RunningRowFits(cfg: Config, r: Request, budget: int, n: int)
    requires Settled(r) && |r.tokens| <= cfg.maxModelLen
    requires 0 < n <= RunningTokens(cfg, r, budget)
    ensures RowFits(r, Row(n, RowDrafts(r, n)))
    ensures RowDrafts(r, n) <= r.spec
  {
  }

  /** An admitted row fits exactly when no padding was cut off again. */
  lemma AdmittedRowFits(cfg: Config, r: Request, budget: int, hit: nat, cap: bool -> nat,
                        decodesOnly: bool, deferPrefills: bool)
    requires |r.tokens| > 0 && r.numComputed == 0 && budget > 0
    ensures var a := Admitted(cfg, r, budget, hit, cap, decodesOnly, deferPrefills);
            && !a.Fault?
            && (a.Admit? ==>
                  && 0 <= a.computed < |r.tokens| && 0 < a.row.n <= budget
                  && (RowFits(r.(numComputed := a.computed), a.row)
                      <==> (a.row.drafts != [] ==> a.row.n == 1 + |a.row.drafts|)))
  {
  }

  /** Issuing a fitting row and receiving any legal answer brings a request that
      does not stop back to the settled state. */
  lemma StepKeepsAccounting(cfg: Config, isEos: Token -> bool, r: Request, row: Row, generated: seq<Token>)
    requires 0 <= r.numComputed && |r.tokens| > 0 && RowFits(r, row)
    requires RunnerAnswer(Advance(r, row), row, generated)
    ensures InFlight(Advance(r, row), row)
    ensures var a := Receive(cfg, isEos, Advance(r, row), row, generated);
            !a.stopped ==> Settled(a.r)
  {
  }
}

/**
 Every request finishes: each round of a step and its output takes something off a
 finite amount of work.
 */
module SchedulerLiveness {
  import opened Seqs
  import opened Arithmetic
  import opened SchedulerState
  import opened SchedulerStep
  import opened SchedulerInvariants
  import opened SchedulerAdmission
  import opened SchedulerRuns
  import opened SchedulerProgress

  /** Every live request is below the model's length. */
  ghost predicate Short(cfg: Config, st: State) {
    forall id :: id in st.reqs ==> |st.reqs[id].tokens| < cfg.maxModelLen
  }

  /** What is left to do for a request: tokens to generate, each weighing more than any
      number of tokens to compute, and tokens to compute. */
  function Work(cfg: Config, r: Request): int {
    (cfg.maxModelLen - |r.tokens|) * (cfg.maxModelLen + 1) + (|r.tokens| - r.numComputed)
  }

  ghost function TotalWork(cfg: Config, reqs: map<ReqId, Request>): int {
    if reqs == map[] then 0
    else
      var id :| id in reqs;
      Work(cfg, reqs[id]) + TotalWork(cfg, reqs - {id})
  }

  lemma {:induction false} WorkWithout(cfg: Config, reqs: map<ReqId, Request>, id: ReqId)
    requires id in reqs
    ensures TotalWork(cfg, reqs) == Work(cfg, reqs[id]) + TotalWork(cfg, reqs - {id})
    decreases |reqs|
  {
    hide Work;
    var k :| k in reqs && TotalWork(cfg, reqs) == Work(cfg, reqs[k]) + TotalWork(cfg, reqs - {k});
    if k != id {
      WorkWithout(cfg, reqs - {k}, id);
      WorkWithout(cfg, reqs - {id}, k);
      assert reqs - {k} - {id} == reqs - {id} - {k};
    }
  }

  ghost predicate NoMore(cfg: Config, m0: map<ReqId, Request>, m1: map<ReqId, Request>) {
    && m1.Keys <= m0.Keys && (forall id :: id in m0 ==> Work(cfg, m0[id]) >= 1)
    && forall id :: id in m1 ==> Work(cfg, m1[id]) <= Work(cfg, m0[id])
  }

  lemma {:induction false} WorkShrinks(cfg: Config, m0: map<ReqId, Request>, m1: map<ReqId, Request>)
    requires NoMore(cfg, m0, m1)
    ensures TotalWork(cfg, m1) <= TotalWork(cfg, m0)
    decreases |m0|
  {
    hide Work;
    if m0 != map[] {
      var id :| id in m0;
      WorkWithout(cfg, m0, id);
      if id in m1 {
        WorkWithout(cfg, m1, id);
      } else {
        assert m1 - {id} == m1;
      }
      WorkShrinks(cfg, m0 - {id}, m1 - {id});
    }
  }

  lemma LessWork(cfg: Config, m0: map<ReqId, Request>, m1: map<ReqId, Request>, x: ReqId)
    requires NoMore(cfg, m0, m1) && x in m0 && (x in m1 ==> Work(cfg, m1[x]) < Work(cfg, m0[x]))
    ensures TotalWork(cfg, m1) < TotalWork(cfg, m0)
  {
    hide Work;
    WorkWithout(cfg, m0, x);
    if x in m1 {
      WorkWithout(cfg, m1, x);
    } else {
      assert m1 - {x} == m1;
    }
    WorkShrinks(cfg, m0 - {x}, m1 - {x});
  }

  // ---------------------------------------------------------------------
  // A step
  // ---------------------------------------------------------------------

  /** No live request is lost or set back. */
  predicate Grown(st: State, st1: State) {
    && st1.reqs.Keys == st.reqs.Keys && st1.pause == st.pause
    && forall id :: id in st.reqs ==>
         st1.reqs[id].tokens == st.reqs[id].tokens && st1.reqs[id].numComputed >= st.reqs[id].numComputed
  }

  lemma RunOneGrown(cfg: Config, budget: int, st: State, s: Step, i: nat, env: Env, defer: bool)
    requires Phase1(cfg, budget, st, s, i) && i < |st.running| && env.alloc(s.calls)
    ensures Grown(st, RunOne(cfg, st, s, i, env, defer).st)
  {
    Once(st, [], st.running[i]);
    hide Mid, Partition, RowDrafts, RunningTokens;
  }

  lemma {:induction false} RunLoopGrown(cfg: Config, budget: int, st: State, s: Step, i: int, env: Env, defer: bool)
    requires Phase1(cfg, budget, st, s, i) && forall k :: env.alloc(k)
    ensures Grown(st, RunLoop(cfg, st, s, i, env, defer).0)
    decreases Max(|st.running| - i, 0)
  {
    hide Phase1, RunOne;
    if 0 <= i < |st.running| && s.budget > 0 {
      RunOneGrown(cfg, budget, st, s, i, env, defer);
      RunOneKeepsPhase1(cfg, budget, st, s, i, env, defer);
      var p := RunOne(cfg, st, s, i, env, defer);
      if p.ok {
        RunLoopGrown(cfg, budget, p.st, p.s, p.i, env, defer);
      }
    }
  }

  lemma AdmittedGrows(cfg: Config, r: Request, budget: int, hit: nat, cap: bool -> nat, decodesOnly: bool, defer: bool)
    requires r.numComputed == 0 && |r.tokens| > 0
    ensures var a := Admitted(cfg, r, budget, hit, cap, decodesOnly, defer); a.Admit? ==> a.computed >= 0
  {
  }

  lemma EnrollGrown(st: State, s: Step, fromSkipped: bool, k: nat, id: ReqId, row: Row, computed: int)
    requires k < |if fromSkipped then st.skipped else st.waiting|
    requires id in st.reqs && st.reqs[id].numComputed <= computed
    ensures Grown(st, Enroll(Pop(st, fromSkipped, k), s, id, row, computed).0)
  {
  }

  lemma ConsiderGrown(cfg: Config, w: Wait, fromSkipped: bool, k: nat, env: Env, defer: bool)
    requires k < |if fromSkipped then w.st.skipped else w.st.waiting|
    requires var id := At(w.st, fromSkipped, k);
             id in w.st.reqs && w.st.Req(id).numComputed == 0 && |w.st.Req(id).tokens| > 0
    ensures Grown(w.st, Consider(cfg, w, fromSkipped, k, env, defer).w.st)
  {
    var id := At(w.st, fromSkipped, k);
    var decodesOnly := w.s.scheduledRunning != [] && !w.s.prefillScheduled;
    var cap := pad => env.cap(id, pad);
    AdmittedGrows(cfg, w.st.Req(id), w.s.budget, env.hit(id), cap, decodesOnly, defer);
    var a := Admitted(cfg, w.st.Req(id), w.s.budget, env.hit(id), cap, decodesOnly, defer);
    hide Admitted, Pop, Enroll;
    if a.Admit? {
      EnrollGrown(w.st, w.s.(calls := w.s.calls + 1), fromSkipped, k, id, a.row, a.computed);
    }
    PopGrown(w.st, fromSkipped, k);
  }

  lemma PopGrown(st: State, fromSkipped: bool, k: nat)
    requires k < |if fromSkipped then st.skipped else st.waiting|
    ensures Grown(st, Pop(st, fromSkipped, k)) && Grown(st, st)
  {
  }

  lemma PromoteGrown(st: State, id: ReqId)
    requires id in st.reqs
    ensures var st1 := Promote(st, id);
            && Grown(st, st1) && id in st1.reqs
            && st1.Req(id).tokens == st.Req(id).tokens && st1.Req(id).numComputed == st.Req(id).numComputed
  {
  }

  lemma GrownOn(st: State, st1: State, st2: State)
    requires Grown(st, st1) && Grown(st1, st2)
    ensures Grown(st, st2)
  {
  }

  lemma WaitOneGrown(cfg: Config, budget: int, w: Wait, env: Env, defer: bool)
    requires Phase2(cfg, budget, w) && Open(cfg, w)
    ensures Grown(w.st, WaitOne(cfg, w, env, defer).w.st)
  {
    var fromSkipped := TakesSkipped(cfg, w.st);
    var q := if fromSkipped then w.st.skipped else w.st.waiting;
    var k := HeadIndex(cfg, w.st, q);
    var id := q[k];
    HeadFacts(cfg, budget, w.st, w.s, w.held, fromSkipped, k);
    hide Phase2, Mid, HeadIndex, TakesSkipped, Open, Consider, Pop, Grown, Promote;
    PromoteGrown(w.st, id);
    PopGrown(w.st, fromSkipped, k);
    var w1 := w.(st := Promote(w.st, id));
    ConsiderGrown(cfg, w1, fromSkipped, k, env, defer);
    GrownOn(w.st, w1.st, Consider(cfg, w1, fromSkipped, k, env, defer).w.st);
  }

  lemma {:induction false} WaitLoopGrown(cfg: Config, budget: int, w: Wait, env: Env, defer: bool)
    requires Phase2(cfg, budget, w) && PadSafe(cfg, env)
    ensures Grown(w.st, WaitLoop(cfg, w, env, defer).st)
    decreases |w.st.waiting| + |w.st.skipped|
  {
    hide Phase2, WaitOne;
    if Open(cfg, w) {
      WaitOneGrown(cfg, budget, w, env, defer);
      WaitOneKeepsMid(cfg, budget, w, env, defer);
      var r := WaitOne(cfg, w, env, defer);
      if r.Again? {
        WaitLoopGrown(cfg, budget, r.w, env, defer);
      }
    }
  }

  lemma PhasesGrown(cfg: Config, st: State, env: Env, throttle: bool)
    requires Inv(cfg, st, map[]) && PadSafe(cfg, env) && forall k :: env.alloc(k)
    ensures Grown(st, Phases(cfg, st, env, throttle).0)
  {
    hide Mid, Inv, RunLoop, WaitLoop;
    var budget := StartBudget(cfg, st);
    var defer := Defers(st, throttle);
    StartKeepsMid(cfg, st);
    RunLoopGrown(cfg, budget, st, StartStep(cfg, st), 0, env, defer);
    WaitingStarts(cfg, st, env, defer);
    var e := RunLoop(cfg, st, StartStep(cfg, st), 0, env, defer);
    if e.1.preempted == [] && e.0.pause == Unpaused {
      WaitLoopGrown(cfg, budget, Wait(e.0, e.1, []), env, defer);
    }
  }

  // ---------------------------------------------------------------------
  // A round: a step, its output and new drafts
  // ---------------------------------------------------------------------

  datatype Round = Round(env: Env, throttle: bool, ans: Answer, drafts: map<ReqId, seq<Token>>)

  function Play(cfg: Config, isEos: Token -> bool, st: State, round: Round): State {
    var e := Schedule(cfg, st, round.env, round.throttle);
    UpdateDrafts(Update(cfg, isEos, e.0, e.1.rows, round.ans), round.drafts)
  }

  /** Drafts are no work. */
  lemma DraftsWork(cfg: Config, st: State, drafts: map<ReqId, seq<Token>>, id: ReqId)
    requires id in st.reqs
    ensures var st1 := UpdateDrafts(st, drafts);
            && st1.reqs.Keys == st.reqs.Keys && st1.pause == st.pause
            && st1.reqs[id].tokens == st.reqs[id].tokens && Work(cfg, st1.reqs[id]) == Work(cfg, st.reqs[id])
  {
  }

  /** Nothing outside holds the scheduler up, and the runner answers every row. */
  ghost predicate RoundOk(cfg: Config, st: State, round: Round) {
    && PadSafe(cfg, round.env) && Generous(round.env, st)
    && var e := Schedule(cfg, st, round.env, round.throttle); Answers(e.0, e.1.rows, round.ans)
  }

  /** The state between rounds. */
  ghost predicate Steady(cfg: Config, st: State) {
    Inv(cfg, st, map[]) && Short(cfg, st) && MayWork(cfg, st)
  }

  lemma MoreWork(len: nat, t: nat, k: nat, computed: int)
    requires k >= 1 && t + k < len && 0 <= computed
    ensures (len - (t + k)) * (len + 1) + (t + k - computed) < (len - t) * (len + 1) + 1
  {
    MulOrder(len - (t + k), len - t - 1, len + 1);
    assert (len - t - 1) * (len + 1) == (len - t) * (len + 1) - (len + 1);
  }

  lemma WorkPositive(cfg: Config, st: State, id: ReqId)
    requires Steady(cfg, st) && id in st.reqs
    ensures Work(cfg, st.reqs[id]) >= (cfg.maxModelLen - |st.reqs[id].tokens|) * (cfg.maxModelLen + 1) + 1 >= 1
  {
    assert Placement(st, [], id);
    MulOrder(0, cfg.maxModelLen - |st.reqs[id].tokens|, cfg.maxModelLen + 1);
  }

  /** The output of a row: the request is gone, or closer to its end than before the
      step, when at least one token was left to compute. */
  lemma OutputWorks(cfg: Config, isEos: Token -> bool, st: State, rows: map<ReqId, Row>, ans: Answer, id: ReqId)
    requires Inv(cfg, st, rows) && Answers(st, rows, ans) && Short(cfg, st) && id in rows && id in st.reqs &&
          id in st.running
    requires !Received(cfg, isEos, st, rows, ans, id).stopped
    ensures var r := Received(cfg, isEos, st, rows, ans, id).r;
            && |r.tokens| < cfg.maxModelLen
            && (st.reqs[id].isPrefillChunk ==> r == st.reqs[id])
            && (!st.reqs[id].isPrefillChunk ==>
                  Work(cfg, r) < (cfg.maxModelLen - |st.reqs[id].tokens|) * (cfg.maxModelLen + 1) + 1)
  {
    ReceiveKeepsRequest(cfg, isEos, st, rows, ans, id);
    assert InFlight(st.Req(id), rows[id]);
    var r := st.reqs[id];
    var a := Received(cfg, isEos, st, rows, ans, id);
    AppendLength(cfg, isEos, Reject(r, rows[id], ans(id)), ans(id));
    hide Inv, Work, Append;
    if !r.isPrefillChunk {
      assert |ans(id)| >= 1 && a.r.tokens == r.tokens + ans(id) && a.r.numComputed >= 0;
      MoreWork(cfg.maxModelLen, |r.tokens|, |ans(id)|, a.r.numComputed);
      assert Work(cfg, a.r) == (cfg.maxModelLen - |a.r.tokens|) * (cfg.maxModelLen + 1) +
            (|a.r.tokens| - a.r.numComputed);
    }
  }

  /** The tokens and counters of one request across a step. */
  lemma StepWorks(cfg: Config, st: State, env: Env, throttle: bool, id: ReqId)
    requires Steady(cfg, st) && PadSafe(cfg, env) && (forall k :: env.alloc(k)) && id in st.reqs
    ensures var (st1, s) := Schedule(cfg, st, env, throttle);
            && st1.reqs.Keys == st.reqs.Keys && st1.pause == st.pause
            && st1.reqs[id].tokens == st.reqs[id].tokens && st1.reqs[id].numComputed >= st.reqs[id].numComputed
            && (id in s.rows ==> st1.reqs[id].numComputed > st.reqs[id].numComputed)
  {
    PhasesGrown(cfg, st, env, throttle);
    ScheduleKeepsInv(cfg, st, env, throttle);
    hide Inv, Phases;
  }

  lemma StepShort(cfg: Config, st: State, env: Env, throttle: bool)
    requires Steady(cfg, st) && PadSafe(cfg, env) && (forall k :: env.alloc(k))
    ensures Short(cfg, Schedule(cfg, st, env, throttle).0)
  {
    hide Schedule, Inv;
    var st1 := Schedule(cfg, st, env, throttle).0;
    forall id | id in st1.reqs ensures |st1.reqs[id].tokens| < cfg.maxModelLen {
      StepKeys(cfg, st, env, throttle);
      StepWorks(cfg, st, env, throttle, id);
    }
  }

  lemma StepKeys(cfg: Config, st: State, env: Env, throttle: bool)
    requires Steady(cfg, st) && PadSafe(cfg, env) && (forall k :: env.alloc(k))
    ensures Schedule(cfg, st, env, throttle).0.reqs.Keys == st.reqs.Keys &&
          Schedule(cfg, st, env, throttle).0.pause == st.pause
  {
    PhasesGrown(cfg, st, env, throttle);
    hide Inv, Phases;
  }

  /** Less computing or less generating. */
  lemma LessLeft(cfg: Config, r: Request, r1: Request)
    requires r1.tokens == r.tokens
    ensures r1.numComputed >= r.numComputed ==> Work(cfg, r1) <= Work(cfg, r)
    ensures r1.numComputed > r.numComputed ==> Work(cfg, r1) < Work(cfg, r)
  {
  }

  /** The least work of a request with tokens still to compute. */
  function Base(cfg: Config, r: Request): int {
    (cfg.maxModelLen - |r.tokens|) * (cfg.maxModelLen + 1) + 1
  }

  /** One live request across the output, compared with what it was before the step. */
  lemma UpdateWorks(cfg: Config, isEos: Token -> bool, st: State, rows: map<ReqId, Row>, ans: Answer, id: ReqId,
      r: Request)
    requires Inv(cfg, st, rows) && Answers(st, rows, ans) && Short(cfg, st)
    requires id in Update(cfg, isEos, st, rows, ans).reqs && (id in rows ==> id in st.running)
    requires r.tokens == st.reqs[id].tokens && r.numComputed <= st.reqs[id].numComputed
    requires (id in rows ==> r.numComputed < st.reqs[id].numComputed) && Work(cfg, r) >= Base(cfg, r)
    ensures var r2 := Update(cfg, isEos, st, rows, ans).reqs[id];
            && |r2.tokens| < cfg.maxModelLen && Work(cfg, r2) <= Work(cfg, r)
            && (id in rows ==> Work(cfg, r2) < Work(cfg, r))
  {
    var r2 := Update(cfg, isEos, st, rows, ans).reqs[id];
    hide Inv, Received, Answers;
    assert id in rows ==>
        !Received(cfg, isEos, st, rows, ans, id).stopped && r2 == Received(cfg, isEos, st, rows, ans, id).r;
    assert id !in rows ==> r2 == st.reqs[id];
    assert id in st.reqs && |st.reqs[id].tokens| < cfg.maxModelLen;
    LessLeft(cfg, r, st.reqs[id]);
    hide Update, Work, Short, Append;
    if id in rows {
      OutputWorks(cfg, isEos, st, rows, ans, id);
    }
  }

  /** One live request across a round: not set back, and advanced if it had a row. */
  lemma RoundWorks(cfg: Config, isEos: Token -> bool, st: State, round: Round, id: ReqId)
    requires Steady(cfg, st) && RoundOk(cfg, st, round) && id in Play(cfg, isEos, st, round).reqs
    ensures var st2 := Play(cfg, isEos, st, round);
            && id in st.reqs && |st2.reqs[id].tokens| < cfg.maxModelLen
            && Work(cfg, st2.reqs[id]) <= Work(cfg, st.reqs[id])
            && (id in Schedule(cfg, st, round.env, round.throttle).1.rows ==>
                Work(cfg, st2.reqs[id]) < Work(cfg, st.reqs[id]))
  {
    var (st1, s) := Schedule(cfg, st, round.env, round.throttle);
    assert PadSafe(cfg, round.env) && (forall k :: round.env.alloc(k)) && Answers(st1, s.rows, round.ans);
    var u := Update(cfg, isEos, st1, s.rows, round.ans);
    assert id in u.reqs && id in st1.reqs && Play(cfg, isEos, st, round) == UpdateDrafts(u, round.drafts);
    assert Inv(cfg, st, map[]);
    hide Inv, Work, Base, Schedule, Update, PadSafe, Generous, RoundOk, Answers, Play, Short, UpdateDrafts;
    DraftsWork(cfg, u, round.drafts, id);
    StepKeys(cfg, st, round.env, round.throttle);
    StepShort(cfg, st, round.env, round.throttle);
    ScheduleKeepsInv(cfg, st, round.env, round.throttle);
    StepWorks(cfg, st, round.env, round.throttle, id);
    WorkIsBase(cfg, st, id);
    UpdateWorks(cfg, isEos, st1, s.rows, round.ans, id, st.reqs[id]);
  }

  lemma WorkIsBase(cfg: Config, st: State, id: ReqId)
    requires Steady(cfg, st) && id in st.reqs
    ensures Work(cfg, st.reqs[id]) >= Base(cfg, st.reqs[id]) >= 1
  {
    WorkPositive(cfg, st, id);
    hide Inv;
  }

  lemma PlayKeys(cfg: Config, isEos: Token -> bool, st: State, round: Round)
    requires Steady(cfg, st) && RoundOk(cfg, st, round)
    ensures Play(cfg, isEos, st, round).reqs.Keys <= st.reqs.Keys && Play(cfg, isEos, st, round).pause == st.pause
  {
    assert forall k :: round.env.alloc(k);
    StepKeys(cfg, st, round.env, round.throttle);
    hide Schedule, Inv;
  }

  lemma ShortMeansBelow(cfg: Config, st: State)
    requires Steady(cfg, st)
    ensures BelowLength(cfg, st)
  {
    forall k | 0 <= k < |st.running| ensures |st.Req(st.running[k]).tokens| < cfg.maxModelLen {
      Once(st, [], st.running[k]);
    }
  }

  lemma RoundKeepsSteady(cfg: Config, isEos: Token -> bool, st: State, round: Round)
    requires Steady(cfg, st) && RoundOk(cfg, st, round)
    ensures Steady(cfg, Play(cfg, isEos, st, round))
  {
    PlayKeepsInv(cfg, isEos, st, round);
    PlayKeys(cfg, isEos, st, round);
    hide Inv, Play, RoundOk, Work;
    var st2 := Play(cfg, isEos, st, round);
    assert Short(cfg, st2) by {
      forall id | id in st2.reqs ensures |st2.reqs[id].tokens| < cfg.maxModelLen {
        RoundWorks(cfg, isEos, st, round, id);
      }
    }
  }

  lemma PlayKeepsInv(cfg: Config, isEos: Token -> bool, st: State, round: Round)
    requires Inv(cfg, st, map[]) && RoundOk(cfg, st, round)
    ensures Inv(cfg, Play(cfg, isEos, st, round), map[])
  {
    hide Inv, Schedule, Generous, PadSafe, Answers, Update, UpdateDrafts, Short;
    var (st1, s) := Schedule(cfg, st, round.env, round.throttle);
    ScheduleKeepsInv(cfg, st, round.env, round.throttle);
    UpdateKeepsInv(cfg, isEos, st1, s.rows, round.ans);
    DraftsKeepInv(cfg, Update(cfg, isEos, st1, s.rows, round.ans), map[], round.drafts);
  }

  /** A round with live requests leaves less work. */
  lemma RoundLessens(cfg: Config, isEos: Token -> bool, st: State, round: Round)
    requires Steady(cfg, st) && RoundOk(cfg, st, round) && st.reqs != map[]
    ensures TotalWork(cfg, Play(cfg, isEos, st, round).reqs) < TotalWork(cfg, st.reqs)
  {
    var st2 := Play(cfg, isEos, st, round);
    PlayKeys(cfg, isEos, st, round);
    var x := OneScheduled(cfg, st, round);
    hide Inv, Schedule, Generous, PadSafe, Work, Base, Steady, RoundOk, Play;
    forall id | id in st.reqs ensures Work(cfg, st.reqs[id]) >= 1 {
      WorkIsBase(cfg, st, id);
    }
    forall id | id in st2.reqs ensures Work(cfg, st2.reqs[id]) <= Work(cfg, st.reqs[id]) {
      RoundWorks(cfg, isEos, st, round, id);
    }
    if x in st2.reqs {
      RoundWorks(cfg, isEos, st, round, x);
    }
    LessWork(cfg, st.reqs, st2.reqs, x);
  }

  lemma OneScheduled(cfg: Config, st: State, round: Round) returns (x: ReqId)
    requires Steady(cfg, st) && RoundOk(cfg, st, round) && st.reqs != map[]
    ensures x in st.reqs && x in Schedule(cfg, st, round.env, round.throttle).1.rows
  {
    ShortMeansBelow(cfg, st);
    NoStall(cfg, st, round.env, round.throttle);
    ScheduleKeepsInv(cfg, st, round.env, round.throttle);
    StepKeys(cfg, st, round.env, round.throttle);
    var (st1, s) := Schedule(cfg, st, round.env, round.throttle);
    hide Schedule, Generous, PadSafe;
    x :| x in s.rows;
    Once(st1, [], x);
  }

  // ---------------------------------------------------------------------
  // Rounds
  // ---------------------------------------------------------------------

  function PlayAll(cfg: Config, isEos: Token -> bool, st: State, rounds: seq<Round>): State
    decreases |rounds|
  {
    if rounds == [] then st else PlayAll(cfg, isEos, Play(cfg, isEos, st, rounds[0]), rounds[1..])
  }

  ghost predicate RoundsOk(cfg: Config, isEos: Token -> bool, st: State, rounds: seq<Round>)
    decreases |rounds|
  {
    rounds != [] ==> RoundOk(cfg, st, rounds[0]) && RoundsOk(cfg, isEos, Play(cfg, isEos, st, rounds[0]), rounds[1..])
  }

  /** Every request finishes: from any state the scheduler can reach between steps with
      all requests below the model's length, as many rounds as there is work leave no
      live request, whatever the answers, drafts, cached prefixes, throttling and trims,
      as long as allocations succeed. */
  lemma {:induction false} EveryRequestFinishes(cfg: Config, isEos: Token -> bool, st: State, rounds: seq<Round>)
    requires Steady(cfg, st)
    ensures RoundsOk(cfg, isEos, st, rounds) && |rounds| >= TotalWork(cfg, st.reqs) ==>
              PlayAll(cfg, isEos, st, rounds).reqs == map[]
    decreases |rounds|
  {
    hide Steady, RoundOk, Play, Work;
    if rounds == [] {
      NoWorkLeft(cfg, st);
    } else if RoundsOk(cfg, isEos, st, rounds) && |rounds| >= TotalWork(cfg, st.reqs) {
      var st1 := Play(cfg, isEos, st, rounds[0]);
      RoundKeepsSteady(cfg, isEos, st, rounds[0]);
      PlayKeys(cfg, isEos, st, rounds[0]);
      if st.reqs != map[] {
        RoundLessens(cfg, isEos, st, rounds[0]);
      } else {
        assert st1.reqs == map[];
      }
      EveryRequestFinishes(cfg, isEos, st1, rounds[1..]);
    }
  }

  lemma NoWorkLeft(cfg: Config, st: State)
    requires Steady(cfg, st)
    ensures TotalWork(cfg, st.reqs) <= 0 ==> st.reqs == map[]
  {
    hide Work, Base, Inv, Steady;
    assert TotalWork(cfg, map[]) == 0;
    if st.reqs != map[] {
      var id :| id in st.reqs;
      forall k | k in st.reqs ensures Work(cfg, st.reqs[k]) >= 1 {
        WorkIsBase(cfg, st, k);
      }
      LessWork(cfg, st.reqs, map[], id);
    }
  }

  /** Such rounds exist in every state, for a configuration that keeps its padding. */
  lemma SomeRound(cfg: Config, st: State, throttle: bool) returns (round: Round)
    requires ThresholdSafe(cfg)
    ensures RoundOk(cfg, st, round) && round.throttle == throttle
  {
    var env := Env(_ => true, (_, _) => 1 + cfg.numSpecTokens, _ => 0, st.reqs.Keys, {});
    var st1 := Schedule(cfg, st, env, throttle).0;
    var ans := (id: ReqId) => if st1.Req(id).isPrefillChunk then [] else [0];
    round := Round(env, throttle, ans, map[]);
    hide Schedule;
  }
}

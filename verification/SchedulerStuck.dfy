/**
 A running request with as many tokens as the model takes never finishes, so the
 scheduler empties exactly when there is none.
 */
module SchedulerStuck {
  import opened Seqs
  import opened SchedulerState
  import opened SchedulerStep
  import opened SchedulerInvariants
  import opened SchedulerAdmission
  import opened SchedulerRuns
  import opened SchedulerProgress
  import opened SchedulerLiveness
  import opened SchedulerLimits

  /** The request runs and has the length of the model. */
  predicate AtLength(cfg: Config, st: State, id: ReqId) {
    id in st.running && id in st.reqs && |st.reqs[id].tokens| == cfg.maxModelLen
  }

  /** If the request has a row, it ends before the last position of the model. */
  predicate Falls(cfg: Config, st: State, s: Step, id: ReqId) {
    id in s.rows ==> st.Req(id).numComputed + s.rows[id].n < cfg.maxModelLen
  }

  // ---------------------------------------------------------------------
  // A step
  // ---------------------------------------------------------------------

  lemma RunOneFalls(cfg: Config, st: State, s: Step, i: nat, env: Env, defer: bool, id: ReqId)
    requires i < |st.running| && env.alloc(s.calls) && AtLength(cfg, st, id) && Falls(cfg, st, s, id)
    ensures var p := RunOne(cfg, st, s, i, env, defer); p.ok && AtLength(cfg, p.st, id) && Falls(cfg, p.st, p.s, id)
  {
    hide RowDrafts;
  }

  lemma {:induction false} RunLoopFalls(cfg: Config, st: State, s: Step, i: int, env: Env, defer: bool, id: ReqId)
    requires (forall k :: env.alloc(k)) && AtLength(cfg, st, id) && Falls(cfg, st, s, id)
    ensures var e := RunLoop(cfg, st, s, i, env, defer); AtLength(cfg, e.0, id) && Falls(cfg, e.0, e.1, id)
    decreases Max(|st.running| - i, 0)
  {
    hide RunOne, AtLength, Falls;
    if 0 <= i < |st.running| && s.budget > 0 {
      RunOneFalls(cfg, st, s, i, env, defer, id);
      var p := RunOne(cfg, st, s, i, env, defer);
      RunLoopFalls(cfg, p.st, p.s, p.i, env, defer, id);
    }
  }

  /** Considering a waiting request does not touch a running one. */
  lemma ConsiderFalls(cfg: Config, w: Wait, fromSkipped: bool, k: nat, env: Env, defer: bool, id: ReqId)
    requires k < |if fromSkipped then w.st.skipped else w.st.waiting| && At(w.st, fromSkipped, k) != id
    requires AtLength(cfg, w.st, id) && Falls(cfg, w.st, w.s, id)
    ensures var r := Consider(cfg, w, fromSkipped, k, env, defer);
          AtLength(cfg, r.w.st, id) && Falls(cfg, r.w.st, r.w.s, id)
  {
    hide Admitted;
  }

  lemma WaitOneFalls(cfg: Config, budget: int, w: Wait, env: Env, defer: bool, id: ReqId)
    requires Phase2(cfg, budget, w) && Open(cfg, w) && AtLength(cfg, w.st, id) && Falls(cfg, w.st, w.s, id)
    ensures var r := WaitOne(cfg, w, env, defer); AtLength(cfg, r.w.st, id) && Falls(cfg, r.w.st, r.w.s, id)
  {
    var fromSkipped := TakesSkipped(cfg, w.st);
    var q := if fromSkipped then w.st.skipped else w.st.waiting;
    var k := HeadIndex(cfg, w.st, q);
    HeadFacts(cfg, budget, w.st, w.s, w.held, fromSkipped, k);
    hide Phase2, Mid, HeadIndex, TakesSkipped, Open, Consider;
    var w1 := w.(st := Promote(w.st, q[k]));
    assert At(w1.st, fromSkipped, k) == q[k] != id;
    assert AtLength(cfg, w1.st, id) && Falls(cfg, w1.st, w1.s, id);
    ConsiderFalls(cfg, w1, fromSkipped, k, env, defer, id);
  }

  lemma {:induction false} WaitLoopFalls(cfg: Config, budget: int, w: Wait, env: Env, defer: bool, id: ReqId)
    requires Phase2(cfg, budget, w) && PadSafe(cfg, env) && AtLength(cfg, w.st, id) && Falls(cfg, w.st, w.s, id)
    ensures var w1 := WaitLoop(cfg, w, env, defer); AtLength(cfg, w1.st, id) && Falls(cfg, w1.st, w1.s, id)
    decreases |w.st.waiting| + |w.st.skipped|
  {
    hide Phase2, WaitOne, AtLength, Falls, PadSafe;
    if Open(cfg, w) {
      WaitOneFalls(cfg, budget, w, env, defer, id);
      WaitOneKeepsMid(cfg, budget, w, env, defer);
      var r := WaitOne(cfg, w, env, defer);
      if r.Again? {
        WaitLoopFalls(cfg, budget, r.w, env, defer, id);
      }
    }
  }

  lemma PhasesFall(cfg: Config, st: State, env: Env, throttle: bool, id: ReqId)
    requires Inv(cfg, st, map[]) && PadSafe(cfg, env) && (forall k :: env.alloc(k)) && AtLength(cfg, st, id)
    ensures var e := Phases(cfg, st, env, throttle); AtLength(cfg, e.0, id) && Falls(cfg, e.0, e.1, id)
  {
    var defer := Defers(st, throttle);
    var s := StartStep(cfg, st);
    assert Falls(cfg, st, s, id);
    hide Inv, RunLoop, WaitLoop, Phase2, Mid, PadSafe, Defers;
    RunLoopFalls(cfg, st, s, 0, env, defer, id);
    WaitingStarts(cfg, st, env, defer);
    var e := RunLoop(cfg, st, s, 0, env, defer);
    if e.1.preempted == [] && e.0.pause == Unpaused {
      WaitLoopFalls(cfg, StartBudget(cfg, st), Wait(e.0, e.1, []), env, defer, id);
    }
  }

  /** After a step the request still prefills, if it had a row. */
  lemma StepFalls(cfg: Config, st: State, env: Env, throttle: bool, id: ReqId)
    requires Inv(cfg, st, map[]) && PadSafe(cfg, env) && (forall k :: env.alloc(k)) && AtLength(cfg, st, id)
    ensures var (st1, s) := Schedule(cfg, st, env, throttle);
            AtLength(cfg, st1, id) && (id in s.rows ==> st1.reqs[id].isPrefillChunk)
  {
    PhasesFall(cfg, st, env, throttle, id);
    hide Phases, Inv, PadSafe;
  }

  // ---------------------------------------------------------------------
  // Rounds
  // ---------------------------------------------------------------------

  /** The output of a prefill chunk is empty, so the request stays. */
  lemma UpdateFalls(cfg: Config, isEos: Token -> bool, st: State, rows: map<ReqId, Row>, ans: Answer, id: ReqId)
    requires AtLength(cfg, st, id) && Answers(st, rows, ans) && (id in rows ==> st.reqs[id].isPrefillChunk)
    ensures AtLength(cfg, Update(cfg, isEos, st, rows, ans), id)
  {
    if id in rows {
      assert RunnerAnswer(st.Req(id), rows[id], ans(id));
      assert Received(cfg, isEos, st, rows, ans, id) == Appended(st.reqs[id], [], false);
    }
    hide Received;
  }

  lemma RoundFalls(cfg: Config, isEos: Token -> bool, st: State, round: Round, id: ReqId)
    requires Inv(cfg, st, map[]) && RoundOk(cfg, st, round) && AtLength(cfg, st, id)
    ensures AtLength(cfg, Play(cfg, isEos, st, round), id)
  {
    var (st1, s) := Schedule(cfg, st, round.env, round.throttle);
    assert PadSafe(cfg, round.env) && (forall k :: round.env.alloc(k)) && Answers(st1, s.rows, round.ans);
    hide Inv, Schedule, PadSafe, Generous, Answers, Update;
    StepFalls(cfg, st, round.env, round.throttle, id);
    UpdateFalls(cfg, isEos, st1, s.rows, round.ans, id);
  }

  /** A running request with the length of the model is live after any number of rounds,
      whatever happens in them. */
  lemma {:induction false} NeverFinishes(cfg: Config, isEos: Token -> bool, st: State, rounds: seq<Round>, id: ReqId)
    requires Inv(cfg, st, map[]) && AtLength(cfg, st, id)
    ensures RoundsOk(cfg, isEos, st, rounds) ==> AtLength(cfg, PlayAll(cfg, isEos, st, rounds), id)
    decreases |rounds|
  {
    hide Inv, RoundOk, Play, AtLength;
    if rounds != [] && RoundsOk(cfg, isEos, st, rounds) {
      RoundFalls(cfg, isEos, st, rounds[0], id);
      PlayKeepsInv(cfg, isEos, st, rounds[0]);
      NeverFinishes(cfg, isEos, Play(cfg, isEos, st, rounds[0]), rounds[1..], id);
    }
  }

  /** Every request finishes exactly when none has the length of the model: as many rounds
      as there is work empty the scheduler, or no number of rounds does. (A request of that
      length that still waits may be admitted whole, or in chunks.) */
  lemma EmptiesIff(cfg: Config, isEos: Token -> bool, st: State, rounds: seq<Round>)
    requires Inv(cfg, st, map[]) && MayWork(cfg, st)
    requires forall id :: id in st.reqs && id !in st.running ==> |st.reqs[id].tokens| < cfg.maxModelLen
    ensures RoundsOk(cfg, isEos, st, rounds) && |rounds| >= TotalWork(cfg, st.reqs) ==>
              (PlayAll(cfg, isEos, st, rounds).reqs == map[] <==> Short(cfg, st))
  {
    if Short(cfg, st) {
      EveryRequestFinishes(cfg, isEos, st, rounds);
    } else {
      var id :| id in st.reqs && |st.reqs[id].tokens| >= cfg.maxModelLen;
      assert AtLength(cfg, st, id);
      NeverFinishes(cfg, isEos, st, rounds, id);
    }
    hide Inv, RoundsOk, PlayAll, TotalWork;
  }

  // ---------------------------------------------------------------------
  // A run that gets there
  // ---------------------------------------------------------------------

  /** A model of length three, and two tokens a step. */
  const SMALL := Config(Fcfs, 8, 2, 3, 0, false, 0, 0, true)

  const FULL := Request([1, 2, 3], 3, 5, [], 0, false, Waiting, 0, 0, 0)

  /** Its prompt prefilled but for the last token. */
  const STUCK := State(map[A := FULL.(status := Running, numComputed := 2, isPrefillChunk := true)], [A], [], [],
      {A}, Unpaused, false)

  lemma EmptyOutput(isEos: Token -> bool, m: Machine)
    requires m == OneIssued(SMALL, A, FULL)
    ensures Permitted(SMALL, m, Output(_ => [])) && Do(SMALL, isEos, m, Output(_ => [])) == Machine(STUCK, false, map[])
  {
    var ans: Answer := _ => [];
    assert Received(SMALL, isEos, m.st, m.rows, ans, A) == Appended(STUCK.reqs[A], [], false);
    hide Received;
    assert Stopped(SMALL, isEos, m.st, m.rows, ans) == {};
    assert Update(SMALL, isEos, m.st, m.rows, ans).reqs == STUCK.reqs;
    WithoutNone(m.st.running, {});
  }

  const STUCK_CALLS: seq<Call> := [Add(A, FULL)] + [Issue(PlainEnv(SMALL), false)] + [Output(_ => [])]

  /** A prompt of the length of the model, prefilled in two chunks: a legal run reaches a
      state from which it never finishes. */
  lemma StuckRun(isEos: Token -> bool, rounds: seq<Round>)
    ensures LegalRun(SMALL, isEos, START, STUCK_CALLS) &&
          Run(SMALL, isEos, START, STUCK_CALLS) == Machine(STUCK, false, map[])
    ensures RoundsOk(SMALL, isEos, STUCK, rounds) ==> A in PlayAll(SMALL, isEos, STUCK, rounds).reqs
  {
    var m1, m2, issue := Machine(OneWaits(A, FULL), false, map[]), OneIssued(SMALL, A, FULL),
        Issue(PlainEnv(SMALL), false);
    assert New(SMALL, FULL) && Alone(SMALL, m1.st, A) && AtLength(SMALL, STUCK, A);
    AddStep(SMALL, isEos, A, FULL);
    IssueStep(SMALL, isEos, A, FULL, m1);
    EmptyOutput(isEos, m2);
    assert Sound(SMALL, START);
    hide Permitted, PermittedRun, Run, Do, LegalRun, OneIssued, OneWaits, PlainEnv, Alone, New, Inv, RoundsOk, PlayAll;
    ReachesMore(SMALL, isEos, [Add(A, FULL)], m1, issue);
    ReachesMore(SMALL, isEos, [Add(A, FULL)] + [issue], m2, Output(_ => []));
    PermittedIsLegal(SMALL, isEos, START, STUCK_CALLS);
    RunKeepsSound(SMALL, isEos, START, STUCK_CALLS);
    NeverFinishes(SMALL, isEos, STUCK, rounds, A);
  }
}

/**
 Runs from the empty scheduler that show where its conditions are needed, and the exact
 condition on the configuration under which every run is sound.
 */
module SchedulerLimits {
  import opened Seqs
  import opened SchedulerState
  import opened SchedulerStep
  import opened SchedulerInvariants
  import opened SchedulerAdmission
  import opened SchedulerDrafts
  import opened SchedulerRuns

  // ---------------------------------------------------------------------
  // Steps on one or two requests
  // ---------------------------------------------------------------------

  /** Every allocation succeeds, nothing is cached, held back or trimmed. */
  function PlainEnv(cfg: Config): Env {
    Env(_ => true, (_, _) => cfg.maxScheduledTokens + cfg.numSpecTokens + 1, _ => 0, {}, {})
  }

  /** The tokens that a waiting request is given when nobody runs. */
  function FirstChunk(cfg: Config, r: Request): int {
    Min(Threshold(cfg, |r.tokens|), cfg.maxScheduledTokens)
  }

  predicate Alone(cfg: Config, st: State, id: ReqId) {
    && st.running == [] && st.waiting == [id] && st.skipped == [] && st.inflight == {} && id in st.reqs
    && st.pause == Unpaused && cfg.maxRunning >= 1 && cfg.maxScheduledTokens >= 1
    && (cfg.chunkedPrefill || Threshold(cfg, |st.reqs[id].tokens|) <= cfg.maxScheduledTokens)
    && (st.reqs[id].status == Waiting || st.reqs[id].status == Preempted)
    && st.reqs[id].numComputed == 0 && |st.reqs[id].tokens| >= 1
  }

  /** The request after that step. */
  function Admitting(cfg: Config, r: Request): Request {
    var n := FirstChunk(cfg, r);
    r.(status := Running, numComputed := n, isPrefillChunk := n < |r.tokens|)
  }

  lemma AdmitAlone(cfg: Config, st: State, id: ReqId)
    requires Alone(cfg, st, id)
    ensures var (st1, s) := Schedule(cfg, st, PlainEnv(cfg), false);
            var r := st.reqs[id];
            && s.rows == map[id := Row(FirstChunk(cfg, r), [])]
            && st1 == st.(reqs := st.reqs[id := Admitting(cfg, r)], running := [id], waiting := [],
                          inflight := if FirstChunk(cfg, r) < |r.tokens| then {id} else {}, prefillBound := false)
  {
    PhasesAlone(cfg, st, id);
    var e := Phases(cfg, st, PlainEnv(cfg), false);
    AfterOne(e.0, id, Row(FirstChunk(cfg, st.reqs[id]), []));
    hide Phases, AfterSchedule, PlainEnv;
  }

  lemma PhasesAlone(cfg: Config, st: State, id: ReqId)
    requires Alone(cfg, st, id)
    ensures var (st1, s) := Phases(cfg, st, PlainEnv(cfg), false);
            var r, n := st.reqs[id], FirstChunk(cfg, st.reqs[id]);
            && s.rows == map[id := Row(n, [])]
            && st1 == st.(reqs := st.reqs[id := r.(status := Running, numComputed := 0)], running := [id],
                waiting := [],
                          inflight := if n < |r.tokens| then {id} else {}, prefillBound := false)
  {
    var env := PlainEnv(cfg);
    var s := StartStep(cfg, st);
    assert RunLoop(cfg, st, s, 0, env, false) == (st, s);
    assert !Defers(st, false);
    var w := Wait(st, s, []);
    AdmitFirst(cfg, st, id);
    var w1 := WaitOne(cfg, w, env, false).w;
    assert WaitLoop(cfg, w, env, false) == WaitLoop(cfg, w1, env, false) == w1;
    hide RunLoop, WaitLoop, WaitOne, Defers, PlainEnv;
    assert Requeue(w1) == w1.st;
  }

  lemma AdmitFirst(cfg: Config, st: State, id: ReqId)
    requires Alone(cfg, st, id)
    ensures var s, r, n := StartStep(cfg, st), st.reqs[id], FirstChunk(cfg, st.reqs[id]);
            var w := Wait(st, s, []);
            && Open(cfg, w) && WaitOne(cfg, w, PlainEnv(cfg), false).Again?
            && var w1 := WaitOne(cfg, w, PlainEnv(cfg), false).w;
               && w1.held == [] && w1.s.rows == map[id := Row(n, [])]
               && w1.st == st.(reqs := st.reqs[id := r.(status := Running, numComputed := 0)], running := [id],
                   waiting := [],
                               inflight := if n < |r.tokens| then {id} else {})
  {
    var env, w := PlainEnv(cfg), Wait(st, StartStep(cfg, st), []);
    assert HeadIndex(cfg, st, st.waiting) == 0 && !TakesSkipped(cfg, st);
    assert Promote(st, id) == st;
    assert Pop(st, false, 0) == st.(waiting := []);
    hide HeadIndex, TakesSkipped, Promote, Pop;
    assert WaitOne(cfg, w, env, false) == Consider(cfg, w, false, 0, env, false);
  }

  lemma AfterOne(st: State, id: ReqId, row: Row)
    requires id in st.reqs && st.inflight <= {id}
    ensures AfterSchedule(st, map[id := row])
            == st.(reqs := st.reqs[id := Advance(st.reqs[id], row)],
                   inflight := if Advance(st.reqs[id], row).isPrefillChunk then st.inflight else {})
  {
    var st1 := AfterSchedule(st, map[id := row]);
    assert st1.reqs == st.reqs[id := Advance(st.reqs[id], row)];
  }

  // ---------------------------------------------------------------------
  // Runs
  // ---------------------------------------------------------------------

  /** Legal but for the threshold: the trims alone leave padded rows whole. */
  ghost predicate Permitted(cfg: Config, m: Machine, c: Call) {
    match c
    case Issue(env, _) => !m.busy && TrimSafe(cfg, env)
    case _ => Legal(cfg, m, c)
  }

  ghost predicate PermittedRun(cfg: Config, isEos: Token -> bool, m: Machine, calls: seq<Call>)
    decreases |calls|
  {
    calls != [] ==> Permitted(cfg, m, calls[0]) && PermittedRun(cfg, isEos, Do(cfg, isEos, m, calls[0]), calls[1..])
  }

  lemma {:induction false} PermittedIsLegal(cfg: Config, isEos: Token -> bool, m: Machine, calls: seq<Call>)
    requires ThresholdSafe(cfg)
    ensures PermittedRun(cfg, isEos, m, calls) <==> LegalRun(cfg, isEos, m, calls)
    decreases |calls|
  {
    hide Do;
    if calls != [] {
      PermittedIsLegal(cfg, isEos, Do(cfg, isEos, m, calls[0]), calls[1..]);
    }
  }

  /** A run of one more call. */
  lemma {:induction false} RunMore(cfg: Config, isEos: Token -> bool, m: Machine, calls: seq<Call>, c: Call)
    ensures Run(cfg, isEos, m, calls + [c]) == Do(cfg, isEos, Run(cfg, isEos, m, calls), c)
    ensures PermittedRun(cfg, isEos, m, calls + [c])
            <==> PermittedRun(cfg, isEos, m, calls) && Permitted(cfg, Run(cfg, isEos, m, calls), c)
    decreases |calls|
  {
    hide Do, Permitted;
    if calls == [] {
      assert [] + [c] == [c] && [c][1..] == [];
      assert Run(cfg, isEos, Do(cfg, isEos, m, c), []) == Do(cfg, isEos, m, c);
      assert PermittedRun(cfg, isEos, Do(cfg, isEos, m, c), []);
    } else {
      assert (calls + [c])[0] == calls[0] && (calls + [c])[1..] == calls[1..] + [c];
      RunMore(cfg, isEos, Do(cfg, isEos, m, calls[0]), calls[1..], c);
    }
  }

  /** The calls are permitted, and lead from the empty scheduler to `m`. */
  ghost predicate Reaches(cfg: Config, isEos: Token -> bool, calls: seq<Call>, m: Machine) {
    PermittedRun(cfg, isEos, START, calls) && Run(cfg, isEos, START, calls) == m
  }

  lemma ReachesMore(cfg: Config, isEos: Token -> bool, calls: seq<Call>, m: Machine, c: Call)
    requires Reaches(cfg, isEos, calls, m) && Permitted(cfg, m, c)
    ensures Reaches(cfg, isEos, calls + [c], Do(cfg, isEos, m, c))
  {
    RunMore(cfg, isEos, START, calls, c);
    hide Run, PermittedRun, Do, Permitted;
  }

  /** One request, waiting. */
  function OneWaits(id: ReqId, r: Request): State {
    State(map[id := r], [], [id], [], {}, Unpaused, false)
  }

  /** One request, running since a step that is out. */
  function OneIssued(cfg: Config, id: ReqId, r: Request): Machine {
    Machine(State(map[id := Admitting(cfg, r)], [id], [], [], if FirstChunk(cfg, r) < |r.tokens| then {id} else {},
        Unpaused, false),
            true, map[id := Row(FirstChunk(cfg, r), [])])
  }

  lemma AddStep(cfg: Config, isEos: Token -> bool, id: ReqId, r: Request)
    requires New(cfg, r) && r.status == Waiting
    ensures Reaches(cfg, isEos, [Add(id, r)], Machine(OneWaits(id, r), false, map[]))
  {
    var m := Machine(OneWaits(id, r), false, map[]);
    assert Do(cfg, isEos, START, Add(id, r)) == m && Permitted(cfg, START, Add(id, r));
    assert [] + [Add(id, r)] == [Add(id, r)];
    assert Reaches(cfg, isEos, [], START);
    hide *;
    ReachesMore(cfg, isEos, [], START, Add(id, r));
  }

  lemma IssueStep(cfg: Config, isEos: Token -> bool, id: ReqId, r: Request, m: Machine)
    requires m == Machine(OneWaits(id, r), false, map[]) && Alone(cfg, m.st, id)
    ensures Permitted(cfg, m, Issue(PlainEnv(cfg), false))
    ensures Do(cfg, isEos, m, Issue(PlainEnv(cfg), false)) == OneIssued(cfg, id, r)
  {
    AdmitAlone(cfg, m.st, id);
    hide Schedule, FirstChunk, Admitting, Alone;
    assert map[id := r][id := Admitting(cfg, r)] == map[id := Admitting(cfg, r)];
  }

  // ---------------------------------------------------------------------
  // Drafts for a preempted request
  // ---------------------------------------------------------------------

  const A := ReqId("a")
  const B := ReqId("b")

  /** Room for two tokens a step; one draft. */
  const TWO := Config(Fcfs, 8, 2, 10, 1, false, 0, 0, true)

  const TWO_TOKENS := Request([1, 2], 2, 5, [], 0, false, Waiting, 0, 0, 0)

  /** Preempted by a reset while the step was out, then with its output, then drafts. */
  const PREEMPTED := Request([1, 2], 2, 5, [], 0, false, Preempted, 0, 0, 1)
  const ANSWERED := Request([1, 2, 7], 2, 5, [], 0, false, Preempted, 0, 0, 1)
  const DRAFTED := Request([1, 2, 7], 2, 5, [9], 0, false, Preempted, 0, 0, 1)

  lemma ResetStep(isEos: Token -> bool, m: Machine)
    requires m == OneIssued(TWO, A, TWO_TOKENS)
    ensures Do(TWO, isEos, m, ResetRunning) == Machine(OneWaits(A, PREEMPTED), true, map[A := Row(2, [])])
  {
    assert m.st.running[..0] == [];
    assert PreemptAll(m.st) == Preempt(m.st.(running := []), A);
  }

  lemma OutputStep(isEos: Token -> bool, m: Machine)
    requires m == Machine(OneWaits(A, PREEMPTED), true, map[A := Row(2, [])]) && !isEos(7)
    ensures Permitted(TWO, m, Output(_ => [7]))
    ensures Do(TWO, isEos, m, Output(_ => [7])) == Machine(OneWaits(A, ANSWERED), false, map[])
  {
    var ans: Answer := _ => [7];
    assert [7][1..] == [];
    assert Received(TWO, isEos, m.st, m.rows, ans, A) == Appended(ANSWERED, [7], false);
    hide Received;
    assert Stopped(TWO, isEos, m.st, m.rows, ans) == {};
    assert Update(TWO, isEos, m.st, m.rows, ans).reqs == map[A := ANSWERED];
  }

  lemma DraftStep(isEos: Token -> bool, m: Machine)
    requires m == Machine(OneWaits(A, ANSWERED), false, map[])
    ensures Do(TWO, isEos, m, Drafts(map[A := [9]])) == Machine(OneWaits(A, DRAFTED), false, map[])
  {
  }

  const STALE_DRAFTS: seq<Call> :=
    [Add(A, TWO_TOKENS)] + [Issue(PlainEnv(TWO), false)] + [ResetRunning] + [Output(_ => [7])] + [Drafts(map[A := [9]])]

  /** The run in which a waiting request gets drafts. */
  lemma DraftsArrive(isEos: Token -> bool, m5: Machine)
    requires !isEos(7) && m5 == Machine(OneWaits(A, DRAFTED), false, map[])
    ensures Reaches(TWO, isEos, STALE_DRAFTS, m5)
  {
    var m1, m2 := Machine(OneWaits(A, TWO_TOKENS), false, map[]), OneIssued(TWO, A, TWO_TOKENS);
    var m3 := Machine(OneWaits(A, PREEMPTED), true, map[A := Row(2, [])]);
    var m4 := Machine(OneWaits(A, ANSWERED), false, map[]);
    var issue, output, drafts := Issue(PlainEnv(TWO), false), Output(_ => [7]), Drafts(map[A := [9]]);
    assert New(TWO, TWO_TOKENS) && Alone(TWO, m1.st, A);
    assert Permitted(TWO, m2, ResetRunning) && Permitted(TWO, m4, drafts);
    ResetStep(isEos, m2);
    hide Reaches, Permitted, Do, OneIssued, PlainEnv, Alone, New, OneWaits;
    AddStep(TWO, isEos, A, TWO_TOKENS);
    IssueStep(TWO, isEos, A, TWO_TOKENS, m1);
    OutputStep(isEos, m3);
    DraftStep(isEos, m4);
    var c1 := [Add(A, TWO_TOKENS)];
    ReachesMore(TWO, isEos, c1, m1, issue);
    ReachesMore(TWO, isEos, c1 + [issue], m2, ResetRunning);
    ReachesMore(TWO, isEos, c1 + [issue] + [ResetRunning], m3, output);
    ReachesMore(TWO, isEos, c1 + [issue] + [ResetRunning] + [output], m4, drafts);
  }

  /** A legal run in which a waiting request gets drafts: it was preempted by a reset
      after its prompt was computed, and its prefill flag still says so. Admitted again
      with less than all its tokens, it prefills and carries drafts. */
  lemma StaleDraftsRun(isEos: Token -> bool, calls: seq<Call>)
    requires !isEos(7) && calls == STALE_DRAFTS
    ensures LegalRun(TWO, isEos, START, calls) && !NoStaleDrafts(Run(TWO, isEos, START, calls).st)
    ensures var more := calls + [Issue(PlainEnv(TWO), false)];
            var st := Run(TWO, isEos, START, more).st;
            && LegalRun(TWO, isEos, START, more)
            && A in st.running && st.Req(A).isPrefillChunk && st.Req(A).spec == [9]
  {
    var m5, issue := Machine(OneWaits(A, DRAFTED), false, map[]), Issue(PlainEnv(TWO), false);
    assert Alone(TWO, m5.st, A) && m5.st.reqs[A].spec == [9] && A !in m5.st.running;
    assert OneIssued(TWO, A, DRAFTED).st.Req(A) == Admitting(TWO, DRAFTED);
    assert A in OneIssued(TWO, A, DRAFTED).st.running;
    DraftsArrive(isEos, m5);
    IssueStep(TWO, isEos, A, DRAFTED, m5);
    PermittedIsLegal(TWO, isEos, START, calls);
    PermittedIsLegal(TWO, isEos, START, calls + [issue]);
    hide Permitted, PermittedRun, LegalRun, Run, Do, OneIssued, PlainEnv, Alone, OneWaits, STALE_DRAFTS;
    ReachesMore(TWO, isEos, calls, m5, issue);
  }

  // ---------------------------------------------------------------------
  // Padding cut off by the threshold
  // ---------------------------------------------------------------------

  const ONE := Request([0], 1, 10, [], 0, false, Waiting, 0, 0, 0)
  const DECODING := Request([0, 7], 1, 10, [], 1, false, Running, 0, 0, 0)

  /** One request that decodes, and one that waits with one token. */
  const TWO_LIVE := State(map[A := DECODING, B := ONE], [A], [B], [], {}, Unpaused, false)

  lemma DecodeStep(cfg: Config, isEos: Token -> bool, m: Machine)
    requires !ThresholdSafe(cfg) && m == OneIssued(cfg, A, ONE) && !isEos(7)
    ensures Permitted(cfg, m, Output(_ => [7]))
    ensures Do(cfg, isEos, m, Output(_ => [7])) ==
          Machine(State(map[A := DECODING], [A], [], [], {}, Unpaused, false), false, map[])
  {
    var ans: Answer := _ => [7];
    assert [7][1..] == [];
    assert FirstChunk(cfg, ONE) == 1;
    assert Received(cfg, isEos, m.st, m.rows, ans, A) == Appended(DECODING, [7], false);
    hide Received;
    assert Stopped(cfg, isEos, m.st, m.rows, ans) == {};
    assert Update(cfg, isEos, m.st, m.rows, ans).reqs == map[A := DECODING];
    WithoutNone(m.st.running, {});
  }

  lemma SecondStep(cfg: Config, isEos: Token -> bool, m: Machine)
    requires m == Machine(State(map[A := DECODING], [A], [], [], {}, Unpaused, false), false, map[]) &&
          cfg.maxModelLen >= 1
    ensures Permitted(cfg, m, Add(B, ONE)) && Do(cfg, isEos, m, Add(B, ONE)) == Machine(TWO_LIVE, false, map[])
  {
    assert A.name[0] != B.name[0];
    assert map[A := DECODING][B := ONE] == map[A := DECODING, B := ONE];
  }

  /** The rows of a step on them: one token to decode, and a padded row cut by the
      threshold. */
  function CutRows(cfg: Config): map<ReqId, Row> {
    map[A := Row(1, []), B := Row(cfg.longPrefillThreshold, seq(cfg.numSpecTokens, _ => -1))]
  }

  /** The running phase gives the decode its token. */
  lemma DecodeRuns(cfg: Config)
    requires !ThresholdSafe(cfg)
    ensures var st, s := TWO_LIVE, StartStep(cfg, TWO_LIVE);
            var e := RunLoop(cfg, st, s, 0, PlainEnv(cfg), false);
            && e.0 == st && e.1.rows == map[A := Row(1, [])] && e.1.budget == cfg.maxScheduledTokens - 1
            && e.1.scheduledRunning == [A] && !e.1.prefillScheduled && e.1.preempted == []
  {
    var st, s, env := TWO_LIVE, StartStep(cfg, TWO_LIVE), PlainEnv(cfg);
    assert RunningTokens(cfg, DECODING, s.budget) == 1;
    var p := RunOne(cfg, st, s, 0, env, false);
    assert st.reqs[A := DECODING] == st.reqs;
    assert p.ok && p.i == 1 && p.st == st;
    assert RunLoop(cfg, st, s, 0, env, false) == RunLoop(cfg, p.st, p.s, 1, env, false) == (p.st, p.s);
    hide RunLoop, RunOne;
  }

  lemma PadCut(cfg: Config, budget: int, env: Env)
    requires !ThresholdSafe(cfg) && budget == cfg.maxScheduledTokens - 1 && env == PlainEnv(cfg)
    ensures Admitted(cfg, ONE, budget, env.hit(B), pad => env.cap(B, pad), true, false)
            == Admit(CutRows(cfg)[B], 0)
  {
  }

  /** And the waiting phase cuts the padding of the other. */
  lemma OtherIsCut(cfg: Config, s: Step)
    requires !ThresholdSafe(cfg)
    requires s.rows == map[A := Row(1, [])] && s.budget == cfg.maxScheduledTokens - 1 && s.scheduledRunning == [A]
    requires !s.prefillScheduled
    ensures var w := WaitLoop(cfg, Wait(TWO_LIVE, s, []), PlainEnv(cfg), false);
            && w.held == [] && w.s.rows == CutRows(cfg) && w.s.preempted == s.preempted
            && w.st == TWO_LIVE.(reqs := map[A := DECODING, B := ONE.(status := Running)], running := [A, B],
                waiting := [])
  {
    var st, env, w := TWO_LIVE, PlainEnv(cfg), Wait(TWO_LIVE, s, []);
    assert A.name[0] != B.name[0];
    assert HeadIndex(cfg, st, st.waiting) == 0 && !TakesSkipped(cfg, st) && Promote(st, B) == st;
    assert Pop(st, false, 0) == st.(waiting := []);
    PadCut(cfg, s.budget, env);
    hide HeadIndex, TakesSkipped, Promote, Pop, Admitted;
    assert WaitOne(cfg, w, env, false) == Consider(cfg, w, false, 0, env, false);
    var r := Consider(cfg, w, false, 0, env, false);
    assert r.Again? && r.w.s.rows == CutRows(cfg);
    assert r.w.st.reqs == map[A := DECODING, B := ONE.(status := Running)];
    hide WaitOne, Consider;
    assert WaitLoop(cfg, w, env, false) == WaitLoop(cfg, r.w, env, false) == r.w;
  }

  /** The requests after that step. */
  function CutState(cfg: Config): State {
    TWO_LIVE.(reqs := map[A := DECODING.(numComputed := 2),
        B := ONE.(status := Running, numComputed := cfg.longPrefillThreshold)],
              running := [A, B], waiting := [])
  }

  lemma CutStep(cfg: Config, isEos: Token -> bool, m: Machine)
    requires !ThresholdSafe(cfg) && m == Machine(TWO_LIVE, false, map[])
    ensures Permitted(cfg, m, Issue(PlainEnv(cfg), false))
    ensures Do(cfg, isEos, m, Issue(PlainEnv(cfg), false)) == Machine(CutState(cfg), true, CutRows(cfg))
  {
    DecodeRuns(cfg);
    var e := RunLoop(cfg, TWO_LIVE, StartStep(cfg, TWO_LIVE), 0, PlainEnv(cfg), false);
    OtherIsCut(cfg, e.1);
    var w := WaitLoop(cfg, Wait(TWO_LIVE, e.1, []), PlainEnv(cfg), false);
    assert !Defers(TWO_LIVE, false);
    hide RunLoop, WaitLoop, Defers, CutRows;
    assert Requeue(w) == w.st;
    CutAdvance(cfg, w.st);
  }

  lemma CutAdvance(cfg: Config, st: State)
    requires st == TWO_LIVE.(reqs := map[A := DECODING, B := ONE.(status := Running)], running := [A, B], waiting := [])
    requires cfg.longPrefillThreshold > 0
    ensures AfterSchedule(st, CutRows(cfg)) == CutState(cfg)
  {
    assert A.name[0] != B.name[0];
    assert AfterSchedule(st, CutRows(cfg)).reqs == CutState(cfg).reqs;
  }

  /** The output of the cut row: none of its drafts is accepted. */
  lemma CutOutput(cfg: Config, isEos: Token -> bool, m: Machine)
    requires !ThresholdSafe(cfg) && m == Machine(CutState(cfg), true, CutRows(cfg)) && !isEos(7)
    ensures Permitted(cfg, m, Output(_ => [7]))
    ensures var st := Do(cfg, isEos, m, Output(_ => [7])).st;
            B in st.running && st.Req(B).numComputed == cfg.longPrefillThreshold - cfg.numSpecTokens
  {
    var ans: Answer := _ => [7];
    assert A.name[0] != B.name[0];
    assert [7][1..] == [];
    assert m.st.reqs[B] == ONE.(status := Running, numComputed := cfg.longPrefillThreshold);
    assert m.rows[B] == Row(cfg.longPrefillThreshold, seq(cfg.numSpecTokens, _ => -1));
    var a := Received(cfg, isEos, m.st, m.rows, ans, B);
    assert !a.stopped && a.r.numComputed == cfg.longPrefillThreshold - cfg.numSpecTokens;
    assert B !in Stopped(cfg, isEos, m.st, m.rows, ans);
    hide Received;
  }

  function CutCalls(cfg: Config): seq<Call> {
    [Add(A, ONE)] + [Issue(PlainEnv(cfg), false)] + [Output(_ => [7])] + [Add(B, ONE)] + [Issue(PlainEnv(cfg), false)]
  }

  /** Whatever else is configured, a threshold that cuts padded rows lets a run from the
      empty scheduler leave the invariant: a counter falls short of one behind by as many
      tokens as were cut. */
  lemma CutRun(cfg: Config, isEos: Token -> bool)
    requires !ThresholdSafe(cfg) && !isEos(7)
    ensures PermittedRun(cfg, isEos, START, CutCalls(cfg)) && !Sound(cfg, Run(cfg, isEos, START, CutCalls(cfg)))
    ensures var calls := CutCalls(cfg) + [Output(_ => [7])];
            var st := Run(cfg, isEos, START, calls).st;
            && PermittedRun(cfg, isEos, START, calls) && B in st.running
            && st.Req(B).numComputed == cfg.longPrefillThreshold - cfg.numSpecTokens
  {
    var m1, m2 := Machine(OneWaits(A, ONE), false, map[]), OneIssued(cfg, A, ONE);
    var m3 := Machine(State(map[A := DECODING], [A], [], [], {}, Unpaused, false), false, map[]);
    var m4, m5 := Machine(TWO_LIVE, false, map[]), Machine(CutState(cfg), true, CutRows(cfg));
    var issue, output, more := Issue(PlainEnv(cfg), false), Output(_ => [7]), Add(B, ONE);
    assert New(cfg, ONE) && Alone(cfg, m1.st, A);
    CutIsUnsound(cfg);
    AddStep(cfg, isEos, A, ONE);
    IssueStep(cfg, isEos, A, ONE, m1);
    DecodeStep(cfg, isEos, m2);
    SecondStep(cfg, isEos, m3);
    CutStep(cfg, isEos, m4);
    CutOutput(cfg, isEos, m5);
    hide Permitted, PermittedRun, Do, OneIssued, PlainEnv, Alone, New, OneWaits, CutState, CutRows, Sound, Run;
    var c1 := [Add(A, ONE)];
    ReachesMore(cfg, isEos, c1, m1, issue);
    ReachesMore(cfg, isEos, c1 + [issue], m2, output);
    ReachesMore(cfg, isEos, c1 + [issue] + [output], m3, more);
    ReachesMore(cfg, isEos, c1 + [issue] + [output] + [more], m4, issue);
    ReachesMore(cfg, isEos, CutCalls(cfg), m5, output);
  }

  lemma CutIsUnsound(cfg: Config)
    requires !ThresholdSafe(cfg)
    ensures !Sound(cfg, Machine(CutState(cfg), true, CutRows(cfg)))
  {
    assert A.name[0] != B.name[0];
    assert B in CutState(cfg).running && B in CutRows(cfg);
    assert !InFlight(CutState(cfg).Req(B), CutRows(cfg)[B]);
  }

  /** Every run whose trims leave padded rows whole is sound, exactly when the threshold
      does not cut them. */
  lemma EveryRunIsSoundIff(cfg: Config)
    ensures (forall isEos, calls :: PermittedRun(cfg, isEos, START, calls) ==>
          Sound(cfg, Run(cfg, isEos, START, calls)))
            <==> ThresholdSafe(cfg)
  {
    if ThresholdSafe(cfg) {
      forall isEos, calls | PermittedRun(cfg, isEos, START, calls) ensures Sound(cfg, Run(cfg, isEos, START, calls)) {
        PermittedIsLegal(cfg, isEos, START, calls);
        assert Sound(cfg, START);
        RunKeepsSound(cfg, isEos, START, calls);
      }
    } else {
      var isEos: Token -> bool := _ => false;
      CutRun(cfg, isEos);
    }
    hide Run, PermittedRun, LegalRun;
  }

  /** With a threshold of one and five drafts a request ends a run with -4 computed
      tokens. */
  lemma NegativeCounterWitness(isEos: Token -> bool)
    requires !isEos(7)
    ensures var cfg := Config(Fcfs, 8, 64, 64, 5, false, 1, 0, true);
            var calls := CutCalls(cfg) + [Output(_ => [7])];
            PermittedRun(cfg, isEos, START, calls) && Run(cfg, isEos, START, calls).st.Req(B).numComputed == -4
  {
    CutRun(Config(Fcfs, 8, 64, 64, 5, false, 1, 0, true), isEos);
    hide Run, PermittedRun, CutCalls;
  }
}

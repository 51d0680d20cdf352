/**
 What a step does to each request: the tokens it is given, from where it computes, and
 what becomes of those that get none.
 */
module SchedulerRows {
  import opened Seqs
  import opened SchedulerState
  import opened SchedulerStep
  import opened SchedulerInvariants
  import opened SchedulerAdmission

  // ---------------------------------------------------------------------
  // One request across the running phase
  // ---------------------------------------------------------------------

  /** `n` tokens are within all limits of a running request but the budget. */
  predicate Within(cfg: Config, r: Request, cap: nat, n: int) {
    && n <= |r.tokens| + |r.spec| - r.numComputed
    && (cfg.longPrefillThreshold > 0 ==> n <= cfg.longPrefillThreshold)
    && n <= cfg.maxModelLen - r.numComputed - 1
    && n <= cap
  }

  /** The row of a running request: as many tokens as the limits allow, or as the budget
      does, which is then spent; and the first of its drafts as far as they fit. */
  predicate RowOfRunning(cfg: Config, r: Request, cap: nat, row: Row, spent: bool) {
    && row.n >= 1 && Within(cfg, r, cap, row.n) && (spent || !Within(cfg, r, cap, row.n + 1))
    && row.drafts <= r.spec && |row.drafts| == Max(r.numComputed + row.n - |r.tokens|, 0)
  }

  /** A preempted request has lost what was computed for it and nothing else. */
  function Reset(r: Request): Request {
    r.(status := Preempted, numComputed := 0, spec := [], numPreemptions := r.numPreemptions + 1)
  }

  /** What the running phase leaves alone. */
  predicate Aside(st0: State, st: State) {
    st.skipped == st0.skipped && st.pause == st0.pause && st.prefillBound == st0.prefillBound
  }

  /** One request in the running phase of a step that began in `st0`. */
  predicate Ran(cfg: Config, st0: State, st: State, s: Step, env: Env, defer: bool, id: ReqId) {
    var r := st0.Req(id);
    && Aside(st0, st) && (id in st.reqs <==> id in st0.reqs) &&
        (id in s.rows || id in s.preempted ==> id in st0.running)
    && if id in s.rows then
         && id in s.scheduledRunning && id in st.running && id !in s.preempted && st.Req(id) == r.(spec := [])
         && RowOfRunning(cfg, r, env.cap(id, false), s.rows[id], s.budget <= 0 || s.preempted != [])
         && !(defer && r.isPrefillChunk)
       else if id in s.preempted then id !in st.running && st.Req(id) == Reset(r)
       else (id in st.running <==> id in st0.running) && st.Req(id) == r
  }

  /** One preemption, said of the states before and after it. */
  ghost predicate Ousted(st: State, s: Step, st1: State, s1: Step, v: ReqId) {
    && s1.rows == s.rows - {v} && s1.preempted == s.preempted + [v]
    && Aside(st, st1) && st1.reqs.Keys == st.reqs.Keys
    && (forall x :: x in st1.running <==> x in st.running && x != v)
    && (forall x :: st1.Req(x) == if x == v then Reset(st.Req(x)) else st.Req(x))
    && (forall x :: x in s1.rows ==> x in s1.scheduledRunning)
  }

  lemma EvictOusts(cfg: Config, budget: int, st: State, s: Step, i: int)
    requires Phase1(cfg, budget, st, s, i) && CanEvict(cfg, st, i)
    ensures VictimId(cfg, st) in st.running
    ensures var p := EvictOne(cfg, st, s, i); Ousted(st, s, p.st, p.s, VictimId(cfg, st))
  {
    VictimIsFree(cfg, st, s, i);
    EvictQueues(cfg, st, s, i);
    EvictStep(cfg, budget, st, s, i);
    var p := EvictOne(cfg, st, s, i);
    forall x ensures p.st.Req(x) == if x == VictimId(cfg, st) then Reset(st.Req(x)) else st.Req(x) {
      VictimIsReset(cfg, st, s, i, x);
    }
    forall x ensures x in p.s.rows ==> x in p.s.scheduledRunning {
      ScheduledOnce(p.s, x);
    }
    hide EvictOne, Mid, VictimIndex;
  }

  lemma VictimIsReset(cfg: Config, st: State, s: Step, i: int, id: ReqId)
    requires st.running != []
    ensures EvictOne(cfg, st, s, i).st.Req(id) == if id == VictimId(cfg, st) then Reset(st.Req(id)) else st.Req(id)
  {
    hide VictimIndex;
  }

  lemma OustedRan(cfg: Config, st0: State, st: State, s: Step, st1: State, s1: Step, v: ReqId, env: Env, defer: bool,
      id: ReqId)
    requires Ousted(st, s, st1, s1, v) && Ran(cfg, st0, st, s, env, defer, id) && v in st.running
    ensures Ran(cfg, st0, st1, s1, env, defer, id)
  {
    hide Within;
  }

  lemma RanCalls(cfg: Config, st0: State, st: State, s: Step, env: Env, defer: bool, id: ReqId)
    requires Ran(cfg, st0, st, s, env, defer, id)
    ensures Ran(cfg, st0, st, s.(calls := s.calls + 1), env, defer, id)
  {
    hide RowOfRunning;
  }

  lemma CandidateRuns(cfg: Config, st: State, s: Step, i: int, x: ReqId)
    requires Candidate(cfg, st, s, i, x)
    ensures x in st.running && x !in s.rows && st.running != [] && CanEvict(cfg, st, i)
  {
  }

  lemma {:induction false} PlaceRan(cfg: Config, budget: int, st0: State, st: State, s: Step, i: int, x: ReqId,
      env: Env,
                                    defer: bool, id: ReqId)
    requires Phase1(cfg, budget, st, s, i) && Candidate(cfg, st, s, i, x) && Ran(cfg, st0, st, s, env, defer, id)
    ensures var p := Place(cfg, st, s, i, x, env); Ran(cfg, st0, p.st, p.s, env, defer, id)
    decreases |st.running|
  {
    hide Phase1, EvictOne, Ran, CanEvict, Ousted, Candidate, VictimId;
    var s1 := s.(calls := s.calls + 1);
    RanCalls(cfg, st0, st, s, env, defer, id);
    CandidateRuns(cfg, st, s, i, x);
    if !env.alloc(s.calls) {
      CallsIrrelevant(cfg, budget, st, s, i);
      EvictOusts(cfg, budget, st, s1, i);
      RetryKeepsPhase1(cfg, budget, st, s, i, x);
      var p := EvictOne(cfg, st, s1, i);
      OustedRan(cfg, st0, st, s1, p.st, p.s, VictimId(cfg, st), env, defer, id);
      if VictimId(cfg, st) != x {
        PlaceRan(cfg, budget, st0, p.st, p.s, p.i, x, env, defer, id);
      }
    }
  }

  lemma EnterRan(cfg: Config, st0: State, st: State, s: Step, x: ReqId, n: int, env: Env, defer: bool, id: ReqId)
    requires Ran(cfg, st0, st, s, env, defer, id) && x in st.running && x in st.reqs && x !in s.rows
    requires s.budget > 0 || s.preempted != []
    requires id == x ==> RowOfRunning(cfg, st0.Req(id), env.cap(id, false), Row(n, RowDrafts(st0.Req(id), n)),
                                      s.budget - n <= 0 || s.preempted != []) && !(defer && st0.Req(id).isPrefillChunk)
    ensures var e := Enter(st, s, x, n); Ran(cfg, st0, e.0, e.1, env, defer, id)
  {
    hide RowOfRunning;
    if id != x && id in s.rows {
      SpentOn(cfg, st0.Req(id), env.cap(id, false), s.rows[id], s.budget <= 0 || s.preempted != [],
              s.budget - n <= 0 || s.preempted != []);
    }
  }

  lemma SpentOn(cfg: Config, r: Request, cap: nat, row: Row, spent: bool, spent1: bool)
    requires RowOfRunning(cfg, r, cap, row, spent) && (spent ==> spent1)
    ensures RowOfRunning(cfg, r, cap, row, spent1)
  {
  }

  /** The row that a running request is offered is such a row. */
  lemma OfferIsRow(cfg: Config, st: State, s: Step, id: ReqId, env: Env, defer: bool)
    requires Settled(st.Req(id)) && |st.Req(id).tokens| <= cfg.maxModelLen && s.budget > 0
    ensures var n := Offer(cfg, st, s, id, env, defer);
            n != 0 ==>
              && !(defer && st.Req(id).isPrefillChunk) && 0 < n <= s.budget
              && RowOfRunning(cfg, st.Req(id), env.cap(id, false), Row(n, RowDrafts(st.Req(id), n)), s.budget == n)
  {
  }

  /** An allocation that succeeds at once changes nothing but the count of calls; any
      other preempts. */
  lemma PlaceIsCalm(cfg: Config, st: State, s: Step, i: int, x: ReqId, env: Env)
    requires st.running != []
    ensures var p := Place(cfg, st, s, i, x, env);
            if env.alloc(s.calls) then p == Placed(true, st, s.(calls := s.calls + 1), i) else p.s.preempted != []
  {
    hide EvictOne;
    if !env.alloc(s.calls) {
      var s1 := s.(calls := s.calls + 1);
      OusterGrows(cfg, st, s1, i);
      var p := EvictOne(cfg, st, s1, i);
      PreemptedGrows(cfg, p.st, p.s, p.i, x, env);
    }
  }

  lemma OusterGrows(cfg: Config, st: State, s: Step, i: int)
    requires st.running != []
    ensures |EvictOne(cfg, st, s, i).s.preempted| == |s.preempted| + 1
    ensures |EvictOne(cfg, st, s, i).st.running| < |st.running|
  {
    hide VictimIndex;
  }

  lemma {:induction false} PreemptedGrows(cfg: Config, st: State, s: Step, i: int, x: ReqId, env: Env)
    ensures |Place(cfg, st, s, i, x, env).s.preempted| >= |s.preempted|
    decreases |st.running|
  {
    hide EvictOne;
    if !env.alloc(s.calls) && st.running != [] {
      var s1 := s.(calls := s.calls + 1);
      OusterGrows(cfg, st, s1, i);
      var p := EvictOne(cfg, st, s1, i);
      PreemptedGrows(cfg, p.st, p.s, p.i, x, env);
    }
  }

  lemma RunOneRan(cfg: Config, budget: int, st0: State, st: State, s: Step, i: nat, env: Env, defer: bool, id: ReqId)
    requires Phase1(cfg, budget, st, s, i) && i < |st.running| && s.budget > 0 && Ran(cfg, st0, st, s, env, defer, id)
    ensures var p := RunOne(cfg, st, s, i, env, defer); Ran(cfg, st0, p.st, p.s, env, defer, id)
  {
    var x := st.running[i];
    var n := Offer(cfg, st, s, x, env, defer);
    CandidateAt(cfg, budget, st, s, i);
    hide Phase1, Offer, Place, Enter, Ran, Candidate, RowOfRunning, RowDrafts;
    if n != 0 {
      PlaceRan(cfg, budget, st0, st, s, i, x, env, defer, id);
      PlaceKeepsPhase1(cfg, budget, st, s, i, x, env);
      PlaceIsCalm(cfg, st, s, i, x, env);
      var p := Place(cfg, st, s, i, x, env);
      if p.ok {
        OfferIsRow(cfg, st, s, x, env, defer);
        CandidateIsLive(cfg, budget, p.st, p.s, p.i, x);
        EnterOffer(cfg, st0, st, s, p.st, p.s, p.i, x, n, env, defer, id);
      }
    }
  }

  /** The request the loop is at is live, settled and has no row yet. */
  lemma CandidateAt(cfg: Config, budget: int, st: State, s: Step, i: nat)
    requires Phase1(cfg, budget, st, s, i) && i < |st.running|
    ensures var id := st.running[i];
            Candidate(cfg, st, s, i, id) && Settled(st.Req(id)) && |st.Req(id).tokens| <= cfg.maxModelLen
  {
    var id := st.running[i];
    Once(st, [], id);
    if id in s.rows {
      ScheduledOnce(s, id);
      var p :| 0 <= p < i && p < |st.running| && st.running[p] == id;
      OnePosition(st.running, p, i);
    }
    assert RowOk(st, s, id);
  }

  lemma CandidateIsLive(cfg: Config, budget: int, st: State, s: Step, i: int, x: ReqId)
    requires Phase1(cfg, budget, st, s, i) && Candidate(cfg, st, s, i, x)
    ensures x in st.reqs
  {
    Once(st, [], x);
  }

  /** What was offered before the allocation is entered after it, for a request that the
      allocation left as it was. */
  lemma EnterOffer(cfg: Config, st0: State, st: State, s: Step, st1: State, s1: Step, i1: int, x: ReqId, n: int,
      env: Env,
                   defer: bool, id: ReqId)
    requires Ran(cfg, st0, st, s, env, defer, id) && Ran(cfg, st0, st1, s1, env, defer, id)
    requires Candidate(cfg, st1, s1, i1, x) && x !in s.rows && st1.Req(x) == st.Req(x) && s.budget > 0
    requires 0 < n && !(defer && st.Req(x).isPrefillChunk)
    requires RowOfRunning(cfg, st.Req(x), env.cap(x, false), Row(n, RowDrafts(st.Req(x), n)), s.budget == n)
    requires (s1.preempted == [] ==> s1.budget == s.budget) && x in st.running && x in st1.reqs
    ensures var e := Enter(st1, s1, x, n); Ran(cfg, st0, e.0, e.1, env, defer, id)
  {
    hide RowDrafts, Within;
    if id == x {
      SpentOn(cfg, st.Req(x), env.cap(x, false), Row(n, RowDrafts(st.Req(x), n)), s.budget == n,
              s1.budget - n <= 0 || s1.preempted != []);
    }
    if s1.budget > 0 || s1.preempted != [] {
      assert x !in s1.preempted || id != x;
      EnterRan(cfg, st0, st1, s1, x, n, env, defer, id);
    }
  }

  lemma {:induction false} RunLoopRan(cfg: Config, budget: int, st0: State, st: State, s: Step, i: int, env: Env,
                                      defer: bool, id: ReqId)
    requires Phase1(cfg, budget, st, s, i) && Ran(cfg, st0, st, s, env, defer, id)
    ensures var e := RunLoop(cfg, st, s, i, env, defer); Ran(cfg, st0, e.0, e.1, env, defer, id)
    decreases Max(|st.running| - i, 0)
  {
    hide Phase1, RunOne, Ran;
    if 0 <= i < |st.running| && s.budget > 0 {
      RunOneRan(cfg, budget, st0, st, s, i, env, defer, id);
      RunOneKeepsPhase1(cfg, budget, st, s, i, env, defer);
      var p := RunOne(cfg, st, s, i, env, defer);
      if p.ok {
        RunLoopRan(cfg, budget, st0, p.st, p.s, p.i, env, defer, id);
      }
    }
  }

  // ---------------------------------------------------------------------
  // One request across the waiting phase
  // ---------------------------------------------------------------------

  /** `n` tokens are within all limits of an admitted request but the budget. */
  predicate WithinNew(cfg: Config, wanted: int, cap: nat, n: int) {
    n <= wanted && (cfg.longPrefillThreshold > 0 ==> n <= cfg.longPrefillThreshold) && n <= cap
  }

  /** A decode is padded that comes beside decodes only. */
  predicate Pads(cfg: Config, r: Request, computed: int, s: Step) {
    && cfg.numSpecTokens > 0 && !cfg.dynamicSpec && |r.tokens| - computed == 1
    && s.scheduledRunning != [] && !s.prefillScheduled
  }

  /** The row of an admitted request: from the cached prefix on, all its tokens, or as
      many as the limits or the budget allow. */
  predicate RowOfNew(cfg: Config, r: Request, computed: int, env: Env, id: ReqId, row: Row, s: Step) {
    var padded := Pads(cfg, r, computed, s);
    var wanted := if padded then 1 + cfg.numSpecTokens else |r.tokens| - computed;
    var cap := env.cap(id, padded);
    && row.n >= 1 && WithinNew(cfg, wanted, cap, row.n)
    && (s.budget <= 0 || !WithinNew(cfg, wanted, cap, row.n + 1))
    && row.drafts == if padded then seq(cfg.numSpecTokens, _ => -1) else []
  }

  /** The cached part of a request's tokens; the last one is always computed. */
  function Cached(r: Request, env: Env, id: ReqId): int {
    Min(env.hit(id), |r.tokens| - 1)
  }

  /** One request that waited when the waiting phase began in `st0`. */
  predicate Waited1(cfg: Config, st0: State, w: Wait, env: Env, defer: bool, id: ReqId) {
    var r := st0.Req(id);
    if id in w.s.rows then
      && id in w.st.running
      && w.st.Req(id) == r.(status := Running, numComputed := Cached(r, env, id))
      && RowOfNew(cfg, r, Cached(r, env, id), env, id, w.s.rows[id], w.s)
      && (id in w.s.scheduledResumed <==> r.status == Preempted)
      && (id in w.s.scheduledNew <==> r.status != Preempted)
      && (defer ==> Cached(r, env, id) >= |r.tokens| - 1)
    else
      && id !in w.st.running && id !in w.s.scheduledNew && id !in w.s.scheduledResumed
      && (w.st.Req(id) == r
          || (r.status == WaitingForGrammar && id in env.ready && w.st.Req(id) == r.(status := Waiting)))
  }

  /** One request that ran already: the waiting phase leaves it and its row alone. */
  predicate Untouched(st0: State, s0: Step, w: Wait, id: ReqId) {
    && id in w.st.running && w.st.Req(id) == st0.Req(id)
    && (id in w.s.rows <==> id in s0.rows) && (id in s0.rows ==> w.s.rows[id] == s0.rows[id])
    && id !in w.s.scheduledNew && id !in w.s.scheduledResumed
  }

  /** The decision to admit gives such a row. */
  lemma AdmittedIsRow(cfg: Config, r: Request, s: Step, env: Env, defer: bool, id: ReqId)
    requires r.numComputed == 0 && |r.tokens| > 0 && s.budget > 0
    ensures var decodesOnly := s.scheduledRunning != [] && !s.prefillScheduled;
            var a := Admitted(cfg, r, s.budget, env.hit(id), pad => env.cap(id, pad), decodesOnly, defer);
            && !a.Fault?
            && (a.Admit? ==>
                  && a.computed == Cached(r, env, id) && a.row.n <= s.budget
                  && RowOfNew(cfg, r, a.computed, env, id, a.row, s.(budget := s.budget - a.row.n))
                  && (defer ==> a.computed >= |r.tokens| - 1))
  {
  }

  /** A request that can be admitted: live, waiting, and nothing computed for it. */
  predicate Poppable(st: State, id: ReqId) {
    && id in st.reqs && id !in st.running && st.Req(id).numComputed == 0 && |st.Req(id).tokens| > 0
    && (st.Req(id).status == Waiting || st.Req(id).status == Preempted)
  }

  lemma EnrollWaited(cfg: Config, st0: State, w: Wait, w1: Wait, x: ReqId, row: Row, env: Env, defer: bool, id: ReqId)
    requires Waited1(cfg, st0, w, env, defer, id) && Poppable(w.st, x) && w.s.budget > 0 && 0 < row.n
    requires var e := Enroll(w.st, w.s, x, row, Cached(w.st.Req(x), env, x));
             && w1.s == e.1 && w1.st.reqs == e.0.reqs && w1.st.running == e.0.running
    requires RowOfNew(cfg, w.st.Req(x), Cached(w.st.Req(x), env, x), env, x, row, w1.s)
    requires (defer ==> Cached(w.st.Req(x), env, x) >= |w.st.Req(x).tokens| - 1) && x !in w.s.rows
    ensures Waited1(cfg, st0, w1, env, defer, id)
  {
    hide WithinNew;
    if id == x {
      assert w.st.Req(x).tokens == st0.Req(x).tokens && Cached(w.st.Req(x), env, x) == Cached(st0.Req(x), env, x);
      assert RowOfNew(cfg, st0.Req(x), Cached(st0.Req(x), env, x), env, x, row, w1.s);
    }
  }

  lemma EnrollUntouched(st0: State, s0: Step, w: Wait, w1: Wait, x: ReqId, row: Row, computed: int, id: ReqId)
    requires Untouched(st0, s0, w, id) && id != x && x in w.st.reqs
    requires var e := Enroll(w.st, w.s, x, row, computed);
             && w1.s == e.1 && w1.st.reqs == e.0.reqs && w1.st.running == e.0.running
    ensures Untouched(st0, s0, w1, id)
  {
  }

  /** What both phases' requests are, after considering the head. */
  predicate Both(cfg: Config, st0: State, s0: Step, w: Wait, env: Env, defer: bool, id: ReqId) {
    && w.s.preempted == s0.preempted && w.st.pause == st0.pause && (id in w.st.reqs <==> id in st0.reqs)
    && w.s.scheduledRunning == s0.scheduledRunning && w.s.prefillScheduled == s0.prefillScheduled
    && if id in st0.running then Untouched(st0, s0, w, id) else Waited1(cfg, st0, w, env, defer, id)
  }

  /** Only queues and the count of allocations differ. */
  predicate Elsewhere(w: Wait, w1: Wait) {
    && w1.st.reqs == w.st.reqs && w1.st.running == w.st.running && w1.st.pause == w.st.pause
    && w1.s == w.s.(calls := w1.s.calls)
  }

  lemma ElsewhereBoth(cfg: Config, st0: State, s0: Step, w: Wait, w1: Wait, env: Env, defer: bool, id: ReqId)
    requires Both(cfg, st0, s0, w, env, defer, id) && Elsewhere(w, w1)
    ensures Both(cfg, st0, s0, w1, env, defer, id)
  {
    hide WithinNew;
  }

  lemma PopElsewhere(st: State, fromSkipped: bool, k: nat)
    requires k < |if fromSkipped then st.skipped else st.waiting|
    ensures var st1 := Pop(st, fromSkipped, k);
            && st1.reqs == st.reqs && st1.running == st.running && st1.pause == st.pause
            && (forall x :: st1.Req(x) == st.Req(x)) && st1.inflight == st.inflight
  {
  }

  lemma AdmitBoth(cfg: Config, st0: State, s0: Step, w: Wait, x: ReqId, row: Row, computed: int, env: Env,
      defer: bool, id: ReqId)
    requires Both(cfg, st0, s0, w, env, defer, id) && Poppable(w.st, x) && x !in w.s.rows && w.s.budget > 0
    requires computed == Cached(w.st.Req(x), env, x) && 0 < row.n
    requires RowOfNew(cfg, w.st.Req(x), computed, env, x, row, w.s.(budget := w.s.budget - row.n))
    requires defer ==> computed >= |w.st.Req(x).tokens| - 1
    ensures var e := Enroll(w.st, w.s, x, row, computed); Both(cfg, st0, s0, Wait(e.0, e.1, w.held), env, defer, id)
  {
    var e := Enroll(w.st, w.s, x, row, computed);
    var w1 := Wait(e.0, e.1, w.held);
    EnrolledRow(cfg, w.st.Req(x), computed, env, x, row, w.s, e.1);
    hide RowOfNew, Cached, Waited1, Untouched;
    if id in st0.running {
      assert id != x by {
        RunsAlready(st0, s0, w, id);
      }
      EnrollUntouched(st0, s0, w, w1, x, row, computed, id);
    } else {
      EnrollWaited(cfg, st0, w, w1, x, row, env, defer, id);
    }
  }

  lemma RunsAlready(st0: State, s0: Step, w: Wait, id: ReqId)
    requires Untouched(st0, s0, w, id)
    ensures id in w.st.running
  {
  }

  function Decision(cfg: Config, w: Wait, env: Env, defer: bool, x: ReqId): Admission {
    var decodesOnly := w.s.scheduledRunning != [] && !w.s.prefillScheduled;
    Admitted(cfg, w.st.Req(x), w.s.budget, env.hit(x), pad => env.cap(x, pad), decodesOnly, defer)
  }

  /** Considering a request admits it as decided, or leaves all requests alone. */
  lemma ConsiderDecides(cfg: Config, w: Wait, fromSkipped: bool, k: nat, env: Env, defer: bool)
    requires k < |if fromSkipped then w.st.skipped else w.st.waiting|
    requires !Decision(cfg, w, env, defer, At(w.st, fromSkipped, k)).Fault?
    ensures var r := Consider(cfg, w, fromSkipped, k, env, defer).w;
            var x := At(w.st, fromSkipped, k);
            var a := Decision(cfg, w, env, defer, x);
            var w0 := Wait(Pop(w.st, fromSkipped, k), w.s.(calls := w.s.calls + 1), w.held);
            || Elsewhere(w, r)
            || (&& a.Admit? && Elsewhere(w, w0)
                && r == Wait(Enroll(w0.st, w0.s, x, a.row, a.computed).0,
                    Enroll(w0.st, w0.s, x, a.row, a.computed).1, w.held))
  {
    PopElsewhere(w.st, fromSkipped, k);
    hide Admitted, Pop, Enroll;
  }

  lemma DecisionIsRow(cfg: Config, w: Wait, env: Env, defer: bool, x: ReqId)
    requires Poppable(w.st, x) && w.s.budget > 0
    ensures var a := Decision(cfg, w, env, defer, x);
            && !a.Fault?
            && (a.Admit? ==>
                  && a.computed == Cached(w.st.Req(x), env, x) && 0 < a.row.n
                  && RowOfNew(cfg, w.st.Req(x), a.computed, env, x, a.row, w.s.(budget := w.s.budget - a.row.n))
                  && (defer ==> a.computed >= |w.st.Req(x).tokens| - 1))
  {
    AdmittedIsRow(cfg, w.st.Req(x), w.s, env, defer, x);
    var a := Decision(cfg, w, env, defer, x);
    hide Admitted;
    if a.Admit? {
      NewRowIsPositive(cfg, w.st.Req(x), a.computed, env, x, a.row, w.s);
    }
    hide Decision, RowOfNew;
  }

  lemma ConsiderBoth(cfg: Config, st0: State, s0: Step, w: Wait, fromSkipped: bool, k: nat, env: Env, defer: bool,
      id: ReqId)
    requires k < |if fromSkipped then w.st.skipped else w.st.waiting| && Poppable(w.st, At(w.st, fromSkipped, k))
    requires Both(cfg, st0, s0, w, env, defer, id) && w.s.budget > 0 && At(w.st, fromSkipped, k) !in w.s.rows
    ensures Both(cfg, st0, s0, Consider(cfg, w, fromSkipped, k, env, defer).w, env, defer, id)
  {
    PopElsewhere(w.st, fromSkipped, k);
    hide Consider, Decision, RowOfNew, Cached, Both, Pop, Enroll, Elsewhere;
    var x := At(w.st, fromSkipped, k);
    DecisionIsRow(cfg, w, env, defer, x);
    var a := Decision(cfg, w, env, defer, x);
    ConsiderDecides(cfg, w, fromSkipped, k, env, defer);
    var r := Consider(cfg, w, fromSkipped, k, env, defer);
    if Elsewhere(w, r.w) {
      ElsewhereBoth(cfg, st0, s0, w, r.w, env, defer, id);
    } else {
      var w0 := Wait(Pop(w.st, fromSkipped, k), w.s.(calls := w.s.calls + 1), w.held);
      ElsewhereBoth(cfg, st0, s0, w, w0, env, defer, id);
      RowIgnoresCalls(cfg, w.st.Req(x), a.computed, env, x, a.row, w.s, w0.s);
      AdmitBoth(cfg, st0, s0, w0, x, a.row, a.computed, env, defer, id);
    }
  }

  lemma NewRowIsPositive(cfg: Config, r: Request, computed: int, env: Env, x: ReqId, row: Row, s: Step)
    requires RowOfNew(cfg, r, computed, env, x, row, s.(budget := s.budget - row.n))
    ensures row.n > 0
  {
  }

  lemma RowIgnoresCalls(cfg: Config, r: Request, computed: int, env: Env, x: ReqId, row: Row, s: Step, s1: Step)
    requires RowOfNew(cfg, r, computed, env, x, row, s.(budget := s.budget - row.n)) && s1 == s.(calls := s1.calls)
    ensures RowOfNew(cfg, r, computed, env, x, row, s1.(budget := s1.budget - row.n))
  {
    hide WithinNew;
  }

  lemma EnrolledRow(cfg: Config, r: Request, computed: int, env: Env, x: ReqId, row: Row, s: Step, s1: Step)
    requires RowOfNew(cfg, r, computed, env, x, row, s.(budget := s.budget - row.n))
    requires s1.budget == s.budget - row.n && s1.scheduledRunning == s.scheduledRunning
    requires s1.prefillScheduled == s.prefillScheduled
    ensures RowOfNew(cfg, r, computed, env, x, row, s1)
  {
    hide WithinNew;
  }

  lemma PromoteBoth(cfg: Config, st0: State, s0: Step, w: Wait, x: ReqId, env: Env, defer: bool, id: ReqId)
    requires Both(cfg, st0, s0, w, env, defer, id) && x in w.st.reqs && x !in w.st.running && x !in w.s.rows
    requires Blocked(w.st.Req(x).status) ==> x in env.ready
    ensures Both(cfg, st0, s0, w.(st := Promote(w.st, x)), env, defer, id)
  {
    hide RowOfNew;
  }

  /** The head of the queues can be admitted once promoted, and has no row. */
  lemma HeadIsPoppable(cfg: Config, budget: int, w: Wait, fromSkipped: bool, k: nat)
    requires Phase2(cfg, budget, w) && k < |if fromSkipped then w.st.skipped else w.st.waiting|
    ensures var x := At(w.st, fromSkipped, k);
            && Poppable(Promote(w.st, x), x) && x in w.st.reqs && x !in w.st.running && x !in w.s.rows
  {
    var x := At(w.st, fromSkipped, k);
    HeadFacts(cfg, budget, w.st, w.s, w.held, fromSkipped, k);
    assert Placement(w.st, w.held, x);
  }

  lemma WaitOneBoth(cfg: Config, budget: int, st0: State, s0: Step, w: Wait, env: Env, defer: bool, id: ReqId)
    requires Phase2(cfg, budget, w) && Open(cfg, w) && Both(cfg, st0, s0, w, env, defer, id)
    ensures Both(cfg, st0, s0, WaitOne(cfg, w, env, defer).w, env, defer, id)
  {
    var fromSkipped := TakesSkipped(cfg, w.st);
    var q := if fromSkipped then w.st.skipped else w.st.waiting;
    var k := HeadIndex(cfg, w.st, q);
    var x := q[k];
    HeadIsPoppable(cfg, budget, w, fromSkipped, k);
    PopElsewhere(w.st, fromSkipped, k);
    hide Phase2, Mid, HeadIndex, TakesSkipped, Consider, Pop, Both, Poppable;
    var r := WaitOne(cfg, w, env, defer);
    if Blocked(w.st.Req(x).status) && x !in env.ready {
      ElsewhereBoth(cfg, st0, s0, w, r.w, env, defer, id);
    } else {
      PromoteBoth(cfg, st0, s0, w, x, env, defer, id);
      var w1 := w.(st := Promote(w.st, x));
      assert At(w1.st, fromSkipped, k) == x;
      ConsiderBoth(cfg, st0, s0, w1, fromSkipped, k, env, defer, id);
    }
  }

  lemma {:induction false} WaitLoopBoth(cfg: Config, budget: int, st0: State, s0: Step, w: Wait, env: Env,
      defer: bool, id: ReqId)
    requires Phase2(cfg, budget, w) && PadSafe(cfg, env) && Both(cfg, st0, s0, w, env, defer, id)
    ensures Both(cfg, st0, s0, WaitLoop(cfg, w, env, defer), env, defer, id)
    decreases |w.st.waiting| + |w.st.skipped|
  {
    hide Phase2, WaitOne, Both, PadSafe;
    if Open(cfg, w) {
      WaitOneBoth(cfg, budget, st0, s0, w, env, defer, id);
      WaitOneKeepsMid(cfg, budget, w, env, defer);
      var r := WaitOne(cfg, w, env, defer);
      if r.Again? {
        WaitLoopBoth(cfg, budget, st0, s0, r.w, env, defer, id);
      }
    }
  }

  // ---------------------------------------------------------------------
  // A whole step
  // ---------------------------------------------------------------------

  /** Prefills are put off: throttling is asked for, the queue was drained by the last
      step that admitted prefills, and some running request decodes. */
  predicate PutsOff(st: State, throttle: bool) {
    throttle && !st.prefillBound && exists k :: 0 <= k < |st.running| && !st.Req(st.running[k]).isPrefillChunk
  }

  /** A request with `n` more tokens computed after the first `computed`. */
  function Computing(r: Request, computed: int, n: int): Request {
    r.(numComputed := computed + n, isPrefillChunk := computed + n < |r.tokens|)
  }

  /** What a step does to one live request. */
  predicate Stepped(cfg: Config, st: State, st1: State, s: Step, env: Env, throttle: bool, id: ReqId)
    requires id in st.reqs && id in st1.reqs
  {
    var r, r1 := st.reqs[id], st1.reqs[id];
    if id in s.rows && id in st.running then
      && id in st1.running && id in s.scheduledRunning
      && r1 == Computing(r.(spec := []), r.numComputed, s.rows[id].n)
      && RowOfRunning(cfg, r, env.cap(id, false), s.rows[id], s.budget <= 0 || s.preempted != [])
      && !(PutsOff(st, throttle) && r.isPrefillChunk)
    else if id in s.rows then
      && id in st1.running && s.preempted == [] && st.pause == Unpaused
      && r1 == Computing(r.(status := Running), Cached(r, env, id), s.rows[id].n)
      && RowOfNew(cfg, r, Cached(r, env, id), env, id, s.rows[id], s)
      && (id in s.scheduledResumed <==> r.status == Preempted) && (id in s.scheduledNew <==> r.status != Preempted)
      && (PutsOff(st, throttle) ==> Cached(r, env, id) >= |r.tokens| - 1)
    else if id in s.preempted then id in st.running && id !in st1.running && r1 == Reset(r)
    else
      && (id in st1.running <==> id in st.running)
      && (r1 == r || (r.status == WaitingForGrammar && id in env.ready && r1 == r.(status := Waiting)))
  }

  lemma RanAtStart(cfg: Config, st: State, env: Env, defer: bool, id: ReqId)
    ensures Ran(cfg, st, st, StartStep(cfg, st), env, defer, id)
  {
  }

  lemma BothAtStart(cfg: Config, budget: int, st: State, s: Step, env: Env, defer: bool, id: ReqId)
    requires Mid(cfg, budget, st, s, []) && NoneAdmitted(s)
    ensures Both(cfg, st, s, Wait(st, s, []), env, defer, id)
  {
  }

  /** One request after both phases, before the counters are advanced. */
  predicate Phased(cfg: Config, st: State, st1: State, s: Step, env: Env, defer: bool, id: ReqId)
    requires id in st.reqs
  {
    var r, r1 := st.reqs[id], st1.Req(id);
    if id in s.rows && id in st.running then
      && id in st1.running && id in s.scheduledRunning && r1 == r.(spec := [])
      && RowOfRunning(cfg, r, env.cap(id, false), s.rows[id], s.budget <= 0 || s.preempted != [])
      && !(defer && r.isPrefillChunk)
    else if id in s.rows then
      && id in st1.running && s.preempted == [] && st.pause == Unpaused
      && r1 == r.(status := Running, numComputed := Cached(r, env, id))
      && RowOfNew(cfg, r, Cached(r, env, id), env, id, s.rows[id], s)
      && (id in s.scheduledResumed <==> r.status == Preempted) && (id in s.scheduledNew <==> r.status != Preempted)
      && (defer ==> Cached(r, env, id) >= |r.tokens| - 1)
    else if id in s.preempted then id in st.running && id !in st1.running && r1 == Reset(r)
    else
      && (id in st1.running <==> id in st.running)
      && (r1 == r || (r.status == WaitingForGrammar && id in env.ready && r1 == r.(status := Waiting)))
  }

  /** The two phases, one after the other. */
  lemma PhasesCompose(cfg: Config, st: State, st0: State, s0: Step, w: Wait, env: Env, defer: bool, id: ReqId)
    requires id in st.reqs && Ran(cfg, st, st0, s0, env, defer, id) && s0.preempted == [] && st0.pause == Unpaused
    requires Both(cfg, st0, s0, w, env, defer, id) && (s0.budget <= 0 ==> w.s.budget <= 0)
    ensures Phased(cfg, st, w.st, w.s, env, defer, id) && id in w.st.reqs
  {
    hide Within, WithinNew, Cached;
    assert id in st0.running <==> id in st.running;
    if id in w.s.rows && id in st.running {
      SpentOn(cfg, st.Req(id), env.cap(id, false), s0.rows[id], s0.budget <= 0 || s0.preempted != [],
              w.s.budget <= 0 || w.s.preempted != []);
    }
  }

  lemma RanIsPhased(cfg: Config, st: State, st0: State, s0: Step, env: Env, defer: bool, id: ReqId)
    requires id in st.reqs && Ran(cfg, st, st0, s0, env, defer, id)
    ensures Phased(cfg, st, st0, s0, env, defer, id) && id in st0.reqs
  {
    hide RowOfRunning;
  }

  lemma PhasesEffect(cfg: Config, st: State, env: Env, throttle: bool, id: ReqId)
    requires Inv(cfg, st, map[]) && PadSafe(cfg, env) && id in st.reqs
    ensures var (st1, s) := Phases(cfg, st, env, throttle);
            Phased(cfg, st, st1, s, env, Defers(st, throttle), id) && id in st1.reqs
  {
    var defer, budget, start := Defers(st, throttle), StartBudget(cfg, st), StartStep(cfg, st);
    StartKeepsMid(cfg, st);
    hide Inv, Mid, Indexed, NoneAdmitted, Phased, Ran, Both, RunLoop, WaitLoop, PadSafe, Defers, Phase2;
    RanAtStart(cfg, st, env, defer, id);
    RunLoopRan(cfg, budget, st, st, start, 0, env, defer, id);
    RunLoopKeepsMid(cfg, budget, st, start, 0, env, defer);
    WaitingStarts(cfg, st, env, defer);
    var (st0, s0) := RunLoop(cfg, st, start, 0, env, defer);
    if s0.preempted == [] && st0.pause == Unpaused {
      var w0 := Wait(st0, s0, []);
      BothAtStart(cfg, budget, st0, s0, env, defer, id);
      WaitLoopBoth(cfg, budget, st0, s0, w0, env, defer, id);
      var w := WaitLoop(cfg, w0, env, defer);
      NoBudgetNoWait(cfg, w0, env, defer);
      PhasesCompose(cfg, st, st0, s0, w, env, defer, id);
      QueuesAside(cfg, st, w.st, w.s, Requeue(w), env, defer, id);
      QueuesAside(cfg, st, w.st, w.s, Requeue(w).(prefillBound := Requeue(w).waiting != []), env, defer, id);
    } else {
      RanIsPhased(cfg, st, st0, s0, env, defer, id);
    }
  }

  lemma NoBudgetNoWait(cfg: Config, w: Wait, env: Env, defer: bool)
    ensures w.s.budget <= 0 ==> WaitLoop(cfg, w, env, defer) == w
  {
    hide WaitOne;
  }

  lemma QueuesAside(cfg: Config, st: State, st1: State, s: Step, st2: State, env: Env, defer: bool, id: ReqId)
    requires id in st.reqs && Phased(cfg, st, st1, s, env, defer, id)
    requires st2.reqs == st1.reqs && st2.running == st1.running
    ensures Phased(cfg, st, st2, s, env, defer, id)
  {
    hide RowOfRunning, RowOfNew;
  }

  /** What a step does to each live request, in every state between steps, whatever the
      allocations, the cache and the trims answer. */
  lemma StepEffect(cfg: Config, st: State, env: Env, throttle: bool, id: ReqId)
    requires Inv(cfg, st, map[]) && PadSafe(cfg, env) && id in st.reqs
    ensures var (st1, s) := Schedule(cfg, st, env, throttle);
            id in st1.reqs && Stepped(cfg, st, st1, s, env, throttle, id)
  {
    PhasesEffect(cfg, st, env, throttle, id);
    assert Defers(st, throttle) == PutsOff(st, throttle);
    hide Inv, Phases, PadSafe, RowOfRunning, RowOfNew, Cached, PutsOff, Defers;
  }
}

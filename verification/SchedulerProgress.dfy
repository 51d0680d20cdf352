/**
 The scheduler does not stall: while there are live requests and the cache has room,
 every step schedules something.
 */
module SchedulerProgress {
  import opened Seqs
  import opened SchedulerState
  import opened SchedulerStep
  import opened SchedulerInvariants
  import opened SchedulerAdmission
  import opened SchedulerRuns
  import opened SchedulerOrder

  /** Nothing outside the scheduler holds it up. */
  ghost predicate Generous(env: Env, st: State) {
    && (forall k :: env.alloc(k)) && (forall id, pad :: env.cap(id, pad) > 0) && env.held == {}
    && (forall id :: id in st.reqs && Blocked(st.reqs[id].status) ==> id in env.ready)
  }

  /** The scheduler is configured and free to work. */
  predicate MayWork(cfg: Config, st: State) {
    cfg.maxScheduledTokens > 0 && cfg.maxRunning > 0 && cfg.chunkedPrefill && st.pause == Unpaused
  }

  /** No running request has as many tokens as the model takes. */
  predicate BelowLength(cfg: Config, st: State) {
    forall k :: 0 <= k < |st.running| ==> |st.Req(st.running[k]).tokens| < cfg.maxModelLen
  }

  /** What the running phase leaves of a request. */
  predicate Alike(st: State, st1: State) {
    forall id :: id in st.running ==>
      st1.Req(id).tokens == st.Req(id).tokens && st1.Req(id).isPrefillChunk == st.Req(id).isPrefillChunk
  }

  lemma RunOneAlike(cfg: Config, st: State, s: Step, i: nat, env: Env, defer: bool)
    requires i < |st.running| && env.alloc(s.calls)
    ensures var p := RunOne(cfg, st, s, i, env, defer);
            && p.ok && p.st.running == st.running && p.st.pause == st.pause && p.s.preempted == s.preempted &&
                Alike(st, p.st)
  {
    hide RowDrafts, RunningTokens;
  }

  lemma {:induction false} RunLoopAlike(cfg: Config, st: State, s: Step, i: int, env: Env, defer: bool)
    requires forall k :: env.alloc(k)
    ensures var e := RunLoop(cfg, st, s, i, env, defer);
            e.0.running == st.running && e.0.pause == st.pause && e.1.preempted == s.preempted && Alike(st, e.0)
    decreases Max(|st.running| - i, 0)
  {
    hide RunOne;
    if 0 <= i < |st.running| && s.budget > 0 {
      RunOneAlike(cfg, st, s, i, env, defer);
      var p := RunOne(cfg, st, s, i, env, defer);
      RunLoopAlike(cfg, p.st, p.s, p.i, env, defer);
    }
  }

  /** A row once given stays through the waiting phase. */
  lemma {:induction false} WaitLoopKeepsRows(cfg: Config, w: Wait, env: Env, defer: bool)
    ensures w.s.rows.Keys <= WaitLoop(cfg, w, env, defer).s.rows.Keys
    decreases |w.st.waiting| + |w.st.skipped|
  {
    hide WaitOne;
    if Open(cfg, w) {
      WaitOneKeepsRows(cfg, w, env, defer);
      var r := WaitOne(cfg, w, env, defer);
      if r.Again? {
        WaitLoopKeepsRows(cfg, r.w, env, defer);
      }
    }
  }

  lemma WaitOneKeepsRows(cfg: Config, w: Wait, env: Env, defer: bool)
    requires Open(cfg, w)
    ensures w.s.rows.Keys <= WaitOne(cfg, w, env, defer).w.s.rows.Keys
  {
    hide Admitted, Pop, Promote, HeadIndex, TakesSkipped, Open;
  }

  /** Some running request is not excused: any, or one that decodes when prefills are
      put off. */
  lemma OneUnexcused(cfg: Config, st: State, env: Env, throttle: bool) returns (k: nat)
    requires st.running != [] && BelowLength(cfg, st) && Generous(env, st)
    ensures k < |st.running| && !Excused(cfg, st.Req(st.running[k]), env, st.running[k], Defers(st, throttle))
  {
    if Defers(st, throttle) {
      k :| 0 <= k < |st.running| && !st.Req(st.running[k]).isPrefillChunk;
    } else {
      k := 0;
    }
  }

  lemma TotalOfNone()
    ensures Total(map[]) == 0
  {
  }

  /** Whoever is served without an excuse has a row. */
  lemma ServedHasRow(cfg: Config, st: State, st1: State, s1: Step, env: Env, throttle: bool)
    requires st.running != [] && BelowLength(cfg, st) && Generous(env, st)
    requires st1.running == st.running && Alike(st, st1) &&
          Served(cfg, st1, s1, |st.running|, env, Defers(st, throttle))
    ensures s1.rows != map[]
  {
    var k := OneUnexcused(cfg, st, env, throttle);
    hide Defers, Generous, BelowLength;
    assert st.running[k] in s1.rows;
  }

  /** With running requests, the running phase schedules one. */
  lemma RunningWork(cfg: Config, st: State, env: Env, throttle: bool)
    requires Inv(cfg, st, map[]) && MayWork(cfg, st) && BelowLength(cfg, st) && Generous(env, st) && st.running != []
    ensures RunLoop(cfg, st, StartStep(cfg, st), 0, env, Defers(st, throttle)).1.rows != map[]
  {
    var defer, s := Defers(st, throttle), StartStep(cfg, st);
    var budget := StartBudget(cfg, st);
    StartKeepsMid(cfg, st);
    assert forall k :: env.alloc(k);
    hide Inv, Mid, RunLoop, Served, Phase1, BelowLength, Generous, Defers, Alike;
    assert Served(cfg, st, s, 0, env, defer) by {
      NobodyYet(cfg, st, s, env, defer);
    }
    var e := RunLoop(cfg, st, s, 0, env, defer);
    RunLoopServes(cfg, budget, st, s, 0, env, defer);
    RunLoopKeepsMid(cfg, budget, st, s, 0, env, defer);
    RunLoopAlike(cfg, st, s, 0, env, defer);
    if e.1.budget > 0 {
      ServedHasRow(cfg, st, e.0, e.1, env, throttle);
    } else {
      SpentHasRow(cfg, budget, e.0, e.1);
    }
  }

  lemma NobodyYet(cfg: Config, st: State, s: Step, env: Env, defer: bool)
    ensures Served(cfg, st, s, 0, env, defer)
  {
  }

  /** A budget that is gone was given to some row. */
  lemma SpentHasRow(cfg: Config, budget: int, st: State, s: Step)
    requires Mid(cfg, budget, st, s, []) && budget > 0 && s.budget <= 0
    ensures s.rows != map[]
  {
    assert s.budget + Total(s.rows) == budget;
    TotalOfNone();
  }

  /** With none running, the head of the queues is admitted. */
  lemma AdmissionWork(cfg: Config, w: Wait, env: Env, budget: int)
    requires Mid(cfg, budget, w.st, w.s, []) && Generous(env, w.st) && MayWork(cfg, w.st)
    requires w.s.scheduledRunning == [] && Open(cfg, w)
    ensures var r := WaitOne(cfg, w, env, false); r.Again? && r.w.s.rows != map[]
  {
    var fromSkipped := TakesSkipped(cfg, w.st);
    var q := if fromSkipped then w.st.skipped else w.st.waiting;
    var k := HeadIndex(cfg, w.st, q);
    var id := q[k];
    HeadFacts(cfg, budget, w.st, w.s, [], fromSkipped, k);
    hide Mid, HeadIndex, TakesSkipped, Open;
    var w1 := w.(st := Promote(w.st, id));
    var r := w1.st.Req(id);
    assert r.tokens == w.st.Req(id).tokens && r.numComputed == 0;
    FirstAdmitted(cfg, r, w.s.budget, env, id);
  }

  lemma FirstAdmitted(cfg: Config, r: Request, budget: int, env: Env, id: ReqId)
    requires |r.tokens| > 0 && r.numComputed == 0 && budget > 0 && cfg.chunkedPrefill &&
          forall pad :: env.cap(id, pad) > 0
    ensures Admitted(cfg, r, budget, env.hit(id), pad => env.cap(id, pad), false, false).Admit?
  {
  }

  /** Someone waits when nobody runs. */
  lemma SomeoneWaits(st: State)
    requires Partition(st, []) && st.running == [] && st.reqs != map[]
    ensures st.waiting != [] || st.skipped != []
  {
    var id :| id in st.reqs;
    Once(st, [], id);
  }

  lemma NobodyPrefills(cfg: Config, st: State)
    requires Capped(cfg, st) && st.running == []
    ensures st.inflight == {}
  {
  }

  lemma WaitingWork(cfg: Config, st: State, env: Env, throttle: bool)
    requires Inv(cfg, st, map[]) && MayWork(cfg, st) && Generous(env, st) && st.running == [] && st.reqs != map[]
    ensures WaitLoop(cfg, Wait(st, StartStep(cfg, st), []), env, false).s.rows != map[]
  {
    var s := StartStep(cfg, st);
    var w := Wait(st, s, []);
    StartKeepsMid(cfg, st);
    SomeoneWaits(st);
    NobodyPrefills(cfg, st);
    assert Open(cfg, w);
    hide Inv, Mid;
    AdmissionWork(cfg, w, env, StartBudget(cfg, st));
    hide WaitOne, Open;
    var r := WaitOne(cfg, w, env, false);
    WaitLoopKeepsRows(cfg, r.w, env, false);
  }

  /** No stall: from any state the scheduler can reach between steps, if it is not
      paused, allocations succeed, nothing is trimmed to nothing or held back and no
      running request is at the length limit, then the next step schedules a token as
      long as there is a live request. */
  lemma NoStall(cfg: Config, st: State, env: Env, throttle: bool)
    requires Inv(cfg, st, map[]) && PadSafe(cfg, env) && MayWork(cfg, st)
    requires BelowLength(cfg, st) && Generous(env, st) && st.reqs != map[]
    ensures Schedule(cfg, st, env, throttle).1.rows != map[]
  {
    var defer := Defers(st, throttle);
    var s := StartStep(cfg, st);
    RunLoopAlike(cfg, st, s, 0, env, defer);
    var e := RunLoop(cfg, st, s, 0, env, defer);
    if st.running == [] {
      assert e == (st, s) && !defer;
      WaitingWork(cfg, st, env, throttle);
    } else {
      RunningWork(cfg, st, env, throttle);
      WaitLoopKeepsRows(cfg, Wait(e.0, e.1, []), env, defer);
    }
    hide Inv, RunLoop, WaitLoop, Requeue, AfterSchedule, Generous;
  }

  /** The limit is needed: a running request one token short of the model's length is
      passed over in a step, whatever the budget. SchedulerStuck.dfy follows it over
      rounds. */
  lemma StuckAtLength(cfg: Config, st: State, s: Step, i: nat, env: Env, defer: bool)
    requires i < |st.running| && s.budget > 0
    requires var r := st.Req(st.running[i]); |r.tokens| == cfg.maxModelLen && r.numComputed == |r.tokens| - 1
    ensures RunOne(cfg, st, s, i, env, defer) == Placed(true, st, s, i + 1)
  {
  }
}

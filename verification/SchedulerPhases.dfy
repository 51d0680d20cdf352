/**
 What a step does as a whole: to the queues, to the flags, and under a pause.
 */
module SchedulerPhases {
  import opened Seqs
  import opened SchedulerState
  import opened SchedulerStep
  import opened SchedulerInvariants
  import opened SchedulerAdmission
  import opened SchedulerRuns
  import opened SchedulerOrder
  import opened SchedulerRows

  // ---------------------------------------------------------------------
  // The prefill flag
  // ---------------------------------------------------------------------

  /** As long as nothing is preempted, the flag tells whether a request that ran and has
      been given a row is prefilling. */
  ghost predicate Marked(st0: State, st: State, s: Step) {
    s.preempted == [] ==>
      && (s.prefillScheduled <==> exists x :: x in s.scheduledRunning && st0.Req(x).isPrefillChunk)
      && forall x :: st.Req(x).isPrefillChunk == st0.Req(x).isPrefillChunk
  }

  lemma EnterMarks(st0: State, st: State, s: Step, id: ReqId, n: int)
    requires Marked(st0, st, s)
    ensures var e := Enter(st, s, id, n); Marked(st0, e.0, e.1)
  {
    var e := Enter(st, s, id, n);
    if e.1.preempted == [] {
      if e.1.prefillScheduled {
        var x :| x in s.scheduledRunning + [id] && st0.Req(x).isPrefillChunk;
        assert x in e.1.scheduledRunning;
      }
    }
  }

  lemma RunOneMarks(cfg: Config, st0: State, st: State, s: Step, i: nat, env: Env, defer: bool)
    requires Marked(st0, st, s) && i < |st.running|
    ensures var p := RunOne(cfg, st, s, i, env, defer); Marked(st0, p.st, p.s)
  {
    hide Offer, Place, Enter;
    var x := st.running[i];
    var n := Offer(cfg, st, s, x, env, defer);
    if n != 0 {
      PlaceIsCalm(cfg, st, s, i, x, env);
      PreemptedGrows(cfg, st, s, i, x, env);
      var p := Place(cfg, st, s, i, x, env);
      EnterMarks(st0, p.st, p.s, x, n);
    }
  }

  lemma {:induction false} RunLoopMarks(cfg: Config, st0: State, st: State, s: Step, i: int, env: Env, defer: bool)
    requires Marked(st0, st, s)
    ensures var e := RunLoop(cfg, st, s, i, env, defer); Marked(st0, e.0, e.1)
    decreases Max(|st.running| - i, 0)
  {
    hide RunOne, Marked;
    if 0 <= i < |st.running| && s.budget > 0 {
      RunOneMarks(cfg, st0, st, s, i, env, defer);
      var p := RunOne(cfg, st, s, i, env, defer);
      if p.ok {
        RunLoopMarks(cfg, st0, p.st, p.s, p.i, env, defer);
      }
    }
  }

  // ---------------------------------------------------------------------
  // The live requests, the flags, the pause
  // ---------------------------------------------------------------------

  /** A step as seen from outside, beside what it does to each request. */
  ghost predicate Overall(st: State, st1: State, s: Step, throttle: bool) {
    && st1.reqs.Keys == st.reqs.Keys && st1.pause == st.pause
    && (forall id :: id in s.rows || id in s.preempted ==> id in st.reqs)
    && (st.pause == PausedAll ==> st1 == st && s.rows == map[] && s.preempted == [])
    && (st.pause == PausedNew ==> forall id :: id in s.rows ==> id in st.running)
    && (s.preempted == [] ==>
          (s.prefillScheduled <==> exists x :: x in s.scheduledRunning && st.Req(x).isPrefillChunk))
    && st1.prefillBound == if s.preempted == [] && st.pause == Unpaused && !PutsOff(st, throttle)
                           then st1.waiting != [] else st.prefillBound
  }

  /** One id, live or not, across both phases. */
  ghost predicate Traced(st: State, st1: State, s: Step, id: ReqId) {
    && (id in st1.reqs <==> id in st.reqs)
    && (id in s.rows || id in s.preempted ==> id in st1.reqs)
    && (st.pause != Unpaused ==> (id in s.rows ==> id in st.running))
  }

  lemma PhasesTrace(cfg: Config, st: State, env: Env, throttle: bool, id: ReqId)
    requires Inv(cfg, st, map[]) && PadSafe(cfg, env)
    ensures var (st1, s) := Phases(cfg, st, env, throttle); Traced(st, st1, s, id)
  {
    var defer, budget, start := Defers(st, throttle), StartBudget(cfg, st), StartStep(cfg, st);
    StartKeepsMid(cfg, st);
    assert Ran(cfg, st, st, start, env, defer, id);
    PartitionLive(cfg, st, id);
    hide Inv, Mid, Indexed, NoneAdmitted, RunLoop, WaitLoop, PadSafe, Defers, Phase2, RowOfRunning, RowOfNew, Cached;
    RunLoopRan(cfg, budget, st, st, start, 0, env, defer, id);
    RunLoopKeepsMid(cfg, budget, st, start, 0, env, defer);
    WaitingStarts(cfg, st, env, defer);
    var (st0, s0) := RunLoop(cfg, st, start, 0, env, defer);
    if s0.preempted == [] && st0.pause == Unpaused {
      var w0 := Wait(st0, s0, []);
      assert Both(cfg, st0, s0, w0, env, defer, id) by {
        BothAtStart(cfg, budget, st0, s0, env, defer, id);
      }
      WaitLoopBoth(cfg, budget, st0, s0, w0, env, defer, id);
      WaitLoopKeepsMid(cfg, budget, w0, env, defer);
      RowsLive(cfg, budget, WaitLoop(cfg, w0, env, defer), id);
    }
  }

  lemma PartitionLive(cfg: Config, st: State, id: ReqId)
    requires Inv(cfg, st, map[])
    ensures id in st.running ==> id in st.reqs
  {
    Once(st, [], id);
  }

  lemma RowsLive(cfg: Config, budget: int, w: Wait, id: ReqId)
    requires Phase2(cfg, budget, w)
    ensures id in w.s.rows ==> id in w.st.reqs
  {
    Once(w.st, w.held, id);
    if id in w.s.rows {
      assert RowOk(w.st, w.s, id);
    }
  }

  /** A full pause leaves no budget, and with none the step does nothing. */
  lemma PausedStep(cfg: Config, st: State, env: Env, throttle: bool)
    requires st.pause == PausedAll
    ensures Phases(cfg, st, env, throttle) == (st, StartStep(cfg, st))
  {
  }

  lemma NoRowsNoChange(st: State)
    ensures AfterSchedule(st, map[]) == st
  {
  }

  /** The flags and the pause after both phases. */
  ghost predicate Flagged(st: State, st1: State, s: Step, defer: bool) {
    && st1.pause == st.pause
    && (s.preempted == [] ==>
          (s.prefillScheduled <==> exists x :: x in s.scheduledRunning && st.Req(x).isPrefillChunk))
    && st1.prefillBound == if s.preempted == [] && st.pause == Unpaused && !defer then st1.waiting != []
                           else st.prefillBound
  }

  lemma {:induction false} RunLoopAside(cfg: Config, st: State, s: Step, i: int, env: Env, defer: bool)
    ensures Aside(st, RunLoop(cfg, st, s, i, env, defer).0)
    decreases Max(|st.running| - i, 0)
  {
    hide Place, Offer;
    if 0 <= i < |st.running| && s.budget > 0 {
      PlaceAside(cfg, st, s, i, st.running[i], env);
      var p := RunOne(cfg, st, s, i, env, defer);
      if p.ok {
        RunLoopAside(cfg, p.st, p.s, p.i, env, defer);
      }
    }
  }

  lemma {:induction false} PlaceAside(cfg: Config, st: State, s: Step, i: int, id: ReqId, env: Env)
    ensures Aside(st, Place(cfg, st, s, i, id, env).st)
    decreases |st.running|
  {
    hide VictimIndex;
    if !env.alloc(s.calls) && st.running != [] {
      var p := EvictOne(cfg, st, s.(calls := s.calls + 1), i);
      PlaceAside(cfg, p.st, p.s, p.i, id, env);
    }
  }

  /** What the waiting phase leaves of the step. */
  predicate Beyond(w: Wait, w1: Wait) {
    && w1.s.preempted == w.s.preempted && w1.s.scheduledRunning == w.s.scheduledRunning
    && w1.s.prefillScheduled == w.s.prefillScheduled
    && w1.st.pause == w.st.pause && w1.st.prefillBound == w.st.prefillBound
  }

  lemma {:induction false} WaitLoopBeyond(cfg: Config, w: Wait, env: Env, defer: bool)
    ensures Beyond(w, WaitLoop(cfg, w, env, defer))
    decreases |w.st.waiting| + |w.st.skipped|
  {
    hide WaitOne;
    if Open(cfg, w) {
      WaitOneBeyond(cfg, w, env, defer);
      var r := WaitOne(cfg, w, env, defer);
      if r.Again? {
        WaitLoopBeyond(cfg, r.w, env, defer);
      }
    }
  }

  lemma ConsiderBeyond(cfg: Config, w: Wait, fromSkipped: bool, k: nat, env: Env, defer: bool)
    requires k < |if fromSkipped then w.st.skipped else w.st.waiting|
    ensures Beyond(w, Consider(cfg, w, fromSkipped, k, env, defer).w)
  {
    hide Admitted, RemoveAt;
  }

  lemma WaitOneBeyond(cfg: Config, w: Wait, env: Env, defer: bool)
    requires Open(cfg, w)
    ensures Beyond(w, WaitOne(cfg, w, env, defer).w)
  {
    hide HeadIndex, RemoveAt, Consider;
    var fromSkipped := TakesSkipped(cfg, w.st);
    var q := if fromSkipped then w.st.skipped else w.st.waiting;
    var k := HeadIndex(cfg, w.st, q);
    ConsiderBeyond(cfg, w.(st := Promote(w.st, q[k])), fromSkipped, k, env, defer);
  }

  lemma PhasesFlag(cfg: Config, st: State, env: Env, throttle: bool)
    ensures var (st1, s) := Phases(cfg, st, env, throttle); Flagged(st, st1, s, Defers(st, throttle))
  {
    hide RunLoop, WaitLoop, Defers;
    var defer, start := Defers(st, throttle), StartStep(cfg, st);
    RunLoopMarks(cfg, st, st, start, 0, env, defer);
    RunLoopAside(cfg, st, start, 0, env, defer);
    var (st0, s0) := RunLoop(cfg, st, start, 0, env, defer);
    WaitLoopBeyond(cfg, Wait(st0, s0, []), env, defer);
  }

  /** What a step does as a whole, in every state between steps. */
  lemma StepOverall(cfg: Config, st: State, env: Env, throttle: bool)
    requires Inv(cfg, st, map[]) && PadSafe(cfg, env)
    ensures var (st1, s) := Schedule(cfg, st, env, throttle); Overall(st, st1, s, throttle)
  {
    var (st0, s) := Phases(cfg, st, env, throttle);
    forall id
      ensures id in st0.reqs <==> id in st.reqs
      ensures id in s.rows || id in s.preempted ==> id in st.reqs
      ensures st.pause != Unpaused && id in s.rows ==> id in st.running
    {
      PhasesTrace(cfg, st, env, throttle, id);
    }
    PhasesFlag(cfg, st, env, throttle);
    if st.pause == PausedAll {
      PausedStep(cfg, st, env, throttle);
      NoRowsNoChange(st);
    }
    assert Defers(st, throttle) == PutsOff(st, throttle);
    hide Inv, Phases, PadSafe, PutsOff, Defers;
    assert st0.reqs.Keys == st.reqs.Keys;
  }

  // ---------------------------------------------------------------------
  // First come, first served
  // ---------------------------------------------------------------------

  function Elems(q: seq<ReqId>): set<ReqId> {
    set id | id in q
  }

  /** The requests looked at so far are those in front of both queues: the admitted among
      them run, in order, and the others are held in order. */
  ghost predicate Lined(q0: seq<ReqId>, run0: seq<ReqId>, w: Wait) {
    var left := w.st.skipped + w.st.waiting;
    && |left| <= |q0| && q0[|q0| - |left|..] == left
    && run0 <= w.st.running
    && Reverse(w.held) == Without(q0[..|q0| - |left|], Elems(w.st.running))
    && Subseq(w.st.running[|run0|..], q0[..|q0| - |left|])
  }

  lemma ReverseCons(x: ReqId, q: seq<ReqId>)
    ensures Reverse([x] + q) == Reverse(q) + [x]
  {
  }

  lemma {:induction false} SubseqSnoc(s: seq<ReqId>, t: seq<ReqId>, x: ReqId)
    requires Subseq(s, t)
    ensures Subseq(s, t + [x]) && Subseq(s + [x], t + [x])
    decreases |t|
  {
    if t == [] {
      assert s + [x] == [x] && t + [x] == [x];
    } else {
      assert (t + [x])[1..] == t[1..] + [x];
      if s != [] && s[0] == t[0] && Subseq(s[1..], t[1..]) {
        assert (s + [x])[1..] == s[1..] + [x];
        SubseqSnoc(s[1..], t[1..], x);
      } else if s == [] {
        SubseqSnoc([], t[1..], x);
        assert [] + [x] == [x];
        assert s + [x] == [x];
        assert Subseq([x], t[1..] + [x]);
      } else {
        SubseqSnoc(s, t[1..], x);
      }
    }
  }

  lemma WithoutSnoc(q: seq<ReqId>, x: ReqId, gone: set<ReqId>)
    ensures Without(q + [x], gone) == Without(q, gone) + if x in gone then [] else [x]
  {
    WithoutConcat(q, [x], gone);
    assert [x][1..] == [];
  }

  /** The request in front is looked at. */
  ghost predicate Moved(w: Wait, w1: Wait, x: ReqId) {
    w.st.skipped + w.st.waiting == [x] + (w1.st.skipped + w1.st.waiting)
  }

  lemma MovedSplit(q0: seq<ReqId>, w: Wait, w1: Wait, x: ReqId)
    requires Moved(w, w1, x)
    requires var left := w.st.skipped + w.st.waiting; |left| <= |q0| && q0[|q0| - |left|..] == left
    ensures var left := w.st.skipped + w.st.waiting;
            var left1 := w1.st.skipped + w1.st.waiting;
            && |left1| == |left| - 1 && q0[|q0| - |left1|..] == left1
            && q0[..|q0| - |left1|] == q0[..|q0| - |left|] + [x]
            && q0 == q0[..|q0| - |left|] + left && left[0] == x
  {
    var left := w.st.skipped + w.st.waiting;
    assert q0 == q0[..|q0| - |left|] + left;
  }

  lemma HoldLines(q0: seq<ReqId>, run0: seq<ReqId>, w: Wait, w1: Wait, x: ReqId)
    requires Lined(q0, run0, w) && Moved(w, w1, x) && x !in w.st.running
    requires w1.st.running == w.st.running && w1.held == [x] + w.held
    ensures Lined(q0, run0, w1)
  {
    MovedSplit(q0, w, w1, x);
    ReverseCons(x, w.held);
    var c := q0[..|q0| - |w.st.skipped + w.st.waiting|];
    WithoutSnoc(c, x, Elems(w.st.running));
    SubseqSnoc(w.st.running[|run0|..], c, x);
    hide Subseq, Without, Reverse;
  }

  lemma FrontIsNew(q0: seq<ReqId>, c: seq<ReqId>, left: seq<ReqId>, x: ReqId)
    requires q0 == c + left && left != [] && left[0] == x && multiset(q0)[x] <= 1
    ensures x !in c
  {
    assert multiset(q0) == multiset(c) + multiset(left);
  }

  lemma AdmitLines(q0: seq<ReqId>, run0: seq<ReqId>, w: Wait, w1: Wait, x: ReqId)
    requires Lined(q0, run0, w) && Moved(w, w1, x) && multiset(q0)[x] <= 1
    requires w1.st.running == w.st.running + [x] && w1.held == w.held
    ensures Lined(q0, run0, w1)
  {
    hide Subseq, Without, Reverse, Elems, Moved;
    MovedSplit(q0, w, w1, x);
    var left := w.st.skipped + w.st.waiting;
    var c := q0[..|q0| - |left|];
    FrontIsNew(q0, c, left, x);
    AdmittedGoes(c, w.st.running, x);
    SubseqSnoc(w.st.running[|run0|..], c, x);
    assert w1.st.running[|run0|..] == w.st.running[|run0|..] + [x];
  }

  lemma AdmittedGoes(c: seq<ReqId>, run: seq<ReqId>, x: ReqId)
    requires x !in c
    ensures Without(c + [x], Elems(run + [x])) == Without(c, Elems(run))
  {
    WithoutSnoc(c, x, Elems(run + [x]));
    WithoutSame(c, Elems(run + [x]), Elems(run));
    hide Without;
  }

  lemma StayLines(q0: seq<ReqId>, run0: seq<ReqId>, w: Wait, w1: Wait)
    requires Lined(q0, run0, w) && w1.held == w.held && w1.st.running == w.st.running
    requires w1.st.skipped == w.st.skipped && w1.st.waiting == w.st.waiting
    ensures Lined(q0, run0, w1)
  {
    hide Subseq, Without, Reverse;
  }

  /** First come, first served looks at the front of the skipped queue, then of the other. */
  lemma FrontMoves(w: Wait, fromSkipped: bool)
    requires w.st.waiting != [] || w.st.skipped != []
    requires fromSkipped == (w.st.skipped != [])
    ensures Moved(w, w.(st := Pop(w.st, fromSkipped, 0)), At(w.st, fromSkipped, 0))
  {
  }

  /** Considering the request in front stays, holds it back, or admits it. */
  lemma ConsiderMoves(cfg: Config, w: Wait, fromSkipped: bool, env: Env, defer: bool)
    requires 0 < |if fromSkipped then w.st.skipped else w.st.waiting|
    ensures var w1 := Consider(cfg, w, fromSkipped, 0, env, defer).w;
            var x := At(w.st, fromSkipped, 0);
            || (w1.st == w.st && w1.held == w.held)
            || (&& w1.st.skipped == Pop(w.st, fromSkipped, 0).skipped &&
                w1.st.waiting == Pop(w.st, fromSkipped, 0).waiting
                && ((w1.st.running == w.st.running && w1.held == [x] + w.held)
                    || (w1.st.running == w.st.running + [x] && w1.held == w.held)))
  {
    hide Admitted, RemoveAt;
  }

  lemma ConsiderLines(cfg: Config, q0: seq<ReqId>, run0: seq<ReqId>, w: Wait, fromSkipped: bool, env: Env, defer: bool)
    requires Lined(q0, run0, w) && (w.st.waiting != [] || w.st.skipped != [])
    requires fromSkipped == (w.st.skipped != []) && At(w.st, fromSkipped, 0) !in w.st.running
    requires multiset(q0)[At(w.st, fromSkipped, 0)] <= 1
    ensures Lined(q0, run0, Consider(cfg, w, fromSkipped, 0, env, defer).w)
  {
    hide *;
    ConsiderMoves(cfg, w, fromSkipped, env, defer);
    FrontMoves(w, fromSkipped);
    var x := At(w.st, fromSkipped, 0);
    var w1 := Consider(cfg, w, fromSkipped, 0, env, defer).w;
    if w1.st == w.st && w1.held == w.held {
      StayLines(q0, run0, w, w1);
    } else {
      FrontAt(w, w1, w.(st := Pop(w.st, fromSkipped, 0)), x);
      if w1.st.running == w.st.running && w1.held == [x] + w.held {
        HoldLines(q0, run0, w, w1, x);
      } else {
        AdmitLines(q0, run0, w, w1, x);
      }
    }
  }

  lemma FrontAt(w: Wait, r: Wait, w1: Wait, x: ReqId)
    requires Moved(w, w1, x) && r.st.skipped == w1.st.skipped && r.st.waiting == w1.st.waiting
    ensures Moved(w, r, x)
  {
  }

  lemma PromoteAside(st: State, id: ReqId)
    ensures Promote(st, id) == st.(reqs := Promote(st, id).reqs)
  {
  }

  lemma WaitOneLines(cfg: Config, budget: int, q0: seq<ReqId>, run0: seq<ReqId>, w: Wait, env: Env, defer: bool)
    requires cfg.policy == Fcfs && Phase2(cfg, budget, w) && Open(cfg, w) && Lined(q0, run0, w)
    requires forall x :: multiset(q0)[x] <= 1
    ensures Lined(q0, run0, WaitOne(cfg, w, env, defer).w)
  {
    var fromSkipped := TakesSkipped(cfg, w.st);
    HeadIsPoppable(cfg, budget, w, fromSkipped, 0);
    FrontMoves(w, fromSkipped);
    var x := At(w.st, fromSkipped, 0);
    PromoteAside(w.st, x);
    var st1 := Pop(w.st, fromSkipped, 0);
    assert st1.running == w.st.running;
    hide Phase2, Mid, Lined, Consider, Pop, Moved, Promote, Poppable;
    if Blocked(w.st.Req(x).status) && x !in env.ready {
      var w1 := WaitOne(cfg, w, env, defer).w;
      FrontAt(w, w1, w.(st := st1), x);
      HoldLines(q0, run0, w, w1, x);
    } else {
      var w1 := w.(st := Promote(w.st, x));
      StayLines(q0, run0, w, w1);
      ConsiderLines(cfg, q0, run0, w1, fromSkipped, env, defer);
    }
  }

  lemma {:induction false} WaitLoopLines(cfg: Config, budget: int, q0: seq<ReqId>, run0: seq<ReqId>, w: Wait, env: Env,
                                         defer: bool)
    requires cfg.policy == Fcfs && Phase2(cfg, budget, w) && PadSafe(cfg, env) && Lined(q0, run0, w)
    requires forall x :: multiset(q0)[x] <= 1
    ensures Lined(q0, run0, WaitLoop(cfg, w, env, defer))
    decreases |w.st.waiting| + |w.st.skipped|
  {
    hide Phase2, WaitOne, Lined, PadSafe;
    if Open(cfg, w) {
      WaitOneLines(cfg, budget, q0, run0, w, env, defer);
      WaitOneKeepsMid(cfg, budget, w, env, defer);
      var r := WaitOne(cfg, w, env, defer);
      if r.Again? {
        WaitLoopLines(cfg, budget, q0, run0, r.w, env, defer);
      }
    }
  }

  /** The queues across a first-come-first-served step: preemption takes the last of the
      running ones back to the front; admission takes some of the waiting ones, in order,
      and leaves the others in order. */
  ghost predicate Queued(st: State, st1: State, s: Step) {
    if s.preempted != [] || st.pause != Unpaused then Order(st1) == Order(st) && st1.skipped == st.skipped
    else
      && st.running <= st1.running
      && Subseq(st1.running[|st.running|..], st.skipped + st.waiting)
      && st1.skipped + st1.waiting == Without(st.skipped + st.waiting, Elems(st1.running))
  }

  lemma LinedAtStart(st: State, s: Step)
    ensures Lined(st.skipped + st.waiting, st.running, Wait(st, s, []))
  {
    var q0 := st.skipped + st.waiting;
    assert q0[..0] == [] && q0[0..] == q0;
    assert st.running[|st.running|..] == [];
  }

  /** What was not looked at was not admitted either. */
  lemma LinedAtEnd(cfg: Config, budget: int, st: State, w: Wait)
    requires Phase2(cfg, budget, w) && Lined(st.skipped + st.waiting, st.running, w)
    ensures var st1 := Requeue(w);
            && st.running <= st1.running
            && Subseq(st1.running[|st.running|..], st.skipped + st.waiting)
            && st1.skipped + st1.waiting == Without(st.skipped + st.waiting, Elems(st1.running))
  {
    hide Phase2, Subseq, Without, Reverse, Elems;
    var q0, left := st.skipped + st.waiting, w.st.skipped + w.st.waiting;
    var c := q0[..|q0| - |left|];
    assert q0 == c + left;
    LeftWaits(cfg, budget, w);
    WithoutNone(left, Elems(w.st.running));
    WithoutConcat(c, left, Elems(w.st.running));
    SubseqMore(w.st.running[|st.running|..], c, left);
    RequeueJoins(w);
  }

  lemma RequeueJoins(w: Wait)
    ensures Requeue(w).running == w.st.running
    ensures Requeue(w).skipped + Requeue(w).waiting == Reverse(w.held) + (w.st.skipped + w.st.waiting)
  {
  }

  lemma LeftWaits(cfg: Config, budget: int, w: Wait)
    requires Phase2(cfg, budget, w)
    ensures forall x :: x in w.st.skipped + w.st.waiting ==> x !in Elems(w.st.running)
  {
    forall x | x in w.st.skipped + w.st.waiting ensures x !in w.st.running {
      Once(w.st, w.held, x);
    }
  }

  lemma {:induction false} SubseqMore(s: seq<ReqId>, t: seq<ReqId>, u: seq<ReqId>)
    requires Subseq(s, t)
    ensures Subseq(s, t + u)
    decreases |u|
  {
    if u == [] {
      assert t + u == t;
    } else {
      SubseqSnoc(s, t, u[0]);
      assert t + [u[0]] + u[1..] == t + u;
      SubseqMore(s, t + [u[0]], u[1..]);
    }
  }

  lemma QueueOnce(cfg: Config, budget: int, st: State, s: Step, x: ReqId)
    requires Mid(cfg, budget, st, s, [])
    ensures multiset(st.skipped + st.waiting)[x] <= 1
  {
    Once(st, [], x);
  }

  lemma {:induction false} RunLoopStands(cfg: Config, st: State, s: Step, i: int, env: Env, defer: bool)
    ensures var e := RunLoop(cfg, st, s, i, env, defer);
            e.1.preempted == [] ==> e.0.running == st.running && e.0.waiting == st.waiting && s.preempted == []
    decreases Max(|st.running| - i, 0)
  {
    hide RunOne;
    if 0 <= i < |st.running| && s.budget > 0 {
      RunOneStands(cfg, st, s, i, env, defer);
      var p := RunOne(cfg, st, s, i, env, defer);
      if p.ok {
        RunLoopStands(cfg, p.st, p.s, p.i, env, defer);
      }
    }
  }

  lemma RunOneStands(cfg: Config, st: State, s: Step, i: nat, env: Env, defer: bool)
    requires i < |st.running|
    ensures var p := RunOne(cfg, st, s, i, env, defer);
            p.s.preempted == [] ==> p.st.running == st.running && p.st.waiting == st.waiting && s.preempted == []
  {
    hide Offer, Place;
    var x := st.running[i];
    PlaceIsCalm(cfg, st, s, i, x, env);
    PreemptedGrows(cfg, st, s, i, x, env);
  }

  /** First come, first served over a whole step, whatever waits, is held back or is
      blocked. */
  lemma StepQueues(cfg: Config, st: State, env: Env, throttle: bool)
    requires Inv(cfg, st, map[]) && PadSafe(cfg, env) && cfg.policy == Fcfs
    ensures var (st1, s) := Schedule(cfg, st, env, throttle); Queued(st, st1, s)
  {
    var defer, budget, start := Defers(st, throttle), StartBudget(cfg, st), StartStep(cfg, st);
    StartKeepsMid(cfg, st);
    hide Inv, Mid, Indexed, NoneAdmitted, RunLoop, WaitLoop, PadSafe, Defers, Phase2, Lined, Requeue;
    RunLoopKeepsMid(cfg, budget, st, start, 0, env, defer);
    RunLoopKeepsOrder(cfg, st, start, 0, env, defer);
    RunLoopStands(cfg, st, start, 0, env, defer);
    RunLoopAside(cfg, st, start, 0, env, defer);
    WaitingStarts(cfg, st, env, defer);
    var (st0, s0) := RunLoop(cfg, st, start, 0, env, defer);
    if s0.preempted == [] && st0.pause == Unpaused {
      var w0 := Wait(st0, s0, []);
      LinedAtStart(st0, s0);
      forall x ensures multiset(st0.skipped + st0.waiting)[x] <= 1 {
        QueueOnce(cfg, budget, st0, s0, x);
      }
      WaitLoopLines(cfg, budget, st0.skipped + st0.waiting, st0.running, w0, env, defer);
      WaitLoopKeepsMid(cfg, budget, w0, env, defer);
      WaitLoopBeyond(cfg, w0, env, defer);
      LinedAtEnd(cfg, budget, st0, WaitLoop(cfg, w0, env, defer));
    }
  }

  // ---------------------------------------------------------------------
  // When admission ends
  // ---------------------------------------------------------------------

  /** The next request to look at: the front of the skipped queue and then of the other, or
      one that no other precedes. */
  ghost predicate IsNext(cfg: Config, st: State, x: ReqId) {
    && x in st.skipped + st.waiting
    && (cfg.policy == Fcfs ==> x == (st.skipped + st.waiting)[0])
    && (cfg.policy == Priority ==> NonePrecedes(st, x))
  }

  ghost predicate NonePrecedes(st: State, x: ReqId) {
    forall y :: y in st.waiting + st.skipped ==> !Before(st.Req(y), st.Req(x))
  }

  /** A reason to admit nobody any more: the request in line is a prefill that is put off,
      or would be padded beyond the budget or the length of the model, or is to come whole
      and does not fit, or is trimmed to nothing, or the blocks for it were refused. */
  predicate Refused(cfg: Config, r: Request, s: Step, env: Env, defer: bool, id: ReqId) {
    var computed := Cached(r, env, id);
    var padded := Pads(cfg, r, computed, s);
    var wanted := if padded then 1 + cfg.numSpecTokens else |r.tokens| - computed;
    || (defer && |r.tokens| - computed > 1)
    || (padded && (s.budget < wanted || cfg.maxModelLen < computed + wanted))
    || (!cfg.chunkedPrefill && s.budget < wanted &&
        (cfg.longPrefillThreshold == 0 || s.budget < cfg.longPrefillThreshold))
    || env.cap(id, padded) == 0
    || (s.calls > 0 && !env.alloc(s.calls - 1))
  }

  /** Admission ends with both queues looked through, no budget, a full running list, as
      many prefills as may be under way, or the next request refused. */
  ghost predicate Ended(cfg: Config, w: Wait, env: Env, defer: bool) {
    !Open(cfg, w) || exists x :: IsNext(cfg, w.st, x) && Refused(cfg, w.st.Req(x), w.s, env, defer, x)
  }

  lemma StopIsRefusal(cfg: Config, r: Request, s: Step, env: Env, defer: bool, id: ReqId)
    requires r.numComputed == 0 && |r.tokens| > 0 && s.budget > 0
    ensures var decodesOnly := s.scheduledRunning != [] && !s.prefillScheduled;
            var a := Admitted(cfg, r, s.budget, env.hit(id), pad => env.cap(id, pad), decodesOnly, defer);
            !a.Fault? && (a.Stop? ==> Refused(cfg, r, s, env, defer, id))
  {
  }

  lemma ConsiderEnds(cfg: Config, w: Wait, fromSkipped: bool, k: nat, env: Env, defer: bool)
    requires k < |if fromSkipped then w.st.skipped else w.st.waiting|
    requires Poppable(w.st, At(w.st, fromSkipped, k)) && w.s.budget > 0
    ensures var r := Consider(cfg, w, fromSkipped, k, env, defer);
            var x := At(w.st, fromSkipped, k);
            r.Done? ==> r.w.st == w.st && Refused(cfg, w.st.Req(x), r.w.s, env, defer, x)
  {
    var x := At(w.st, fromSkipped, k);
    StopIsRefusal(cfg, w.st.Req(x), w.s, env, defer, x);
    hide Admitted, Pop, Enroll, Cached, Pads;
  }

  lemma NextStands(cfg: Config, st: State, x: ReqId)
    requires st.waiting != [] || st.skipped != []
    requires var q := if TakesSkipped(cfg, st) then st.skipped else st.waiting;
             q != [] && x == q[HeadIndex(cfg, st, q)]
    ensures IsNext(cfg, Promote(st, x), x)
  {
    NextIsLeast(cfg, st);
    hide HeadIndex, TakesSkipped;
    var st1 := Promote(st, x);
    assert forall y :: st1.Req(y) == st.Req(y).(status := st1.Req(y).status);
  }

  lemma WaitOneEnds(cfg: Config, budget: int, w: Wait, env: Env, defer: bool)
    requires Phase2(cfg, budget, w) && Open(cfg, w)
    ensures var r := WaitOne(cfg, w, env, defer); r.Done? ==> Ended(cfg, r.w, env, defer)
  {
    var fromSkipped := TakesSkipped(cfg, w.st);
    var q := if fromSkipped then w.st.skipped else w.st.waiting;
    var k := HeadIndex(cfg, w.st, q);
    var x := q[k];
    HeadIsPoppable(cfg, budget, w, fromSkipped, k);
    NextStands(cfg, w.st, x);
    hide Phase2, Mid, HeadIndex, TakesSkipped, Consider, Pop, Promote, IsNext, Refused, Poppable;
    if !(Blocked(w.st.Req(x).status) && x !in env.ready) {
      var w1 := w.(st := Promote(w.st, x));
      ConsiderEnds(cfg, w1, fromSkipped, k, env, defer);
    }
  }

  lemma {:induction false} WaitLoopEnds(cfg: Config, budget: int, w: Wait, env: Env, defer: bool)
    requires Phase2(cfg, budget, w) && PadSafe(cfg, env)
    ensures Ended(cfg, WaitLoop(cfg, w, env, defer), env, defer)
    decreases |w.st.waiting| + |w.st.skipped|
  {
    hide Phase2, WaitOne, PadSafe, IsNext, Refused;
    if Open(cfg, w) {
      WaitOneEnds(cfg, budget, w, env, defer);
      WaitOneKeepsMid(cfg, budget, w, env, defer);
      var r := WaitOne(cfg, w, env, defer);
      if r.Again? {
        WaitLoopEnds(cfg, budget, r.w, env, defer);
      }
    }
  }
}

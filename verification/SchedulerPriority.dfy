/**
 The priority policy over a whole step: nobody is preempted while a request that comes
 after it goes on running, and nobody is admitted past one that comes before it.
 */
module SchedulerPriority {
  import opened Seqs
  import opened SchedulerState
  import opened SchedulerStep
  import opened SchedulerAdmission
  import opened SchedulerOrder
  import opened SchedulerPhases

  /** The keys of the requests stand, and none has become blocked. */
  ghost predicate SameKeys(st0: State, st: State) {
    && (forall x :: st.Req(x).priority == st0.Req(x).priority && st.Req(x).arrival == st0.Req(x).arrival)
    && forall x :: Blocked(st.Req(x).status) ==> Blocked(st0.Req(x).status)
  }

  // ---------------------------------------------------------------------
  // Preemption
  // ---------------------------------------------------------------------

  /** No preempted request comes before one that still runs. */
  ghost predicate Ranked(st0: State, st: State, s: Step) {
    && SameKeys(st0, st)
    && forall v, x :: v in s.preempted && x in st.running ==> !Before(st0.Req(v), st0.Req(x))
  }

  lemma EvictKeys(cfg: Config, st: State, s: Step, i: int)
    requires st.running != []
    ensures var p := EvictOne(cfg, st, s, i);
            var v := VictimIndex(cfg, st, st.running);
            && SameKeys(st, p.st) && p.s.preempted == s.preempted + [st.running[v]]
            && p.st.running == RemoveAt(st.running, v)
  {
    hide VictimIndex, RemoveAt;
  }

  lemma Fewer(q: seq<ReqId>, v: nat)
    requires v < |q|
    ensures forall x :: x in RemoveAt(q, v) ==> x in q
  {
  }

  lemma GreatestOf(cfg: Config, st: State)
    requires st.running != [] && cfg.policy == Priority
    ensures var v := VictimIndex(cfg, st, st.running);
            forall x :: x in st.running ==> !Before(st.Req(st.running[v]), st.Req(x))
  {
    VictimIsGreatest(cfg, st, st.running);
    hide VictimIndex, Before;
  }

  lemma EvictRanks(cfg: Config, st0: State, st: State, s: Step, i: int)
    requires Ranked(st0, st, s) && st.running != [] && cfg.policy == Priority
    ensures var p := EvictOne(cfg, st, s, i); Ranked(st0, p.st, p.s) && |p.st.running| < |st.running|
  {
    hide EvictOne, VictimIndex, RemoveAt;
    EvictKeys(cfg, st, s, i);
    GreatestOf(cfg, st);
    Fewer(st.running, VictimIndex(cfg, st, st.running));
  }

  lemma {:induction false} PlaceRanks(cfg: Config, st0: State, st: State, s: Step, i: int, id: ReqId, env: Env)
    requires Ranked(st0, st, s) && cfg.policy == Priority
    ensures var p := Place(cfg, st, s, i, id, env); Ranked(st0, p.st, p.s)
    decreases |st.running|
  {
    hide EvictOne, SameKeys, Before;
    if !env.alloc(s.calls) && st.running != [] {
      var s1 := s.(calls := s.calls + 1);
      EvictRanks(cfg, st0, st, s1, i);
      var p := EvictOne(cfg, st, s1, i);
      PlaceRanks(cfg, st0, p.st, p.s, p.i, id, env);
    }
  }

  lemma RunOneRanks(cfg: Config, st0: State, st: State, s: Step, i: nat, env: Env, defer: bool)
    requires Ranked(st0, st, s) && cfg.policy == Priority && i < |st.running|
    ensures var p := RunOne(cfg, st, s, i, env, defer); Ranked(st0, p.st, p.s)
  {
    hide Offer, Place, Before;
    PlaceRanks(cfg, st0, st, s, i, st.running[i], env);
  }

  lemma {:induction false} RunLoopRanks(cfg: Config, st0: State, st: State, s: Step, i: int, env: Env, defer: bool)
    requires Ranked(st0, st, s) && cfg.policy == Priority
    ensures var e := RunLoop(cfg, st, s, i, env, defer); Ranked(st0, e.0, e.1)
    decreases Max(|st.running| - i, 0)
  {
    hide RunOne, Ranked;
    if 0 <= i < |st.running| && s.budget > 0 {
      RunOneRanks(cfg, st0, st, s, i, env, defer);
      var p := RunOne(cfg, st, s, i, env, defer);
      if p.ok {
        RunLoopRanks(cfg, st0, p.st, p.s, p.i, env, defer);
      }
    }
  }

  // ---------------------------------------------------------------------
  // Admission
  // ---------------------------------------------------------------------

  /** A request that admission passes over: held back, or its grammar is not ready. */
  predicate PassedOver(st0: State, env: Env, id: ReqId) {
    id in env.held || (Blocked(st0.Req(id).status) && id !in env.ready)
  }

  /** Nobody admitted came after one that is still in a queue. */
  ghost predicate Chosen(st0: State, env: Env, w: Wait) {
    && SameKeys(st0, w.st)
    && (forall y :: y in w.held ==> PassedOver(st0, env, y))
    && forall x, y :: x in w.st.running && x !in st0.running && y in w.st.waiting + w.st.skipped ==>
         !Before(st0.Req(y), st0.Req(x))
  }

  lemma PopFewer(st: State, fromSkipped: bool, k: nat)
    requires k < |if fromSkipped then st.skipped else st.waiting|
    ensures var st1 := Pop(st, fromSkipped, k);
            && st1.reqs == st.reqs && st1.running == st.running
            && forall y :: y in st1.waiting + st1.skipped ==> y in st.waiting + st.skipped
  {
  }

  lemma HoldChooses(st0: State, env: Env, w: Wait, st1: State, x: ReqId)
    requires Chosen(st0, env, w) && PassedOver(st0, env, x) && st1.reqs == w.st.reqs && st1.running == w.st.running
    requires forall y :: y in st1.waiting + st1.skipped ==> y in w.st.waiting + w.st.skipped
    ensures Chosen(st0, env, w.(st := st1, held := [x] + w.held))
  {
    hide PassedOver, Before;
  }

  lemma EnrollChooses(st0: State, env: Env, w: Wait, st1: State, s: Step, x: ReqId, row: Row, computed: int)
    requires Chosen(st0, env, w) && NonePrecedes(w.st, x) && st1.reqs == w.st.reqs && st1.running == w.st.running
    requires forall y :: y in st1.waiting + st1.skipped ==> y in w.st.waiting + w.st.skipped
    ensures var e := Enroll(st1, s, x, row, computed); Chosen(st0, env, Wait(e.0, e.1, w.held))
  {
    hide PassedOver;
    var e := Enroll(st1, s, x, row, computed);
    assert e.0.waiting == st1.waiting && e.0.skipped == st1.skipped;
    forall y ensures e.0.Req(y).priority == w.st.Req(y).priority && e.0.Req(y).arrival == w.st.Req(y).arrival {
    }
    assert forall y :: Blocked(e.0.Req(y).status) ==> Blocked(w.st.Req(y).status);
    assert forall y :: y in st1.waiting + st1.skipped ==> !Before(st0.Req(y), st0.Req(x));
  }

  lemma ConsiderChooses(cfg: Config, st0: State, w: Wait, fromSkipped: bool, k: nat, env: Env, defer: bool)
    requires k < |if fromSkipped then w.st.skipped else w.st.waiting|
    requires Chosen(st0, env, w) && NonePrecedes(w.st, At(w.st, fromSkipped, k))
    ensures Chosen(st0, env, Consider(cfg, w, fromSkipped, k, env, defer).w)
  {
    hide Admitted, Pop, Enroll, NonePrecedes;
    var x := At(w.st, fromSkipped, k);
    PopFewer(w.st, fromSkipped, k);
    var st1 := Pop(w.st, fromSkipped, k);
    var decodesOnly := w.s.scheduledRunning != [] && !w.s.prefillScheduled;
    var a := Admitted(cfg, w.st.Req(x), w.s.budget, env.hit(x), pad => env.cap(x, pad), decodesOnly, defer);
    if x in env.held {
      HoldChooses(st0, env, w, st1, x);
    } else if a.Admit? {
      EnrollChooses(st0, env, w, st1, w.s.(calls := w.s.calls + 1), x, a.row, a.computed);
    }
  }

  lemma PromoteChooses(st0: State, env: Env, w: Wait, x: ReqId)
    requires Chosen(st0, env, w) && NonePrecedes(w.st, x)
    ensures var st1 := Promote(w.st, x); Chosen(st0, env, w.(st := st1)) && NonePrecedes(st1, x)
  {
    hide PassedOver;
    var st1 := Promote(w.st, x);
    assert forall y :: st1.Req(y) == w.st.Req(y).(status := st1.Req(y).status);
  }

  lemma WaitOneChooses(cfg: Config, st0: State, w: Wait, env: Env, defer: bool)
    requires cfg.policy == Priority && Open(cfg, w) && Chosen(st0, env, w)
    ensures Chosen(st0, env, WaitOne(cfg, w, env, defer).w)
  {
    NextIsLeast(cfg, w.st);
    var fromSkipped := TakesSkipped(cfg, w.st);
    var q := if fromSkipped then w.st.skipped else w.st.waiting;
    var k := HeadIndex(cfg, w.st, q);
    var x := q[k];
    PopFewer(w.st, fromSkipped, k);
    hide HeadIndex, TakesSkipped, Consider, Pop;
    if Blocked(w.st.Req(x).status) && x !in env.ready {
      HoldChooses(st0, env, w, Pop(w.st, fromSkipped, k), x);
    } else {
      PromoteChooses(st0, env, w, x);
      ConsiderChooses(cfg, st0, w.(st := Promote(w.st, x)), fromSkipped, k, env, defer);
    }
  }

  lemma {:induction false} WaitLoopChooses(cfg: Config, st0: State, w: Wait, env: Env, defer: bool)
    requires cfg.policy == Priority && Chosen(st0, env, w)
    ensures Chosen(st0, env, WaitLoop(cfg, w, env, defer))
    decreases |w.st.waiting| + |w.st.skipped|
  {
    hide WaitOne, Chosen;
    if Open(cfg, w) {
      WaitOneChooses(cfg, st0, w, env, defer);
      var r := WaitOne(cfg, w, env, defer);
      if r.Again? {
        WaitLoopChooses(cfg, st0, r.w, env, defer);
      }
    }
  }

  // ---------------------------------------------------------------------
  // A whole step
  // ---------------------------------------------------------------------

  /** No request is preempted that comes before one that goes on running; and no request
      is admitted that comes after one left waiting, unless that one was passed over. */
  ghost predicate ByPriority(st: State, st1: State, s: Step, env: Env) {
    && (forall v, x :: v in s.preempted && x in st1.running ==> !Before(st.Req(v), st.Req(x)))
    && forall x, y ::
         x in st1.running && x !in st.running && y in st1.waiting + st1.skipped && !PassedOver(st, env, y) ==>
         !Before(st.Req(y), st.Req(x))
  }

  lemma ChosenAtEnd(st0: State, env: Env, w: Wait, s: Step, bound: bool)
    requires Chosen(st0, env, w) && s.preempted == []
    ensures ByPriority(st0, Requeue(w).(prefillBound := bound), s, env)
  {
    hide PassedOver, Before;
    ReverseMultiset(w.held);
    var st1 := Requeue(w);
    forall y | y in st1.waiting + st1.skipped ensures y in w.held || y in w.st.waiting + w.st.skipped {
      if y in Reverse(w.held) {
        assert y in multiset(w.held);
      }
    }
  }

  lemma RankedAtEnd(st0: State, env: Env, st: State, s: Step)
    requires Ranked(st0, st, s) && forall x :: x in st.running ==> x in st0.running
    ensures ByPriority(st0, st, s, env)
  {
    hide PassedOver, Before;
  }

  lemma {:induction false} RunLoopFewer(cfg: Config, st: State, s: Step, i: int, env: Env, defer: bool)
    ensures forall x :: x in RunLoop(cfg, st, s, i, env, defer).0.running ==> x in st.running
    decreases Max(|st.running| - i, 0)
  {
    hide Place, Offer;
    if 0 <= i < |st.running| && s.budget > 0 {
      PlaceFewer(cfg, st, s, i, st.running[i], env);
      var p := RunOne(cfg, st, s, i, env, defer);
      if p.ok {
        RunLoopFewer(cfg, p.st, p.s, p.i, env, defer);
      }
    }
  }

  lemma {:induction false} PlaceFewer(cfg: Config, st: State, s: Step, i: int, id: ReqId, env: Env)
    ensures forall x :: x in Place(cfg, st, s, i, id, env).st.running ==> x in st.running
    decreases |st.running|
  {
    hide EvictOne, VictimIndex, RemoveAt;
    if !env.alloc(s.calls) && st.running != [] {
      var s1 := s.(calls := s.calls + 1);
      EvictKeys(cfg, st, s1, i);
      Fewer(st.running, VictimIndex(cfg, st, st.running));
      var p := EvictOne(cfg, st, s1, i);
      PlaceFewer(cfg, p.st, p.s, p.i, id, env);
    }
  }

  lemma StepByPriority(cfg: Config, st: State, env: Env, throttle: bool)
    requires cfg.policy == Priority
    ensures var (st1, s) := Schedule(cfg, st, env, throttle); ByPriority(st, st1, s, env)
  {
    var defer, start := Defers(st, throttle), StartStep(cfg, st);
    assert Ranked(st, st, start);
    hide RunLoop, WaitLoop, Defers, SameKeys, Before, PassedOver, Requeue;
    RunLoopRanks(cfg, st, st, start, 0, env, defer);
    RunLoopFewer(cfg, st, start, 0, env, defer);
    RunLoopStands(cfg, st, start, 0, env, defer);
    RunLoopAside(cfg, st, start, 0, env, defer);
    var (st0, s0) := RunLoop(cfg, st, start, 0, env, defer);
    if s0.preempted == [] && st0.pause == Unpaused {
      var w0 := Wait(st0, s0, []);
      assert Chosen(st, env, w0);
      WaitLoopChooses(cfg, st, w0, env, defer);
      WaitLoopBeyond(cfg, w0, env, defer);
      var w := WaitLoop(cfg, w0, env, defer);
      ChosenAtEnd(st, env, w, w.s, Requeue(w).prefillBound);
      ChosenAtEnd(st, env, w, w.s, Requeue(w).waiting != []);
      assert Requeue(w).(prefillBound := Requeue(w).prefillBound) == Requeue(w);
    } else {
      RankedAtEnd(st, env, st0, s0);
    }
  }
}

/**
 Drafts across a step: a request that waits or still prefills carries none, and no call
 but the arrival of new drafts changes that.
 */
module SchedulerDrafts {
  import opened Seqs
  import opened SchedulerState
  import opened SchedulerStep
  import opened SchedulerInvariants
  import opened SchedulerAdmission

  /** No request that waits or is still prefilling carries drafts. */
  ghost predicate NoStaleDrafts(st: State) {
    forall id :: id in st.reqs && (id !in st.running || st.reqs[id].isPrefillChunk) ==> st.reqs[id].spec == []
  }

  /** Inside a step the scheduled requests carry none either: theirs are in the rows. */
  ghost predicate Cleared(st: State, s: Step) {
    NoStaleDrafts(st) && forall id :: id in st.reqs && id in s.rows ==> st.reqs[id].spec == []
  }

  lemma EvictKeepsCleared(cfg: Config, st: State, s: Step, i: int)
    requires Cleared(st, s) && st.running != []
    ensures var p := EvictOne(cfg, st, s, i); Cleared(p.st, p.s)
  {
    var v := VictimIndex(cfg, st, st.running);
    var id := st.running[v];
    var p := EvictOne(cfg, st, s, i);
    assert p.s.rows.Keys <= s.rows.Keys;
    forall x | x in st.running && x != id ensures x in p.st.running {
      var k :| 0 <= k < |st.running| && st.running[k] == x;
      assert x == if k < v then p.st.running[k] else p.st.running[k - 1];
    }
    hide VictimIndex, Refund;
  }

  lemma {:induction false} PlaceKeepsCleared(cfg: Config, st: State, s: Step, i: int, id: ReqId, env: Env)
    requires Cleared(st, s)
    ensures var p := Place(cfg, st, s, i, id, env); Cleared(p.st, p.s)
    decreases |st.running|
  {
    hide Cleared, EvictOne;
    var s1 := s.(calls := s.calls + 1);
    CallsDoNotMatter(st, s, s.calls + 1, s.fault);
    CallsDoNotMatter(st, s, s.calls + 1, true);
    if !env.alloc(s.calls) && st.running != [] {
      EvictKeepsCleared(cfg, st, s1, i);
      var p := EvictOne(cfg, st, s1, i);
      assert |p.st.running| < |st.running| by {
        EvictOneShorter(cfg, st, s1, i);
      }
      PlaceKeepsCleared(cfg, p.st, p.s, p.i, id, env);
    }
  }

  lemma EvictOneShorter(cfg: Config, st: State, s: Step, i: int)
    requires st.running != []
    ensures |EvictOne(cfg, st, s, i).st.running| < |st.running|
  {
  }

  lemma CallsDoNotMatter(st: State, s: Step, calls: nat, fault: bool)
    requires Cleared(st, s)
    ensures Cleared(st, s.(calls := calls)) && Cleared(st, s.(calls := calls, fault := fault))
  {
  }

  lemma EnterKeepsCleared(st: State, s: Step, id: ReqId, n: int)
    requires Cleared(st, s)
    ensures var e := Enter(st, s, id, n); Cleared(e.0, e.1)
  {
    hide RowDrafts;
  }

  lemma {:induction false} RunLoopKeepsCleared(cfg: Config, st: State, s: Step, i: int, env: Env, defer: bool)
    requires Cleared(st, s)
    ensures var e := RunLoop(cfg, st, s, i, env, defer); Cleared(e.0, e.1)
    decreases Max(|st.running| - i, 0)
  {
    hide Cleared, RunOne;
    if 0 <= i < |st.running| && s.budget > 0 {
      RunOneKeepsCleared(cfg, st, s, i, env, defer);
      var p := RunOne(cfg, st, s, i, env, defer);
      if p.ok {
        RunLoopKeepsCleared(cfg, p.st, p.s, p.i, env, defer);
      }
    }
  }

  lemma RunOneKeepsCleared(cfg: Config, st: State, s: Step, i: nat, env: Env, defer: bool)
    requires Cleared(st, s) && i < |st.running|
    ensures var p := RunOne(cfg, st, s, i, env, defer); Cleared(p.st, p.s)
  {
    hide Cleared, Offer, Place, Enter;
    var id := st.running[i];
    var n := Offer(cfg, st, s, id, env, defer);
    PlaceKeepsCleared(cfg, st, s, i, id, env);
    var p := Place(cfg, st, s, i, id, env);
    EnterKeepsCleared(p.st, p.s, id, n);
  }

  // ---------------------------------------------------------------------
  // The waiting phase
  // ---------------------------------------------------------------------

  /** A request is admitted without drafts, as it waited without. */
  lemma EnrollKeepsCleared(st: State, s: Step, fromSkipped: bool, k: nat, row: Row, computed: int)
    requires k < |if fromSkipped then st.skipped else st.waiting|
    requires Cleared(st, s) && At(st, fromSkipped, k) !in st.running
    ensures var e := Enroll(Pop(st, fromSkipped, k), s, At(st, fromSkipped, k), row, computed); Cleared(e.0, e.1)
  {
    var id := At(st, fromSkipped, k);
    assert st.Req(id).spec == [];
  }

  lemma PopKeepsCleared(st: State, s: Step, fromSkipped: bool, k: nat)
    requires k < |if fromSkipped then st.skipped else st.waiting| && Cleared(st, s)
    ensures Cleared(Pop(st, fromSkipped, k), s)
  {
  }

  lemma PromoteKeepsCleared(st: State, s: Step, id: ReqId)
    requires Cleared(st, s) && id in st.reqs
    ensures Cleared(Promote(st, id), s)
  {
  }

  lemma ConsiderKeepsCleared(cfg: Config, w: Wait, fromSkipped: bool, k: nat, env: Env, defer: bool)
    requires k < |if fromSkipped then w.st.skipped else w.st.waiting|
    requires Cleared(w.st, w.s) && At(w.st, fromSkipped, k) !in w.st.running
    ensures var r := Consider(cfg, w, fromSkipped, k, env, defer); Cleared(r.w.st, r.w.s)
  {
    hide Cleared, Pop, Enroll, Admitted;
    var id := At(w.st, fromSkipped, k);
    var s := w.s.(calls := w.s.calls + 1);
    var decodesOnly := w.s.scheduledRunning != [] && !w.s.prefillScheduled;
    var a := Admitted(cfg, w.st.Req(id), w.s.budget, env.hit(id), pad => env.cap(id, pad), decodesOnly, defer);
    CallsDoNotMatter(w.st, w.s, w.s.calls + 1, w.s.fault);
    CallsDoNotMatter(w.st, w.s, w.s.calls, true);
    PopKeepsCleared(w.st, w.s, fromSkipped, k);
    if a.Admit? {
      EnrollKeepsCleared(w.st, s, fromSkipped, k, a.row, a.computed);
    }
  }

  lemma WaitOneKeepsCleared(cfg: Config, budget: int, w: Wait, env: Env, defer: bool)
    requires Phase2(cfg, budget, w) && Open(cfg, w) && Cleared(w.st, w.s)
    ensures var r := WaitOne(cfg, w, env, defer); Cleared(r.w.st, r.w.s)
  {
    var fromSkipped := TakesSkipped(cfg, w.st);
    var q := if fromSkipped then w.st.skipped else w.st.waiting;
    var k := HeadIndex(cfg, w.st, q);
    var id := q[k];
    HeadFacts(cfg, budget, w.st, w.s, w.held, fromSkipped, k);
    hide Phase2, Mid, HeadIndex, TakesSkipped, Open, Consider, Pop, Cleared;
    PromoteKeepsCleared(w.st, w.s, id);
    PopKeepsCleared(w.st, w.s, fromSkipped, k);
    var w1 := w.(st := Promote(w.st, id));
    assert At(w1.st, fromSkipped, k) == id && w1.st.running == w.st.running;
    ConsiderKeepsCleared(cfg, w1, fromSkipped, k, env, defer);
  }

  lemma {:induction false} WaitLoopKeepsCleared(cfg: Config, budget: int, w: Wait, env: Env, defer: bool)
    requires Phase2(cfg, budget, w) && PadSafe(cfg, env) && Cleared(w.st, w.s)
    ensures var w1 := WaitLoop(cfg, w, env, defer); Cleared(w1.st, w1.s)
    decreases |w.st.waiting| + |w.st.skipped|
  {
    hide Phase2, WaitOne, Cleared, PadSafe;
    if Open(cfg, w) {
      WaitOneKeepsCleared(cfg, budget, w, env, defer);
      WaitOneKeepsMid(cfg, budget, w, env, defer);
      var r := WaitOne(cfg, w, env, defer);
      if r.Again? {
        WaitLoopKeepsCleared(cfg, budget, r.w, env, defer);
      }
    }
  }

  // ---------------------------------------------------------------------
  // Whole calls
  // ---------------------------------------------------------------------

  lemma PhasesKeepCleared(cfg: Config, st: State, env: Env, throttle: bool)
    requires Inv(cfg, st, map[]) && PadSafe(cfg, env) && NoStaleDrafts(st)
    ensures var e := Phases(cfg, st, env, throttle); Cleared(e.0, e.1)
  {
    var budget := StartBudget(cfg, st);
    var defer := Defers(st, throttle);
    assert Cleared(st, StartStep(cfg, st));
    hide Mid, Inv, RunLoop, WaitLoop, Cleared, PadSafe, Defers, Phase2;
    RunLoopKeepsCleared(cfg, st, StartStep(cfg, st), 0, env, defer);
    WaitingStarts(cfg, st, env, defer);
    var e := RunLoop(cfg, st, StartStep(cfg, st), 0, env, defer);
    if e.1.preempted == [] && e.0.pause == Unpaused {
      WaitLoopKeepsCleared(cfg, budget, Wait(e.0, e.1, []), env, defer);
      var w := WaitLoop(cfg, Wait(e.0, e.1, []), env, defer);
      QueuesDoNotMatter(w.st, w.s, Requeue(w).skipped, w.st.prefillBound);
      QueuesDoNotMatter(w.st, w.s, Requeue(w).skipped, Requeue(w).waiting != []);
    }
  }

  lemma QueuesDoNotMatter(st: State, s: Step, skipped: seq<ReqId>, bound: bool)
    requires Cleared(st, s)
    ensures Cleared(st.(skipped := skipped, prefillBound := bound), s) && Cleared(st.(skipped := skipped), s)
  {
  }

  lemma ScheduleKeepsDrafts(cfg: Config, st: State, env: Env, throttle: bool)
    requires Inv(cfg, st, map[]) && PadSafe(cfg, env) && NoStaleDrafts(st)
    ensures NoStaleDrafts(Schedule(cfg, st, env, throttle).0)
  {
    PhasesKeepCleared(cfg, st, env, throttle);
    hide Phases, Inv, PadSafe;
  }

  lemma UpdateKeepsDrafts(cfg: Config, isEos: Token -> bool, st: State, rows: map<ReqId, Row>, ans: Answer)
    requires NoStaleDrafts(st)
    ensures NoStaleDrafts(Update(cfg, isEos, st, rows, ans))
  {
    var st1 := Update(cfg, isEos, st, rows, ans);
    forall id | id in st1.reqs
      ensures st1.reqs[id].spec == st.reqs[id].spec && st1.reqs[id].isPrefillChunk == st.reqs[id].isPrefillChunk
    {
    }
  }

  lemma FinishKeepsDrafts(st: State, ids: set<ReqId>)
    requires NoStaleDrafts(st)
    ensures NoStaleDrafts(Finish(st, ids))
  {
  }

  lemma {:induction false} PreemptAllKeepsDrafts(st: State)
    requires NoStaleDrafts(st)
    ensures NoStaleDrafts(PreemptAll(st))
    decreases |st.running|
  {
    if st.running != [] {
      var last := |st.running| - 1;
      var st1 := Preempt(st.(running := st.running[..last]), st.running[last]);
      assert forall x :: x in st.running && x != st.running[last] ==> x in st.running[..last];
      assert NoStaleDrafts(st1);
      PreemptAllKeepsDrafts(st1);
    }
  }

  /** A draft call leaves drafts where they do not belong exactly when one of them reaches
      a request that is not running and whose prefill flag, which preemption leaves as
      it was, says that it does not prefill. */
  predicate Misplaced(st: State, drafts: map<ReqId, seq<Token>>) {
    exists id :: id in drafts && id in st.reqs && id !in st.running && !st.reqs[id].isPrefillChunk && drafts[id] != []
  }

  lemma DraftsKeepDrafts(st: State, drafts: map<ReqId, seq<Token>>)
    requires NoStaleDrafts(st)
    ensures NoStaleDrafts(UpdateDrafts(st, drafts)) <==> !Misplaced(st, drafts)
  {
    var st1 := UpdateDrafts(st, drafts);
    assert st1.reqs.Keys == st.reqs.Keys;
    if Misplaced(st, drafts) {
      var id :| id in drafts && id in st.reqs && id !in st.running && !st.reqs[id].isPrefillChunk && drafts[id] != [];
      assert st1.reqs[id].spec == drafts[id];
    }
  }
}

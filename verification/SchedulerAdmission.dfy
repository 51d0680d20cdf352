/**
 The waiting phase keeps the invariant of the step, and the step as a whole, the
 output of a step and every other call keep the invariant between calls.
 */
module SchedulerAdmission {
  import opened Seqs
  import opened SchedulerState
  import opened SchedulerStep
  import opened SchedulerInvariants

  /** The id at position `k` of one of the two waiting queues. */
  ghost function At(st: State, fromSkipped: bool, k: nat): ReqId
    requires k < |if fromSkipped then st.skipped else st.waiting|
  {
    if fromSkipped then st.skipped[k] else st.waiting[k]
  }

  /** A popped request is live, not running, and in no queue any more. */
  lemma PopPartition(st: State, held: seq<ReqId>, fromSkipped: bool, k: nat)
    requires Partition(st, held) && k < |if fromSkipped then st.skipped else st.waiting|
    ensures var id := At(st, fromSkipped, k);
            var st1 := Pop(st, fromSkipped, k);
            && id in st.reqs && id !in st.running
            && Partition(st1, [id] + held)
            && multiset(st1.waiting) + multiset(st1.skipped) + multiset{id} == multiset(st.waiting) +
                multiset(st.skipped)
            && (forall x :: x in st.skipped ==> x in st1.skipped || x == id)
  {
    var id := At(st, fromSkipped, k);
    var q := if fromSkipped then st.skipped else st.waiting;
    assert id in q;
    Once(st, held, id);
    Removed(q, k);
    if fromSkipped {
      assert multiset(Pop(st, true, k).skipped) == multiset(st.skipped) - multiset{id};
    } else {
      assert multiset(Pop(st, false, k).waiting) == multiset(st.waiting) - multiset{id};
    }
  }

  lemma HoldKeepsMid(cfg: Config, budget: int, st: State, s: Step, held: seq<ReqId>, fromSkipped: bool, k: nat)
    requires Mid(cfg, budget, st, s, held) && k < |if fromSkipped then st.skipped else st.waiting|
    ensures Mid(cfg, budget, Pop(st, fromSkipped, k), s, [At(st, fromSkipped, k)] + held)
  {
    var id := At(st, fromSkipped, k);
    var st1 := Pop(st, fromSkipped, k);
    PopPartition(st, held, fromSkipped, k);
    forall x | x in st1.reqs ensures Placement(st1, [id] + held, x) {
      assert Placement(st, held, x);
    }
    forall x | x in st1.running ensures RowOk(st1, s, x) {
      assert RowOk(st, s, x);
    }
    forall x ensures x in st1.inflight <==> x in st1.running && Prefilling(st1, s, x) {
      assert x in st.inflight <==> x in st.running && Prefilling(st, s, x);
    }
  }

  lemma PromoteKeepsMid(cfg: Config, budget: int, st: State, s: Step, held: seq<ReqId>, id: ReqId)
    requires Mid(cfg, budget, st, s, held) && id in st.reqs && id !in st.running
    ensures var st1 := Promote(st, id);
            && Mid(cfg, budget, st1, s, held)
            && (st1.Req(id).status == Waiting || st1.Req(id).status == Preempted)
  {
    var st1 := Promote(st, id);
    assert Placement(st, held, id);
    assert st1.reqs.Keys == st.reqs.Keys;
    forall x | x in st1.reqs ensures Placement(st1, held, x) {
      assert Placement(st, held, x);
    }
    forall x | x in st1.running ensures RowOk(st1, s, x) {
      assert RowOk(st, s, x);
    }
    forall x ensures x in st1.inflight <==> x in st1.running && Prefilling(st1, s, x) {
      assert x in st.inflight <==> x in st.running && Prefilling(st, s, x);
    }
  }

  /** A padded row that is admitted still has room for all its drafts. */
  lemma PaddingKept(cfg: Config, env: Env, id: ReqId, r: Request, budget: int, decodesOnly: bool, defer: bool)
    requires PadSafe(cfg, env) && |r.tokens| > 0 && r.numComputed == 0 && budget > 0
    requires decodesOnly ==> cfg.maxRunning >= 2 && cfg.maxModelLen >= 3 && budget < cfg.maxScheduledTokens
    ensures var a := Admitted(cfg, r, budget, env.hit(id), pad => env.cap(id, pad), decodesOnly, defer);
            && !a.Fault?
            && (a.Admit? ==> 0 <= a.computed < |r.tokens| && 0 < a.row.n <= budget
                             && RowFits(r.(numComputed := a.computed), a.row))
  {
    AdmittedRowFits(cfg, r, budget, env.hit(id), pad => env.cap(id, pad), decodesOnly, defer);
  }

  ghost predicate CanEnroll(cfg: Config, st: State, s: Step, id: ReqId, row: Row, computed: int) {
    && id in st.reqs && id !in st.running
    && (st.Req(id).status == Waiting || st.Req(id).status == Preempted)
    && 0 <= computed && 0 < row.n <= s.budget
    && RowFits(st.Req(id).(numComputed := computed), row)
    && |st.running| < cfg.maxRunning
    && (cfg.maxPartialPrefills > 0 ==> |st.inflight| < cfg.maxPartialPrefills)
  }

  lemma EnrollQueues(cfg: Config, st: State, s: Step, held: seq<ReqId>, id: ReqId, row: Row, computed: int)
    requires Partition(st, [id] + held) && Placements(st, [id] + held) && Lengths(cfg, st)
    requires CanEnroll(cfg, st, s, id, row, computed)
    ensures var e := Enroll(st, s, id, row, computed);
            Partition(e.0, held) && Placements(e.0, held) && Lengths(cfg, e.0)
  {
    var e := Enroll(st, s, id, row, computed);
    assert e.0.reqs.Keys == st.reqs.Keys;
    forall x | x in e.0.reqs ensures Placement(e.0, held, x) {
      assert Placement(st, [id] + held, x);
    }
  }

  lemma EnrollStep(cfg: Config, budget: int, st: State, s: Step, held: seq<ReqId>, id: ReqId, row: Row, computed: int)
    requires CanEnroll(cfg, st, s, id, row, computed)
    requires RowsOk(st, s) && Listed(s) && Ledger(budget, s)
    ensures var e := Enroll(st, s, id, row, computed);
            RowsOk(e.0, e.1) && Listed(e.1) && Ledger(budget, e.1)
  {
    var e := Enroll(st, s, id, row, computed);
    assert id !in s.rows;
    forall x | x in e.0.running ensures RowOk(e.0, e.1, x) {
      if x != id {
        assert RowOk(st, s, x);
      }
    }
    TotalWith(s.rows, id, row);
    assert e.1.rows.Keys == s.rows.Keys + {id};
    assert multiset(e.1.rows.Keys) == multiset(s.rows.Keys) + multiset{id};
  }

  lemma EnrollTracked(cfg: Config, st: State, s: Step, held: seq<ReqId>, id: ReqId, row: Row, computed: int)
    requires CanEnroll(cfg, st, s, id, row, computed) && Tracked(cfg, st, s)
    ensures var e := Enroll(st, s, id, row, computed);
            Tracked(cfg, e.0, e.1)
  {
    hide RowFits;
    var e := Enroll(st, s, id, row, computed);
    assert id !in st.inflight;
    forall x ensures x in e.0.inflight <==> x in e.0.running && Prefilling(e.0, e.1, x) {
      assert x in st.inflight <==> x in st.running && Prefilling(st, s, x);
      if x != id {
        assert Fresh(e.1, x) == Fresh(s, x);
      }
    }
  }

  lemma EnrollKeepsMid(cfg: Config, budget: int, st: State, s: Step, held: seq<ReqId>, id: ReqId, row: Row,
      computed: int)
    requires Mid(cfg, budget, st, s, [id] + held) && CanEnroll(cfg, st, s, id, row, computed)
    ensures var e := Enroll(st, s, id, row, computed);
            Mid(cfg, budget, e.0, e.1, held)
  {
    hide Partition, Placements, Lengths, Tracked, RowsOk, Listed, Ledger;
    EnrollQueues(cfg, st, s, held, id, row, computed);
    EnrollStep(cfg, budget, st, s, held, id, row, computed);
    EnrollTracked(cfg, st, s, held, id, row, computed);
  }

  /** What a row of a running request says about the configuration: there is a token to
      compute after a computed one and before the last, and some budget is spent. */
  ghost predicate Beside(cfg: Config, st: State, s: Step) {
    s.scheduledRunning != [] ==> cfg.maxModelLen >= 3 && s.budget < cfg.maxScheduledTokens && st.running != []
  }

  ghost predicate Phase2(cfg: Config, budget: int, w: Wait) {
    Mid(cfg, budget, w.st, w.s, w.held) && Beside(cfg, w.st, w.s)
  }

  lemma MoreCalls(cfg: Config, budget: int, st: State, s: Step, held: seq<ReqId>)
    requires Mid(cfg, budget, st, s, held)
    ensures Mid(cfg, budget, st, s.(calls := s.calls + 1), held)
  {
    var s1 := s.(calls := s.calls + 1);
    assert forall x :: RowOk(st, s, x) ==> RowOk(st, s1, x);
    assert forall x :: Prefilling(st, s, x) == Prefilling(st, s1, x);
  }

  /** Admission of the popped request, given the decision about it. */
  lemma AdmitKeepsMid(cfg: Config, budget: int, st: State, s: Step, held: seq<ReqId>,
                      fromSkipped: bool, k: nat, row: Row, computed: int)
    requires Mid(cfg, budget, st, s, held) && k < |if fromSkipped then st.skipped else st.waiting|
    requires var id := At(st, fromSkipped, k);
             CanEnroll(cfg, Pop(st, fromSkipped, k), s, id, row, computed)
    ensures var e := Enroll(Pop(st, fromSkipped, k), s.(calls := s.calls + 1), At(st, fromSkipped, k), row, computed);
            Mid(cfg, budget, e.0, e.1, held)
  {
    var id := At(st, fromSkipped, k);
    HoldKeepsMid(cfg, budget, st, s, held, fromSkipped, k);
    MoreCalls(cfg, budget, Pop(st, fromSkipped, k), s, [id] + held);
    EnrollKeepsMid(cfg, budget, Pop(st, fromSkipped, k), s.(calls := s.calls + 1), held, id, row, computed);
  }

  /** The facts about the head of the chosen queue. */
  lemma HeadFacts(cfg: Config, budget: int, st: State, s: Step, held: seq<ReqId>, fromSkipped: bool, k: nat)
    requires Mid(cfg, budget, st, s, held) && k < |if fromSkipped then st.skipped else st.waiting|
    ensures var id := At(st, fromSkipped, k);
            id in st.reqs && id !in st.running && st.Req(id).numComputed == 0 && |st.Req(id).tokens| > 0
  {
    PopPartition(st, held, fromSkipped, k);
    assert Placement(st, held, At(st, fromSkipped, k));
  }

  lemma ConsiderKeepsMid(cfg: Config, budget: int, w: Wait, fromSkipped: bool, k: nat, env: Env, defer: bool)
    requires Phase2(cfg, budget, w) && Open(cfg, w) && PadSafe(cfg, env)
    requires k < |if fromSkipped then w.st.skipped else w.st.waiting|
    requires var r := w.st.Req(At(w.st, fromSkipped, k)); r.status == Waiting || r.status == Preempted
    ensures Phase2(cfg, budget, Consider(cfg, w, fromSkipped, k, env, defer).w)
  {
    hide Mid, Admitted;
    var id := At(w.st, fromSkipped, k);
    HeadFacts(cfg, budget, w.st, w.s, w.held, fromSkipped, k);
    HoldKeepsMid(cfg, budget, w.st, w.s, w.held, fromSkipped, k);
    if id !in env.held {
      var decodesOnly := w.s.scheduledRunning != [] && !w.s.prefillScheduled;
      PaddingKept(cfg, env, id, w.st.Req(id), w.s.budget, decodesOnly, defer);
      MoreCalls(cfg, budget, w.st, w.s, w.held);
      var a := Admitted(cfg, w.st.Req(id), w.s.budget, env.hit(id), pad => env.cap(id, pad), decodesOnly, defer);
      if a.Admit? {
        AdmitKeepsMid(cfg, budget, w.st, w.s, w.held, fromSkipped, k, a.row, a.computed);
      }
    }
  }

  lemma WaitOneKeepsMid(cfg: Config, budget: int, w: Wait, env: Env, defer: bool)
    requires Phase2(cfg, budget, w) && Open(cfg, w) && PadSafe(cfg, env)
    ensures Phase2(cfg, budget, WaitOne(cfg, w, env, defer).w)
  {
    hide Mid, Consider;
    var fromSkipped := TakesSkipped(cfg, w.st);
    var q := if fromSkipped then w.st.skipped else w.st.waiting;
    var k := HeadIndex(cfg, w.st, q);
    var id := q[k];
    HeadFacts(cfg, budget, w.st, w.s, w.held, fromSkipped, k);
    if Blocked(w.st.Req(id).status) && id !in env.ready {
      HoldKeepsMid(cfg, budget, w.st, w.s, w.held, fromSkipped, k);
    } else {
      PromoteKeepsMid(cfg, budget, w.st, w.s, w.held, id);
      ConsiderKeepsMid(cfg, budget, w.(st := Promote(w.st, id)), fromSkipped, k, env, defer);
    }
  }

  lemma {:induction false} WaitLoopKeepsMid(cfg: Config, budget: int, w: Wait, env: Env, defer: bool)
    requires Phase2(cfg, budget, w) && PadSafe(cfg, env)
    ensures Phase2(cfg, budget, WaitLoop(cfg, w, env, defer))
    decreases |w.st.waiting| + |w.st.skipped|
  {
    hide Phase2, WaitOne;
    if Open(cfg, w) {
      WaitOneKeepsMid(cfg, budget, w, env, defer);
      var r := WaitOne(cfg, w, env, defer);
      if r.Again? {
        WaitLoopKeepsMid(cfg, budget, r.w, env, defer);
      }
    }
  }

  /** The passed-over requests rejoin the skipped queue. */
  lemma RequeueKeepsMid(cfg: Config, budget: int, w: Wait)
    requires Phase2(cfg, budget, w)
    ensures Mid(cfg, budget, Requeue(w), w.s, [])
  {
    var st := Requeue(w);
    ReverseMultiset(w.held);
    assert multiset(st.skipped) == multiset(w.held) + multiset(w.st.skipped);
    forall x | x in st.reqs ensures Placement(st, [], x) {
      assert Placement(w.st, w.held, x);
      InQueue(w.held, x);
      InQueue(w.st.skipped, x);
      InQueue(st.skipped, x);
    }
    forall x | x in st.running ensures RowOk(st, w.s, x) {
      assert RowOk(w.st, w.s, x);
    }
    forall x ensures x in st.inflight <==> x in st.running && Prefilling(st, w.s, x) {
      assert x in w.st.inflight <==> x in w.st.running && Prefilling(w.st, w.s, x);
    }
  }

  lemma PrefillBoundIrrelevant(cfg: Config, budget: int, st: State, s: Step, b: bool)
    requires Mid(cfg, budget, st, s, [])
    ensures Mid(cfg, budget, st.(prefillBound := b), s, [])
  {
    var st1 := st.(prefillBound := b);
    forall x | x in st1.reqs ensures Placement(st1, [], x) {
      assert Placement(st, [], x);
    }
    forall x | x in st1.running ensures RowOk(st1, s, x) {
      assert RowOk(st, s, x);
    }
    forall x ensures x in st1.inflight <==> x in st1.running && Prefilling(st1, s, x) {
      assert x in st.inflight <==> x in st.running && Prefilling(st, s, x);
    }
  }

  /** A step starts in the invariant if no other step is out. */
  lemma StartKeepsMid(cfg: Config, st: State)
    requires Inv(cfg, st, map[])
    ensures Phase1(cfg, StartBudget(cfg, st), st, StartStep(cfg, st), 0)
  {
    var s := StartStep(cfg, st);
    forall x | x in st.running ensures RowOk(st, s, x) {
    }
    forall x ensures x in st.inflight <==> x in st.running && Prefilling(st, s, x) {
    }
  }

  /** A running request is offered a token only if the model's length leaves one between
      a computed token and the last. */
  lemma OfferBeside(cfg: Config, budget: int, st: State, s: Step, i: nat, env: Env, defer: bool)
    requires Phase1(cfg, budget, st, s, i) && i < |st.running| && s.budget > 0
    ensures Offer(cfg, st, s, st.running[i], env, defer) != 0 ==> cfg.maxModelLen >= 3
  {
    var id := st.running[i];
    assert Settled(st.Req(id)) by { assert RowOk(st, s, id); }
    Once(st, [], id);
    RunningTokensBounds(cfg, st.Req(id), s.budget);
  }

  /** When nothing could be scheduled yet, nothing is. */
  lemma {:induction false} RunLoopBeside(cfg: Config, budget: int, st: State, s: Step, i: int, env: Env, defer: bool)
    requires Phase1(cfg, budget, st, s, i) && s.scheduledRunning == [] && cfg.maxModelLen < 3
    ensures RunLoop(cfg, st, s, i, env, defer).1.scheduledRunning == []
    decreases Max(|st.running| - i, 0)
  {
    hide Phase1, Offer, Place, Enter;
    if 0 <= i < |st.running| && s.budget > 0 {
      OfferBeside(cfg, budget, st, s, i, env, defer);
      RunOneKeepsPhase1(cfg, budget, st, s, i, env, defer);
      RunLoopBeside(cfg, budget, st, s, i + 1, env, defer);
    }
  }

  /** Some row is given, so some budget is spent and someone runs. */
  lemma ScheduledSpends(cfg: Config, budget: int, st: State, s: Step)
    requires Mid(cfg, budget, st, s, []) && s.scheduledRunning != []
    ensures s.budget < budget && st.running != []
  {
    var id := s.scheduledRunning[0];
    assert id in multiset(s.scheduledRunning);
    assert id in multiset(s.rows.Keys);
    assert id in s.rows && RowOk(st, s, id);
    TotalWithout(s.rows, id);
    TotalIsNat(st, s, s.rows - {id});
    hide Total;
  }

  lemma {:induction false} TotalIsNat(st: State, s: Step, rows: map<ReqId, Row>)
    requires RowsOk(st, s) && rows.Keys <= s.rows.Keys && forall id :: id in rows ==> rows[id] == s.rows[id]
    ensures Total(rows) >= 0
    decreases |rows|
  {
    if rows != map[] {
      var id :| id in rows;
      TotalWithout(rows, id);
      assert RowOk(st, s, id);
      TotalIsNat(st, s, rows - {id});
    }
  }

  /** The waiting phase starts in its invariant. */
  lemma WaitingStarts(cfg: Config, st: State, env: Env, defer: bool)
    requires Inv(cfg, st, map[])
    ensures var e := RunLoop(cfg, st, StartStep(cfg, st), 0, env, defer);
            && Mid(cfg, StartBudget(cfg, st), e.0, e.1, [])
            && Phase2(cfg, StartBudget(cfg, st), Wait(e.0, e.1, []))
  {
    var budget := StartBudget(cfg, st);
    var s := StartStep(cfg, st);
    StartKeepsMid(cfg, st);
    hide Mid, Inv, RunLoop, Indexed;
    RunLoopKeepsMid(cfg, budget, st, s, 0, env, defer);
    var e := RunLoop(cfg, st, s, 0, env, defer);
    if e.1.scheduledRunning != [] {
      ScheduledSpends(cfg, budget, e.0, e.1);
      if cfg.maxModelLen < 3 {
        RunLoopBeside(cfg, budget, st, s, 0, env, defer);
      }
    }
  }

  /** At the end of both phases: the partition, the ledger and the accounting hold
      and no assertion of the program has failed. */
  lemma PhasesKeepMid(cfg: Config, st: State, env: Env, throttle: bool)
    requires Inv(cfg, st, map[]) && PadSafe(cfg, env)
    ensures var e := Phases(cfg, st, env, throttle);
            Mid(cfg, StartBudget(cfg, st), e.0, e.1, [])
  {
    hide Mid, Inv, RunLoop, WaitLoop, Requeue, Phase2, PadSafe;
    var budget := StartBudget(cfg, st);
    var defer := Defers(st, throttle);
    WaitingStarts(cfg, st, env, defer);
    var e := RunLoop(cfg, st, StartStep(cfg, st), 0, env, defer);
    if e.1.preempted == [] && e.0.pause == Unpaused {
      WaitLoopKeepsMid(cfg, budget, Wait(e.0, e.1, []), env, defer);
      var w := WaitLoop(cfg, Wait(e.0, e.1, []), env, defer);
      RequeueKeepsMid(cfg, budget, w);
      PrefillBoundIrrelevant(cfg, budget, Requeue(w), w.s, Requeue(w).waiting != []);
    }
  }
}

/**
 The scheduler object: its methods update the request table, the three queues and
 the in-flight set in place. Each is proved to compute the transition function of
 SchedulerStep.dfy, and to keep the invariant of SchedulerInvariants.dfy.
 */
module SchedulerObject {
  import opened Seqs
  import opened SchedulerState
  import opened SchedulerStep
  import opened SchedulerInvariants
  import opened SchedulerAdmission
  import opened SchedulerRuns
  import opened SchedulerOrder
  import opened SchedulerEffects
  import opened SchedulerRows
  import opened SchedulerPhases
  import opened SchedulerPriority
  import opened SchedulerLifetime

  class Scheduler {
    const cfg: Config
    const isEos: Token -> bool

    var reqs: map<ReqId, Request>
    var running: seq<ReqId>
    var waiting: seq<ReqId>
    var skippedWaiting: seq<ReqId>
    var inflightPrefills: set<ReqId>
    var pauseState: Pause
    var prefillCapacityBound: bool

    /** The step that is out: its rows, until its output has been processed. */
    ghost var busy: bool
    ghost var rows: map<ReqId, Row>

    function Abs(): State
      reads this
    {
      State(reqs, running, waiting, skippedWaiting, inflightPrefills, pauseState, prefillCapacityBound)
    }

    ghost predicate Valid()
      reads this
    {
      Sound(cfg, Machine(Abs(), busy, rows))
    }

    constructor (cfg: Config, isEos: Token -> bool)
      ensures Valid() && Machine(Abs(), busy, rows) == START
      ensures this.cfg == cfg && this.isEos == isEos
    {
      this.cfg, this.isEos := cfg, isEos;
      reqs, running, waiting, skippedWaiting := map[], [], [], [];
      inflightPrefills, pauseState, prefillCapacityBound := {}, Unpaused, false;
      busy, rows := false, map[];
    }

    function Req(id: ReqId): (r: Request)
      reads this
      ensures r == Abs().Req(id)
    {
      if id in reqs then reqs[id]
      else Request([], 0, 0, [], 0, false, Waiting, 0, 0, 0)
    }

    method AddRequest(id: ReqId, r: Request)
      requires Valid() && New(cfg, r) && id !in reqs && id !in rows
      modifies this
      ensures Valid() && busy == old(busy) && rows == old(rows)
      ensures Abs() == SchedulerStep.AddRequest(old(Abs()), id, r)
      ensures Added(old(Abs()), Abs(), id, r)
    {
      AddKeepsInv(cfg, Abs(), rows, id, r);
      if Blocked(r.status) {
        skippedWaiting := skippedWaiting + [id];
      } else {
        waiting := waiting + [id];
      }
      reqs := reqs[id := r];
    }

    method SetPauseState(pause: Pause)
      requires Valid()
      modifies this
      ensures Valid() && busy == old(busy) && rows == old(rows)
      ensures Abs() == old(Abs()).(pause := pause)
    {
      PauseKeepsInv(cfg, Abs(), rows, pause);
      pauseState := pause;
    }

    /** The request has already been taken out of `running`. */
    method PreemptRequest(id: ReqId)
      modifies this`reqs, this`waiting, this`inflightPrefills
      ensures Abs() == Preempt(old(Abs()), id)
    {
      inflightPrefills := inflightPrefills - {id};
      var r := Req(id);
      reqs := reqs[id := r.(status := Preempted, numComputed := 0, spec := [], numPreemptions := r.numPreemptions + 1)];
      waiting := [id] + waiting;
    }

    /** Preempt every running request, last one first. */
    method ResetPrefixCache(resetRunning: bool)
      requires Valid()
      modifies this
      ensures Valid() && busy == old(busy) && rows == old(rows)
      ensures Abs() == if resetRunning then PreemptAll(old(Abs())) else old(Abs())
      ensures if resetRunning then AllReset(old(Abs()), Abs()) else Abs() == old(Abs())
    {
      if resetRunning {
        hide Inv, Partition, Placements, AllReset;
        SoundPartition(cfg, Machine(Abs(), busy, rows));
        ResetEffect(Abs());
        PreemptAllKeepsInv(cfg, Abs(), rows);
        PreemptRunning();
      }
    }

    method PreemptRunning()
      modifies this`reqs, this`running, this`waiting, this`inflightPrefills
      ensures Abs() == PreemptAll(old(Abs()))
    {
      ghost var want := PreemptAll(Abs());
      while running != []
        invariant PreemptAll(Abs()) == want
        decreases |running|
      {
        var last := |running| - 1;
        var id := running[last];
        running := running[..last];
        PreemptRequest(id);
      }
    }

    // -------------------------------------------------------------------
    // schedule
    // -------------------------------------------------------------------

    method Evict(s: Step, i: int) returns (s1: Step, i1: int)
      requires running != []
      modifies this`reqs, this`running, this`waiting, this`inflightPrefills
      ensures Placed(true, Abs(), s1, i1) == EvictOne(cfg, old(Abs()), s, i)
    {
      ghost var st := Abs();
      s1, i1 := s, i;
      var v := VictimIndex(cfg, Abs(), running);
      var id := running[v];
      if Req(id).status != Running {
        s1 := s1.(fault := true);
      }
      running := RemoveAt(running, v);
      if cfg.policy == Priority && id in s1.scheduledRunning {
        s1 := Refund(s1, id);
        i1 := i1 - 1;
      }
      PreemptRequest(id);
      s1 := s1.(preempted := s1.preempted + [id]);
      assert Placed(true, Abs(), s1, i1) == EvictOne(cfg, st, s, i);
    }

    /** The allocation loop of the running phase. */
    method Allocate(s: Step, i: int, id: ReqId, env: Env) returns (ok: bool, s1: Step, i1: int)
      modifies this`reqs, this`running, this`waiting, this`inflightPrefills
      ensures Placed(ok, Abs(), s1, i1) == Place(cfg, old(Abs()), s, i, id, env)
    {
      ghost var want := Place(cfg, Abs(), s, i, id, env);
      s1, i1 := s, i;
      while true
        invariant Place(cfg, Abs(), s1, i1, id, env) == want
        decreases |running|
      {
        var got := env.alloc(s1.calls);
        if got || running == [] {
          ok := got;
          s1 := s1.(calls := s1.calls + 1, fault := s1.fault || !got);
          return;
        }
        s1 := s1.(calls := s1.calls + 1);
        s1, i1 := Evict(s1, i1);
        if s1.preempted[|s1.preempted| - 1] == id {
          ok := false;
          return;
        }
      }
    }

    method ScheduleRunning(s: Step, env: Env, defer: bool) returns (s1: Step)
      modifies this`reqs, this`running, this`waiting, this`inflightPrefills
      ensures (Abs(), s1) == RunLoop(cfg, old(Abs()), s, 0, env, defer)
    {
      ghost var want := RunLoop(cfg, Abs(), s, 0, env, defer);
      s1 := s;
      var i := 0;
      while 0 <= i < |running| && s1.budget > 0
        invariant RunLoop(cfg, Abs(), s1, i, env, defer) == want
        decreases Max(|running| - i, 0)
      {
        ghost var one := RunOne(cfg, Abs(), s1, i, env, defer);
        var id := running[i];
        var n := Offer(cfg, Abs(), s1, id, env, defer);
        if n == 0 {
          i := i + 1;
        } else {
          var ok;
          ok, s1, i := Allocate(s1, i, id, env);
          if !ok {
            return;
          }
          s1 := Record(s1, id, n);
          i := i + 1;
        }
        assert one == Placed(true, Abs(), s1, i);
      }
    }

    /** Enter a row for a running request; its drafts are used up. */
    method Record(s: Step, id: ReqId, n: int) returns (s1: Step)
      modifies this`reqs
      ensures (Abs(), s1) == Enter(old(Abs()), s, id, n)
    {
      var r := Req(id);
      s1 := s.(scheduledRunning := s.scheduledRunning + [id],
               prefillScheduled := s.prefillScheduled || r.isPrefillChunk,
               rows := s.rows[id := Row(n, RowDrafts(r, n))],
               budget := s.budget - n);
      reqs := reqs[id := r.(spec := [])];
    }

    /** Take the request at `k` out of the chosen waiting queue. */
    method PopRequest(fromSkipped: bool, k: nat) returns (id: ReqId)
      requires k < |if fromSkipped then skippedWaiting else waiting|
      modifies this`waiting, this`skippedWaiting
      ensures Abs() == Pop(old(Abs()), fromSkipped, k)
      ensures id == if fromSkipped then old(skippedWaiting)[k] else old(waiting)[k]
    {
      if fromSkipped {
        id := skippedWaiting[k];
        skippedWaiting := RemoveAt(skippedWaiting, k);
      } else {
        id := waiting[k];
        waiting := RemoveAt(waiting, k);
      }
    }

    /** Make the popped request a running one. */
    method EnrollRequest(s: Step, id: ReqId, row: Row, computed: int) returns (s1: Step)
      modifies this`reqs, this`running, this`inflightPrefills
      ensures (Abs(), s1) == Enroll(old(Abs()), s, id, row, computed)
    {
      var r := Req(id);
      running := running + [id];
      s1 := s;
      if r.status == Waiting {
        s1 := s1.(scheduledNew := s1.scheduledNew + [id]);
      } else if r.status == Preempted {
        s1 := s1.(scheduledResumed := s1.scheduledResumed + [id]);
      } else {
        s1 := s1.(fault := true);
      }
      s1 := s1.(rows := s1.rows[id := row], budget := s1.budget - row.n);
      reqs := reqs[id := r.(status := Running, numComputed := computed)];
      if computed + row.n < |r.tokens| {
        inflightPrefills := inflightPrefills + {id};
      }
    }

    /** The admission loop; `held` is the deque of the requests passed over. */
    method ScheduleWaiting(s: Step, env: Env, defer: bool) returns (s1: Step, held: seq<ReqId>)
      modifies this`reqs, this`running, this`waiting, this`skippedWaiting, this`inflightPrefills
      ensures Wait(Abs(), s1, held) == WaitLoop(cfg, Wait(old(Abs()), s, []), env, defer)
    {
      ghost var want := WaitLoop(cfg, Wait(Abs(), s, []), env, defer);
      s1, held := s, [];
      while Open(cfg, Wait(Abs(), s1, held))
        invariant WaitLoop(cfg, Wait(Abs(), s1, held), env, defer) == want
        decreases |waiting| + |skippedWaiting|
      {
        ghost var one := WaitOne(cfg, Wait(Abs(), s1, held), env, defer);
        var done;
        s1, held, done := AdmitNext(s1, held, env, defer);
        if done {
          return;
        }
      }
    }

    method AdmitNext(s: Step, held: seq<ReqId>, env: Env, defer: bool) returns (s1: Step, held1: seq<ReqId>, done: bool)
      requires Open(cfg, Wait(Abs(), s, held))
      modifies this`reqs, this`running, this`waiting, this`skippedWaiting, this`inflightPrefills
      ensures var w := Wait(Abs(), s1, held1);
              (if done then Done(w) else Again(w)) == WaitOne(cfg, Wait(old(Abs()), s, held), env, defer)
    {
      s1, held1, done := s, held, false;
      var fromSkipped := TakesSkipped(cfg, Abs());
      var k := HeadIndex(cfg, Abs(), if fromSkipped then skippedWaiting else waiting);
      var id := if fromSkipped then skippedWaiting[k] else waiting[k];
      if Blocked(Req(id).status) && id !in env.ready {
        var popped := PopRequest(fromSkipped, k);
        held1 := [popped] + held;
        return;
      }
      if Blocked(Req(id).status) {
        reqs := reqs[id := Req(id).(status := Waiting)];
      }
      s1, held1, done := ConsiderRequest(s, held, fromSkipped, k, env, defer);
    }

    method ConsiderRequest(s: Step, held: seq<ReqId>, fromSkipped: bool, k: nat, env: Env, defer: bool)
      returns (s1: Step, held1: seq<ReqId>, done: bool)
      requires k < |if fromSkipped then skippedWaiting else waiting|
      modifies this`reqs, this`running, this`waiting, this`skippedWaiting, this`inflightPrefills
      ensures var w := Wait(Abs(), s1, held1);
              (if done then Done(w) else Again(w)) ==
                  Consider(cfg, Wait(old(Abs()), s, held), fromSkipped, k, env, defer)
    {
      s1, held1, done := s, held, false;
      var id := if fromSkipped then skippedWaiting[k] else waiting[k];
      if id in env.held {
        var popped := PopRequest(fromSkipped, k);
        held1 := [popped] + held;
        return;
      }
      var decodesOnly := s.scheduledRunning != [] && !s.prefillScheduled;
      match Admitted(cfg, Req(id), s.budget, env.hit(id), pad => env.cap(id, pad), decodesOnly, defer)
      case Stop =>
        done := true;
      case Fault =>
        s1 := s.(fault := true);
        done := true;
      case Admit(row, computed) =>
        s1 := s.(calls := s.calls + 1);
        if !env.alloc(s.calls) {
          done := true;
        } else {
          var popped := PopRequest(fromSkipped, k);
          s1 := EnrollRequest(s1, popped, row, computed);
        }
    }

    /** Count the issued tokens as computed, row by row. */
    method UpdateAfterSchedule(issued: map<ReqId, Row>)
      modifies this`reqs, this`inflightPrefills
      ensures Abs() == AfterSchedule(old(Abs()), issued)
    {
      ghost var st := Abs();
      var todo := issued.Keys;
      while todo != {}
        invariant todo <= issued.Keys
        invariant reqs == map id | id in st.reqs ::
                            if id in issued && id !in todo then Advance(st.reqs[id], issued[id]) else st.reqs[id]
        invariant inflightPrefills == set id | id in st.inflight
                    && !(id in issued && id !in todo && id in st.reqs &&
                        !Advance(st.reqs[id], issued[id]).isPrefillChunk)
      {
        var id :| id in todo;
        if id in reqs {
          reqs := reqs[id := Advance(reqs[id], issued[id])];
          if !reqs[id].isPrefillChunk {
            inflightPrefills := inflightPrefills - {id};
          }
        }
        todo := todo - {id};
      }
    }

    /** One scheduling step; `s.rows` is the scheduler output. */
    method Schedule(env: Env, throttle: bool) returns (s: Step)
      requires Valid() && !busy && PadSafe(cfg, env)
      modifies this
      ensures Valid() && busy && rows == s.rows
      ensures (Abs(), s) == SchedulerStep.Schedule(cfg, old(Abs()), env, throttle)
      ensures !s.fault && s.budget >= 0 && s.budget + Total(s.rows) == StartBudget(cfg, old(Abs()))
      ensures forall id :: id in old(reqs) ==> id in reqs && Stepped(cfg, old(Abs()), Abs(), s, env, throttle, id)
      ensures Overall(old(Abs()), Abs(), s, throttle)
      ensures if cfg.policy == Fcfs then Queued(old(Abs()), Abs(), s) else ByPriority(old(Abs()), Abs(), s, env)
    {
      hide Inv, RunLoop, WaitingPhase, Total, AfterSchedule, Overall, Queued, ByPriority, Stepped;
      ghost var st := Abs();
      StepFacts(st, env, throttle);
      var defer := Defers(Abs(), throttle);
      s := ScheduleRunning(StartStep(cfg, Abs()), env, defer);
      s := AdmitWaiting(s, env, defer);
      UpdateAfterSchedule(s.rows);
      busy, rows := true, s.rows;
    }

    lemma StepFacts(st: State, env: Env, throttle: bool)
      requires Inv(cfg, st, map[]) && PadSafe(cfg, env)
      ensures var (st1, s) := SchedulerStep.Schedule(cfg, st, env, throttle);
              && Inv(cfg, st1, s.rows) && !s.fault
              && s.budget >= 0 && s.budget + Total(s.rows) == StartBudget(cfg, st)
              && (forall id :: id in st.reqs ==> id in st1.reqs && Stepped(cfg, st, st1, s, env, throttle, id))
              && Overall(st, st1, s, throttle) &&
                  (if cfg.policy == Fcfs then Queued(st, st1, s) else ByPriority(st, st1, s, env))
    {
      hide Inv, Total, Overall, Queued, ByPriority, Stepped, SchedulerStep.Schedule, PadSafe;
      ScheduleKeepsInv(cfg, st, env, throttle);
      forall id | id in st.reqs
        ensures var (st1, s) := SchedulerStep.Schedule(cfg, st, env, throttle);
                id in st1.reqs && Stepped(cfg, st, st1, s, env, throttle, id)
      {
        StepEffect(cfg, st, env, throttle, id);
      }
      StepOverall(cfg, st, env, throttle);
      if cfg.policy == Fcfs {
        StepQueues(cfg, st, env, throttle);
      } else {
        StepByPriority(cfg, st, env, throttle);
      }
    }

    /** The waiting phase, unless something was preempted or admission is paused. */
    method AdmitWaiting(s: Step, env: Env, defer: bool) returns (s1: Step)
      modifies this`reqs, this`running, this`waiting, this`skippedWaiting, this`inflightPrefills,
          this`prefillCapacityBound
      ensures (Abs(), s1) == WaitingPhase(cfg, old(Abs()), s, env, defer)
    {
      hide WaitLoop;
      s1 := s;
      if s.preempted == [] && pauseState == Unpaused {
        var held;
        s1, held := ScheduleWaiting(s, env, defer);
        skippedWaiting := Reverse(held) + skippedWaiting;
        if !defer {
          prefillCapacityBound := waiting != [];
        }
      }
    }

    // -------------------------------------------------------------------
    // update_from_output
    // -------------------------------------------------------------------

    /** Append generated tokens to a request until one of them stops it. */
    method AppendTokens(r: Request, generated: seq<Token>) returns (r1: Request, kept: seq<Token>, stopped: bool)
      ensures Appended(r1, kept, stopped) == Append(cfg, isEos, r, generated)
    {
      hide Append, After, Stops;
      r1, kept, stopped := r, [], false;
      var i := 0;
      AppendAll(r, generated);
      while i < |generated| && !stopped
        invariant 0 <= i <= |generated|
        invariant if stopped then Appended(r1, kept, true) == Append(cfg, isEos, r, generated)
                  else After(kept, Append(cfg, isEos, r1, generated[i..])) == Append(cfg, isEos, r, generated)
        decreases |generated| - i, !stopped
      {
        AppendFirst(kept, r1, generated, i);
        r1 := r1.(tokens := r1.tokens + [generated[i]]);
        kept := kept + [generated[i]];
        stopped := Stops(cfg, isEos, r1);
        i := i + 1;
      }
      if !stopped {
        AppendNone(kept, r1, generated[i..]);
      }
    }

    lemma AppendAll(r: Request, generated: seq<Token>)
      ensures After([], Append(cfg, isEos, r, generated[0..])) == Append(cfg, isEos, r, generated)
    {
      assert generated[0..] == generated;
      assert [] + Append(cfg, isEos, r, generated).kept == Append(cfg, isEos, r, generated).kept;
    }

    lemma AppendNone(kept: seq<Token>, r: Request, rest: seq<Token>)
      requires rest == []
      ensures After(kept, Append(cfg, isEos, r, rest)) == Appended(r, kept, false)
    {
      assert kept + [] == kept;
    }

    static function After(kept: seq<Token>, a: Appended): Appended {
      a.(kept := kept + a.kept)
    }

    lemma AppendFirst(kept: seq<Token>, r: Request, generated: seq<Token>, i: nat)
      requires i < |generated|
      ensures var r1 := r.(tokens := r.tokens + [generated[i]]);
              After(kept, Append(cfg, isEos, r, generated[i..]))
              == if Stops(cfg, isEos, r1) then Appended(r1, kept + [generated[i]], true)
                 else After(kept + [generated[i]], Append(cfg, isEos, r1, generated[i + 1..]))
    {
      var r1 := r.(tokens := r.tokens + [generated[i]]);
      assert generated[i..][1..] == generated[i + 1..];
      var rest := Append(cfg, isEos, r1, generated[i + 1..]);
      assert kept + ([generated[i]] + rest.kept) == (kept + [generated[i]]) + rest.kept;
    }

    /** The table, the in-flight set and the two sets of stopped requests after the
        rows outside `todo` have been processed. */
    ghost predicate Processed(st: State, out: map<ReqId, Row>, ans: Answer, todo: set<ReqId>,
                              stoppedRunning: set<ReqId>, stoppedPreempted: set<ReqId>)
      reads this
    {
      var gone := Stopped(cfg, isEos, st, out, ans) - todo;
      && reqs == (map id | id in st.reqs && id !in gone ::
                    if id in out && id !in todo then Received(cfg, isEos, st, out, ans, id).r else st.reqs[id])
      && inflightPrefills == st.inflight - gone
      && stoppedRunning == (set id | id in gone && st.Req(id).status == Running)
      && stoppedPreempted == (set id | id in gone && st.Req(id).status != Running)
    }

    /** Take back rejected drafts, then append the generated tokens. */
    method ReceiveTokens(r: Request, row: Row, generated: seq<Token>) returns (r1: Request, stopped: bool)
      ensures var a := Receive(cfg, isEos, r, row, generated); r1 == a.r && stopped == a.stopped
    {
      hide Append;
      r1 := r;
      if row.drafts != [] && generated != [] {
        var accepted := Max(|generated| - 1, 0);
        if r1.numComputed > 0 {
          r1 := r1.(numComputed := r1.numComputed - (|row.drafts| - accepted));
        }
      }
      var kept;
      r1, kept, stopped := AppendTokens(r1, generated);
    }

    /** Process one row; the request may have been aborted in the meantime. */
    method ProcessRow(id: ReqId, row: Row, generated: seq<Token>) returns (stopped: bool, wasRunning: bool)
      modifies this`reqs, this`inflightPrefills
      ensures id !in old(reqs) ==> !stopped && reqs == old(reqs) && inflightPrefills == old(inflightPrefills)
      ensures id in old(reqs) ==>
                var a := Receive(cfg, isEos, old(reqs)[id], row, generated);
                && stopped == a.stopped && wasRunning == (old(reqs)[id].status == Running)
                && reqs == (if a.stopped then old(reqs) - {id} else old(reqs)[id := a.r])
                && inflightPrefills == (if a.stopped then old(inflightPrefills) - {id} else old(inflightPrefills))
    {
      hide Receive;
      stopped, wasRunning := false, false;
      if id in reqs {
        wasRunning := reqs[id].status == Running;
        var r;
        r, stopped := ReceiveTokens(reqs[id], row, generated);
        if stopped {
          inflightPrefills := inflightPrefills - {id};
          reqs := reqs - {id};
        } else {
          reqs := reqs[id := r];
        }
      }
    }

    /** Each stopped request is in the queue its status says. */
    lemma StoppedQueues(st: State, out: map<ReqId, Row>, gone: set<ReqId>,
                        stoppedRunning: set<ReqId>, stoppedPreempted: set<ReqId>)
      requires Partition(st, []) && Placements(st, []) && gone <= st.reqs.Keys
      requires stoppedRunning == set id | id in gone && st.Req(id).status == Running
      requires stoppedPreempted == set id | id in gone && st.Req(id).status != Running
      ensures Without(st.running, stoppedRunning) == Without(st.running, gone)
      ensures Without(st.waiting, stoppedPreempted) == Without(st.waiting, gone)
    {
      forall id | id in st.running ensures id in stoppedRunning <==> id in gone {
        Once(st, [], id);
        assert Placement(st, [], id);
      }
      WithoutSame(st.running, stoppedRunning, gone);
      forall id | id in st.waiting ensures id in stoppedPreempted <==> id in gone {
        Once(st, [], id);
        InQueue(st.waiting, id);
        InQueue(st.running, id);
        assert Placement(st, [], id);
      }
      WithoutSame(st.waiting, stoppedPreempted, gone);
    }

    /** The output of the step that is out: counters, tokens, stopped requests. */
    method UpdateFromOutput(out: map<ReqId, Row>, ans: Answer)
      requires Valid() && busy && out == rows && Answers(Abs(), rows, ans)
      modifies this
      ensures Valid() && !busy && rows == map[]
      ensures Abs() == Update(cfg, isEos, old(Abs()), out, ans)
      ensures Answered(cfg, isEos, old(Abs()), Abs(), out, ans)
    {
      hide Inv, Update, Received, Stopped, Partition, Placements, Without, Answers, Answered;
      ghost var st := Abs();
      UpdateFacts(out, ans);
      var stoppedRunning, stoppedPreempted := ProcessRows(out, ans);
      ProcessedAll(st, out, ans, stoppedRunning, stoppedPreempted);
      running := DropAll(running, stoppedRunning);
      waiting := DropAll(waiting, stoppedPreempted);
      busy, rows := false, map[];
    }

    lemma UpdateFacts(out: map<ReqId, Row>, ans: Answer)
      requires Valid() && out == rows && Answers(Abs(), rows, ans)
      ensures Partition(Abs(), []) && Placements(Abs(), [])
      ensures Inv(cfg, Update(cfg, isEos, Abs(), out, ans), map[])
      ensures Stopped(cfg, isEos, Abs(), out, ans) <= Abs().reqs.Keys
      ensures Answered(cfg, isEos, Abs(), Update(cfg, isEos, Abs(), out, ans), out, ans)
    {
      hide Answered;
      SoundPartition(cfg, Machine(Abs(), busy, rows));
      UpdateKeepsInv(cfg, isEos, Abs(), out, ans);
      UpdateAnswers(cfg, isEos, Abs(), out, ans);
    }

    /** Once every row is processed, table and queues are those of the update. */
    lemma ProcessedAll(st: State, out: map<ReqId, Row>, ans: Answer,
                       stoppedRunning: set<ReqId>, stoppedPreempted: set<ReqId>)
      requires Processed(st, out, ans, {}, stoppedRunning, stoppedPreempted)
      requires Partition(st, []) && Placements(st, [])
      requires Stopped(cfg, isEos, st, out, ans) <= st.reqs.Keys
      ensures Update(cfg, isEos, st, out, ans)
              == State(reqs, Without(st.running, stoppedRunning), Without(st.waiting, stoppedPreempted),
                       st.skipped, inflightPrefills, st.pause, st.prefillBound)
    {
      hide Received, Stopped, Partition, Placements, Without;
      var gone := Stopped(cfg, isEos, st, out, ans);
      assert gone - {} == gone;
      StoppedQueues(st, out, gone, stoppedRunning, stoppedPreempted);
    }

    /** Queue removal, skipped when there is nothing to remove. */
    static method DropAll(q: seq<ReqId>, gone: set<ReqId>) returns (r: seq<ReqId>)
      ensures r == Without(q, gone)
    {
      if gone == {} {
        WithoutNone(q, gone);
        r := q;
      } else {
        r := Without(q, gone);
      }
    }

    method ProcessRows(out: map<ReqId, Row>, ans: Answer)
        returns (stoppedRunning: set<ReqId>, stoppedPreempted: set<ReqId>)
      modifies this`reqs, this`inflightPrefills
      ensures Processed(old(Abs()), out, ans, {}, stoppedRunning, stoppedPreempted)
    {
      hide Receive;
      ghost var st := Abs();
      stoppedRunning, stoppedPreempted := {}, {};
      var todo := out.Keys;
      while todo != {}
        invariant todo <= out.Keys
        invariant Processed(st, out, ans, todo, stoppedRunning, stoppedPreempted)
      {
        var id :| id in todo;
        var stopped, wasRunning := ProcessRow(id, out[id], ans(id));
        if stopped && wasRunning {
          stoppedRunning := stoppedRunning + {id};
        } else if stopped {
          stoppedPreempted := stoppedPreempted + {id};
        }
        todo := todo - {id};
      }
    }

    // -------------------------------------------------------------------
    // update_draft_token_ids, finish_requests
    // -------------------------------------------------------------------

    method UpdateDraftTokenIds(drafts: map<ReqId, seq<Token>>)
      requires Valid()
      modifies this
      ensures Valid() && busy == old(busy) && rows == old(rows)
      ensures Abs() == UpdateDrafts(old(Abs()), drafts)
      ensures Drafted(old(Abs()), Abs(), drafts)
    {
      hide Inv;
      DraftsKeepInv(cfg, Abs(), rows, drafts);
      CallsAddAndDraft(Abs(), ReqId(""), ONE_TOKEN, drafts);
      ApplyDrafts(drafts);
    }

    method ApplyDrafts(drafts: map<ReqId, seq<Token>>)
      modifies this`reqs
      ensures reqs == map id | id in old(reqs) ::
                        if id in drafts then Draft(old(reqs)[id], drafts[id]) else old(reqs)[id]
    {
      ghost var all := reqs;
      var todo := drafts.Keys;
      while todo != {}
        invariant todo <= drafts.Keys
        invariant reqs == map id | id in all ::
                            if id in drafts && id !in todo then Draft(all[id], drafts[id]) else all[id]
      {
        var id :| id in todo;
        if id in reqs {
          reqs := reqs[id := Draft(reqs[id], drafts[id])];
        }
        todo := todo - {id};
      }
    }

    /** Abort: the live ones among `ids` leave their queues and are freed. */
    method FinishRequests(ids: set<ReqId>)
      requires Valid()
      modifies this
      ensures Valid() && busy == old(busy) && rows == old(rows)
      ensures Abs() == Finish(old(Abs()), ids)
      ensures Aborted(old(Abs()), Abs(), ids)
    {
      hide Inv, Partition, Placements, Without, Aborted;
      ghost var st := Abs();
      FinishAborts(st, ids);
      SoundPartition(cfg, Machine(st, busy, rows));
      FinishKeepsInv(cfg, st, rows, ids);
      var fromRunning, fromWaiting := CollectLive(ids);
      LiveQueues(st, ids, fromRunning, fromWaiting);
      running := DropAll(running, fromRunning);
      waiting := DropAll(waiting, fromWaiting);
      skippedWaiting := DropAll(skippedWaiting, fromWaiting);
      inflightPrefills := inflightPrefills - (fromRunning + fromWaiting);
      reqs := reqs - (fromRunning + fromWaiting);
      assert inflightPrefills == st.inflight - ids;
      assert reqs == Finish(st, ids).reqs;
    }

    /** The live requests among `ids`, running ones apart from waiting ones. */
    method CollectLive(ids: set<ReqId>) returns (fromRunning: set<ReqId>, fromWaiting: set<ReqId>)
      ensures fromRunning == set id | id in ids && id in reqs && reqs[id].status == Running
      ensures fromWaiting == set id | id in ids && id in reqs && reqs[id].status != Running
    {
      fromRunning, fromWaiting := {}, {};
      var todo := ids;
      while todo != {}
        invariant todo <= ids
        invariant fromRunning == set id | id in ids - todo && id in reqs && reqs[id].status == Running
        invariant fromWaiting == set id | id in ids - todo && id in reqs && reqs[id].status != Running
      {
        var id :| id in todo;
        if id in reqs && reqs[id].status == Running {
          fromRunning := fromRunning + {id};
        } else if id in reqs {
          fromWaiting := fromWaiting + {id};
        }
        todo := todo - {id};
      }
    }

    lemma LiveQueues(st: State, ids: set<ReqId>, fromRunning: set<ReqId>, fromWaiting: set<ReqId>)
      requires Partition(st, []) && Placements(st, [])
      requires fromRunning == set id | id in ids && id in st.reqs && st.reqs[id].status == Running
      requires fromWaiting == set id | id in ids && id in st.reqs && st.reqs[id].status != Running
      ensures Without(st.running, fromRunning) == Without(st.running, ids)
      ensures Without(st.waiting, fromWaiting) == Without(st.waiting, ids)
      ensures Without(st.skipped, fromWaiting) == Without(st.skipped, ids)
    {
      forall id | id in st.running ensures id in fromRunning <==> id in ids {
        Once(st, [], id);
        assert Placement(st, [], id);
      }
      WithoutSame(st.running, fromRunning, ids);
      forall id | id in st.waiting || id in st.skipped ensures id in fromWaiting <==> id in ids {
        Once(st, [], id);
        InQueue(st.waiting, id);
        InQueue(st.skipped, id);
        InQueue(st.running, id);
        assert Placement(st, [], id);
      }
      WithoutSame(st.waiting, fromWaiting, ids);
      WithoutSame(st.skipped, fromWaiting, ids);
    }
  }
}

/**
 Between calls: a reset takes everything back, and what was aborted stays gone.
 */
module SchedulerLifetime {
  import opened Seqs
  import opened SchedulerState
  import opened SchedulerStep
  import opened SchedulerInvariants
  import opened SchedulerRuns
  import opened SchedulerEffects
  import opened SchedulerRows
  import opened SchedulerPhases

  // ---------------------------------------------------------------------
  // Reset
  // ---------------------------------------------------------------------

  /** Every running request is back in front of the queue, in order, with nothing computed,
      and preempted once; nothing else changes. */
  ghost predicate AllReset(st: State, st1: State) {
    && st1.running == [] && st1.waiting == st.running + st.waiting && st1.skipped == st.skipped
    && st1.inflight == st.inflight - (set id | id in st.running)
    && st1.pause == st.pause && st1.prefillBound == st.prefillBound && st1.reqs.Keys == st.reqs.Keys
    && forall id :: id in st.reqs ==>
         st1.reqs[id] == if id in st.running then Reset(st.reqs[id]) else st.reqs[id]
  }

  lemma PreemptLastResets(st: State, st1: State)
    requires st.running != [] && Partition(st, []) && Placements(st, [])
    requires var last := |st.running| - 1; st1 == Preempt(st.(running := st.running[..last]), st.running[last])
    ensures var last := |st.running| - 1;
            var x := st.running[last];
            && x in st.reqs && Partition(st1, []) && Placements(st1, []) && st1.reqs == st.reqs[x := Reset(st.reqs[x])]
            && st1 == State(st1.reqs, st.running[..last], [x] + st.waiting, st.skipped, st.inflight - {x}, st.pause,
                            st.prefillBound)
            && (forall y :: y in st1.running <==> y in st.running && y != x)
  {
    hide Partition, Placements;
    PreemptLastQueues(st);
  }

  lemma {:induction false} ResetEffect(st: State)
    requires Partition(st, []) && Placements(st, [])
    ensures AllReset(st, PreemptAll(st))
    decreases |st.running|
  {
    hide Partition, Placements;
    if st.running == [] {
      assert [] + st.waiting == st.waiting;
      assert st.inflight - (set id | id in st.running) == st.inflight;
    } else {
      var last := |st.running| - 1;
      var st1 := Preempt(st.(running := st.running[..last]), st.running[last]);
      PreemptLastResets(st, st1);
      ResetEffect(st1);
      ResetOneMore(st, st1, PreemptAll(st1));
    }
  }

  lemma ResetOneMore(st: State, st1: State, st2: State)
    requires AllReset(st1, st2) && st.running != []
    requires var last := |st.running| - 1;
             var x := st.running[last];
             && x in st.reqs && st1.reqs == st.reqs[x := Reset(st.reqs[x])]
             && st1 == State(st1.reqs, st.running[..last], [x] + st.waiting, st.skipped, st.inflight - {x}, st.pause,
                             st.prefillBound)
             && (forall y :: y in st1.running <==> y in st.running && y != x)
    ensures AllReset(st, st2)
  {
    hide Reset;
    var x := st.running[|st.running| - 1];
    assert st.running == st1.running + [x];
    assert st1.running + ([x] + st.waiting) == (st1.running + [x]) + st.waiting;
    assert st1.inflight - (set id | id in st1.running) == st.inflight - (set id | id in st.running);
  }

  // ---------------------------------------------------------------------
  // Gone for good
  // ---------------------------------------------------------------------

  lemma AbsentIs(cfg: Config, m: Machine, id: ReqId)
    requires Sound(cfg, m)
    ensures Absent(m.st, id) <==> id !in m.st.reqs
  {
    SoundPartition(cfg, m);
    Once(m.st, [], id);
  }

  predicate Adds(c: Call, id: ReqId) {
    c.Add? && c.id == id
  }

  /** Only an addition brings an id in. */
  lemma CallBringsNone(cfg: Config, isEos: Token -> bool, m: Machine, c: Call, id: ReqId)
    requires Sound(cfg, m) && Legal(cfg, m, c) && id !in m.st.reqs && !Adds(c, id)
    ensures id !in Do(cfg, isEos, m, c).st.reqs
  {
    match c
    case Issue(env, throttle) =>
      hide Inv, Schedule, PadSafe;
      StepOverall(cfg, m.st, env, throttle);
    case ResetRunning =>
      hide Inv;
      SoundPartition(cfg, m);
      ResetEffect(m.st);
    case _ =>
      hide Inv, Received, Schedule, PreemptAll;
  }

  lemma {:induction false} RunBringsNone(cfg: Config, isEos: Token -> bool, m: Machine, calls: seq<Call>, id: ReqId)
    requires Sound(cfg, m) && LegalRun(cfg, isEos, m, calls) && id !in m.st.reqs
    requires forall c :: c in calls ==> !Adds(c, id)
    ensures Absent(Run(cfg, isEos, m, calls).st, id)
    decreases calls
  {
    if calls == [] {
      AbsentIs(cfg, m, id);
    } else {
      assert calls[0] in calls;
      CallBringsNone(cfg, isEos, m, calls[0], id);
      CallKeepsSound(cfg, isEos, m, calls[0]);
      hide Sound, Legal, Do, Adds, Absent;
      RunBringsNone(cfg, isEos, Do(cfg, isEos, m, calls[0]), calls[1..], id);
    }
  }

  /** An aborted request leaves no trace, and stays away over any legal calls until it is
      added again: steps, outputs that were out for it, drafts, resets. */
  lemma AbortedStaysGone(cfg: Config, isEos: Token -> bool, m: Machine, ids: set<ReqId>, calls: seq<Call>, id: ReqId)
    requires Sound(cfg, m) && LegalRun(cfg, isEos, m, [Abort(ids)] + calls) && id in ids
    requires forall c :: c in calls ==> !Adds(c, id)
    ensures Absent(Run(cfg, isEos, m, [Abort(ids)] + calls).st, id)
  {
    assert ([Abort(ids)] + calls)[1..] == calls;
    var m1 := Do(cfg, isEos, m, Abort(ids));
    CallKeepsSound(cfg, isEos, m, Abort(ids));
    FinishAborts(m.st, ids);
    hide Sound, Finish, Dropped, Adds;
    RunBringsNone(cfg, isEos, m1, calls, id);
  }
}

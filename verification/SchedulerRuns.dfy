/**
 The invariant between calls, over every run: any sequence of additions, steps,
 outputs, drafts, aborts, resets and pauses.
 */
module SchedulerRuns {
  import opened Seqs
  import opened SchedulerState
  import opened SchedulerStep
  import opened SchedulerInvariants
  import opened SchedulerAdmission
  import opened SchedulerDrafts

  // ---------------------------------------------------------------------
  // Issuing a step
  // ---------------------------------------------------------------------

  lemma AdvanceKeepsInv(cfg: Config, budget: int, st: State, s: Step)
    requires Mid(cfg, budget, st, s, [])
    ensures Inv(cfg, AfterSchedule(st, s.rows), s.rows)
  {
    var st1 := AfterSchedule(st, s.rows);
    assert st1.reqs.Keys == st.reqs.Keys;
    forall x | x in st1.reqs ensures Placement(st1, [], x) {
      assert Placement(st, [], x);
    }
    forall x | x in st1.running
      ensures x in st.reqs
      ensures if x in s.rows then InFlight(st1.Req(x), s.rows[x]) else Settled(st1.Req(x))
    {
      Once(st, [], x);
      assert RowOk(st, s, x);
    }
    forall x ensures x in st1.inflight <==> x in st1.running && st1.Req(x).isPrefillChunk {
      assert x in st.inflight <==> x in st.running && Prefilling(st, s, x);
      if x in st.running {
        Once(st, [], x);
        assert RowOk(st, s, x);
      }
    }
    forall x | x in s.rows ensures x !in st1.skipped {
      Once(st, [], x);
      InQueue(st.running, x);
      InQueue(st.skipped, x);
    }
    InflightShrinks(st1.inflight, st.inflight);
  }

  lemma InflightShrinks(a: set<ReqId>, b: set<ReqId>)
    requires a <= b
    ensures |a| <= |b|
  {
    if a != b {
      assert b == a + (b - a);
      assert |b| == |a| + |b - a|;
    }
  }

  /** The rows of a step are positive and lie inside the running list, whose length
      bounds the three lists of the step. */
  lemma ListsFit(cfg: Config, budget: int, st: State, s: Step)
    requires Mid(cfg, budget, st, s, [])
    ensures |s.scheduledNew| + |s.scheduledResumed| + |s.scheduledRunning| <= |st.running|
  {
    var lists := multiset(s.scheduledRunning) + multiset(s.scheduledNew) + multiset(s.scheduledResumed);
    forall x ensures lists[x] <= multiset(st.running)[x] {
      assert lists[x] == multiset(s.rows.Keys)[x];
      if x in s.rows {
        InQueue(st.running, x);
      }
    }
    assert lists <= multiset(st.running);
    assert multiset(st.running) == lists + (multiset(st.running) - lists);
  }

  /** A step issued in the invariant ends in the invariant, gives out exactly what it
      takes from its budget, and no assertion of the program fails in it. */
  lemma ScheduleKeepsInv(cfg: Config, st: State, env: Env, throttle: bool)
    requires Inv(cfg, st, map[]) && PadSafe(cfg, env)
    ensures var (st1, s) := Schedule(cfg, st, env, throttle);
            && Inv(cfg, st1, s.rows)
            && s.budget >= 0 && s.budget + Total(s.rows) == StartBudget(cfg, st)
            && !s.fault
            && |st1.running| <= cfg.maxRunning
            && |s.scheduledNew| + |s.scheduledResumed| + |s.scheduledRunning| <= |st1.running|
            && (forall id :: id in s.rows ==> id in st1.running && s.rows[id].n > 0)
  {
    var budget := StartBudget(cfg, st);
    var e := Phases(cfg, st, env, throttle);
    PhasesKeepMid(cfg, st, env, throttle);
    AdvanceKeepsInv(cfg, budget, e.0, e.1);
    ListsFit(cfg, budget, e.0, e.1);
    forall id | id in e.1.rows ensures id in e.0.running && e.1.rows[id].n > 0 {
      assert RowOk(e.0, e.1, id);
    }
  }

  // ---------------------------------------------------------------------
  // Output, drafts, additions, aborts, resets
  // ---------------------------------------------------------------------

  lemma {:induction false} AppendLength(cfg: Config, isEos: Token -> bool, r: Request, generated: seq<Token>)
    ensures var a := Append(cfg, isEos, r, generated);
            !a.stopped && generated != [] ==> |a.r.tokens| < cfg.maxModelLen
    decreases generated
  {
    if generated != [] {
      AppendLength(cfg, isEos, r.(tokens := r.tokens + [generated[0]]), generated[1..]);
    }
  }

  /** The runner answers every row of a request that is still live. */
  ghost predicate Answers(st: State, rows: map<ReqId, Row>, ans: Answer) {
    forall id :: id in rows && id in st.reqs ==> RunnerAnswer(st.Req(id), rows[id], ans(id))
  }

  /** One live request across the output of a step. */
  lemma ReceiveKeepsRequest(cfg: Config, isEos: Token -> bool, st: State, rows: map<ReqId, Row>, ans: Answer, id: ReqId)
    requires Inv(cfg, st, rows) && Answers(st, rows, ans) && id in rows && id in st.reqs
    ensures var a := Received(cfg, isEos, st, rows, ans, id);
            && a.r.status == st.reqs[id].status
            && a.r.isPrefillChunk == st.reqs[id].isPrefillChunk
            && (!a.stopped ==>
                  && 1 <= |a.r.tokens| <= cfg.maxModelLen
                  && (id in st.running ==> Settled(a.r))
                  && (id !in st.running ==> a.r.numComputed == 0))
  {
    var r := st.reqs[id];
    assert Placement(st, [], id);
    AppendLength(cfg, isEos, Reject(r, rows[id], ans(id)), ans(id));
  }

  /** Dropping a set of ids from every queue and from the live requests. */
  lemma DropKeepsPartition(st: State, st1: State, gone: set<ReqId>)
    requires Partition(st, [])
    requires st1.running == Without(st.running, gone) && st1.waiting == Without(st.waiting, gone)
    requires st1.skipped == Without(st.skipped, gone) && st1.reqs.Keys == st.reqs.Keys - gone
    ensures Partition(st1, [])
  {
    var sum := multiset(st1.running) + multiset(st1.waiting) + multiset(st1.skipped) + multiset([]);
    forall x ensures sum[x] == multiset(st1.reqs.Keys)[x] {
      Once(st, [], x);
      WithoutMultiset(st.running, gone, x);
      WithoutMultiset(st.waiting, gone, x);
      WithoutMultiset(st.skipped, gone, x);
    }
    assert sum == multiset(st1.reqs.Keys);
  }

  lemma UpdateQueues(cfg: Config, isEos: Token -> bool, st: State, rows: map<ReqId, Row>, ans: Answer)
    requires Partition(st, []) && NotSkipped(st, rows)
    ensures Partition(Update(cfg, isEos, st, rows, ans), [])
  {
    var gone := Stopped(cfg, isEos, st, rows, ans);
    var st1 := Update(cfg, isEos, st, rows, ans);
    WithoutNone(st.skipped, gone);
    DropKeepsPartition(st, st1, gone);
  }

  lemma UpdateKeepsInv(cfg: Config, isEos: Token -> bool, st: State, rows: map<ReqId, Row>, ans: Answer)
    requires Inv(cfg, st, rows) && Answers(st, rows, ans)
    ensures Inv(cfg, Update(cfg, isEos, st, rows, ans), map[])
  {
    var gone := Stopped(cfg, isEos, st, rows, ans);
    var st1 := Update(cfg, isEos, st, rows, ans);
    UpdateQueues(cfg, isEos, st, rows, ans);
    forall x | x in st1.reqs
      ensures Placement(st1, [], x) && 1 <= |st1.reqs[x].tokens| <= cfg.maxModelLen
      ensures x in st1.running ==> Settled(st1.Req(x))
      ensures st1.Req(x).isPrefillChunk == st.Req(x).isPrefillChunk
    {
      assert Placement(st, [], x);
      if x in rows {
        ReceiveKeepsRequest(cfg, isEos, st, rows, ans, x);
      }
    }
    forall x | x in st1.running ensures x in st1.reqs {
      Once(st1, [], x);
    }
    InflightShrinks(st1.inflight, st.inflight);
    WithoutShrinks(st.running, gone);
  }

  lemma {:induction false} WithoutShrinks(s: seq<ReqId>, gone: set<ReqId>)
    ensures |Without(s, gone)| <= |s|
  {
    if s != [] {
      WithoutShrinks(s[1..], gone);
    }
  }

  lemma DraftsKeepInv(cfg: Config, st: State, rows: map<ReqId, Row>, drafts: map<ReqId, seq<Token>>)
    requires Inv(cfg, st, rows)
    ensures Inv(cfg, UpdateDrafts(st, drafts), rows)
  {
    var st1 := UpdateDrafts(st, drafts);
    assert st1.reqs.Keys == st.reqs.Keys;
    forall x | x in st1.reqs ensures Placement(st1, [], x) {
      assert Placement(st, [], x);
    }
    forall x | x in st1.running
      ensures if x in rows then InFlight(st1.Req(x), rows[x]) else Settled(st1.Req(x))
    {
      Once(st, [], x);
    }
  }

  lemma FinishRequests(cfg: Config, st: State, rows: map<ReqId, Row>, ids: set<ReqId>)
    requires Partition(st, []) && Placements(st, []) && Lengths(cfg, st) && Accounted(st, rows)
    ensures var st1 := Finish(st, ids);
            Partition(st1, []) && Placements(st1, []) && Lengths(cfg, st1) && Accounted(st1, rows)
  {
    var st1 := Finish(st, ids);
    DropKeepsPartition(st, st1, ids);
    forall x | x in st1.reqs ensures Placement(st1, [], x) {
      assert Placement(st, [], x);
    }
    forall x | x in st1.running ensures x in st1.reqs {
      Once(st1, [], x);
    }
  }

  lemma FinishCapped(cfg: Config, st: State, ids: set<ReqId>)
    requires Capped(cfg, st) && forall x :: x in st.running ==> x in st.reqs
    ensures Capped(cfg, Finish(st, ids))
  {
    var st1 := Finish(st, ids);
    forall x | x in st1.running ensures st1.Req(x) == st.Req(x) {
    }
    InflightShrinks(st1.inflight, st.inflight);
    WithoutShrinks(st.running, ids);
  }

  lemma FinishKeepsInv(cfg: Config, st: State, rows: map<ReqId, Row>, ids: set<ReqId>)
    requires Inv(cfg, st, rows)
    ensures Inv(cfg, Finish(st, ids), rows)
  {
    forall x | x in st.running ensures x in st.reqs {
      Once(st, [], x);
    }
    hide Partition, Placements, Lengths, Accounted, Capped;
    FinishRequests(cfg, st, rows, ids);
    FinishCapped(cfg, st, ids);
  }

  /** A new request: waiting, with nothing computed and a prompt that fits. */
  ghost predicate New(cfg: Config, r: Request) {
    && (r.status == Waiting || r.status == WaitingForGrammar)
    && r.numComputed == 0 && 1 <= |r.tokens| <= cfg.maxModelLen
  }

  lemma AddQueues(st: State, id: ReqId, r: Request)
    requires Partition(st, []) && id !in st.reqs
    ensures Partition(AddRequest(st, id, r), [])
  {
    var st1 := AddRequest(st, id, r);
    assert st1.reqs.Keys == st.reqs.Keys + {id};
    assert multiset(st1.reqs.Keys) == multiset(st.reqs.Keys) + multiset{id};
  }

  lemma AddPlacements(cfg: Config, st: State, id: ReqId, r: Request)
    requires Placements(st, []) && New(cfg, r) && id !in st.reqs && id !in st.running
    ensures Placements(AddRequest(st, id, r), [])
  {
    var st1 := AddRequest(st, id, r);
    forall x | x in st1.reqs ensures Placement(st1, [], x) {
      if x != id {
        assert Placement(st, [], x);
      }
    }
  }

  lemma AddCounters(cfg: Config, st: State, rows: map<ReqId, Row>, id: ReqId, r: Request)
    requires Accounted(st, rows) && NotSkipped(st, rows) && Capped(cfg, st)
    requires id !in st.running && id !in rows
    ensures var st1 := AddRequest(st, id, r);
            Accounted(st1, rows) && NotSkipped(st1, rows) && Capped(cfg, st1)
  {
    var st1 := AddRequest(st, id, r);
    assert forall x :: x != id ==> st1.Req(x) == st.Req(x);
    assert st1.running == st.running && st1.inflight == st.inflight;
    assert forall x :: x in st1.skipped ==> x in st.skipped || x == id;
    forall x | x in st1.running
      ensures if x in rows then InFlight(st1.Req(x), rows[x]) else Settled(st1.Req(x))
    {
    }
  }

  lemma AddKeepsInv(cfg: Config, st: State, rows: map<ReqId, Row>, id: ReqId, r: Request)
    requires Inv(cfg, st, rows) && New(cfg, r) && id !in st.reqs && id !in rows
    ensures Inv(cfg, AddRequest(st, id, r), rows)
  {
    Once(st, [], id);
    AddQueues(st, id, r);
    hide Partition, Placements, Accounted, NotSkipped, Capped;
    AddPlacements(cfg, st, id, r);
    AddCounters(cfg, st, rows, id, r);
  }

  lemma PreemptLastQueues(st: State)
    requires Partition(st, []) && Placements(st, []) && st.running != []
    ensures var last := |st.running| - 1;
            var id := st.running[last];
            var st1 := Preempt(st.(running := st.running[..last]), id);
            && id in st.reqs && Partition(st1, []) && Placements(st1, [])
            && (forall x :: x in st.running[..last] <==> x in st.running && x != id)
  {
    var last := |st.running| - 1;
    assert RemoveAt(st.running, last) == st.running[..last];
    PreemptPlacement(st, [], last);
  }

  lemma PreemptCounters(cfg: Config, st: State, rest: seq<ReqId>, id: ReqId, rows: map<ReqId, Row>)
    requires Lengths(cfg, st) && Accounted(st, rows) && NotSkipped(st, rows) && Capped(cfg, st)
    requires (forall x :: x in rest <==> x in st.running && x != id) && |rest| <= |st.running| && id in st.reqs
    ensures var st1 := Preempt(st.(running := rest), id);
            Lengths(cfg, st1) && Accounted(st1, rows) && NotSkipped(st1, rows) && Capped(cfg, st1)
  {
    var st1 := Preempt(st.(running := rest), id);
    assert forall x :: x != id ==> st1.Req(x) == st.Req(x);
    CardMinus(st.inflight, id);
  }

  lemma PreemptLastKeepsInv(cfg: Config, st: State, rows: map<ReqId, Row>)
    requires Inv(cfg, st, rows) && st.running != []
    ensures var last := |st.running| - 1;
            Inv(cfg, Preempt(st.(running := st.running[..last]), st.running[last]), rows)
  {
    hide Partition, Placements, Lengths, Accounted, NotSkipped, Capped;
    var last := |st.running| - 1;
    PreemptLastQueues(st);
    PreemptCounters(cfg, st, st.running[..last], st.running[last], rows);
  }

  lemma {:induction false} PreemptAllKeepsInv(cfg: Config, st: State, rows: map<ReqId, Row>)
    requires Inv(cfg, st, rows)
    ensures Inv(cfg, PreemptAll(st), rows) && PreemptAll(st).running == [] && PreemptAll(st).inflight == {}
    decreases |st.running|
  {
    if st.running != [] {
      var last := |st.running| - 1;
      PreemptLastKeepsInv(cfg, st, rows);
      hide Inv;
      PreemptAllKeepsInv(cfg, Preempt(st.(running := st.running[..last]), st.running[last]), rows);
    }
  }

  // ---------------------------------------------------------------------
  // Runs
  // ---------------------------------------------------------------------

  datatype Call =
    | Add(id: ReqId, r: Request)
    | Issue(env: Env, throttle: bool)
    | Output(ans: Answer)
    | Drafts(drafts: map<ReqId, seq<Token>>)
    | Abort(ids: set<ReqId>)
    | ResetRunning
    | SetPause(pause: Pause)

  /** The scheduler with the step that is out, if any. */
  datatype Machine = Machine(st: State, busy: bool, rows: map<ReqId, Row>)

  const START := Machine(State(map[], [], [], [], {}, Unpaused, false), false, map[])

  /** What callers keep to: one step out at a time, ids that are not in use, prompts
      that fit the model, and answers of the promised length. */
  ghost predicate Legal(cfg: Config, m: Machine, c: Call) {
    match c
    case Add(id, r) => New(cfg, r) && id !in m.st.reqs && id !in m.rows
    case Issue(env, _) => !m.busy && PadSafe(cfg, env)
    case Output(ans) => m.busy && Answers(m.st, m.rows, ans)
    case _ => true
  }

  function Do(cfg: Config, isEos: Token -> bool, m: Machine, c: Call): Machine {
    match c
    case Add(id, r) => m.(st := AddRequest(m.st, id, r))
    case Issue(env, throttle) =>
      var e := Schedule(cfg, m.st, env, throttle);
      Machine(e.0, true, e.1.rows)
    case Output(ans) => Machine(Update(cfg, isEos, m.st, m.rows, ans), false, map[])
    case Drafts(drafts) => m.(st := UpdateDrafts(m.st, drafts))
    case Abort(ids) => m.(st := Finish(m.st, ids))
    case ResetRunning => m.(st := PreemptAll(m.st))
    case SetPause(pause) => m.(st := m.st.(pause := pause))
  }

  function Run(cfg: Config, isEos: Token -> bool, m: Machine, calls: seq<Call>): Machine
    decreases calls
  {
    if calls == [] then m else Run(cfg, isEos, Do(cfg, isEos, m, calls[0]), calls[1..])
  }

  ghost predicate LegalRun(cfg: Config, isEos: Token -> bool, m: Machine, calls: seq<Call>)
    decreases calls
  {
    calls != [] ==> Legal(cfg, m, calls[0]) && LegalRun(cfg, isEos, Do(cfg, isEos, m, calls[0]), calls[1..])
  }

  ghost predicate Sound(cfg: Config, m: Machine) {
    Inv(cfg, m.st, m.rows) && (!m.busy ==> m.rows == map[])
  }

  lemma SoundPartition(cfg: Config, m: Machine)
    requires Sound(cfg, m)
    ensures Partition(m.st, []) && Placements(m.st, [])
    ensures Inv(cfg, m.st, m.rows) && (!m.busy ==> Inv(cfg, m.st, map[]))
    ensures m.st.inflight <= m.st.reqs.Keys
  {
    forall id | id in m.st.inflight ensures id in m.st.reqs {
      Once(m.st, [], id);
    }
  }

  lemma PauseKeepsInv(cfg: Config, st: State, rows: map<ReqId, Row>, pause: Pause)
    requires Inv(cfg, st, rows)
    ensures Inv(cfg, st.(pause := pause), rows)
  {
    var st1 := st.(pause := pause);
    assert forall x :: st1.Req(x) == st.Req(x);
    forall x | x in st1.reqs ensures Placement(st1, [], x) {
      assert Placement(st, [], x);
    }
  }

  lemma CallKeepsSound(cfg: Config, isEos: Token -> bool, m: Machine, c: Call)
    requires Sound(cfg, m) && Legal(cfg, m, c)
    ensures Sound(cfg, Do(cfg, isEos, m, c))
  {
    hide Inv, Schedule, Update, UpdateDrafts, Finish, PreemptAll, AddRequest;
    match c
    case Add(id, r) => AddKeepsInv(cfg, m.st, m.rows, id, r);
    case Issue(env, throttle) => ScheduleKeepsInv(cfg, m.st, env, throttle);
    case Output(ans) => UpdateKeepsInv(cfg, isEos, m.st, m.rows, ans);
    case Drafts(drafts) => DraftsKeepInv(cfg, m.st, m.rows, drafts);
    case Abort(ids) => FinishKeepsInv(cfg, m.st, m.rows, ids);
    case ResetRunning => PreemptAllKeepsInv(cfg, m.st, m.rows);
    case SetPause(pause) => PauseKeepsInv(cfg, m.st, m.rows, pause);
  }

  /** Every legal run keeps the partition, the accounting and the cap. */
  lemma {:induction false} RunKeepsSound(cfg: Config, isEos: Token -> bool, m: Machine, calls: seq<Call>)
    requires Sound(cfg, m) && LegalRun(cfg, isEos, m, calls)
    ensures Sound(cfg, Run(cfg, isEos, m, calls))
    decreases calls
  {
    if calls != [] {
      CallKeepsSound(cfg, isEos, m, calls[0]);
      hide Sound, Legal, Do;
      RunKeepsSound(cfg, isEos, Do(cfg, isEos, m, calls[0]), calls[1..]);
    }
  }

  /** A call that brings no drafts to a request that waits or prefills: a new request has
      none, and none arrives for a preempted one. */
  predicate InPlace(m: Machine, c: Call) {
    (c.Add? ==> c.r.spec == []) && (c.Drafts? ==> !Misplaced(m.st, c.drafts))
  }

  /** Of all calls exactly those keep it so that no request that waits or prefills carries
      drafts. */
  lemma CallKeepsDraftsIff(cfg: Config, isEos: Token -> bool, m: Machine, c: Call)
    requires Sound(cfg, m) && Legal(cfg, m, c) && NoStaleDrafts(m.st)
    ensures NoStaleDrafts(Do(cfg, isEos, m, c).st) <==> InPlace(m, c)
  {
    hide Inv, Schedule, Update, UpdateDrafts, Finish, PreemptAll, Misplaced, PadSafe;
    match c
    case Add(id, r) => AddKeepsDraftsIff(cfg, m, id, r);
    case Issue(env, throttle) => ScheduleKeepsDrafts(cfg, m.st, env, throttle);
    case Output(ans) => UpdateKeepsDrafts(cfg, isEos, m.st, m.rows, ans);
    case Drafts(drafts) => DraftsKeepDrafts(m.st, drafts);
    case Abort(ids) => FinishKeepsDrafts(m.st, ids);
    case ResetRunning => PreemptAllKeepsDrafts(m.st);
    case SetPause(pause) =>
  }

  lemma AddKeepsDraftsIff(cfg: Config, m: Machine, id: ReqId, r: Request)
    requires Sound(cfg, m) && id !in m.st.reqs && NoStaleDrafts(m.st)
    ensures NoStaleDrafts(AddRequest(m.st, id, r)) <==> r.spec == []
  {
    SoundPartition(cfg, m);
    Once(m.st, [], id);
    var st1 := AddRequest(m.st, id, r);
    assert st1.reqs[id] == r && id !in st1.running;
    hide Inv, Partition;
  }

  /** No request that waits or prefills carries drafts, at any point of the run. */
  ghost predicate NeverStale(cfg: Config, isEos: Token -> bool, m: Machine, calls: seq<Call>)
    decreases calls
  {
    NoStaleDrafts(m.st) && (calls != [] ==> NeverStale(cfg, isEos, Do(cfg, isEos, m, calls[0]), calls[1..]))
  }

  ghost predicate InPlaceRun(cfg: Config, isEos: Token -> bool, m: Machine, calls: seq<Call>)
    decreases calls
  {
    calls != [] ==> InPlace(m, calls[0]) && InPlaceRun(cfg, isEos, Do(cfg, isEos, m, calls[0]), calls[1..])
  }

  /** Over whole runs: drafts are always where they belong exactly when every call puts
      them there. */
  lemma {:induction false} RunKeepsDraftsIff(cfg: Config, isEos: Token -> bool, m: Machine, calls: seq<Call>)
    requires Sound(cfg, m) && LegalRun(cfg, isEos, m, calls) && NoStaleDrafts(m.st)
    ensures NeverStale(cfg, isEos, m, calls) <==> InPlaceRun(cfg, isEos, m, calls)
    ensures InPlaceRun(cfg, isEos, m, calls) ==> NoStaleDrafts(Run(cfg, isEos, m, calls).st)
    decreases calls
  {
    if calls != [] {
      CallKeepsSound(cfg, isEos, m, calls[0]);
      CallKeepsDraftsIff(cfg, isEos, m, calls[0]);
      hide Sound, Legal, Do, InPlace, NoStaleDrafts;
      var m1 := Do(cfg, isEos, m, calls[0]);
      if NoStaleDrafts(m1.st) {
        RunKeepsDraftsIff(cfg, isEos, m1, calls[1..]);
      }
    }
  }

  /** From the empty scheduler, after any legal run: the queues partition the live
      requests, every counter is in its range, the cap holds, and no request that waits
      or prefills carries drafts, as long as none were brought to it; and a step issued
      next never asks for a negative number of tokens, keeps its ledger and trips no
      assertion. */
  lemma EveryRunIsSafe(cfg: Config, isEos: Token -> bool, calls: seq<Call>, env: Env, throttle: bool)
    requires LegalRun(cfg, isEos, START, calls)
    ensures var m := Run(cfg, isEos, START, calls);
            && Partition(m.st, [])
            && (forall id :: id in m.st.reqs ==>
                  && Placement(m.st, [], id)
                  && (id in m.st.running && id !in m.rows ==> Settled(m.st.reqs[id]))
                  && (id in m.st.running && id in m.rows ==> InFlight(m.st.reqs[id], m.rows[id])))
            && Capped(cfg, m.st)
            && (InPlaceRun(cfg, isEos, START, calls) ==>
                  forall id :: id in m.st.reqs && (id !in m.st.running || m.st.reqs[id].isPrefillChunk) ==>
                      m.st.reqs[id].spec == [])
            && (!m.busy && PadSafe(cfg, env) ==>
                  && (forall id :: id in m.st.running ==>
                      |m.st.Req(id).tokens| + |m.st.Req(id).spec| - m.st.Req(id).numComputed > 0)
                  && var (st1, s) := Schedule(cfg, m.st, env, throttle);
                     !s.fault && s.budget >= 0 && s.budget + Total(s.rows) == StartBudget(cfg, m.st))
  {
    assert Sound(cfg, START);
    RunKeepsSound(cfg, isEos, START, calls);
    RunKeepsDraftsIff(cfg, isEos, START, calls);
    var m := Run(cfg, isEos, START, calls);
    hide Schedule, Run, InPlaceRun, NeverStale;
    if !m.busy && PadSafe(cfg, env) {
      ScheduleKeepsInv(cfg, m.st, env, throttle);
    }
  }

  // ---------------------------------------------------------------------
  // Where the accounting needs its conditions
  // ---------------------------------------------------------------------

  /** A request admitted beside a scheduled decode, with no further trim, gets a row that
      fits. The decode has taken some budget and a place, and has a token to compute. */
  ghost predicate AdmittedFits(cfg: Config, r: Request, budget: nat, hit: nat) {
    && |r.tokens| > 0 && r.numComputed == 0
    && 0 < budget < cfg.maxScheduledTokens && cfg.maxRunning >= 2 && cfg.maxModelLen >= 3
    ==>
      var a := Admitted(cfg, r, budget, hit, _ => budget, true, false);
      a.Admit? ==> RowFits(r.(numComputed := a.computed), a.row)
  }

  /** The long-prefill threshold is applied after padding. Every padded row keeps
      room for its drafts exactly when the threshold is off or not below a padded
      row, or when no row is ever padded: drafts vary, or the length of the model, the
      budget of a step or the running list has no room for a padded row beside another. */
  lemma PaddingSurvivesIff(cfg: Config)
    ensures (forall r, budget, hit :: AdmittedFits(cfg, r, budget, hit)) <==> ThresholdSafe(cfg)
  {
    if ThresholdSafe(cfg) {
      forall r, budget: nat, hit ensures AdmittedFits(cfg, r, budget, hit) {
        if |r.tokens| > 0 && r.numComputed == 0 && 0 < budget {
          AdmittedRowFits(cfg, r, budget, hit, _ => budget, true, false);
        }
      }
    } else {
      CutPadding(cfg);
      assert !AdmittedFits(cfg, ONE_TOKEN, 1 + cfg.numSpecTokens, 0);
    }
  }

  const ONE_TOKEN := Request([0], 1, 1, [], 0, false, Waiting, 0, 0, 0)

  lemma CutPadding(cfg: Config)
    requires 0 < cfg.longPrefillThreshold < 1 + cfg.numSpecTokens && !cfg.dynamicSpec
    requires cfg.maxModelLen >= 1 + cfg.numSpecTokens
    ensures var budget := 1 + cfg.numSpecTokens;
            var a := Admitted(cfg, ONE_TOKEN, budget, 0, _ => budget, true, false);
            a.Admit? && !RowFits(ONE_TOKEN.(numComputed := a.computed), a.row)
  {
  }
}

/**
 Who is served: first-come-first-served keeps arrival order through preemption,
 admission and reset, and the running phase starves nobody while budget is left.
 */
module SchedulerOrder {
  import opened Seqs
  import opened SchedulerState
  import opened SchedulerStep
  import opened SchedulerInvariants
  import opened SchedulerAdmission
  import opened SchedulerRuns

  /** The running requests followed by the waiting ones. */
  function Order(st: State): seq<ReqId> {
    st.running + st.waiting
  }

  lemma {:induction false} PlaceKeepsOrder(cfg: Config, st: State, s: Step, i: int, id: ReqId, env: Env)
    requires cfg.policy == Fcfs
    ensures var p := Place(cfg, st, s, i, id, env);
            Order(p.st) == Order(st) && p.st.skipped == st.skipped
    decreases |st.running|
  {
    if !env.alloc(s.calls) && st.running != [] {
      var s1 := s.(calls := s.calls + 1);
      var p := EvictOne(cfg, st, s1, i);
      var last := |st.running| - 1;
      assert st.running == st.running[..last] + [st.running[last]];
      assert Order(p.st) == Order(st);
      PlaceKeepsOrder(cfg, p.st, p.s, p.i, id, env);
    }
  }

  lemma {:induction false} RunLoopKeepsOrder(cfg: Config, st: State, s: Step, i: int, env: Env, defer: bool)
    requires cfg.policy == Fcfs
    ensures var e := RunLoop(cfg, st, s, i, env, defer);
            Order(e.0) == Order(st) && e.0.skipped == st.skipped
    decreases Max(|st.running| - i, 0)
  {
    if 0 <= i < |st.running| && s.budget > 0 {
      PlaceKeepsOrder(cfg, st, s, i, st.running[i], env);
      var p := RunOne(cfg, st, s, i, env, defer);
      if p.ok {
        RunLoopKeepsOrder(cfg, p.st, p.s, p.i, env, defer);
      }
    }
  }

  /** No waiting request is blocked. */
  ghost predicate Ready(st: State) {
    forall id :: id in st.waiting ==> !Blocked(st.Req(id).status)
  }

  ghost predicate Plain(w: Wait) {
    w.st.skipped == [] && w.held == [] && Ready(w.st)
  }

  lemma MoveFirst(a: seq<ReqId>, b: seq<ReqId>)
    requires b != []
    ensures (a + [b[0]]) + RemoveAt(b, 0) == a + b
  {
  }

  lemma EnrollKeepsOrder(st: State, s: Step, row: Row, computed: int)
    requires st.waiting != [] && st.skipped == []
    ensures var st1 := Enroll(Pop(st, false, 0), s, st.waiting[0], row, computed).0;
            Order(st1) == Order(st) && st1.skipped == []
  {
    hide RemoveAt;
    MoveFirst(st.running, st.waiting);
  }

  lemma EnrollKeepsReady(st: State, s: Step, row: Row, computed: int)
    requires st.waiting != [] && Ready(st)
    ensures Ready(Enroll(Pop(st, false, 0), s, st.waiting[0], row, computed).0)
  {
    var st1 := Enroll(Pop(st, false, 0), s, st.waiting[0], row, computed).0;
    forall x | x in st1.waiting ensures !Blocked(st1.Req(x).status) {
      assert x in st.waiting;
    }
  }

  lemma ConsiderKeepsOrder(cfg: Config, w: Wait, env: Env, defer: bool)
    requires env.held == {} && Plain(w) && w.st.waiting != []
    ensures var r := Consider(cfg, w, false, 0, env, defer);
            Order(r.w.st) == Order(w.st) && Plain(r.w)
  {
    hide Admitted, Order, Ready, Enroll, Pop;
    var id := w.st.waiting[0];
    var decodesOnly := w.s.scheduledRunning != [] && !w.s.prefillScheduled;
    var a := Admitted(cfg, w.st.Req(id), w.s.budget, env.hit(id), pad => env.cap(id, pad), decodesOnly, defer);
    if a.Admit? {
      EnrollKeepsOrder(w.st, w.s.(calls := w.s.calls + 1), a.row, a.computed);
      EnrollKeepsReady(w.st, w.s.(calls := w.s.calls + 1), a.row, a.computed);
    }
  }

  lemma WaitOneKeepsOrder(cfg: Config, w: Wait, env: Env, defer: bool)
    requires cfg.policy == Fcfs && env.held == {} && Plain(w) && Open(cfg, w)
    ensures var r := WaitOne(cfg, w, env, defer);
            Order(r.w.st) == Order(w.st) && Plain(r.w)
  {
    assert Promote(w.st, w.st.waiting[0]) == w.st;
    ConsiderKeepsOrder(cfg, w, env, defer);
    hide Order, Consider;
  }

  lemma {:induction false} WaitLoopKeepsOrder(cfg: Config, w: Wait, env: Env, defer: bool)
    requires cfg.policy == Fcfs && env.held == {} && Plain(w)
    ensures var w1 := WaitLoop(cfg, w, env, defer);
            Order(w1.st) == Order(w.st) && Plain(w1)
    decreases |w.st.waiting| + |w.st.skipped|
  {
    if Open(cfg, w) {
      WaitOneKeepsOrder(cfg, w, env, defer);
      hide Plain, Order;
      var r := WaitOne(cfg, w, env, defer);
      if r.Again? {
        WaitLoopKeepsOrder(cfg, r.w, env, defer);
      }
    }
  }

  /** Blocked requests only ever wait in the skipped queue. */
  lemma AllReady(st: State)
    requires Partition(st, []) && Placements(st, []) && st.skipped == []
    ensures Ready(st)
  {
    forall id | id in st.waiting ensures !Blocked(st.Req(id).status) {
      Once(st, [], id);
      InQueue(st.waiting, id);
      assert Placement(st, [], id);
    }
  }

  /** A step of the first-come-first-served policy moves the boundary between the
      running and the waiting requests and nothing else. */
  lemma ScheduleKeepsOrder(cfg: Config, st: State, env: Env, throttle: bool)
    requires Inv(cfg, st, map[]) && cfg.policy == Fcfs && env.held == {} && st.skipped == []
    ensures var st1 := Schedule(cfg, st, env, throttle).0;
            Order(st1) == Order(st) && st1.skipped == []
  {
    hide Mid, Inv, RunLoop, WaitLoop;
    var defer := Defers(st, throttle);
    var s0 := StartStep(cfg, st);
    StartKeepsMid(cfg, st);
    RunLoopKeepsMid(cfg, StartBudget(cfg, st), st, s0, 0, env, defer);
    RunLoopKeepsOrder(cfg, st, s0, 0, env, defer);
    var e := RunLoop(cfg, st, s0, 0, env, defer);
    if e.1.preempted == [] && e.0.pause == Unpaused {
      assert Partition(e.0, []) && Placements(e.0, []) by { MidQueues(cfg, StartBudget(cfg, st), e.0, e.1); }
      AllReady(e.0);
      WaitLoopKeepsOrder(cfg, Wait(e.0, e.1, []), env, defer);
    }
  }

  lemma MidQueues(cfg: Config, budget: int, st: State, s: Step)
    requires Mid(cfg, budget, st, s, [])
    ensures Partition(st, []) && Placements(st, [])
  {
  }

  lemma {:induction false} PreemptAllKeepsOrder(st: State)
    ensures Order(PreemptAll(st)) == Order(st) && PreemptAll(st).skipped == st.skipped
    ensures PreemptAll(st).reqs.Keys >= st.reqs.Keys
    decreases |st.running|
  {
    if st.running != [] {
      var last := |st.running| - 1;
      assert st.running == st.running[..last] + [st.running[last]];
      var st1 := Preempt(st.(running := st.running[..last]), st.running[last]);
      assert Order(st1) == Order(st);
      PreemptAllKeepsOrder(st1);
    }
  }

  // ---------------------------------------------------------------------
  // Arrival order over runs
  // ---------------------------------------------------------------------

  /** The ids of the requests added by a run, in order. */
  function Arrivals(calls: seq<Call>): seq<ReqId> {
    if calls == [] then []
    else (if calls[0].Add? then [calls[0].id] else []) + Arrivals(calls[1..])
  }

  /** A run in which nothing is blocked or held back and no id is used twice. */
  ghost predicate PlainRun(calls: seq<Call>, used: seq<ReqId>)
    decreases calls
  {
    calls != [] ==> PlainCall(calls[0], used) && PlainRun(calls[1..], Used(calls[0], used))
  }

  ghost predicate PlainCall(c: Call, used: seq<ReqId>) {
    && (c.Add? ==> c.r.status == Waiting && c.id !in used)
    && (c.Issue? ==> c.env.held == {})
  }

  function Used(c: Call, used: seq<ReqId>): seq<ReqId> {
    if c.Add? then used + [c.id] else used
  }

  /** The live requests, in arrival order. */
  function Live(st: State, arrived: seq<ReqId>): seq<ReqId> {
    Without(arrived, set id | id in arrived && id !in st.reqs)
  }

  ghost predicate InOrder(st: State, arrived: seq<ReqId>) {
    && Order(st) == Live(st, arrived) && st.skipped == []
    && forall id :: id in st.reqs ==> id in arrived
  }

  lemma {:induction false} WithoutTwice(s: seq<ReqId>, a: set<ReqId>, b: set<ReqId>)
    ensures Without(Without(s, a), b) == Without(s, a + b)
  {
    if s != [] {
      WithoutTwice(s[1..], a, b);
    }
  }

  lemma {:induction false} WithoutSame(s: seq<ReqId>, a: set<ReqId>, b: set<ReqId>)
    requires forall id :: id in s ==> (id in a <==> id in b)
    ensures Without(s, a) == Without(s, b)
  {
    if s != [] {
      WithoutSame(s[1..], a, b);
    }
  }

  /** Dropping finished requests keeps the others in order. */
  lemma DropKeepsInOrder(st: State, st1: State, arrived: seq<ReqId>, gone: set<ReqId>)
    requires InOrder(st, arrived)
    requires st1.running == Without(st.running, gone) && st1.waiting == Without(st.waiting, gone)
    requires st1.skipped == [] && st1.reqs.Keys == st.reqs.Keys - gone
    ensures InOrder(st1, arrived)
  {
    var dead := set id | id in arrived && id !in st.reqs;
    var dead1 := set id | id in arrived && id !in st1.reqs;
    WithoutConcat(st.running, st.waiting, gone);
    WithoutTwice(arrived, dead, gone);
    WithoutSame(arrived, dead + gone, dead1);
  }

  lemma MoveKeepsInOrder(st: State, st1: State, arrived: seq<ReqId>)
    requires InOrder(st, arrived) && Order(st1) == Order(st) && st1.skipped == [] && st1.reqs.Keys == st.reqs.Keys
    ensures InOrder(st1, arrived)
  {
    WithoutSame(arrived, set id | id in arrived && id !in st.reqs, set id | id in arrived && id !in st1.reqs);
  }

  lemma StandKeepsInOrder(st: State, st1: State, arrived: seq<ReqId>)
    requires InOrder(st, arrived) && st1.running == st.running && st1.waiting == st.waiting
    requires st1.skipped == [] && st1.reqs.Keys == st.reqs.Keys
    ensures InOrder(st1, arrived)
  {
    MoveKeepsInOrder(st, st1, arrived);
  }

  lemma AddKeepsInOrder(st: State, arrived: seq<ReqId>, id: ReqId, r: Request)
    requires InOrder(st, arrived) && id !in arrived && r.status == Waiting
    ensures InOrder(AddRequest(st, id, r), arrived + [id])
  {
    var st1 := AddRequest(st, id, r);
    var dead := set x | x in arrived && x !in st.reqs;
    var dead1 := set x | x in arrived + [id] && x !in st1.reqs;
    WithoutConcat(arrived, [id], dead1);
    WithoutSame(arrived, dead, dead1);
    assert Without([id], dead1) == [id];
    assert Order(st1) == Order(st) + [id];
  }

  /** Equal orders over partitions of the live requests mean equal live requests. */
  lemma SameLive(st: State, st1: State)
    requires Partition(st, []) && Partition(st1, []) && st.skipped == [] && st1.skipped == []
    requires Order(st) == Order(st1)
    ensures st.reqs.Keys == st1.reqs.Keys
  {
    forall id ensures id in st.reqs <==> id in st1.reqs {
      Once(st, [], id);
      Once(st1, [], id);
      assert multiset(Order(st))[id] == multiset(st.running)[id] + multiset(st.waiting)[id];
      assert multiset(Order(st1))[id] == multiset(st1.running)[id] + multiset(st1.waiting)[id];
    }
  }

  lemma CallKeepsInOrder(cfg: Config, isEos: Token -> bool, m: Machine, arrived: seq<ReqId>, c: Call)
    requires cfg.policy == Fcfs && Sound(cfg, m) && Legal(cfg, m, c) && InOrder(m.st, arrived)
    requires PlainCall(c, arrived)
    ensures InOrder(Do(cfg, isEos, m, c).st, Used(c, arrived))
  {
    hide Inv, Sound, Schedule, Mid, Order, Partition;
    SoundPartition(cfg, m);
    var m1 := Do(cfg, isEos, m, c);
    CallKeepsSound(cfg, isEos, m, c);
    SoundPartition(cfg, m1);
    match c
    case Add(id, r) => AddKeepsInOrder(m.st, arrived, id, r);
    case Issue(env, throttle) =>
      ScheduleKeepsOrder(cfg, m.st, env, throttle);
      SameLive(m.st, m1.st);
      MoveKeepsInOrder(m.st, m1.st, arrived);
    case Output(ans) =>
      DropKeepsInOrder(m.st, m1.st, arrived, Stopped(cfg, isEos, m.st, m.rows, ans));
    case Drafts(drafts) =>
      StandKeepsInOrder(m.st, m1.st, arrived);
    case Abort(ids) => DropKeepsInOrder(m.st, m1.st, arrived, ids);
    case ResetRunning =>
      PreemptAllKeepsOrder(m.st);
      SameLive(m.st, m1.st);
      MoveKeepsInOrder(m.st, m1.st, arrived);
    case SetPause(pause) =>
      StandKeepsInOrder(m.st, m1.st, arrived);
  }

  /** First come, first served, over every run: at every point the running list
      followed by the waiting queue is the list of live requests in arrival order,
      whatever was preempted, reset, aborted or finished on the way. */
  lemma {:induction false} ArrivalOrder(cfg: Config, isEos: Token -> bool, m: Machine, arrived: seq<ReqId>,
      calls: seq<Call>)
    requires cfg.policy == Fcfs && Sound(cfg, m) && LegalRun(cfg, isEos, m, calls)
    requires InOrder(m.st, arrived) && PlainRun(calls, arrived)
    ensures InOrder(Run(cfg, isEos, m, calls).st, arrived + Arrivals(calls))
    decreases calls
  {
    if calls == [] {
      assert arrived + [] == arrived;
    } else {
      var c := calls[0];
      ArrivalsStep(calls, arrived);
      CallKeepsInOrder(cfg, isEos, m, arrived, c);
      CallKeepsSound(cfg, isEos, m, c);
      hide InOrder, Sound, Do, Legal, Used, PlainCall, Arrivals;
      ArrivalOrder(cfg, isEos, Do(cfg, isEos, m, c), Used(c, arrived), calls[1..]);
    }
  }

  lemma ArrivalsStep(calls: seq<Call>, arrived: seq<ReqId>)
    requires calls != []
    ensures arrived + Arrivals(calls) == Used(calls[0], arrived) + Arrivals(calls[1..])
  {
    var rest := Arrivals(calls[1..]);
    if calls[0].Add? {
      assert arrived + ([calls[0].id] + rest) == (arrived + [calls[0].id]) + rest;
    } else {
      assert [] + rest == rest;
    }
  }

  // ---------------------------------------------------------------------
  // The running phase is work-conserving
  // ---------------------------------------------------------------------

  /** Why a running request may be passed over while budget is left. */
  ghost predicate Excused(cfg: Config, r: Request, env: Env, id: ReqId, defer: bool) {
    || (defer && r.isPrefillChunk)
    || env.cap(id, false) == 0
    || |r.tokens| == cfg.maxModelLen
  }

  ghost predicate Served(cfg: Config, st: State, s: Step, i: int, env: Env, defer: bool) {
    forall k :: 0 <= k < i && k < |st.running| ==>
      st.running[k] in s.rows || Excused(cfg, st.Req(st.running[k]), env, st.running[k], defer)
  }

  /** A running request that is offered nothing is excused. */
  lemma UnofferedIsExcused(cfg: Config, budget: int, st: State, s: Step, i: nat, env: Env, defer: bool)
    requires Phase1(cfg, budget, st, s, i) && i < |st.running| && s.budget > 0
    ensures var id := st.running[i];
            Offer(cfg, st, s, id, env, defer) == 0 ==> Excused(cfg, st.Req(id), env, id, defer)
  {
    var id := st.running[i];
    assert Settled(st.Req(id)) by { assert RowOk(st, s, id); }
    Once(st, [], id);
    RunningTokensBounds(cfg, st.Req(id), s.budget);
    hide RunningTokens;
  }

  lemma RunOneServes(cfg: Config, budget: int, st: State, s: Step, i: nat, env: Env, defer: bool)
    requires Phase1(cfg, budget, st, s, i) && i < |st.running| && s.budget > 0
    requires Served(cfg, st, s, i, env, defer) && env.alloc(s.calls)
    ensures var p := RunOne(cfg, st, s, i, env, defer);
            p.ok && p.i == i + 1 && p.st.running == st.running && Served(cfg, p.st, p.s, i + 1, env, defer)
  {
    hide Phase1, RowDrafts, Offer;
    UnofferedIsExcused(cfg, budget, st, s, i, env, defer);
    var p := RunOne(cfg, st, s, i, env, defer);
    forall k | 0 <= k < i + 1 && k < |p.st.running|
      ensures p.st.running[k] in p.s.rows || Excused(cfg, p.st.Req(p.st.running[k]), env, p.st.running[k], defer)
    {
    }
  }

  lemma ServedAll(cfg: Config, st: State, s: Step, i: int, env: Env, defer: bool)
    requires Served(cfg, st, s, i, env, defer)
    ensures i >= |st.running| ==> Served(cfg, st, s, |st.running|, env, defer)
  {
  }

  /** If every allocation succeeds, a running request is left out of the step only
      when the budget is used up, it is a deferred prefill, it is trimmed to nothing,
      or it has reached the length limit. */
  lemma {:induction false} RunLoopServes(cfg: Config, budget: int, st: State, s: Step, i: int, env: Env, defer: bool)
    requires Phase1(cfg, budget, st, s, i) && 0 <= i
    requires Served(cfg, st, s, i, env, defer) && forall k :: env.alloc(k)
    ensures var e := RunLoop(cfg, st, s, i, env, defer);
            && e.0.running == st.running
            && (e.1.budget > 0 ==> Served(cfg, e.0, e.1, |st.running|, env, defer))
    decreases Max(|st.running| - i, 0)
  {
    hide Phase1, RunOne, Served;
    if i < |st.running| && s.budget > 0 {
      RunOneServes(cfg, budget, st, s, i, env, defer);
      RunOneKeepsPhase1(cfg, budget, st, s, i, env, defer);
      var p := RunOne(cfg, st, s, i, env, defer);
      RunLoopServes(cfg, budget, p.st, p.s, p.i, env, defer);
    } else {
      ServedAll(cfg, st, s, i, env, defer);
    }
  }

  // ---------------------------------------------------------------------
  // Priorities
  // ---------------------------------------------------------------------

  /** Under priorities a queue gives out its first least request. */
  lemma {:induction false} HeadIsLeast(cfg: Config, st: State, q: seq<ReqId>)
    requires q != [] && cfg.policy == Priority
    ensures var k := HeadIndex(cfg, st, q);
            && (forall j :: 0 <= j < |q| ==> !Before(st.Req(q[j]), st.Req(q[k])))
            && (forall j :: 0 <= j < k ==> Before(st.Req(q[k]), st.Req(q[j])))
  {
    if |q| > 1 {
      HeadIsLeast(cfg, st, q[1..]);
      assert forall j :: 1 <= j < |q| ==> q[j] == q[1..][j - 1];
    }
  }

  /** Under priorities the request preempted is the first greatest of the running ones:
      so none that comes before the request in need of blocks. */
  lemma {:induction false} VictimIsGreatest(cfg: Config, st: State, q: seq<ReqId>)
    requires q != [] && cfg.policy == Priority
    ensures var k := VictimIndex(cfg, st, q);
            && (forall j :: 0 <= j < |q| ==> !Before(st.Req(q[k]), st.Req(q[j])))
            && (forall j :: 0 <= j < k ==> Before(st.Req(q[j]), st.Req(q[k])))
  {
    if |q| > 1 {
      VictimIsGreatest(cfg, st, q[..|q| - 1]);
      assert forall j :: 0 <= j < |q| - 1 ==> q[j] == q[..|q| - 1][j];
    }
  }

  /** Of the two queues the one is taken whose head no waiting request precedes; under
      FCFS it is the skipped queue, unless it is empty. */
  lemma NextIsLeast(cfg: Config, st: State)
    requires st.waiting != [] || st.skipped != []
    ensures var q := if TakesSkipped(cfg, st) then st.skipped else st.waiting;
            && q != []
            && (cfg.policy == Fcfs ==> q[HeadIndex(cfg, st, q)] == (st.skipped + st.waiting)[0])
            && (cfg.policy == Priority ==>
                  forall id :: id in st.waiting + st.skipped ==> !Before(st.Req(id), st.Req(q[HeadIndex(cfg, st, q)])))
  {
    if cfg.policy == Priority {
      if st.waiting != [] {
        HeadIsLeast(cfg, st, st.waiting);
      }
      if st.skipped != [] {
        HeadIsLeast(cfg, st, st.skipped);
      }
      hide HeadIndex;
    }
  }
}

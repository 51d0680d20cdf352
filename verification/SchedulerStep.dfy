/**
 The scheduler's state and its transitions as functions: one function for each
 method, and one for each loop, written in the order of the program. The class in
 SchedulerObject.dfy is proved against these; the invariants are proved about these.
 */
module SchedulerStep {
  import opened Seqs
  import opened SchedulerState

  datatype State = State(
    reqs: map<ReqId, Request>,
    running: seq<ReqId>,
    waiting: seq<ReqId>,
    skipped: seq<ReqId>,
    inflight: set<ReqId>,
    pause: Pause,
    prefillBound: bool)
  {
    /** The request of an id; the queues hold the requests themselves, so a missing
        entry (proved not to happen) has no meaning in the program. */
    function Req(id: ReqId): Request {
      if id in reqs then reqs[id]
      else Request([], 0, 0, [], 0, false, Waiting, 0, 0, 0)
    }

    function Set(id: ReqId, r: Request): State {
      this.(reqs := reqs[id := r])
    }
  }

  /** The local variables of one scheduling step. `calls` counts the allocation
      attempts; `fault` is set when an assertion of the program fails. */
  datatype Step = Step(
    budget: int,
    rows: map<ReqId, Row>,
    scheduledRunning: seq<ReqId>,
    scheduledNew: seq<ReqId>,
    scheduledResumed: seq<ReqId>,
    preempted: seq<ReqId>,
    prefillScheduled: bool,
    calls: nat,
    fault: bool)

  // ---------------------------------------------------------------------
  // Queues
  // ---------------------------------------------------------------------

  /** Lower priority value first, then earlier arrival. */
  predicate Before(a: Request, b: Request) {
    a.priority < b.priority || (a.priority == b.priority && a.arrival < b.arrival)
  }

  /** The position a queue pops: the front, or the first least key. */
  function HeadIndex(cfg: Config, st: State, q: seq<ReqId>): (k: nat)
    requires q != []
    ensures k < |q|
  {
    if cfg.policy == Fcfs || |q| == 1 then 0
    else
      var k := HeadIndex(cfg, st, q[1..]);
      if Before(st.Req(q[1..][k]), st.Req(q[0])) then k + 1 else 0
  }

  /** The running request to preempt: the last one, or the first greatest key. */
  function VictimIndex(cfg: Config, st: State, q: seq<ReqId>): (k: nat)
    requires q != []
    ensures k < |q|
  {
    if cfg.policy == Fcfs then |q| - 1
    else if |q| == 1 then 0
    else
      var k := VictimIndex(cfg, st, q[..|q| - 1]);
      if Before(st.Req(q[k]), st.Req(q[|q| - 1])) then |q| - 1 else k
  }

  /** Whether the next waiting request is taken from the skipped queue. */
  predicate TakesSkipped(cfg: Config, st: State)
    requires st.waiting != [] || st.skipped != []
  {
    if cfg.policy == Fcfs || st.waiting == [] || st.skipped == [] then st.skipped != []
    else
      !Before(st.Req(st.waiting[HeadIndex(cfg, st, st.waiting)]),
              st.Req(st.skipped[HeadIndex(cfg, st, st.skipped)]))
  }

  function AddRequest(st: State, id: ReqId, r: Request): State {
    var st1 := st.Set(id, r);
    if Blocked(r.status) then st1.(skipped := st.skipped + [id])
    else st1.(waiting := st.waiting + [id])
  }

  // ---------------------------------------------------------------------
  // Preemption
  // ---------------------------------------------------------------------

  /** Put a request already taken out of `running` back in front of the queue. */
  function Preempt(st: State, id: ReqId): State {
    var r := st.Req(id);
    st.Set(id, r.(status := Preempted, numComputed := 0, spec := [], numPreemptions := r.numPreemptions + 1))
      .(waiting := [id] + st.waiting, inflight := st.inflight - {id})
  }

  /** Preempt everything, last request first. */
  function PreemptAll(st: State): State
    decreases |st.running|
  {
    if st.running == [] then st
    else
      var last := |st.running| - 1;
      PreemptAll(Preempt(st.(running := st.running[..last]), st.running[last]))
  }

  /** Undo what the step has recorded for a victim scheduled earlier in it. */
  function Refund(s: Step, id: ReqId): Step {
    if id in s.scheduledRunning then
      s.(scheduledRunning := RemoveAt(s.scheduledRunning, IndexOf(s.scheduledRunning, id)),
         budget := s.budget + (if id in s.rows then s.rows[id].n else 0),
         rows := s.rows - {id})
    else s
  }

  datatype Placed = Placed(ok: bool, st: State, s: Step, i: int)

  /** One preemption of the inner loop of the running phase. */
  function EvictOne(cfg: Config, st: State, s: Step, i: int): Placed
    requires st.running != []
  {
    var v := VictimIndex(cfg, st, st.running);
    var id := st.running[v];
    var refunds := cfg.policy == Priority && id in s.scheduledRunning;
    var s1 := if refunds then Refund(s, id) else s;
    Placed(true,
           Preempt(st.(running := RemoveAt(st.running, v)), id),
           s1.(preempted := s.preempted + [id], fault := s.fault || st.Req(id).status != Running),
           if refunds then i - 1 else i)
  }

  /** Allocate for `id`, preempting until it succeeds or `id` itself is preempted. */
  function Place(cfg: Config, st: State, s: Step, i: int, id: ReqId, env: Env): (p: Placed)
    ensures |p.st.running| - p.i <= |st.running| - i
    decreases |st.running|
  {
    var s1 := s.(calls := s.calls + 1);
    if env.alloc(s.calls) then Placed(true, st, s1, i)
    else if st.running == [] then Placed(false, st, s1.(fault := true), i)
    else
      var p := EvictOne(cfg, st, s1, i);
      if p.s.preempted[|p.s.preempted| - 1] == id then p.(ok := false)
      else Place(cfg, p.st, p.s, p.i, id, env)
  }

  // ---------------------------------------------------------------------
  // The running phase
  // ---------------------------------------------------------------------

  /** Tokens offered to a running request; none if it is a deferred prefill. */
  function Offer(cfg: Config, st: State, s: Step, id: ReqId, env: Env, defer: bool): int {
    var r := st.Req(id);
    if defer && r.isPrefillChunk then 0
    else Min(RunningTokens(cfg, r, s.budget), env.cap(id, false))
  }

  /** Record the row of a running request whose blocks were allocated. */
  function Enter(st: State, s: Step, id: ReqId, n: int): (State, Step) {
    var r := st.Req(id);
    (st.Set(id, r.(spec := [])),
     s.(scheduledRunning := s.scheduledRunning + [id],
        prefillScheduled := s.prefillScheduled || r.isPrefillChunk,
        rows := s.rows[id := Row(n, RowDrafts(r, n))],
        budget := s.budget - n))
  }

  /** One iteration; `ok` is false when nothing is left to preempt, which ends the
      phase. */
  function RunOne(cfg: Config, st: State, s: Step, i: nat, env: Env, defer: bool): (p: Placed)
    requires i < |st.running|
    ensures p.ok ==> |p.st.running| - p.i < |st.running| - i
  {
    var id := st.running[i];
    var n := Offer(cfg, st, s, id, env, defer);
    if n == 0 then Placed(true, st, s, i + 1)
    else
      var p := Place(cfg, st, s, i, id, env);
      if !p.ok then p
      else
        var e := Enter(p.st, p.s, id, n);
        Placed(true, e.0, e.1, p.i + 1)
  }

  function RunLoop(cfg: Config, st: State, s: Step, i: int, env: Env, defer: bool): (State, Step)
    decreases Max(|st.running| - i, 0)
  {
    if !(0 <= i < |st.running|) || s.budget <= 0 then (st, s)
    else
      var p := RunOne(cfg, st, s, i, env, defer);
      if !p.ok then (p.st, p.s)
      else RunLoop(cfg, p.st, p.s, p.i, env, defer)
  }

  // ---------------------------------------------------------------------
  // The waiting phase
  // ---------------------------------------------------------------------

  /** `held` collects the requests passed over in this step, last one first. */
  datatype Wait = Wait(st: State, s: Step, held: seq<ReqId>)

  /** Take the request at `k` out of the queue it waits in. */
  function Pop(st: State, fromSkipped: bool, k: nat): (r: State)
    requires k < |if fromSkipped then st.skipped else st.waiting|
    ensures |r.waiting| + |r.skipped| == |st.waiting| + |st.skipped| - 1
  {
    if fromSkipped then st.(skipped := RemoveAt(st.skipped, k))
    else st.(waiting := RemoveAt(st.waiting, k))
  }

  /** A request whose grammar is ready becomes an ordinary waiting one. */
  function Promote(st: State, id: ReqId): (r: State)
    ensures r.waiting == st.waiting && r.skipped == st.skipped
  {
    if Blocked(st.Req(id).status) then st.Set(id, st.Req(id).(status := Waiting)) else st
  }

  /** Whether admission may look at another waiting request at all. */
  predicate Open(cfg: Config, w: Wait) {
    && (w.st.waiting != [] || w.st.skipped != [])
    && w.s.budget > 0
    && |w.st.running| < cfg.maxRunning
    && !(cfg.maxPartialPrefills > 0 && |w.st.inflight| >= cfg.maxPartialPrefills)
  }

  /** Make the popped request a running one. */
  function Enroll(st: State, s: Step, id: ReqId, row: Row, computed: int): (State, Step) {
    var r := st.Req(id);
    (st.Set(id, r.(status := Running, numComputed := computed))
       .(running := st.running + [id],
         inflight := if computed + row.n < |r.tokens| then st.inflight + {id} else st.inflight),
     s.(scheduledNew := if r.status == Waiting then s.scheduledNew + [id] else s.scheduledNew,
        scheduledResumed := if r.status == Preempted then s.scheduledResumed + [id] else s.scheduledResumed,
        fault := s.fault || !(r.status == Waiting || r.status == Preempted),
        rows := s.rows[id := row],
        budget := s.budget - row.n))
  }

  datatype Waited = Again(w: Wait) | Done(w: Wait)

  /** Hold back or admit the schedulable request at `k`, or end the phase. */
  function Consider(cfg: Config, w: Wait, fromSkipped: bool, k: nat, env: Env, defer: bool): (r: Waited)
    requires k < |if fromSkipped then w.st.skipped else w.st.waiting|
    ensures r.Again? ==> |r.w.st.waiting| + |r.w.st.skipped| < |w.st.waiting| + |w.st.skipped|
  {
    var id := if fromSkipped then w.st.skipped[k] else w.st.waiting[k];
    if id in env.held then
      Again(w.(st := Pop(w.st, fromSkipped, k), held := [id] + w.held))
    else
      var decodesOnly := w.s.scheduledRunning != [] && !w.s.prefillScheduled;
      match Admitted(cfg, w.st.Req(id), w.s.budget, env.hit(id), pad => env.cap(id, pad), decodesOnly, defer)
      case Stop => Done(w)
      case Fault => Done(w.(s := w.s.(fault := true)))
      case Admit(row, computed) =>
        var s := w.s.(calls := w.s.calls + 1);
        if !env.alloc(w.s.calls) then Done(w.(s := s))
        else
          var e := Enroll(Pop(w.st, fromSkipped, k), s, id, row, computed);
          Again(Wait(e.0, e.1, w.held))
  }

  /** One iteration of the waiting loop. */
  function WaitOne(cfg: Config, w: Wait, env: Env, defer: bool): (r: Waited)
    requires Open(cfg, w)
    ensures r.Again? ==> |r.w.st.waiting| + |r.w.st.skipped| < |w.st.waiting| + |w.st.skipped|
  {
    var fromSkipped := TakesSkipped(cfg, w.st);
    var q := if fromSkipped then w.st.skipped else w.st.waiting;
    var k := HeadIndex(cfg, w.st, q);
    var id := q[k];
    if Blocked(w.st.Req(id).status) && id !in env.ready then
      Again(w.(st := Pop(w.st, fromSkipped, k), held := [id] + w.held))
    else Consider(cfg, w.(st := Promote(w.st, id)), fromSkipped, k, env, defer)
  }

  function WaitLoop(cfg: Config, w: Wait, env: Env, defer: bool): Wait
    decreases |w.st.waiting| + |w.st.skipped|
  {
    if !Open(cfg, w) then w
    else
      match WaitOne(cfg, w, env, defer)
      case Done(w1) => w1
      case Again(w1) => WaitLoop(cfg, w1, env, defer)
  }

  // ---------------------------------------------------------------------
  // The whole step
  // ---------------------------------------------------------------------

  function StartBudget(cfg: Config, st: State): nat {
    if st.pause == PausedAll then 0 else cfg.maxScheduledTokens
  }

  function StartStep(cfg: Config, st: State): Step {
    Step(StartBudget(cfg, st), map[], [], [], [], [], false, 0, false)
  }

  /** Prefill work is put off only if throttling is asked for, the last release
      drained the queue, and some running request decodes. */
  predicate Defers(st: State, throttle: bool) {
    throttle && !st.prefillBound && exists k :: 0 <= k < |st.running| && !st.Req(st.running[k]).isPrefillChunk
  }

  /** The passed-over requests go ahead of the skipped queue in the order in which
      they were met. */
  function Requeue(w: Wait): State {
    w.st.(skipped := Reverse(w.held) + w.st.skipped)
  }

  function WaitingPhase(cfg: Config, st: State, s: Step, env: Env, defer: bool): (State, Step) {
    if s.preempted == [] && st.pause == Unpaused then
      var w := WaitLoop(cfg, Wait(st, s, []), env, defer);
      var st1 := Requeue(w);
      (if defer then st1 else st1.(prefillBound := st1.waiting != []), w.s)
    else (st, s)
  }

  /** Count the issued tokens as computed and drop finished prefills. */
  function AfterSchedule(st: State, rows: map<ReqId, Row>): State {
    st.(reqs := map id | id in st.reqs :: if id in rows then Advance(st.reqs[id], rows[id]) else st.reqs[id],
        inflight := set id | id in st.inflight
                             && !(id in rows && id in st.reqs && !Advance(st.reqs[id], rows[id]).isPrefillChunk))
  }

  /** Both phases, before the counters are advanced. */
  function Phases(cfg: Config, st: State, env: Env, throttle: bool): (State, Step) {
    var defer := Defers(st, throttle);
    var e := RunLoop(cfg, st, StartStep(cfg, st), 0, env, defer);
    WaitingPhase(cfg, e.0, e.1, env, defer)
  }

  function Schedule(cfg: Config, st: State, env: Env, throttle: bool): (State, Step) {
    var e := Phases(cfg, st, env, throttle);
    (AfterSchedule(e.0, e.1.rows), e.1)
  }

  // ---------------------------------------------------------------------
  // The output of a step, drafts, aborts
  // ---------------------------------------------------------------------

  /** The model runner's answer: the sampled tokens of each row. */
  type Answer = ReqId -> seq<Token>

  function Received(cfg: Config, isEos: Token -> bool, st: State, rows: map<ReqId, Row>, ans: Answer,
      id: ReqId): Appended
    requires id in rows
  {
    Receive(cfg, isEos, st.Req(id), rows[id], ans(id))
  }

  /** The rows whose requests stop with this output. */
  function Stopped(cfg: Config, isEos: Token -> bool, st: State, rows: map<ReqId, Row>, ans: Answer): set<ReqId> {
    set id | id in rows && id in st.reqs && Received(cfg, isEos, st, rows, ans, id).stopped
  }

  function Update(cfg: Config, isEos: Token -> bool, st: State, rows: map<ReqId, Row>, ans: Answer): State {
    var gone := Stopped(cfg, isEos, st, rows, ans);
    st.(reqs := map id | id in st.reqs && id !in gone ::
                  if id in rows then Received(cfg, isEos, st, rows, ans, id).r else st.reqs[id],
        running := Without(st.running, gone),
        waiting := Without(st.waiting, gone),
        inflight := st.inflight - gone)
  }

  /** Record new drafts; a prefill chunk takes none. */
  function Draft(r: Request, drafts: seq<Token>): Request {
    r.(spec := if r.isPrefillChunk then [] else drafts)
  }

  function UpdateDrafts(st: State, drafts: map<ReqId, seq<Token>>): State {
    st.(reqs := map id | id in st.reqs :: if id in drafts then Draft(st.reqs[id], drafts[id]) else st.reqs[id])
  }

  function Finish(st: State, ids: set<ReqId>): State {
    st.(reqs := map id | id in st.reqs && id !in ids :: st.reqs[id],
        running := Without(st.running, ids),
        waiting := Without(st.waiting, ids),
        skipped := Without(st.skipped, ids),
        inflight := st.inflight - ids)
  }
}

/**
 What every transition of the scheduler keeps: the queue partition, the token
 ledger of the step, the per-request accounting and the partial-prefill cap.
 */
module SchedulerInvariants {
  import opened Seqs
  import opened SchedulerState
  import opened SchedulerStep

  // ---------------------------------------------------------------------
  // Predicates
  // ---------------------------------------------------------------------

  /** Every live request is in exactly one of the three queues and `extra`, once. */
  ghost predicate Partition(st: State, extra: seq<ReqId>) {
    multiset(st.running) + multiset(st.waiting) + multiset(st.skipped) + multiset(extra)
    == multiset(st.reqs.Keys)
  }

  /** A request's status says which queue it is in; only running requests have
      computed tokens. */
  ghost predicate Placement(st: State, extra: seq<ReqId>, id: ReqId)
    requires id in st.reqs
  {
    var r := st.reqs[id];
    && (r.status == Running <==> id in st.running)
    && (Blocked(r.status) ==> id in st.skipped || id in extra)
    && (id !in st.running ==> r.numComputed == 0)
  }

  ghost predicate Placements(st: State, extra: seq<ReqId>) {
    forall id :: id in st.reqs ==> Placement(st, extra, id)
  }

  ghost predicate Lengths(cfg: Config, st: State) {
    forall id :: id in st.reqs ==> 1 <= |st.reqs[id].tokens| <= cfg.maxModelLen
  }

  /** A decode admitted from the queue may be padded: there are drafts of a fixed
      number, and room for a padded row beside a running request. */
  predicate MayPad(cfg: Config) {
    && cfg.numSpecTokens > 0 && !cfg.dynamicSpec && cfg.maxRunning >= 2
    && cfg.maxScheduledTokens >= 2 + cfg.numSpecTokens
    && cfg.maxModelLen >= 3 && cfg.maxModelLen >= 1 + cfg.numSpecTokens
  }

  /** The threshold does not cut off the padding again. */
  predicate ThresholdSafe(cfg: Config) {
    MayPad(cfg) ==> cfg.longPrefillThreshold == 0 || cfg.longPrefillThreshold >= 1 + cfg.numSpecTokens
  }

  /** Nor do the encoder and alignment trims. */
  ghost predicate TrimSafe(cfg: Config, env: Env) {
    MayPad(cfg) ==> forall id :: env.cap(id, true) == 0 || env.cap(id, true) >= 1 + cfg.numSpecTokens
  }

  ghost predicate PadSafe(cfg: Config, env: Env) {
    ThresholdSafe(cfg) && TrimSafe(cfg, env)
  }

  /** The tokens of all rows. */
  ghost function Total(rows: map<ReqId, Row>): int {
    if rows == map[] then 0
    else
      var id :| id in rows;
      rows[id].n + Total(rows - {id})
  }

  lemma {:induction false} TotalWithout(rows: map<ReqId, Row>, id: ReqId)
    requires id in rows
    ensures Total(rows) == rows[id].n + Total(rows - {id})
    decreases |rows|
  {
    var k :| k in rows && Total(rows) == rows[k].n + Total(rows - {k});
    if k != id {
      TotalWithout(rows - {k}, id);
      TotalWithout(rows - {id}, k);
      assert rows - {k} - {id} == rows - {id} - {k};
    }
  }

  lemma TotalWith(rows: map<ReqId, Row>, id: ReqId, row: Row)
    requires id !in rows
    ensures Total(rows[id := row]) == Total(rows) + row.n
  {
    TotalWithout(rows[id := row], id);
    assert rows[id := row] - {id} == rows;
  }

  /** Requests admitted in this step. */
  ghost predicate Fresh(s: Step, id: ReqId) {
    id in s.scheduledNew || id in s.scheduledResumed
  }

  /** Whether the request will still be prefilling once the step is issued. */
  ghost predicate Prefilling(st: State, s: Step, id: ReqId) {
    if Fresh(s, id) && id in s.rows then st.Req(id).numComputed + s.rows[id].n < |st.Req(id).tokens|
    else st.Req(id).isPrefillChunk
  }

  /** A running request in the middle of a step. */
  ghost predicate RowOk(st: State, s: Step, id: ReqId) {
    var r := st.Req(id);
    if id in s.rows then
      && 0 <= r.numComputed && RowFits(r, s.rows[id])
      && (Fresh(s, id) || Settled(r))
    else Settled(r)
  }

  ghost predicate RowsOk(st: State, s: Step) {
    && (forall id :: id in st.running ==> RowOk(st, s, id))
    && (forall id :: id in s.rows ==> id in st.running)
  }

  /** Every row belongs to exactly one entry of the three lists of the step. */
  ghost predicate Listed(s: Step) {
    multiset(s.scheduledRunning) + multiset(s.scheduledNew) + multiset(s.scheduledResumed)
    == multiset(s.rows.Keys)
  }

  /** What is left and what is given out is the starting budget. */
  ghost predicate Ledger(budget: int, s: Step) {
    && s.budget >= 0
    && s.budget + Total(s.rows) == budget
    && !s.fault
  }

  ghost predicate Tracked(cfg: Config, st: State, s: Step) {
    && (forall id :: id in st.inflight <==> id in st.running && Prefilling(st, s, id))
    && (cfg.maxPartialPrefills > 0 ==> |st.inflight| <= cfg.maxPartialPrefills)
    && |st.running| <= cfg.maxRunning
  }

  /** The invariant inside a step. */
  ghost predicate Mid(cfg: Config, budget: int, st: State, s: Step, extra: seq<ReqId>) {
    && Partition(st, extra)
    && Placements(st, extra)
    && Lengths(cfg, st)
    && RowsOk(st, s) && Listed(s)
    && Ledger(budget, s)
    && Tracked(cfg, st, s)
  }

  /** The counters of every running request, given the rows of the step that is out. */
  ghost predicate Accounted(st: State, rows: map<ReqId, Row>) {
    forall id :: id in st.running ==>
      if id in rows then InFlight(st.Req(id), rows[id]) else Settled(st.Req(id))
  }

  /** A request with a row may have been preempted since, but it is not skipped. */
  ghost predicate NotSkipped(st: State, rows: map<ReqId, Row>) {
    forall id :: id in rows ==> id !in st.skipped
  }

  /** The in-flight prefills are the running prefill chunks, and both they and the
      running requests are within their limits. */
  ghost predicate Capped(cfg: Config, st: State) {
    && (forall id :: id in st.inflight <==> id in st.running && st.Req(id).isPrefillChunk)
    && (cfg.maxPartialPrefills > 0 ==> |st.inflight| <= cfg.maxPartialPrefills)
    && |st.running| <= cfg.maxRunning
  }

  /** The invariant between calls, with the rows of the step that is out. */
  ghost predicate Inv(cfg: Config, st: State, rows: map<ReqId, Row>) {
    && Partition(st, [])
    && Placements(st, [])
    && Lengths(cfg, st)
    && Accounted(st, rows)
    && NotSkipped(st, rows)
    && Capped(cfg, st)
  }

  // ---------------------------------------------------------------------
  // The partition, unfolded
  // ---------------------------------------------------------------------

  /** The members of the queues are live and no two positions hold one id. */
  lemma Once(st: State, extra: seq<ReqId>, id: ReqId)
    requires Partition(st, extra)
    ensures multiset(st.running)[id] + multiset(st.waiting)[id] + multiset(st.skipped)[id] + multiset(extra)[id]
            == if id in st.reqs then 1 else 0
  {
    assert multiset(st.reqs.Keys)[id] == if id in st.reqs then 1 else 0;
  }

  lemma InQueue(q: seq<ReqId>, id: ReqId)
    ensures id in q <==> multiset(q)[id] > 0
  {
  }

  /** Removing one element. */
  lemma Removed(q: seq<ReqId>, k: nat)
    requires k < |q| && multiset(q)[q[k]] == 1
    ensures multiset(RemoveAt(q, k)) == multiset(q) - multiset{q[k]}
    ensures forall id :: id in RemoveAt(q, k) <==> id in q && id != q[k]
    ensures |RemoveAt(q, k)| == |q| - 1
  {
    RemoveAtMultiset(q, k);
    var rest := RemoveAt(q, k);
    forall id ensures id in rest <==> id in q && id != q[k] {
      assert id in rest <==> multiset(rest)[id] > 0;
      assert id in q <==> multiset(q)[id] > 0;
    }
  }

  // ---------------------------------------------------------------------
  // Preemption
  // ---------------------------------------------------------------------

  /** Taking a running request out and preempting it keeps partition and placement. */
  lemma PreemptPlacement(st: State, extra: seq<ReqId>, v: nat)
    requires v < |st.running| && Partition(st, extra) && Placements(st, extra)
    ensures var id := st.running[v];
            var st1 := Preempt(st.(running := RemoveAt(st.running, v)), id);
            && id in st.reqs && st.reqs[id].status == Running
            && Partition(st1, extra) && Placements(st1, extra)
            && (forall x :: x in st1.running <==> x in st.running && x != id)
            && |st1.running| == |st.running| - 1
  {
    var id := st.running[v];
    var st0 := st.(running := RemoveAt(st.running, v));
    var st1 := Preempt(st0, id);
    Once(st, extra, id);
    Removed(st.running, v);
    assert st1.reqs.Keys == st.reqs.Keys;
    assert multiset(st1.waiting) == multiset(st.waiting) + multiset{id};
    assert Partition(st1, extra);
    forall x | x in st1.reqs ensures Placement(st1, extra, x) {
      assert Placement(st, extra, x);
      Once(st, extra, x);
    }
  }

  /** How the position of the running phase relates to what it has scheduled. */
  ghost predicate Indexed(cfg: Config, st: State, s: Step, i: int) {
    && |s.scheduledRunning| <= i
    && (cfg.policy == Fcfs ==> i <= |st.running|)
    && forall id :: id in s.scheduledRunning ==> SeenBefore(st.running, i, id)
  }

  ghost predicate SeenBefore(q: seq<ReqId>, i: int, id: ReqId) {
    exists p :: 0 <= p < i && p < |q| && q[p] == id
  }

  lemma TwiceCounted(q: seq<ReqId>, a: nat, b: nat)
    requires a < b < |q| && q[a] == q[b]
    ensures multiset(q)[q[a]] >= 2
  {
    assert q == q[..a] + [q[a]] + q[a + 1..b] + [q[b]] + q[b + 1..];
  }

  /** An element that occurs once stands in one place. */
  lemma OnePosition(q: seq<ReqId>, a: nat, b: nat)
    requires a < |q| && b < |q| && q[a] == q[b] && multiset(q)[q[a]] == 1
    ensures a == b
  {
    if a != b {
      TwiceCounted(q, Min(a, b), Max(a, b));
    }
  }

  /** A scheduled victim stands before `i`. */
  lemma VictimSeen(cfg: Config, st: State, s: Step, i: int)
    requires Partition(st, []) && Indexed(cfg, st, s, i) && st.running != []
    ensures VictimId(cfg, st) in s.scheduledRunning ==> VictimIndex(cfg, st, st.running) < i
  {
    var v := VictimIndex(cfg, st, st.running);
    if st.running[v] in s.scheduledRunning {
      var k :| 0 <= k < i && k < |st.running| && st.running[k] == st.running[v];
      Once(st, [], st.running[v]);
      OnePosition(st.running, k, v);
    }
  }

  /** Taking out position `v` leaves what stood before `i` before `i`, and before
      `i - 1` if `v` stood before `i` as well. */
  lemma SeenAfterRemoval(q: seq<ReqId>, v: nat, i: int, id: ReqId)
    requires v < |q| && id != q[v] && SeenBefore(q, i, id)
    ensures SeenBefore(RemoveAt(q, v), i, id)
    ensures v < i ==> SeenBefore(RemoveAt(q, v), i - 1, id)
  {
    var p :| 0 <= p < i && p < |q| && q[p] == id;
    var p1 := if p > v then p - 1 else p;
    assert RemoveAt(q, v)[p1] == id;
  }

  /** Only the running phase has scheduled anything yet. */
  ghost predicate NoneAdmitted(s: Step) {
    s.scheduledNew == [] && s.scheduledResumed == []
  }

  lemma ScheduledOnce(s: Step, id: ReqId)
    requires Listed(s) && NoneAdmitted(s)
    ensures id in s.scheduledRunning <==> id in s.rows
    ensures multiset(s.scheduledRunning) == multiset(s.rows.Keys)
    ensures id in s.scheduledRunning ==> multiset(s.scheduledRunning)[id] == 1
  {
    assert multiset(s.scheduledRunning) == multiset(s.rows.Keys);
    assert id in s.scheduledRunning <==> id in multiset(s.scheduledRunning);
  }

  /** The refund gives back exactly what the victim had been given. */
  lemma RefundExact(budget: int, st: State, s: Step, id: ReqId)
    requires RowsOk(st, s) && Listed(s) && NoneAdmitted(s) && Ledger(budget, s) && id in s.scheduledRunning
    ensures var s1 := Refund(s, id);
            && Ledger(budget, s1) && id in s.rows && s1.budget == s.budget + s.rows[id].n
            && s1.rows == s.rows - {id}
            && |s1.scheduledRunning| == |s.scheduledRunning| - 1
            && Listed(s1)
            && (forall x :: x in s1.scheduledRunning <==> x in s.scheduledRunning && x != id)
  {
    ScheduledOnce(s, id);
    TotalWithout(s.rows, id);
    Removed(s.scheduledRunning, IndexOf(s.scheduledRunning, id));
    assert RowFits(st.Req(id), s.rows[id]) by { assert RowOk(st, s, id); }
    hide RowsOk;
    assert multiset(Refund(s, id).scheduledRunning) == multiset(s.rows.Keys) - multiset{id};
    assert multiset((s.rows - {id}).Keys) == multiset(s.rows.Keys) - multiset{id};
  }

  /** Under first-come-first-served the victim is never already scheduled. */
  lemma FcfsVictimUnscheduled(cfg: Config, st: State, s: Step, i: int)
    requires cfg.policy == Fcfs && Partition(st, []) && Indexed(cfg, st, s, i) && i < |st.running|
    ensures st.running[VictimIndex(cfg, st, st.running)] !in s.scheduledRunning
  {
    var last := |st.running| - 1;
    var id := st.running[last];
    if id in s.scheduledRunning {
      var p :| 0 <= p < i && p < |st.running| && st.running[p] == id;
      Once(st, [], id);
      OnePosition(st.running, p, last);
    }
  }

  ghost predicate CanEvict(cfg: Config, st: State, i: int) {
    st.running != [] && (cfg.policy == Fcfs ==> i < |st.running|)
  }

  ghost function VictimId(cfg: Config, st: State): ReqId
    requires st.running != []
  {
    st.running[VictimIndex(cfg, st, st.running)]
  }

  /** What one eviction does to the queues. */
  lemma EvictQueues(cfg: Config, st: State, s: Step, i: int)
    requires Partition(st, []) && Placements(st, []) && CanEvict(cfg, st, i)
    ensures var p := EvictOne(cfg, st, s, i);
            var id := VictimId(cfg, st);
            && p.s.preempted == s.preempted + [id] && p.s.fault == s.fault
            && Partition(p.st, []) && Placements(p.st, [])
            && (forall x :: x in p.st.running <==> x in st.running && x != id)
            && (forall x :: x in p.st.running ==> p.st.Req(x) == st.Req(x))
            && |p.st.running| == |st.running| - 1
            && p.st.inflight == st.inflight - {id}
            && (cfg.policy == Fcfs ==> p.st.running == st.running[..|st.running| - 1])
  {
    var v := VictimIndex(cfg, st, st.running);
    PreemptPlacement(st, [], v);
    if cfg.policy == Fcfs {
      assert RemoveAt(st.running, v) == st.running[..v];
    }
  }

  lemma EvictLengths(cfg: Config, st: State, s: Step, i: int)
    requires Partition(st, []) && Placements(st, []) && CanEvict(cfg, st, i) && Lengths(cfg, st)
    ensures Lengths(cfg, EvictOne(cfg, st, s, i).st)
  {
    PreemptPlacement(st, [], VictimIndex(cfg, st, st.running));
  }

  /** A first-come-first-served victim has no row. */
  ghost predicate VictimFree(cfg: Config, st: State, s: Step)
    requires st.running != []
  {
    cfg.policy == Fcfs ==> VictimId(cfg, st) !in s.scheduledRunning
  }

  lemma VictimIsFree(cfg: Config, st: State, s: Step, i: int)
    requires Partition(st, []) && CanEvict(cfg, st, i) && Indexed(cfg, st, s, i)
    ensures VictimFree(cfg, st, s)
  {
    if cfg.policy == Fcfs {
      FcfsVictimUnscheduled(cfg, st, s, i);
    }
  }

  /** What one eviction does to the step. */
  lemma EvictStep(cfg: Config, budget: int, st: State, s: Step, i: int)
    requires Partition(st, []) && Placements(st, []) && CanEvict(cfg, st, i)
    requires RowsOk(st, s) && Listed(s) && NoneAdmitted(s) && Ledger(budget, s) && VictimFree(cfg, st, s)
    ensures var p := EvictOne(cfg, st, s, i);
            var id := VictimId(cfg, st);
            && NoneAdmitted(p.s) && Ledger(budget, p.s)
            && p.s.rows == s.rows - {id} && p.s.budget >= s.budget
            && Listed(p.s)
            && (cfg.policy == Fcfs ==> id !in s.rows)
            && p.i == (if id in s.rows then i - 1 else i)
            && |p.s.scheduledRunning| == |s.scheduledRunning| - (if id in s.rows then 1 else 0)
            && (forall x :: x in p.s.scheduledRunning ==> x in s.scheduledRunning)
  {
    var id := VictimId(cfg, st);
    EvictQueues(cfg, st, s, i);
    ScheduledOnce(s, id);
    if id in s.scheduledRunning {
      RefundExact(budget, st, s, id);
      assert RowFits(st.Req(id), s.rows[id]) by { assert RowOk(st, s, id); }
    } else {
      assert s.rows - {id} == s.rows;
    }
  }

  lemma EvictRows(cfg: Config, budget: int, st: State, s: Step, i: int)
    requires Partition(st, []) && Placements(st, []) && CanEvict(cfg, st, i)
    requires RowsOk(st, s) && Listed(s) && NoneAdmitted(s) && Ledger(budget, s) && VictimFree(cfg, st, s)
    ensures var p := EvictOne(cfg, st, s, i);
            RowsOk(p.st, p.s)
  {
    hide EvictOne, Ledger, Partition, Placements, VictimFree;
    var p := EvictOne(cfg, st, s, i);
    EvictQueues(cfg, st, s, i);
    EvictStep(cfg, budget, st, s, i);
    forall x | x in p.st.running ensures RowOk(p.st, p.s, x) {
      assert RowOk(st, s, x);
    }
  }

  lemma EvictIndexed(cfg: Config, budget: int, st: State, s: Step, i: int)
    requires Partition(st, []) && Placements(st, []) && CanEvict(cfg, st, i)
    requires RowsOk(st, s) && Listed(s) && NoneAdmitted(s) && Ledger(budget, s) && Indexed(cfg, st, s, i)
    ensures var p := EvictOne(cfg, st, s, i);
            Indexed(cfg, p.st, p.s, p.i)
  {
    var p := EvictOne(cfg, st, s, i);
    var v := VictimIndex(cfg, st, st.running);
    var id := st.running[v];
    EvictQueues(cfg, st, s, i);
    VictimIsFree(cfg, st, s, i);
    EvictStep(cfg, budget, st, s, i);
    ScheduledOnce(s, id);
    ScheduledOnce(p.s, id);
    VictimSeen(cfg, st, s, i);
    forall x | x in p.s.scheduledRunning ensures SeenBefore(p.st.running, p.i, x) {
      SeenAfterRemoval(st.running, v, i, x);
    }
  }

  lemma EvictTracked(cfg: Config, budget: int, st: State, s: Step, i: int)
    requires Partition(st, []) && Placements(st, []) && CanEvict(cfg, st, i) && Tracked(cfg, st, s)
    requires RowsOk(st, s) && Listed(s) && NoneAdmitted(s) && Ledger(budget, s) && VictimFree(cfg, st, s)
    ensures var p := EvictOne(cfg, st, s, i);
            Tracked(cfg, p.st, p.s)
  {
    hide EvictOne, RowsOk, Ledger, Partition, Placements, VictimFree;
    var p := EvictOne(cfg, st, s, i);
    var id := VictimId(cfg, st);
    assert && p.st.inflight == st.inflight - {id} && |p.st.running| == |st.running| - 1
           && (forall x :: x in p.st.running <==> x in st.running && x != id)
           && (forall x :: x in p.st.running ==> p.st.Req(x) == st.Req(x)) by {
      EvictQueues(cfg, st, s, i);
    }
    assert NoneAdmitted(p.s) by {
      EvictStep(cfg, budget, st, s, i);
    }
    CardMinus(st.inflight, id);
    forall x ensures x in p.st.inflight <==> x in p.st.running && Prefilling(p.st, p.s, x) {
      assert x in st.inflight <==> x in st.running && Prefilling(st, s, x);
    }
  }

  /** The invariant of the running phase. */
  ghost predicate Phase1(cfg: Config, budget: int, st: State, s: Step, i: int) {
    Mid(cfg, budget, st, s, []) && NoneAdmitted(s) && Indexed(cfg, st, s, i)
  }

  lemma EvictKeepsPhase1(cfg: Config, budget: int, st: State, s: Step, i: int)
    requires Phase1(cfg, budget, st, s, i) && CanEvict(cfg, st, i)
    ensures var p := EvictOne(cfg, st, s, i);
            Phase1(cfg, budget, p.st, p.s, p.i)
  {
    EvictQueues(cfg, st, s, i);
    EvictLengths(cfg, st, s, i);
    VictimIsFree(cfg, st, s, i);
    EvictStep(cfg, budget, st, s, i);
    EvictRows(cfg, budget, st, s, i);
    EvictIndexed(cfg, budget, st, s, i);
    EvictTracked(cfg, budget, st, s, i);
  }

  /** The request being placed: running, without a row, at `i` under FCFS. */
  ghost predicate Candidate(cfg: Config, st: State, s: Step, i: int, id: ReqId) {
    && id in st.running && id !in s.rows && SeenBefore(st.running, i + 1, id)
    && (cfg.policy == Fcfs ==> 0 <= i < |st.running| && st.running[i] == id)
  }

  lemma CallsIrrelevant(cfg: Config, budget: int, st: State, s: Step, i: int)
    requires Phase1(cfg, budget, st, s, i)
    ensures Phase1(cfg, budget, st, s.(calls := s.calls + 1), i)
  {
    var s1 := s.(calls := s.calls + 1);
    assert forall x :: RowOk(st, s, x) ==> RowOk(st, s1, x);
    assert forall x :: Prefilling(st, s, x) == Prefilling(st, s1, x);
  }

  lemma EvictKeepsSeen(cfg: Config, st: State, s: Step, i: int, id: ReqId)
    requires Partition(st, []) && Placements(st, []) && Indexed(cfg, st, s, i) && CanEvict(cfg, st, i)
    requires SeenBefore(st.running, i + 1, id) && VictimId(cfg, st) != id
    ensures var p := EvictOne(cfg, st, s, i);
            SeenBefore(p.st.running, p.i + 1, id)
  {
    SeenAfterRemoval(st.running, VictimIndex(cfg, st, st.running), i + 1, id);
    VictimSeen(cfg, st, s, i);
  }

  lemma EvictKeepsCandidate(cfg: Config, budget: int, st: State, s: Step, i: int, id: ReqId)
    requires Partition(st, []) && Placements(st, []) && RowsOk(st, s) && Listed(s) && NoneAdmitted(s)
    requires Ledger(budget, s) && Indexed(cfg, st, s, i) && Candidate(cfg, st, s, i, id)
    requires VictimId(cfg, st) != id
    ensures var p := EvictOne(cfg, st, s, i);
            && Candidate(cfg, p.st, p.s, p.i, id) && p.st.Req(id) == st.Req(id) && p.s.budget >= s.budget
  {
    hide Indexed, SeenBefore, Placements, Partition, EvictOne, RowsOk, Ledger;
    EvictKeepsSeen(cfg, st, s, i, id);
    VictimIsFree(cfg, st, s, i);
    EvictQueues(cfg, st, s, i);
    EvictStep(cfg, budget, st, s, i);
  }

  /** One failed allocation: the invariant stays, and unless the candidate itself was
      the victim it is still the candidate. */
  lemma RetryKeepsPhase1(cfg: Config, budget: int, st: State, s: Step, i: int, id: ReqId)
    requires Phase1(cfg, budget, st, s, i) && Candidate(cfg, st, s, i, id)
    ensures var s1 := s.(calls := s.calls + 1);
            var p := EvictOne(cfg, st, s1, i);
            && Phase1(cfg, budget, p.st, p.s, p.i)
            && p.s.preempted == s.preempted + [VictimId(cfg, st)]
            && |p.st.running| == |st.running| - 1
            && (VictimId(cfg, st) != id ==>
                  Candidate(cfg, p.st, p.s, p.i, id) && p.st.Req(id) == st.Req(id) && p.s.budget >= s.budget)
  {
    var s1 := s.(calls := s.calls + 1);
    CallsIrrelevant(cfg, budget, st, s, i);
    EvictKeepsPhase1(cfg, budget, st, s1, i);
    EvictQueues(cfg, st, s1, i);
    if VictimId(cfg, st) != id {
      EvictKeepsCandidate(cfg, budget, st, s1, i, id);
    }
  }

  lemma {:induction false} PlaceKeepsPhase1(cfg: Config, budget: int, st: State, s: Step, i: int, id: ReqId, env: Env)
    requires Phase1(cfg, budget, st, s, i) && Candidate(cfg, st, s, i, id)
    ensures var p := Place(cfg, st, s, i, id, env);
            && Phase1(cfg, budget, p.st, p.s, p.i)
            && (p.ok ==> Candidate(cfg, p.st, p.s, p.i, id) && p.st.Req(id) == st.Req(id) && p.s.budget >= s.budget)
            && (!p.ok ==> p.s.preempted != [])
    decreases |st.running|
  {
    hide Phase1, EvictOne;
    assert st.running != [];
    var s1 := s.(calls := s.calls + 1);
    if env.alloc(s.calls) {
      CallsIrrelevant(cfg, budget, st, s, i);
    } else {
      RetryKeepsPhase1(cfg, budget, st, s, i, id);
      var p := EvictOne(cfg, st, s1, i);
      if VictimId(cfg, st) != id {
        PlaceKeepsPhase1(cfg, budget, p.st, p.s, p.i, id, env);
      }
    }
  }

  lemma EnterRows(cfg: Config, st: State, s: Step, i: int, id: ReqId, n: int, offered: int)
    requires Partition(st, []) && Placements(st, []) && Lengths(cfg, st) && RowsOk(st, s) && Listed(s) &&
          NoneAdmitted(s)
    requires Candidate(cfg, st, s, i, id) && offered > 0
    requires 0 < n <= RunningTokens(cfg, st.Req(id), offered)
    ensures id in st.reqs
    ensures var e := Enter(st, s, id, n);
            RowsOk(e.0, e.1) && Listed(e.1)
  {
    var e := Enter(st, s, id, n);
    Once(st, [], id);
    assert RowOk(st, s, id);
    RunningRowFits(cfg, st.Req(id), offered, n);
    forall x | x in e.0.running ensures RowOk(e.0, e.1, x) {
      assert RowOk(st, s, x);
    }
    assert e.1.rows.Keys == s.rows.Keys + {id};
    assert multiset(e.1.rows.Keys) == multiset(s.rows.Keys) + multiset{id};
  }

  lemma EnterIndexed(cfg: Config, st: State, s: Step, i: int, id: ReqId, n: int)
    requires Candidate(cfg, st, s, i, id) && Indexed(cfg, st, s, i)
    ensures var e := Enter(st, s, id, n);
            Indexed(cfg, e.0, e.1, i + 1)
  {
    var e := Enter(st, s, id, n);
    forall x | x in e.1.scheduledRunning ensures SeenBefore(e.0.running, i + 1, x) {
      if x != id {
        assert x in s.scheduledRunning;
        var p :| 0 <= p < i && p < |st.running| && st.running[p] == x;
      }
    }
  }

  lemma EnterQueues(cfg: Config, st: State, s: Step, id: ReqId, n: int)
    requires Partition(st, []) && Placements(st, []) && Lengths(cfg, st) && id in st.reqs
    ensures var e := Enter(st, s, id, n);
            Partition(e.0, []) && Placements(e.0, []) && Lengths(cfg, e.0)
  {
    var e := Enter(st, s, id, n);
    assert e.0.reqs.Keys == st.reqs.Keys;
    forall x | x in e.0.reqs ensures Placement(e.0, [], x) {
      assert Placement(st, [], x);
    }
  }

  lemma EnterTracked(cfg: Config, st: State, s: Step, id: ReqId, n: int)
    requires Tracked(cfg, st, s) && NoneAdmitted(s) && id in st.reqs
    ensures var e := Enter(st, s, id, n);
            Tracked(cfg, e.0, e.1)
  {
    var e := Enter(st, s, id, n);
    forall x ensures x in e.0.inflight <==> x in e.0.running && Prefilling(e.0, e.1, x) {
      assert x in st.inflight <==> x in st.running && Prefilling(st, s, x);
    }
  }

  lemma EnterKeepsPhase1(cfg: Config, budget: int, st: State, s: Step, i: int, id: ReqId, n: int, offered: int)
    requires Phase1(cfg, budget, st, s, i) && Candidate(cfg, st, s, i, id)
    requires 0 < offered <= s.budget && 0 < n <= RunningTokens(cfg, st.Req(id), offered)
    ensures var e := Enter(st, s, id, n);
            Phase1(cfg, budget, e.0, e.1, i + 1)
  {
    hide Partition, Placements, Lengths, Tracked, RowsOk, Listed, Indexed;
    EnterRows(cfg, st, s, i, id, n, offered);
    EnterQueues(cfg, st, s, id, n);
    EnterTracked(cfg, st, s, id, n);
    EnterIndexed(cfg, st, s, i, id, n);
    TotalWith(s.rows, id, Row(n, RowDrafts(st.Req(id), n)));
  }

  lemma RunOneKeepsPhase1(cfg: Config, budget: int, st: State, s: Step, i: nat, env: Env, defer: bool)
    requires Phase1(cfg, budget, st, s, i) && i < |st.running| && s.budget > 0
    ensures var p := RunOne(cfg, st, s, i, env, defer);
            && Phase1(cfg, budget, p.st, p.s, p.i)
            && (!p.ok ==> p.s.preempted != [])
  {
    var id := st.running[i];
    var n := Offer(cfg, st, s, id, env, defer);
    assert Settled(st.Req(id)) by { assert RowOk(st, s, id); }
    Once(st, [], id);
    RunningTokensBounds(cfg, st.Req(id), s.budget);
    if id in s.rows {
      ScheduledOnce(s, id);
      var p :| 0 <= p < i && p < |st.running| && st.running[p] == id;
      OnePosition(st.running, p, i);
    }
    if n != 0 {
      PlaceKeepsPhase1(cfg, budget, st, s, i, id, env);
      var p := Place(cfg, st, s, i, id, env);
      if p.ok {
        EnterKeepsPhase1(cfg, budget, p.st, p.s, p.i, id, n, s.budget);
      }
    }
  }

  /** The running phase as a whole. */
  lemma {:induction false} RunLoopKeepsMid(cfg: Config, budget: int, st: State, s: Step, i: int, env: Env, defer: bool)
    requires Phase1(cfg, budget, st, s, i)
    ensures var e := RunLoop(cfg, st, s, i, env, defer);
            Mid(cfg, budget, e.0, e.1, []) && NoneAdmitted(e.1)
    decreases Max(|st.running| - i, 0)
  {
    hide Mid, Indexed, NoneAdmitted, RunOne;
    if 0 <= i < |st.running| && s.budget > 0 {
      RunOneKeepsPhase1(cfg, budget, st, s, i, env, defer);
      var p := RunOne(cfg, st, s, i, env, defer);
      if p.ok {
        RunLoopKeepsMid(cfg, budget, p.st, p.s, p.i, env, defer);
      }
    }
  }
}

/**
 Deferred freeing of KV blocks behind a fence of step numbers, with steps that
 overlap: a freed block must not be handed out again while a step that may still
 write it is in flight.
 */
module BlockFence {
  import opened Seqs
  import SchedulerState

  type Block = nat
  type Req = SchedulerState.ReqId

  datatype Pending = Pending(fence: nat, blocks: seq<Block>)

  /** `last` holds the number of the last step each request was scheduled in. */
  datatype Pool = Pool(
    free: seq<Block>,
    held: map<Req, seq<Block>>,
    last: map<Req, nat>,
    deferred: seq<Pending>,
    sched: nat,
    processed: nat)
  {
    function Last(r: Req): nat {
      if r in last then last[r] else 0
    }

    function Held(r: Req): seq<Block> {
      if r in held then held[r] else []
    }
  }

  // ---------------------------------------------------------------------
  // Transitions
  // ---------------------------------------------------------------------

  /** Take `n` fresh blocks for a request, or refuse and change nothing. */
  function Allocate(p: Pool, r: Req, n: nat): Pool {
    if n > |p.free| then p
    else p.(free := p.free[n..], held := p.held[r := p.Held(r) + p.free[..n]])
  }

  function Free(p: Pool, defer: bool, r: Req): Pool {
    var p1 := p.(held := p.held - {r});
    if !defer || p.Last(r) <= p.processed then p1.(free := p.free + Reverse(p.Held(r)))
    else if p.Held(r) != [] then p1.(deferred := p.deferred + [Pending(p.sched, p.Held(r))])
    else p1
  }

  /** Issue a step with the requests `rs`; an empty step does not move the fence. */
  function Issue(p: Pool, defer: bool, rs: set<Req>): Pool {
    if !defer || rs == {} then p
    else p.(sched := p.sched + 1, last := p.last + Stamp(rs, p.sched + 1))
  }

  function Stamp(rs: set<Req>, k: nat): map<Req, nat> {
    map r | r in rs :: k
  }

  /** Return deferred blocks from the front while their fence has been processed. */
  function Drain(p: Pool): Pool
    decreases |p.deferred|
  {
    if p.deferred == [] || p.deferred[0].fence > p.processed then p
    else Drain(p.(free := p.free + Reverse(p.deferred[0].blocks), deferred := p.deferred[1..]))
  }

  /** The output of the oldest step in flight. */
  function Process(p: Pool, defer: bool): Pool {
    if defer then Drain(p.(processed := p.processed + 1)) else p
  }

  // ---------------------------------------------------------------------
  // Conservation
  // ---------------------------------------------------------------------

  ghost function AllHeld(held: map<Req, seq<Block>>): multiset<Block> {
    if held == map[] then multiset{}
    else
      var r :| r in held;
      multiset(held[r]) + AllHeld(held - {r})
  }

  lemma {:induction false} HeldWithout(held: map<Req, seq<Block>>, r: Req)
    requires r in held
    ensures AllHeld(held) == multiset(held[r]) + AllHeld(held - {r})
    decreases |held|
  {
    var k :| k in held && AllHeld(held) == multiset(held[k]) + AllHeld(held - {k});
    if k != r {
      HeldWithout(held - {k}, r);
      HeldWithout(held - {r}, k);
      assert held - {k} - {r} == held - {r} - {k};
    }
  }

  ghost function AllDeferred(ds: seq<Pending>): multiset<Block> {
    if ds == [] then multiset{} else multiset(ds[0].blocks) + AllDeferred(ds[1..])
  }

  lemma {:induction false} DeferredMore(ds: seq<Pending>, d: Pending)
    ensures AllDeferred(ds + [d]) == AllDeferred(ds) + multiset(d.blocks)
  {
    if ds == [] {
      assert [] + [d] == [d];
    } else {
      assert (ds + [d])[1..] == ds[1..] + [d];
      DeferredMore(ds[1..], d);
    }
  }

  /** Every block is in the pool, held by one request, or deferred once. */
  ghost predicate Conserved(p: Pool, all: set<Block>) {
    multiset(p.free) + AllHeld(p.held) + AllDeferred(p.deferred) == multiset(all)
  }

  lemma HeldMore(p: Pool, r: Req, more: seq<Block>)
    ensures AllHeld(p.held[r := p.Held(r) + more]) == AllHeld(p.held) + multiset(more)
  {
    var held := p.held[r := p.Held(r) + more];
    HeldWithout(held, r);
    assert held - {r} == p.held - {r};
    if r in p.held {
      HeldWithout(p.held, r);
    } else {
      assert p.held - {r} == p.held;
    }
  }

  lemma AllocateConserves(p: Pool, all: set<Block>, r: Req, n: nat)
    requires Conserved(p, all)
    ensures Conserved(Allocate(p, r, n), all)
  {
    if n <= |p.free| {
      assert p.free == p.free[..n] + p.free[n..];
      HeldMore(p, r, p.free[..n]);
      hide AllHeld, AllDeferred;
    }
  }

  lemma FreeConserves(p: Pool, all: set<Block>, defer: bool, r: Req)
    requires Conserved(p, all)
    ensures Conserved(Free(p, defer, r), all)
  {
    ReverseMultiset(p.Held(r));
    DeferredMore(p.deferred, Pending(p.sched, p.Held(r)));
    hide Reverse;
    if r in p.held {
      HeldWithout(p.held, r);
    } else {
      assert p.held - {r} == p.held;
    }
  }

  lemma {:induction false} DrainConserves(p: Pool, all: set<Block>)
    requires Conserved(p, all)
    ensures Conserved(Drain(p), all)
    decreases |p.deferred|
  {
    if p.deferred != [] && p.deferred[0].fence <= p.processed {
      var p1 := p.(free := p.free + Reverse(p.deferred[0].blocks), deferred := p.deferred[1..]);
      ReverseMultiset(p.deferred[0].blocks);
      DrainConserves(p1, all);
    }
  }

  // ---------------------------------------------------------------------
  // What each operation does
  // ---------------------------------------------------------------------

  /** Nothing changes for the other requests, nor in what they were last scheduled in. */
  ghost predicate Others(p: Pool, p1: Pool, r: Req) {
    && p1.held.Keys - {r} == p.held.Keys - {r} && p1.last == p.last
    && (forall x :: x != r ==> p1.Held(x) == p.Held(x))
    && p1.sched == p.sched && p1.processed == p.processed
  }

  /** All `n` blocks come from the front of the pool, or none does. */
  ghost predicate Took(p: Pool, p1: Pool, r: Req, n: nat) {
    if n > |p.free| then p1 == p
    else
      && Others(p, p1, r) && p1.deferred == p.deferred
      && p.Held(r) <= p1.Held(r) && |p1.Held(r)| == |p.Held(r)| + n
      && p.free == p1.Held(r)[|p.Held(r)|..] + p1.free
  }

  /** The blocks of a request that was in no step whose output is still out are at the end
      of the pool at once, the last one first; all other blocks of it wait behind the last
      step issued. */
  ghost predicate Gave(p: Pool, p1: Pool, defer: bool, r: Req) {
    && Others(p, p1, r) && r !in p1.held
    && if defer && p.processed < p.Last(r) then
         && p1.free == p.free
         && p1.deferred == p.deferred + if p.Held(r) == [] then [] else [Pending(p.sched, p.Held(r))]
       else
         && p1.deferred == p.deferred && p.free <= p1.free && |p1.free| == |p.free| + |p.Held(r)|
         && forall k :: |p.free| <= k < |p1.free| ==> p1.free[k] == p.Held(r)[|p1.free| - 1 - k]
  }

  /** What waits behind a step whose output has come is returned, and nothing else. */
  ghost predicate Drained(p: Pool, p1: Pool) {
    && p1.held == p.held && p1.last == p.last && p1.sched == p.sched && p1.processed == p.processed
    && exists k :: 0 <= k <= |p.deferred| && Splits(p, p1, k)
  }

  ghost predicate Splits(p: Pool, p1: Pool, k: nat)
    requires k <= |p.deferred|
  {
    && p1.deferred == p.deferred[k..]
    && (forall i :: 0 <= i < k ==> p.deferred[i].fence <= p.processed)
    && (k < |p.deferred| ==> p.deferred[k].fence > p.processed)
    && multiset(p1.free) == multiset(p.free) + AllDeferred(p.deferred[..k])
  }

  /** A step with requests gets the next number, and each of them is in it. */
  ghost predicate Counted(p: Pool, p1: Pool, defer: bool, rs: set<Req>) {
    if !defer || rs == {} then p1 == p
    else
      && p1 == p.(sched := p.sched + 1, last := p1.last)
      && forall r :: p1.Last(r) == if r in rs then p.sched + 1 else p.Last(r)
  }

  lemma OperationsDo(p: Pool, defer: bool, r: Req, n: nat, rs: set<Req>)
    ensures Took(p, Allocate(p, r, n), r, n)
    ensures Gave(p, Free(p, defer, r), defer, r)
    ensures Counted(p, Issue(p, defer, rs), defer, rs)
  {
    if n <= |p.free| {
      assert p.free == p.free[..n] + p.free[n..];
      var p1 := Allocate(p, r, n);
      assert p1.Held(r)[|p.Held(r)|..] == p.free[..n];
    }
    hide Reverse;
  }

  lemma {:induction false} DrainDoes(p: Pool)
    ensures Drained(p, Drain(p))
    decreases |p.deferred|
  {
    if p.deferred == [] || p.deferred[0].fence > p.processed {
      assert p.deferred[..0] == [] && p.deferred[0..] == p.deferred;
      assert Splits(p, p, 0);
    } else {
      var d := p.deferred[0];
      var p1 := p.(free := p.free + Reverse(d.blocks), deferred := p.deferred[1..]);
      DrainDoes(p1);
      ReverseMultiset(d.blocks);
      hide Reverse, Drain;
      var p2 := Drain(p1);
      var k :| 0 <= k <= |p1.deferred| && Splits(p1, p2, k);
      OneMoreReturned(p, p1, p2, k);
    }
  }

  lemma OneMoreReturned(p: Pool, p1: Pool, p2: Pool, k: nat)
    requires p.deferred != [] && p.deferred[0].fence <= p.processed
    requires p1 == p.(free := p1.free, deferred := p.deferred[1..])
    requires multiset(p1.free) == multiset(p.free) + multiset(p.deferred[0].blocks)
    requires k <= |p1.deferred| && Splits(p1, p2, k)
    ensures Splits(p, p2, k + 1)
  {
    assert p.deferred[..k + 1][1..] == p1.deferred[..k] && p.deferred[..k + 1][0] == p.deferred[0];
    assert p.deferred[k + 1..] == p1.deferred[k..];
    forall i | 0 <= i < k + 1 ensures p.deferred[i].fence <= p.processed {
      assert i > 0 ==> p.deferred[i] == p1.deferred[i - 1];
    }
  }

  // ---------------------------------------------------------------------
  // Fences
  // ---------------------------------------------------------------------

  /** Pending fences lie in (processed, sched] and never decrease. */
  ghost predicate Fenced(p: Pool) {
    && p.processed <= p.sched
    && (forall r :: r in p.last ==> p.last[r] <= p.sched)
    && (forall i :: 0 <= i < |p.deferred| ==> p.processed < p.deferred[i].fence <= p.sched)
    && (forall i, j :: 0 <= i < j < |p.deferred| ==> p.deferred[i].fence <= p.deferred[j].fence)
  }

  /** As `Fenced`, except that fences up to `processed` may still await the drain. */
  ghost predicate Draining(p: Pool) {
    && p.processed <= p.sched
    && (forall r :: r in p.last ==> p.last[r] <= p.sched)
    && (forall i :: 0 <= i < |p.deferred| ==> p.deferred[i].fence <= p.sched)
    && (forall i, j :: 0 <= i < j < |p.deferred| ==> p.deferred[i].fence <= p.deferred[j].fence)
  }

  lemma {:induction false} DrainFences(p: Pool)
    requires Draining(p)
    ensures Fenced(Drain(p))
    ensures Drain(p).processed == p.processed && Drain(p).sched == p.sched
    ensures Drain(p).held == p.held && Drain(p).last == p.last
    decreases |p.deferred|
  {
    if p.deferred != [] && p.deferred[0].fence <= p.processed {
      DrainFences(p.(free := p.free + Reverse(p.deferred[0].blocks), deferred := p.deferred[1..]));
    }
  }

  /** Once every issued step has been processed nothing is deferred. */
  lemma CaughtUp(p: Pool)
    requires Fenced(p)
    ensures p.deferred != [] ==> p.processed < p.sched
  {
    if p.deferred != [] {
      assert p.processed < p.deferred[0].fence <= p.sched;
    }
  }

  // ---------------------------------------------------------------------
  // Steps in flight
  // ---------------------------------------------------------------------

  /** The blocks the requests of a step hold when it is issued: what it may write. */
  ghost function Written(p: Pool, rs: set<Req>): iset<Block> {
    iset r, b | r in rs && r in p.held && b in p.held[r] :: b
  }

  /** What step `k`, still in flight, may write is not in the pool, is held only by
      requests scheduled in or after `k`, and is deferred only behind a fence of at
      least `k`. */
  ghost predicate Guarded(p: Pool, k: nat, b: Block) {
    && b !in p.free
    && (forall r :: r in p.held && b in p.held[r] ==> k <= p.Last(r))
    && (forall i :: 0 <= i < |p.deferred| && b in p.deferred[i].blocks ==> k <= p.deferred[i].fence)
  }

  ghost predicate Safe(p: Pool, writes: map<nat, iset<Block>>) {
    forall k, b :: p.processed < k <= p.sched && k in writes && b in writes[k] ==> Guarded(p, k, b)
  }

  lemma AllocateSafe(p: Pool, writes: map<nat, iset<Block>>, r: Req, n: nat)
    requires Safe(p, writes)
    ensures Safe(Allocate(p, r, n), writes)
  {
    var p1 := Allocate(p, r, n);
    if n <= |p.free| {
      forall k, b | p1.processed < k <= p1.sched && k in writes && b in writes[k] ensures Guarded(p1, k, b) {
        assert Guarded(p, k, b);
        forall x | x in p1.held && b in p1.held[x] ensures k <= p1.Last(x) {
          assert b !in p.free[..n];
        }
      }
    }
  }

  lemma FreeSafe(p: Pool, writes: map<nat, iset<Block>>, defer: bool, r: Req)
    requires Safe(p, writes) && (defer || p.sched == p.processed)
    ensures Safe(Free(p, defer, r), writes)
  {
    var p1 := Free(p, defer, r);
    forall k, b | p1.processed < k <= p1.sched && k in writes && b in writes[k] ensures Guarded(p1, k, b) {
      assert Guarded(p, k, b);
      ReversedMembers(p.Held(r), b);
    }
  }

  lemma ReversedMembers(s: seq<Block>, b: Block)
    ensures b in Reverse(s) <==> b in s
  {
    ReverseMultiset(s);
    assert b in s <==> b in multiset(s);
    assert b in Reverse(s) <==> b in multiset(Reverse(s));
  }

  lemma {:induction false} DrainSafe(p: Pool, writes: map<nat, iset<Block>>)
    requires Safe(p, writes)
    ensures Safe(Drain(p), writes)
    decreases |p.deferred|
  {
    if p.deferred != [] && p.deferred[0].fence <= p.processed {
      var p1 := p.(free := p.free + Reverse(p.deferred[0].blocks), deferred := p.deferred[1..]);
      forall k, b | p1.processed < k <= p1.sched && k in writes && b in writes[k] ensures Guarded(p1, k, b) {
        assert Guarded(p, k, b);
        ReversedMembers(p.deferred[0].blocks, b);
      }
      DrainSafe(p1, writes);
    }
  }

  lemma {:induction false} DeferredCount(ds: seq<Pending>, i: nat, b: Block)
    requires i < |ds| && b in ds[i].blocks
    ensures AllDeferred(ds)[b] >= 1
  {
    if i == 0 {
      assert b in multiset(ds[0].blocks);
    } else {
      DeferredCount(ds[1..], i - 1, b);
    }
  }

  /** A held block is nowhere else. */
  lemma HeldAlone(p: Pool, all: set<Block>, r: Req, b: Block)
    requires Conserved(p, all) && r in p.held && b in p.held[r]
    ensures b !in p.free
    ensures forall x :: x in p.held && b in p.held[x] ==> x == r
    ensures forall i :: 0 <= i < |p.deferred| ==> b !in p.deferred[i].blocks
  {
    HeldWithout(p.held, r);
    assert b in multiset(p.held[r]);
    assert multiset(all)[b] <= 1;
    assert b in p.free ==> b in multiset(p.free);
    forall x | x in p.held && b in p.held[x] ensures x == r {
      if x != r {
        TwoHolders(p.held, r, x, b);
      }
    }
    forall i | 0 <= i < |p.deferred| ensures b !in p.deferred[i].blocks {
      if b in p.deferred[i].blocks {
        DeferredCount(p.deferred, i, b);
      }
    }
  }

  lemma TwoHolders(held: map<Req, seq<Block>>, r: Req, x: Req, b: Block)
    requires r in held && x in held && r != x && b in held[r] && b in held[x]
    ensures AllHeld(held)[b] >= 2
  {
    HeldWithout(held, r);
    HeldWithout(held - {r}, x);
    assert b in multiset(held[r]) && b in multiset(held[x]);
  }

  lemma IssueSafe(p: Pool, all: set<Block>, writes: map<nat, iset<Block>>, defer: bool, rs: set<Req>)
    requires Safe(p, writes) && Conserved(p, all) && Fenced(p)
    ensures Safe(Issue(p, defer, rs), writes[p.sched + 1 := Written(p, rs)])
  {
    var p1 := Issue(p, defer, rs);
    var writes1 := writes[p.sched + 1 := Written(p, rs)];
    forall k, b | p1.processed < k <= p1.sched && k in writes1 && b in writes1[k] ensures Guarded(p1, k, b) {
      if k == p.sched + 1 {
        var r :| r in rs && r in p.held && b in p.held[r];
        HeldAlone(p, all, r, b);
      } else {
        assert Guarded(p, k, b);
      }
    }
  }

  // ---------------------------------------------------------------------
  // Runs
  // ---------------------------------------------------------------------

  datatype Op = Take(r: Req, n: nat) | Release(r: Req) | IssueStep(rs: set<Req>) | ProcessStep

  datatype Traced = Traced(p: Pool, writes: map<nat, iset<Block>>)

  ghost function Apply(t: Traced, defer: bool, op: Op): Traced {
    match op
    case Take(r, n) => t.(p := Allocate(t.p, r, n))
    case Release(r) => t.(p := Free(t.p, defer, r))
    case IssueStep(rs) => Traced(Issue(t.p, defer, rs), t.writes[t.p.sched + 1 := Written(t.p, rs)])
    case ProcessStep => t.(p := Process(t.p, defer))
  }

  /** Outputs come back once per issued step. */
  ghost predicate Allowed(t: Traced, defer: bool, op: Op) {
    op.ProcessStep? && defer ==> t.p.processed < t.p.sched
  }

  ghost predicate Good(t: Traced, defer: bool, all: set<Block>) {
    Conserved(t.p, all) && Fenced(t.p) && Safe(t.p, t.writes) && (defer || t.p.sched == t.p.processed)
  }

  lemma ProcessKeepsGood(t: Traced, defer: bool, all: set<Block>)
    requires Good(t, defer, all) && Allowed(t, defer, ProcessStep)
    ensures Good(Apply(t, defer, ProcessStep), defer, all)
  {
    if defer {
      var p1 := t.p.(processed := t.p.processed + 1);
      assert Safe(p1, t.writes) by {
        forall k, b | p1.processed < k <= p1.sched && k in t.writes && b in t.writes[k] ensures Guarded(p1, k, b) {
          assert Guarded(t.p, k, b);
        }
      }
      assert Conserved(p1, all) && Draining(p1);
      hide Safe, Conserved, Draining, Fenced;
      DrainConserves(p1, all);
      DrainFences(p1);
      DrainSafe(p1, t.writes);
    }
  }

  lemma FreeFences(p: Pool, defer: bool, r: Req)
    requires Fenced(p)
    ensures Fenced(Free(p, defer, r))
  {
  }

  lemma IssueConserves(p: Pool, all: set<Block>, defer: bool, rs: set<Req>)
    requires Fenced(p) && Conserved(p, all)
    ensures Fenced(Issue(p, defer, rs)) && Conserved(Issue(p, defer, rs), all)
  {
  }

  lemma TakeKeepsGood(t: Traced, defer: bool, all: set<Block>, r: Req, n: nat)
    requires Good(t, defer, all)
    ensures Good(Apply(t, defer, Take(r, n)), defer, all)
  {
    hide Safe, Conserved;
    AllocateConserves(t.p, all, r, n);
    AllocateSafe(t.p, t.writes, r, n);
  }

  lemma ReleaseKeepsGood(t: Traced, defer: bool, all: set<Block>, r: Req)
    requires Good(t, defer, all)
    ensures Good(Apply(t, defer, Release(r)), defer, all)
  {
    hide Safe, Conserved, Fenced;
    FreeFences(t.p, defer, r);
    FreeConserves(t.p, all, defer, r);
    FreeSafe(t.p, t.writes, defer, r);
  }

  lemma IssueKeepsGood(t: Traced, defer: bool, all: set<Block>, rs: set<Req>)
    requires Good(t, defer, all)
    ensures Good(Apply(t, defer, IssueStep(rs)), defer, all)
  {
    hide Safe, Conserved, Fenced, Stamp;
    IssueConserves(t.p, all, defer, rs);
    IssueSafe(t.p, all, t.writes, defer, rs);
  }

  lemma OpKeepsGood(t: Traced, defer: bool, all: set<Block>, op: Op)
    requires Good(t, defer, all) && Allowed(t, defer, op)
    ensures Good(Apply(t, defer, op), defer, all)
  {
    hide Good, Apply;
    match op
    case Take(r, n) => TakeKeepsGood(t, defer, all, r, n);
    case Release(r) => ReleaseKeepsGood(t, defer, all, r);
    case IssueStep(rs) => IssueKeepsGood(t, defer, all, rs);
    case ProcessStep => ProcessKeepsGood(t, defer, all);
  }

  ghost function ApplyAll(t: Traced, defer: bool, ops: seq<Op>): Traced
    decreases ops
  {
    if ops == [] then t else ApplyAll(Apply(t, defer, ops[0]), defer, ops[1..])
  }

  ghost predicate AllowedAll(t: Traced, defer: bool, ops: seq<Op>)
    decreases ops
  {
    ops != [] ==> Allowed(t, defer, ops[0]) && AllowedAll(Apply(t, defer, ops[0]), defer, ops[1..])
  }

  /** In every run with overlapping steps: free, held and deferred blocks are exactly
      all blocks; no block a step in flight may write is in the pool; and once all
      steps are processed nothing is deferred. */
  lemma {:induction false} RunsAreSafe(t: Traced, defer: bool, all: set<Block>, ops: seq<Op>)
    requires Good(t, defer, all) && AllowedAll(t, defer, ops)
    ensures var e := ApplyAll(t, defer, ops);
            && Good(e, defer, all)
            && (forall k, b :: e.p.processed < k <= e.p.sched && k in e.writes && b in e.writes[k] ==> b !in e.p.free)
            && (e.p.processed == e.p.sched ==> e.p.deferred == [])
    decreases ops
  {
    if ops == [] {
      GoodMeans(t, defer, all);
    } else {
      OpKeepsGood(t, defer, all, ops[0]);
      hide Good, Apply, Allowed;
      RunsAreSafe(Apply(t, defer, ops[0]), defer, all, ops[1..]);
    }
  }

  lemma GoodMeans(t: Traced, defer: bool, all: set<Block>)
    requires Good(t, defer, all)
    ensures forall k, b :: t.p.processed < k <= t.p.sched && k in t.writes && b in t.writes[k] ==> b !in t.p.free
    ensures t.p.processed == t.p.sched ==> t.p.deferred == []
  {
    forall k, b | t.p.processed < k <= t.p.sched && k in t.writes && b in t.writes[k] ensures b !in t.p.free {
      assert Guarded(t.p, k, b);
    }
    CaughtUp(t.p);
  }

  // ---------------------------------------------------------------------
  // The scheduler's part of it, updated in place
  // ---------------------------------------------------------------------

  class BlockManager {
    const deferBlockFree: bool
    var free: seq<Block>
    var held: map<Req, seq<Block>>
    var lastSchedSeq: map<Req, nat>
    var deferredFrees: seq<Pending>
    var schedStepSeq: nat
    var processedStepSeq: nat

    ghost const all: set<Block>
    ghost var writes: map<nat, iset<Block>>

    function Abs(): Pool
      reads this
    {
      Pool(free, held, lastSchedSeq, deferredFrees, schedStepSeq, processedStepSeq)
    }

    ghost predicate Valid()
      reads this
    {
      Good(Traced(Abs(), writes), deferBlockFree, all)
    }

    constructor (blocks: seq<Block>, ghost all: set<Block>, deferBlockFree: bool)
      requires multiset(blocks) == multiset(all)
      ensures Valid() && Abs() == Pool(blocks, map[], map[], [], 0, 0) && this.all == all
    {
      free, held, lastSchedSeq, deferredFrees := blocks, map[], map[], [];
      schedStepSeq, processedStepSeq := 0, 0;
      this.deferBlockFree, this.all, writes := deferBlockFree, all, map[];
    }

    method AllocateSlots(r: Req, n: nat) returns (ok: bool)
      requires Valid()
      modifies this
      ensures Valid() && Abs() == Allocate(old(Abs()), r, n) && writes == old(writes)
      ensures ok == (n <= |old(free)|) && Took(old(Abs()), Abs(), r, n)
    {
      hide Good, Took;
      OperationsDo(Abs(), deferBlockFree, r, n, {});
      TakeKeepsGood(Traced(Abs(), writes), deferBlockFree, all, r, n);
      ok := n <= |free|;
      if ok {
        held := held[r := Abs().Held(r) + free[..n]];
        free := free[n..];
      }
    }

    /** Free a request's blocks, or put them behind the fence of the last step. */
    method FreeRequestBlocks(r: Req)
      requires Valid()
      modifies this
      ensures Valid() && Abs() == Free(old(Abs()), deferBlockFree, r) && writes == old(writes)
      ensures Gave(old(Abs()), Abs(), deferBlockFree, r)
    {
      hide Good, Free, Gave;
      OperationsDo(Abs(), deferBlockFree, r, 0, {});
      ReleaseKeepsGood(Traced(Abs(), writes), deferBlockFree, all, r);
      ReturnBlocks(r);
    }

    method ReturnBlocks(r: Req)
      modifies this`held, this`free, this`deferredFrees
      ensures Abs() == Free(old(Abs()), deferBlockFree, r)
    {
      hide Reverse;
      var blocks := Abs().Held(r);
      held := held - {r};
      if !deferBlockFree || Abs().Last(r) <= processedStepSeq {
        free := free + Reverse(blocks);
      } else if blocks != [] {
        deferredFrees := deferredFrees + [Pending(schedStepSeq, blocks)];
      }
    }

    method ScheduleStep(rs: set<Req>)
      requires Valid()
      modifies this
      ensures Valid() && Abs() == Issue(old(Abs()), deferBlockFree, rs)
      ensures Counted(old(Abs()), Abs(), deferBlockFree, rs)
      ensures writes == old(writes)[old(schedStepSeq) + 1 := Written(old(Abs()), rs)]
    {
      hide Good, Written, Issue, Counted;
      OperationsDo(Abs(), deferBlockFree, SchedulerState.ReqId(""), 0, rs);
      IssueKeepsGood(Traced(Abs(), writes), deferBlockFree, all, rs);
      writes := writes[schedStepSeq + 1 := Written(Abs(), rs)];
      AdvanceFence(rs);
    }

    method AdvanceFence(rs: set<Req>)
      modifies this`schedStepSeq, this`lastSchedSeq
      ensures Abs() == Issue(old(Abs()), deferBlockFree, rs)
    {
      hide Stamp;
      if deferBlockFree && rs != {} {
        schedStepSeq := schedStepSeq + 1;
        lastSchedSeq := lastSchedSeq + Stamp(rs, schedStepSeq);
      }
    }

    method DrainDeferredFrees()
      modifies this`free, this`deferredFrees
      ensures Abs() == Drain(old(Abs())) && Drained(old(Abs()), Abs())
    {
      hide Drained;
      DrainDoes(Abs());
      ghost var want := Drain(Abs());
      while deferredFrees != []
        invariant Drain(Abs()) == want
        decreases |deferredFrees|
      {
        if deferredFrees[0].fence > processedStepSeq {
          break;
        }
        var blocks := deferredFrees[0].blocks;
        deferredFrees := deferredFrees[1..];
        free := free + Reverse(blocks);
      }
    }

    /** The output of the oldest step in flight has arrived. */
    method ProcessOutput()
      requires Valid() && (deferBlockFree ==> processedStepSeq < schedStepSeq)
      modifies this
      ensures Valid() && Abs() == Process(old(Abs()), deferBlockFree) && writes == old(writes)
      ensures processedStepSeq == schedStepSeq ==> deferredFrees == []
    {
      hide Good, Drain;
      ProcessKeepsGood(Traced(Abs(), writes), deferBlockFree, all);
      GoodMeans(Apply(Traced(Abs(), writes), deferBlockFree, ProcessStep), deferBlockFree, all);
      if deferBlockFree {
        processedStepSeq := processedStepSeq + 1;
        DrainDeferredFrees();
      }
    }
  }
}

/**
 Recovery from KV blocks that failed to load: the first request that holds an
 invalid block is cut back to it and will recompute it; the others may keep it.
 */
module InvalidBlocks {
  import opened Seqs
  import opened Arithmetic
  import SchedulerState

  type Block = nat
  type ReqId = SchedulerState.ReqId

  datatype Req = Req(id: ReqId, blocks: seq<Block>, computed: int)

  /** The requests scanned, in order, and what the scan is given; `evict` asks for the
      blocks to evict. */
  datatype Job = Job(reqs: seq<Req>, invalid: set<Block>, scheduled: map<ReqId, nat>, blockSize: nat, evict: bool)

  /** Tokens of a request computed before the step that is out. */
  function Before(r: Req, scheduled: map<ReqId, nat>): int {
    r.computed - (if r.id in scheduled then scheduled[r.id] else 0)
  }

  /** The blocks that hold those tokens. */
  function Prefix(r: Req, scheduled: map<ReqId, nat>, blockSize: nat): seq<Block>
    requires blockSize > 0
  {
    var n := (Before(r, scheduled) + blockSize - 1) / blockSize;
    r.blocks[..Max(0, Min(n, |r.blocks|))]
  }

  function PrefixOf(job: Job, i: nat): seq<Block>
    requires i < |job.reqs| && job.blockSize > 0
  {
    Prefix(job.reqs[i], job.scheduled, job.blockSize)
  }

  // ---------------------------------------------------------------------
  // What recovery must achieve, request by request, without a running state
  // ---------------------------------------------------------------------

  function ToSet(s: seq<Block>): set<Block> {
    set b | b in s
  }

  /** The blocks in the computed prefixes of the first `i` requests. */
  function HeldBefore(job: Job, i: nat): set<Block>
    requires i <= |job.reqs| && job.blockSize > 0
  {
    if i == 0 then {}
    else
      HeldBefore(job, i - 1)
      + ToSet(PrefixOf(job, i - 1))
  }

  lemma {:induction false} HeldMember(job: Job, i: nat, j: nat, b: Block)
    requires j < i <= |job.reqs| && job.blockSize > 0 && b in PrefixOf(job, j)
    ensures b in HeldBefore(job, i)
  {
    if j < i - 1 {
      HeldMember(job, i - 1, j, b);
    }
  }

  /** Request `i` is the first to hold `b`, and `b` is invalid. */
  predicate FirstHolder(job: Job, i: nat, b: Block)
    requires i < |job.reqs| && job.blockSize > 0
  {
    b in job.invalid && b in PrefixOf(job, i) && b !in HeldBefore(job, i)
  }

  /** The first position of `p` at or after `from` whose block is in `wanted`. */
  function FirstIn(p: seq<Block>, wanted: set<Block>, from: nat): (k: nat)
    requires from <= |p|
    ensures from <= k <= |p|
    ensures k < |p| ==> p[k] in wanted
    ensures forall j :: from <= j < k ==> p[j] !in wanted
    decreases |p| - from
  {
    if from == |p| || p[from] in wanted then from else FirstIn(p, wanted, from + 1)
  }

  datatype Verdict = Untouched | Reverted | CutAt(k: nat)

  /** Cut at the first block that is invalid and not `seen`; else, if it holds an
      invalid block at all, only the tokens of the step that is out are taken back. */
  function Judge(p: seq<Block>, invalid: set<Block>, seen: set<Block>): Verdict {
    var k := FirstIn(p, invalid - seen, 0);
    if k < |p| then CutAt(k)
    else if FirstIn(p, invalid, 0) < |p| then Reverted
    else Untouched
  }

  function Apply(r: Req, v: Verdict, scheduled: map<ReqId, nat>, blockSize: nat): Req {
    match v
    case Untouched => r
    case Reverted => r.(computed := Before(r, scheduled))
    case CutAt(k) => r.(computed := k * blockSize)
  }

  /** Tokens of a request that have to be computed again. */
  function Lost(r: Req, v: Verdict, scheduled: map<ReqId, nat>, blockSize: nat): int {
    match v
    case Untouched => 0
    case Reverted => r.computed - Before(r, scheduled)
    case CutAt(k) => Before(r, scheduled) - k * blockSize
  }

  /** The verdict on request `i`, given all requests before it. */
  function VerdictOf(job: Job, i: nat): Verdict
    requires i < |job.reqs| && job.blockSize > 0
  {
    Judge(PrefixOf(job, i), job.invalid, HeldBefore(job, i))
  }

  function TotalLost(job: Job, n: nat): int
    requires n <= |job.reqs| && job.blockSize > 0
  {
    if n == 0 then 0
    else
      TotalLost(job, n - 1)
      + Lost(job.reqs[n - 1], VerdictOf(job, n - 1), job.scheduled, job.blockSize)
  }

  /** From a cut on, everything the request holds. */
  function EvictedBy(r: Req, v: Verdict, evict: bool): set<Block> {
    if evict && v.CutAt? && v.k <= |r.blocks| then ToSet(r.blocks[v.k..]) else {}
  }

  function Evicted(job: Job, n: nat): set<Block>
    requires n <= |job.reqs| && job.blockSize > 0
  {
    if n == 0 then {}
    else
      Evicted(job, n - 1)
      + EvictedBy(job.reqs[n - 1], VerdictOf(job, n - 1), job.evict)
  }

  // ---------------------------------------------------------------------
  // Why this is a recovery
  // ---------------------------------------------------------------------

  /** Every invalid block in some computed prefix has exactly one first holder. */
  lemma {:induction false} OneFirstHolder(job: Job, n: nat, b: Block)
    returns (i: nat)
    requires n <= |job.reqs| && job.blockSize > 0 && b in job.invalid && b in HeldBefore(job, n)
    ensures i < n && FirstHolder(job, i, b)
    ensures forall j :: 0 <= j < |job.reqs| && FirstHolder(job, j, b) ==> j == i
  {
    if b in HeldBefore(job, n - 1) {
      i := OneFirstHolder(job, n - 1, b);
    } else {
      i := n - 1;
      forall j | 0 <= j < |job.reqs| && FirstHolder(job, j, b) ensures j == i {
        if j < i {
          HeldMember(job, i, j, b);
        } else if i < j {
          HeldMember(job, j, i, b);
        }
      }
    }
  }

  /** The first holder of an invalid block is cut at or before it, so it computes the
      block again. */
  lemma FirstHolderRecomputes(job: Job, i: nat, k: nat)
    requires i < |job.reqs| && job.blockSize > 0
    requires k < |PrefixOf(job, i)|
    requires FirstHolder(job, i, PrefixOf(job, i)[k])
    ensures var v := VerdictOf(job, i);
            v.CutAt? && Apply(job.reqs[i], v, job.scheduled, job.blockSize).computed <= k * job.blockSize
  {
    var p := PrefixOf(job, i);
    var seen := HeldBefore(job, i);
    var c := FirstIn(p, job.invalid - seen, 0);
    assert p[k] in job.invalid - seen;
    assert c <= k;
    MulOrder(c, k, job.blockSize);
  }

  /** What a request keeps is valid, or held and computed again by an earlier request:
      by its first holder, which is cut at or before it. */
  lemma KeptIsSound(job: Job, i: nat, k: nat) returns (j: nat, m: nat)
    requires i < |job.reqs| && job.blockSize > 0
    requires k < |PrefixOf(job, i)|
    requires var v := VerdictOf(job, i);
             v.CutAt? ==> k * job.blockSize < Apply(job.reqs[i], v, job.scheduled, job.blockSize).computed
    requires PrefixOf(job, i)[k] in job.invalid
    ensures j < i && m < |PrefixOf(job, j)| && PrefixOf(job, j)[m] == PrefixOf(job, i)[k]
    ensures var v := VerdictOf(job, j);
            v.CutAt? && Apply(job.reqs[j], v, job.scheduled, job.blockSize).computed <= m * job.blockSize
  {
    var b := PrefixOf(job, i)[k];
    KeptWasSeen(job, i, k);
    hide VerdictOf, Apply, PrefixOf, HeldBefore;
    j := OneFirstHolder(job, i, b);
    m :| 0 <= m < |PrefixOf(job, j)| && PrefixOf(job, j)[m] == b;
    FirstHolderRecomputes(job, j, m);
  }

  lemma KeptWasSeen(job: Job, i: nat, k: nat)
    requires i < |job.reqs| && job.blockSize > 0
    requires k < |PrefixOf(job, i)|
    requires var v := VerdictOf(job, i);
             v.CutAt? ==> k * job.blockSize < Apply(job.reqs[i], v, job.scheduled, job.blockSize).computed
    requires PrefixOf(job, i)[k] in job.invalid
    ensures PrefixOf(job, i)[k] in HeldBefore(job, i)
  {
    var p := PrefixOf(job, i);
    var seen := HeldBefore(job, i);
    var c := FirstIn(p, job.invalid - seen, 0);
    MulOrder(c, k, job.blockSize);
    assert p[k] !in job.invalid - seen;
  }

  /** A cut is a block boundary within the tokens computed before the step, and never
      adds tokens. */
  lemma CutIsWithin(job: Job, i: nat)
    requires i < |job.reqs| && job.blockSize > 0 && 0 <= Before(job.reqs[i], job.scheduled)
    ensures var v := VerdictOf(job, i);
            var r := Apply(job.reqs[i], v, job.scheduled, job.blockSize);
            && (v.CutAt? ==> r.computed == v.k * job.blockSize && 0 <= r.computed < Before(job.reqs[i], job.scheduled))
            && (v.Reverted? ==> r.computed == Before(job.reqs[i], job.scheduled))
            && 0 <= Lost(job.reqs[i], v, job.scheduled, job.blockSize)
  {
    var v := VerdictOf(job, i);
    if v.CutAt? {
      var before := Before(job.reqs[i], job.scheduled);
      assert v.k < (before + job.blockSize - 1) / job.blockSize;
      CeilBound(before, job.blockSize, v.k);
    }
  }

  /** A request is left alone exactly when its prefix holds no invalid block, and cut
      exactly when it is the first holder of one. */
  lemma VerdictMeans(job: Job, i: nat)
    requires i < |job.reqs| && job.blockSize > 0
    ensures VerdictOf(job, i).Untouched? <==> forall k :: 0 <= k < |PrefixOf(job, i)| ==>
          PrefixOf(job, i)[k] !in job.invalid
    ensures VerdictOf(job, i).CutAt?
            <==> exists k :: 0 <= k < |PrefixOf(job, i)| && FirstHolder(job, i, PrefixOf(job, i)[k])
  {
    var p := PrefixOf(job, i);
    var seen := HeldBefore(job, i);
    var c := FirstIn(p, job.invalid - seen, 0);
    hide PrefixOf, HeldBefore;
    FirstInLarger(p, job.invalid, seen);
    if c < |p| {
      assert FirstHolder(job, i, p[c]);
    } else {
      forall k | 0 <= k < |p| ensures !FirstHolder(job, i, p[k]) {
        assert p[k] !in job.invalid - seen;
      }
    }
  }

  /** Every invalid block in some computed prefix is among those to evict. */
  lemma InvalidIsEvicted(job: Job, n: nat, b: Block)
    requires n <= |job.reqs| && job.blockSize > 0 && b in job.invalid && b in HeldBefore(job, n) && job.evict
    ensures b in Evicted(job, n)
  {
    hide FirstHolder, CutsAt, Evicted, HeldBefore, PrefixOf;
    var i := OneFirstHolder(job, n, b);
    var k := PlaceOf(job, i, b);
    var c := FirstCut(job, i, k);
    EvictedIs(job, n, b);
    assert Downstream(job, n, b);
  }

  lemma PlaceOf(job: Job, i: nat, b: Block) returns (k: nat)
    requires i < |job.reqs| && job.blockSize > 0 && FirstHolder(job, i, b)
    ensures k < |PrefixOf(job, i)| && PrefixOf(job, i)[k] == b && k < |job.reqs[i].blocks| && job.reqs[i].blocks[k] == b
  {
    hide HeldBefore;
    var p := PrefixOf(job, i);
    k :| 0 <= k < |p| && p[k] == b;
  }

  /** The cut is at or before every block that the request is the first to hold. */
  lemma {:induction false} FirstCut(job: Job, i: nat, k: nat) returns (c: nat)
    requires i < |job.reqs| && job.blockSize > 0 && k < |PrefixOf(job, i)|
    requires FirstHolder(job, i, PrefixOf(job, i)[k])
    ensures c <= k && CutsAt(job, i, c)
    decreases k
  {
    hide FirstHolder, PrefixOf;
    if j :| 0 <= j < k && FirstHolder(job, i, PrefixOf(job, i)[j]) {
      c := FirstCut(job, i, j);
    } else {
      c := k;
    }
  }

  lemma CeilBound(n: int, d: nat, k: nat)
    requires d > 0 && 0 <= n && k < (n + d - 1) / d
    ensures k * d < n
  {
    var q := (n + d - 1) / d;
    assert q * d <= n + d - 1;
    assert (k + 1) * d <= q * d;
    assert (k + 1) * d == k * d + d;
  }

  // ---------------------------------------------------------------------
  // The scan itself
  // ---------------------------------------------------------------------

  /** One pass over the blocks of one request. */
  method ScanRequest(p: seq<Block>, invalid: set<Block>, marked: set<Block>)
      returns (affected: bool, cut: nat, marked1: set<Block>)
    ensures marked1 == marked + ToSet(p) * invalid
    ensures affected <==> FirstIn(p, invalid, 0) < |p|
    ensures cut == FirstIn(p, invalid - marked, 0)
  {
    affected, cut, marked1 := false, |p|, marked;
    for idx := 0 to |p|
      invariant marked1 == marked + ToSet(p[..idx]) * invalid
      invariant affected <==> exists j :: 0 <= j < idx && p[j] in invalid
      invariant cut < idx || cut == |p|
      invariant cut < |p| ==> p[cut] in invalid - marked && forall j :: 0 <= j < cut ==> p[j] !in invalid - marked
      invariant cut == |p| ==> forall j :: 0 <= j < idx ==> p[j] !in invalid - marked
    {
      assert p[..idx + 1] == p[..idx] + [p[idx]];
      if p[idx] in invalid {
        affected := true;
        if p[idx] !in marked1 {
          marked1 := marked1 + {p[idx]};
          if cut == |p| {
            cut := idx;
          }
        }
      }
    }
    assert p[..|p|] == p;
  }

  /** One request: its new counter, the tokens lost and the blocks to evict. */
  method VisitRequest(r: Req, invalid: set<Block>, scheduled: map<ReqId, nat>, blockSize: nat, evictBlocks: bool,
      marked: set<Block>, ghost job: Job)
    returns (r1: Req, lost: int, evict: set<Block>, affected: bool, marked1: set<Block>)
    requires blockSize > 0 && job.invalid == invalid && job.scheduled == scheduled && job.blockSize == blockSize
    requires job.evict == evictBlocks
    ensures Visited(job, r, marked, r1, lost, evict, affected, marked1)
  {
    r1, lost, evict := r, 0, {};
    var before := Before(r, scheduled);
    var p := Prefix(r, scheduled, blockSize);
    var cut;
    affected, cut, marked1 := ScanRequest(p, invalid, marked);
    if cut < |p| {
      r1 := r.(computed := cut * blockSize);
      lost := before - r1.computed;
      if evictBlocks {
        evict := ToSet(r.blocks[cut..]);
      }
    } else if affected {
      lost := r.computed - before;
      r1 := r.(computed := before);
    }
    FirstInLarger(p, invalid, marked);
  }

  /** What is invalid and unmarked is invalid. */
  lemma FirstInLarger(p: seq<Block>, invalid: set<Block>, marked: set<Block>)
    ensures FirstIn(p, invalid - marked, 0) < |p| ==> FirstIn(p, invalid, 0) < |p|
  {
    var k := FirstIn(p, invalid - marked, 0);
    if k < |p| {
      assert p[k] in invalid;
    }
  }

  /** Requests `0..n` with a verdict against them. */
  function Affected(job: Job, n: nat): set<ReqId>
    requires n <= |job.reqs| && job.blockSize > 0
  {
    if n == 0 then {}
    else
      Affected(job, n - 1)
      + if VerdictOf(job, n - 1) == Untouched then {} else {job.reqs[n - 1].id}
  }

  /** Requests `0..i` recovered, the others as they were. */
  ghost predicate Recovered(job: Job, now: seq<Req>, i: nat)
    requires i <= |job.reqs| && job.blockSize > 0
  {
    && |now| == |job.reqs|
    && (forall j :: 0 <= j < i ==> now[j] == Apply(job.reqs[j], VerdictOf(job, j), job.scheduled, job.blockSize))
    && (forall j :: i <= j < |now| ==> now[j] == job.reqs[j])
  }

  /** The four results of the pass over the first `i` requests. */
  datatype Tally = Tally(affected: set<ReqId>, total: int, evict: set<Block>, marked: set<Block>)

  function TallyOf(job: Job, i: nat): Tally
    requires i <= |job.reqs| && job.blockSize > 0
  {
    Tally(Affected(job, i), TotalLost(job, i), Evicted(job, i), HeldBefore(job, i) * job.invalid)
  }

  // ---------------------------------------------------------------------
  // What recovery does, said without the pass
  // ---------------------------------------------------------------------

  /** The prefix is the blocks in which a token computed before lies. */
  lemma PrefixCovers(r: Req, scheduled: map<ReqId, nat>, blockSize: nat, k: nat)
    requires blockSize > 0
    ensures var p := Prefix(r, scheduled, blockSize);
            && p <= r.blocks && (k < |p| <==> k < |r.blocks| && k * blockSize < Before(r, scheduled))
  {
    var before := Before(r, scheduled);
    var n := (before + blockSize - 1) / blockSize;
    if 0 <= before {
      if k < n {
        CeilBound(before, blockSize, k);
      } else {
        assert before + blockSize - 1 < (n + 1) * blockSize;
        MulOrder(n, k, blockSize);
        assert (n + 1) * blockSize == n * blockSize + blockSize;
      }
    } else {
      assert n <= 0 && 0 <= k * blockSize by {
        NegativeCeil(before, blockSize);
        MulOrder(0, k, blockSize);
      }
    }
  }

  lemma NegativeCeil(n: int, d: nat)
    requires n < 0 < d
    ensures (n + d - 1) / d <= 0
  {
    if (n + d - 1) / d > 0 {
      MulOrder(1, (n + d - 1) / d, d);
    }
  }

  /** Held before means held in the prefix of an earlier request. */
  lemma {:induction false} HeldIs(job: Job, i: nat, b: Block)
    requires i <= |job.reqs| && job.blockSize > 0
    ensures b in HeldBefore(job, i) <==> exists j :: 0 <= j < i && b in PrefixOf(job, j)
  {
    hide PrefixOf;
    if i > 0 {
      HeldIs(job, i - 1, b);
    }
  }

  /** Request `i` holds an invalid block at `k` that no request before it holds, and none
      such before. */
  predicate CutsAt(job: Job, i: nat, k: nat)
    requires i < |job.reqs| && job.blockSize > 0
  {
    var p := PrefixOf(job, i);
    k < |p| && FirstHolder(job, i, p[k]) && forall j :: 0 <= j < k ==> !FirstHolder(job, i, p[j])
  }

  /** The prefix of the request holds an invalid block. */
  predicate Hit(job: Job, i: nat)
    requires i < |job.reqs| && job.blockSize > 0
  {
    exists k :: 0 <= k < |PrefixOf(job, i)| && PrefixOf(job, i)[k] in job.invalid
  }

  /** Cut at the first block it is the first to hold; else back to what was computed
      before the step, if it holds an invalid one; else as it was. The tokens lost are
      those between, and in the second case those of the step. */
  ghost predicate Outcome(job: Job, i: nat, r1: Req, lost: int)
    requires i < |job.reqs| && job.blockSize > 0
  {
    var r := job.reqs[i];
    && r1 == r.(computed := r1.computed)
    && (forall k: nat :: CutsAt(job, i, k) ==>
          r1.computed == k * job.blockSize && lost == Before(r, job.scheduled) - r1.computed)
    && ((forall k: nat :: !CutsAt(job, i, k)) && Hit(job, i) ==>
          r1.computed == Before(r, job.scheduled) && lost == r.computed - r1.computed)
    && (!Hit(job, i) ==> r1 == r && lost == 0)
  }

  lemma VerdictIs(job: Job, i: nat)
    requires i < |job.reqs| && job.blockSize > 0
    ensures var v := VerdictOf(job, i);
            && (forall k: nat :: CutsAt(job, i, k) <==> v == CutAt(k))
            && (v != Untouched <==> Hit(job, i))
  {
    var p := PrefixOf(job, i);
    var seen := HeldBefore(job, i);
    var c := FirstIn(p, job.invalid - seen, 0);
    hide PrefixOf, HeldBefore;
    FirstInLarger(p, job.invalid, seen);
    forall k: nat ensures CutsAt(job, i, k) <==> c < |p| && c == k {
      if k < |p| && FirstHolder(job, i, p[k]) {
        assert p[k] in job.invalid - seen;
      }
      if c == k && c < |p| {
        assert p[c] in job.invalid - seen;
        forall j | 0 <= j < k ensures !FirstHolder(job, i, p[j]) {
          assert p[j] !in job.invalid - seen;
        }
      }
    }
  }

  lemma OutcomeIs(job: Job, i: nat)
    requires i < |job.reqs| && job.blockSize > 0
    ensures var (r, v) := (job.reqs[i], VerdictOf(job, i));
            Outcome(job, i, Apply(r, v, job.scheduled, job.blockSize), Lost(r, v, job.scheduled, job.blockSize))
  {
    VerdictIs(job, i);
    hide VerdictOf, CutsAt, Hit;
    if Hit(job, i) {
      assert VerdictOf(job, i).CutAt? ==> CutsAt(job, i, VerdictOf(job, i).k);
    }
  }

  /** The block is held, from its cut on, by some request. */
  ghost predicate Downstream(job: Job, n: nat, b: Block)
    requires n <= |job.reqs| && job.blockSize > 0
  {
    exists i, k: nat, m :: 0 <= i < n && CutsAt(job, i, k) && k <= m < |job.reqs[i].blocks| &&
        job.reqs[i].blocks[m] == b
  }

  lemma {:induction false} EvictedIs(job: Job, n: nat, b: Block)
    requires n <= |job.reqs| && job.blockSize > 0
    ensures b in Evicted(job, n) <==> job.evict && Downstream(job, n, b)
  {
    hide CutsAt, VerdictOf;
    if n > 0 {
      EvictedIs(job, n - 1, b);
      VerdictIs(job, n - 1);
      var blocks, v := job.reqs[n - 1].blocks, VerdictOf(job, n - 1);
      if v.CutAt? && v.k <= |blocks| && b in blocks[v.k..] {
        var m :| 0 <= m < |blocks[v.k..]| && blocks[v.k..][m] == b;
        assert blocks[v.k + m] == b && CutsAt(job, n - 1, v.k);
      }
      if Downstream(job, n, b) {
        var i, k: nat, m :| 0 <= i < n && CutsAt(job, i, k) && k <= m < |job.reqs[i].blocks| &&
            job.reqs[i].blocks[m] == b;
        assert i == n - 1 ==> v == CutAt(k) && blocks[k..][m - k] == b;
      }
    }
  }

  lemma {:induction false} AffectedIs(job: Job, n: nat, id: ReqId)
    requires n <= |job.reqs| && job.blockSize > 0
    ensures id in Affected(job, n) <==> exists i :: 0 <= i < n && job.reqs[i].id == id && Hit(job, i)
  {
    hide VerdictOf, Hit;
    if n > 0 {
      AffectedIs(job, n - 1, id);
      VerdictIs(job, n - 1);
      assert id in Affected(job, n)
          <==> id in Affected(job, n - 1) || (job.reqs[n - 1].id == id && Hit(job, n - 1));
    }
  }

  /** The sum of the tokens lost. */
  function SumOf(lost: seq<int>): int {
    if lost == [] then 0 else SumOf(lost[..|lost| - 1]) + lost[|lost| - 1]
  }

  /** The losses of the requests, one by one. */
  ghost function Losses(job: Job, n: nat): (lost: seq<int>)
    requires n <= |job.reqs| && job.blockSize > 0
    ensures |lost| == n
  {
    seq(n, i requires 0 <= i < n => Lost(job.reqs[i], VerdictOf(job, i), job.scheduled, job.blockSize))
  }

  lemma {:induction false} TotalIs(job: Job, n: nat)
    requires n <= |job.reqs| && job.blockSize > 0
    ensures TotalLost(job, n) == SumOf(Losses(job, n))
  {
    hide VerdictOf, Lost;
    if n > 0 {
      TotalIs(job, n - 1);
      assert Losses(job, n)[..n - 1] == Losses(job, n - 1);
    }
  }

  /** The report of the pass, in these terms. */
  ghost predicate Reported(job: Job, now: seq<Req>, t: Tally)
    requires job.blockSize > 0
  {
    && |now| == |job.reqs|
    && (exists lost: seq<int> :: |lost| == |now| && t.total == SumOf(lost) && EachOutcome(job, now, lost))
    && (forall id :: id in t.affected <==> exists i :: 0 <= i < |now| && job.reqs[i].id == id && Hit(job, i))
    && (forall b :: b in t.evict <==> job.evict && Downstream(job, |now|, b))
  }

  ghost predicate EachOutcome(job: Job, now: seq<Req>, lost: seq<int>)
    requires job.blockSize > 0 && |now| == |lost| == |job.reqs|
  {
    forall i :: 0 <= i < |now| ==> Outcome(job, i, now[i], lost[i])
  }

  lemma ReportIs(job: Job, now: seq<Req>)
    requires job.blockSize > 0 && Recovered(job, now, |job.reqs|)
    ensures Reported(job, now, TallyOf(job, |job.reqs|))
  {
    hide Outcome, VerdictOf, Apply, Lost, Hit, Downstream, Evicted, Affected, TotalLost, SumOf, HeldBefore;
    var n := |job.reqs|;
    var lost := Losses(job, n);
    forall i | 0 <= i < n ensures Outcome(job, i, now[i], lost[i]) {
      OutcomeIs(job, i);
    }
    assert EachOutcome(job, now, lost);
    TotalIs(job, n);
    forall id ensures id in Affected(job, n) <==> exists i :: 0 <= i < n && job.reqs[i].id == id && Hit(job, i) {
      AffectedIs(job, n, id);
    }
    forall b ensures b in Evicted(job, n) <==> job.evict && Downstream(job, n, b) {
      EvictedIs(job, n, b);
    }
  }

  /** What a visit reports for a verdict. */
  ghost predicate Visited(job: Job, r: Req, marked: set<Block>, r1: Req, lost: int, evict: set<Block>,
      affected: bool, marked1: set<Block>)
    requires job.blockSize > 0
  {
    var p := Prefix(r, job.scheduled, job.blockSize);
    var v := Judge(p, job.invalid, marked);
    && r1 == Apply(r, v, job.scheduled, job.blockSize) && lost == Lost(r, v, job.scheduled, job.blockSize)
    && evict == EvictedBy(r, v, job.evict) && affected == (v != Untouched)
    && marked1 == marked + ToSet(p) * job.invalid
  }

  /** Judging against the marked blocks is judging against all blocks seen. */
  lemma MarkedIsEnough(job: Job, i: nat)
    requires i < |job.reqs| && job.blockSize > 0
    ensures Judge(PrefixOf(job, i), job.invalid, HeldBefore(job, i) * job.invalid) == VerdictOf(job, i)
    ensures HeldBefore(job, i) * job.invalid + ToSet(PrefixOf(job, i)) * job.invalid ==
          HeldBefore(job, i + 1) * job.invalid
  {
    var held := HeldBefore(job, i);
    assert job.invalid - held * job.invalid == job.invalid - held;
    assert (held + ToSet(PrefixOf(job, i))) * job.invalid == held * job.invalid + ToSet(PrefixOf(job, i)) * job.invalid;
    hide PrefixOf, Judge;
  }

  /** One more request, visited with what was marked before it. */
  lemma OneMore(job: Job, now: seq<Req>, i: nat, r1: Req, lost: int, evict: set<Block>, affected: bool,
      marked1: set<Block>)
    requires i < |job.reqs| && i < |now| && job.blockSize > 0
    ensures var t := TallyOf(job, i);
            Recovered(job, now, i) && Visited(job, now[i], t.marked, r1, lost, evict, affected, marked1) ==>
              && Recovered(job, now[i := r1], i + 1)
              && TallyOf(job, i + 1)
                 == Tally(if affected then t.affected + {now[i].id} else t.affected, t.total + lost, t.evict + evict,
                     marked1)
  {
    MarkedIsEnough(job, i);
    hide Judge, VerdictOf, Prefix, HeldBefore, Apply, Lost, EvictedBy, ToSet;
  }

  lemma NothingYet(job: Job)
    requires job.blockSize > 0
    ensures Recovered(job, job.reqs, 0) && TallyOf(job, 0) == Tally({}, 0, {}, {})
  {
  }

  /** One visit, written back to the list. */
  method VisitAt(reqs: array<Req>, i: nat, invalid: set<Block>, scheduled: map<ReqId, nat>, blockSize: nat,
      evictBlocks: bool, t: Tally, ghost job: Job)
    returns (t1: Tally)
    requires i < reqs.Length == |job.reqs|
    requires blockSize > 0 && job.invalid == invalid && job.scheduled == scheduled && job.blockSize == blockSize
    requires job.evict == evictBlocks
    modifies reqs
    ensures Recovered(job, old(reqs[..]), i) && t == TallyOf(job, i) ==>
          Recovered(job, reqs[..], i + 1) && t1 == TallyOf(job, i + 1)
  {
    ghost var was := reqs[..];
    var r1, lost, evict, affected, marked := 
      VisitRequest(reqs[i], invalid, scheduled, blockSize, evictBlocks, t.marked, job);
    OneMore(job, was, i, r1, lost, evict, affected, marked);
    hide *;
    t1 := Tally(if affected then t.affected + {reqs[i].id} else t.affected, t.total + lost, t.evict + evict, marked);
    reqs[i] := r1;
    assert reqs[..] == was[i := r1];
  }

  /** The recovery pass: it updates the counters of the requests in place and returns
      the affected requests, the number of tokens to compute again, the blocks to
      evict and those marked. Each result is the one of the definitions above, which
      know nothing of the blocks marked on the way. */
  method UpdateRequestsWithInvalidBlocks(reqs: array<Req>, invalid: set<Block>, scheduled: map<ReqId, nat>,
      blockSize: nat, evictBlocks: bool)
    returns (t: Tally)
    requires blockSize > 0
    modifies reqs
    ensures var job := Job(old(reqs[..]), invalid, scheduled, blockSize, evictBlocks);
            && Recovered(job, reqs[..], reqs.Length) && t == TallyOf(job, reqs.Length)
            && Reported(job, reqs[..], t)
  {
    ghost var job := Job(reqs[..], invalid, scheduled, blockSize, evictBlocks);
    NothingYet(job);
    hide *;
    t := Tally({}, 0, {}, {});
    for i := 0 to reqs.Length
      invariant Recovered(job, reqs[..], i) && t == TallyOf(job, i)
    {
      t := VisitAt(reqs, i, invalid, scheduled, blockSize, evictBlocks, t, job);
    }
    ReportIs(job, reqs[..]);
  }
}

/**
 Choosing the encoder inputs of a request for one step: either all those whose
 embeddings the step will read, or fewer tokens.
 */
module EncoderInputs {
  import opened Seqs

  datatype HashId = HashId(name: string)

  /** A multimodal item: where its placeholder tokens stand, and which of them take an
      embedding. */
  datatype Feature = Feature(id: HashId, offset: nat, mask: seq<bool>)

  function End(f: Feature): nat {
    f.offset + |f.mask|
  }

  /** What the call is given. The encoder cache and the connector answer `cached` and
      `external`; `room` says whether the cache takes an item, given the compute budget
      left and the embeddings chosen so far. */
  datatype Job = Job(features: seq<Feature>, computed: nat, input: nat, shift: nat, whole: bool,
                     cached: nat -> bool, external: HashId -> bool, room: (nat, int, nat) -> bool)

  /** Items in order of position, none inside another. */
  predicate Sorted(fs: seq<Feature>) {
    forall i, j :: 0 <= i < j < |fs| ==> End(fs[i]) <= fs[j].offset
  }

  function Count(mask: seq<bool>, k: nat): nat
    requires k <= |mask|
  {
    if k == 0 then 0
    else
      Count(mask, k - 1) + if mask[k - 1] then 1 else 0
  }

  function Embeds(f: Feature): nat {
    Count(f.mask, |f.mask|)
  }

  lemma {:induction false} CountMonotone(mask: seq<bool>, a: nat, b: nat)
    requires a <= b <= |mask|
    ensures Count(mask, a) <= Count(mask, b)
    ensures Count(mask, b) == Count(mask, a) <==> forall k :: a <= k < b ==> !mask[k]
  {
    if a < b {
      CountMonotone(mask, a, b - 1);
    }
  }

  /** Some embedding of item `j` is read by the tokens `computed .. computed + n`. */
  predicate Reads(job: Job, j: nat, n: nat)
    requires j < |job.features|
  {
    var f := job.features[j];
    exists k :: 0 <= k < |f.mask| && f.mask[k] && job.computed <= f.offset + k < job.computed + n
  }

  // ---------------------------------------------------------------------
  // The choice
  // ---------------------------------------------------------------------

  datatype Choice = Choice(scheduled: seq<nat>, loaded: seq<nat>, hashes: set<HashId>, embeds: nat, budget: int)

  predicate Below(picks: seq<nat>, i: nat) {
    forall a :: 0 <= a < |picks| ==> picks[a] < i
  }

  function Total(fs: seq<Feature>, picks: seq<nat>): nat
    requires Below(picks, |fs|)
  {
    if picks == [] then 0
    else
      Total(fs, picks[..|picks| - 1]) + Embeds(fs[picks[|picks| - 1]])
  }

  function IdsOf(fs: seq<Feature>, picks: seq<nat>): set<HashId>
    requires Below(picks, |fs|)
  {
    set a | 0 <= a < |picks| :: fs[picks[a]].id
  }

  /** Items are chosen in order, and only those not cached whose embeddings the tokens
      asked for would read. */
  predicate Apt(job: Job, picks: seq<nat>)
    requires Below(picks, |job.features|)
  {
    && (forall a, b :: 0 <= a < b < |picks| ==> picks[a] < picks[b])
    && (forall a :: 0 <= a < |picks| ==> !job.cached(picks[a]) && Reads(job, picks[a], job.input))
  }

  /** The embeddings of the items chosen before item `p`. */
  function TotalBefore(fs: seq<Feature>, picks: seq<nat>, p: nat): nat
    requires Below(picks, |fs|)
  {
    if picks == [] then 0
    else
      var last := picks[|picks| - 1];
      TotalBefore(fs, picks[..|picks| - 1], p) + if last < p then Embeds(fs[last]) else 0
  }

  /** When item `p` was chosen there was room for it, and it is not split. */
  predicate Fits(job: Job, c: Choice, budget: int, p: nat)
    requires Below(c.scheduled, |job.features|) && Below(c.loaded, |job.features|) && p < |job.features|
  {
    var f := job.features[p];
    var before := TotalBefore(job.features, c.scheduled, p);
    && job.room(p, budget - before, before + TotalBefore(job.features, c.loaded, p))
    && (job.whole && job.computed < f.offset ==> End(f) <= job.computed + job.input)
  }

  /** What a connector holds is loaded, everything else is computed, and there was room for
      each. */
  predicate Sourced(job: Job, c: Choice, budget: int)
    requires Below(c.scheduled, |job.features|) && Below(c.loaded, |job.features|)
  {
    && (forall p :: p in c.scheduled ==>
          p < |job.features| && !job.external(job.features[p].id) && Fits(job, c, budget, p))
    && (forall p :: p in c.loaded ==>
          p < |job.features| && job.external(job.features[p].id) && Fits(job, c, budget, p))
  }

  /** A choice among the first `i` items. That there are as many hashes as items says
      that no content is chosen twice. */
  predicate Tidy(job: Job, c: Choice, budget: int, i: nat) {
    && i <= |job.features| && Below(c.scheduled, i) && Below(c.loaded, i)
    && Apt(job, c.scheduled) && Apt(job, c.loaded) && Sourced(job, c, budget)
    && c.hashes == IdsOf(job.features, c.scheduled) + IdsOf(job.features, c.loaded)
    && |c.hashes| == |c.scheduled| + |c.loaded|
    && c.embeds == Total(job.features, c.scheduled) + Total(job.features, c.loaded)
    && c.budget == budget - Total(job.features, c.scheduled)
  }

  predicate Covered(job: Job, c: Choice, j: nat)
    requires j < |job.features|
  {
    job.cached(j) || job.features[j].id in c.hashes
  }

  /** The item is in the cache; or its content is computed in this step; or it is loaded from
      a connector that holds it. */
  predicate Available(job: Job, c: Choice, j: nat)
    requires j < |job.features|
  {
    var id := job.features[j].id;
    || job.cached(j)
    || (!job.external(id) && exists p :: p in c.scheduled && p < |job.features| && job.features[p].id == id)
    || (job.external(id) && exists p :: p in c.loaded && p < |job.features| && job.features[p].id == id)
  }

  lemma CoveredIsAvailable(job: Job, c: Choice, budget: int, j: nat)
    requires j < |job.features| && Tidy(job, c, budget, |job.features|) && Covered(job, c, j)
    ensures Available(job, c, j)
  {
    hide Apt, Total, Fits;
    var id := job.features[j].id;
    if !job.cached(j) {
      if id in IdsOf(job.features, c.scheduled) {
        var a :| 0 <= a < |c.scheduled| && job.features[c.scheduled[a]].id == id;
        assert c.scheduled[a] in c.scheduled;
      } else {
        var a :| 0 <= a < |c.loaded| && job.features[c.loaded[a]].id == id;
        assert c.loaded[a] in c.loaded;
      }
    }
  }

  /** Every item with an embedding in the first `n` tokens of the step is there. */
  predicate Covers(job: Job, c: Choice, n: nat, from: nat, to: nat)
    requires from <= to <= |job.features|
  {
    forall j :: from <= j < to && Reads(job, j, n) ==> Covered(job, c, j)
  }

  /** The tokens up to item `i`, with room for the shift. */
  function UpTo(job: Job, i: nat): nat
    requires i < |job.features|
  {
    Max(0, job.features[i].offset - (job.computed + job.shift))
  }

  /** Item `i` cannot be taken: it would be split, or there is no room for it. */
  predicate Blocked(job: Job, c: Choice, i: nat)
    requires i < |job.features|
  {
    var f := job.features[i];
    || (job.whole && job.computed < f.offset && job.computed + job.input < End(f))
    || !job.room(i, c.budget, c.embeds)
  }

  /** Fewer tokens are taken only before an item that is not there and cannot be had. */
  predicate Justified(job: Job, c: Choice, n: nat) {
    || n == job.input
    || exists i :: 0 <= i < |job.features| && !Covered(job, c, i) && Blocked(job, c, i) && n == UpTo(job, i)
  }

  function Pick(job: Job, c: Choice, i: nat): Choice
    requires i < |job.features|
  {
    var f := job.features[i];
    if job.external(f.id) then c.(hashes := c.hashes + {f.id}, loaded := c.loaded + [i], embeds := c.embeds + Embeds(f))
    else
      c.(hashes := c.hashes + {f.id}, scheduled := c.scheduled + [i], embeds := c.embeds + Embeds(f),
          budget := c.budget - Embeds(f))
  }

  lemma Append(fs: seq<Feature>, picks: seq<nat>, i: nat)
    requires Below(picks, |fs|) && i < |fs|
    ensures Below(picks + [i], |fs|)
    ensures Total(fs, picks + [i]) == Total(fs, picks) + Embeds(fs[i])
    ensures IdsOf(fs, picks + [i]) == IdsOf(fs, picks) + {fs[i].id}
  {
    var more := picks + [i];
    assert more[..|more| - 1] == picks;
    assert fs[more[|picks|]].id in IdsOf(fs, more);
    forall a | 0 <= a < |picks| ensures fs[picks[a]].id in IdsOf(fs, more) {
      assert more[a] == picks[a];
    }
  }

  lemma AppendApt(job: Job, picks: seq<nat>, i: nat)
    requires Below(picks, i) && i < |job.features| && Apt(job, picks) && !job.cached(i) && Reads(job, i, job.input)
    ensures Below(picks + [i], i + 1) && Apt(job, picks + [i])
  {
  }

  /** An item chosen later does not count before. */
  lemma AppendBefore(fs: seq<Feature>, picks: seq<nat>, i: nat, p: nat)
    requires Below(picks, |fs|) && p <= i < |fs|
    ensures TotalBefore(fs, picks + [i], p) == TotalBefore(fs, picks, p)
  {
    assert (picks + [i])[..|picks|] == picks;
  }

  lemma {:induction false} AllBefore(fs: seq<Feature>, picks: seq<nat>, i: nat)
    requires Below(picks, i) && i <= |fs|
    ensures TotalBefore(fs, picks, i) == Total(fs, picks)
  {
    if picks != [] {
      AllBefore(fs, picks[..|picks| - 1], i);
    }
  }

  lemma PickIsSourced(job: Job, c: Choice, budget: int, i: nat)
    requires i < |job.features| && Tidy(job, c, budget, i) && !Blocked(job, c, i)
    ensures var c1 := Pick(job, c, i);
            Below(c1.scheduled, |job.features|) && Below(c1.loaded, |job.features|) && Sourced(job, c1, budget)
  {
    hide Apt, Total, TotalBefore, IdsOf;
    var c1 := Pick(job, c, i);
    AllBefore(job.features, c.scheduled, i);
    AllBefore(job.features, c.loaded, i);
    forall p: nat | p <= i
      ensures TotalBefore(job.features, c1.scheduled, p) == TotalBefore(job.features, c.scheduled, p)
      ensures TotalBefore(job.features, c1.loaded, p) == TotalBefore(job.features, c.loaded, p)
    {
      AppendBefore(job.features, c.scheduled, i, p);
      AppendBefore(job.features, c.loaded, i, p);
    }
    forall p | p in c1.scheduled || p in c1.loaded ensures p <= i && Fits(job, c1, budget, p) {
      if p != i {
        assert p in c.scheduled || p in c.loaded;
        assert Fits(job, c, budget, p);
      }
    }
  }

  lemma PickIsTidy(job: Job, c: Choice, budget: int, i: nat)
    requires i < |job.features| && Tidy(job, c, budget, i)
    requires !Covered(job, c, i) && Reads(job, i, job.input) && !Blocked(job, c, i)
    ensures Tidy(job, Pick(job, c, i), budget, i + 1)
  {
    hide Apt, Total, IdsOf, Reads, Sourced, Blocked;
    PickIsSourced(job, c, budget, i);
    if job.external(job.features[i].id) {
      Append(job.features, c.loaded, i);
      AppendApt(job, c.loaded, i);
    } else {
      Append(job.features, c.scheduled, i);
      AppendApt(job, c.scheduled, i);
    }
  }

  // ---------------------------------------------------------------------
  // The window of items that the tokens of the step may read
  // ---------------------------------------------------------------------

  /** The first item from `i` on that ends after `at`. */
  function FirstEndingAfter(fs: seq<Feature>, at: nat, i: nat): (r: nat)
    requires i <= |fs|
    ensures i <= r <= |fs| && forall j :: i <= j < r ==> End(fs[j]) <= at
    ensures r < |fs| ==> End(fs[r]) > at
    decreases |fs| - i
  {
    if i == |fs| || End(fs[i]) > at then i else FirstEndingAfter(fs, at, i + 1)
  }

  /** The first item from `i` on that starts at `at` or later. */
  function FirstStartingFrom(fs: seq<Feature>, at: nat, i: nat): (r: nat)
    requires i <= |fs|
    ensures i <= r <= |fs| && forall j :: i <= j < r ==> fs[j].offset < at
    ensures r < |fs| ==> fs[r].offset >= at
    decreases |fs| - i
  {
    if i == |fs| || fs[i].offset >= at then i else FirstStartingFrom(fs, at, i + 1)
  }

  function Lo(job: Job): (r: nat)
    ensures r <= |job.features|
  {
    FirstEndingAfter(job.features, job.computed, 0)
  }

  function Hi(job: Job): (r: nat)
    ensures Lo(job) <= r <= |job.features|
  {
    FirstStartingFrom(job.features, job.computed + job.input + job.shift, Lo(job))
  }

  /** What starts at or after the last token, and all after it, is not read. */
  lemma NotReadAfter(job: Job, i: nat, j: nat, n: nat)
    requires Sorted(job.features) && i <= j < |job.features| && job.computed + n <= job.features[i].offset
    ensures !Reads(job, j, n)
  {
  }

  /** Nothing is read of what ends before the first token, or when there is none. */
  lemma NotReadBefore(job: Job, j: nat, n: nat)
    requires j < |job.features| && (End(job.features[j]) <= job.computed || n == 0)
    ensures !Reads(job, j, n)
  {
  }

  /** Items outside the window are not read. */
  lemma WindowIsEnough(job: Job, c: Choice)
    requires Sorted(job.features) && Covers(job, c, job.input, Lo(job), Hi(job))
    ensures Covers(job, c, job.input, 0, |job.features|)
  {
    forall j | 0 <= j < |job.features| && !(Lo(job) <= j < Hi(job)) ensures !Reads(job, j, job.input) {
      if j < Lo(job) {
        NotReadBefore(job, j, job.input);
      } else {
        NotReadAfter(job, Hi(job), j, job.input);
      }
    }
  }

  lemma ReadsFewer(job: Job, j: nat, n: nat)
    requires j < |job.features| && n <= job.input && Reads(job, j, n)
    ensures Reads(job, j, job.input)
  {
  }

  /** Stopping before a blocked item: what comes after it is not read either. */
  lemma StopIsSound(job: Job, c: Choice, i: nat)
    requires Sorted(job.features) && Lo(job) <= i < Hi(job) && Covers(job, c, job.input, Lo(job), i)
    requires !Covered(job, c, i) && Blocked(job, c, i)
    ensures UpTo(job, i) <= job.input && Justified(job, c, UpTo(job, i))
    ensures Covers(job, c, UpTo(job, i), 0, |job.features|)
  {
    var n := UpTo(job, i);
    WindowStarts(job, i);
    forall j | 0 <= j < |job.features| && !(Lo(job) <= j < i) ensures !Reads(job, j, n) {
      if j < Lo(job) || n == 0 {
        NotReadBefore(job, j, n);
      } else {
        NotReadAfter(job, i, j, n);
      }
    }
    forall j | 0 <= j < |job.features| && Reads(job, j, n) ensures Covered(job, c, j) {
      ReadsFewer(job, j, n);
    }
  }

  /** The items of the window end after the first token and start before its end. */
  lemma WindowStarts(job: Job, i: nat)
    requires Sorted(job.features) && Lo(job) <= i < Hi(job)
    ensures job.computed < End(job.features[i]) && job.features[i].offset < job.computed + job.input + job.shift
  {
  }

  /** The part of item `i` that the step covers. */
  function RangeOf(job: Job, i: nat): (int, int)
    requires i < |job.features|
  {
    var f := job.features[i];
    (Max(0, job.computed - f.offset), Min(|f.mask|, job.computed + job.input - f.offset))
  }

  /** Counting the embeddings in that part tells whether the item is read. */
  lemma RangeCounts(job: Job, i: nat)
    requires Sorted(job.features) && Lo(job) <= i < Hi(job) && job.shift <= 1
    ensures var (from, to) := RangeOf(job, i);
            var mask := job.features[i].mask;
            0 <= from <= to <= |mask| && (Count(mask, to) == Count(mask, from) <==> !Reads(job, i, job.input))
  {
    WindowStarts(job, i);
    var (from, to) := RangeOf(job, i);
    CountMonotone(job.features[i].mask, from, to);
  }

  // ---------------------------------------------------------------------
  // The loop
  // ---------------------------------------------------------------------

  /** Takes what item `i` needs; `stop` when it is blocked. */
  method Visit(job: Job, c: Choice, ghost budget: int, i: nat) returns (c1: Choice, stop: bool)
    requires Sorted(job.features) && Lo(job) <= i < Hi(job) && job.shift <= 1
    requires Tidy(job, c, budget, i)
    ensures stop ==> c1 == c && !Covered(job, c, i) && Blocked(job, c, i)
    ensures !stop ==> Tidy(job, c1, budget, i + 1) && (Reads(job, i, job.input) ==> Covered(job, c1, i))
    ensures c.hashes <= c1.hashes
  {
    hide Apt, Total, IdsOf, Reads, Lo, Hi, Sorted, Count;
    c1, stop := c, false;
    var f := job.features[i];
    if f.id in c.hashes || job.cached(i) {
      return;
    }
    if job.whole && job.computed < f.offset && job.computed + job.input < End(f) {
      stop := true;
      return;
    }
    if !job.room(i, c.budget, c.embeds) {
      stop := true;
      return;
    }
    RangeCounts(job, i);
    var (from, to) := RangeOf(job, i);
    if Count(f.mask, to) == Count(f.mask, from) {
      return;
    }
    PickIsTidy(job, c, budget, i);
    c1 := Pick(job, c, i);
  }

  /** The step reads `n` of the tokens asked for, and needs no embedding that is not
      cached, chosen here or loaded from outside. The budget falls by the embeddings
      scheduled; tokens are given up only before an item that cannot be had. */
  method TryScheduleEncoderInputs(job: Job, budget: int) returns (c: Choice, n: nat)
    requires Sorted(job.features) && job.shift <= 1
    ensures n <= job.input && Justified(job, c, n)
    ensures forall j :: 0 <= j < |job.features| && Reads(job, j, n) ==> Available(job, c, j)
    ensures Tidy(job, c, budget, |job.features|)
  {
    hide Apt, Total, IdsOf, Reads, Lo, Hi, Sorted, Blocked, Count, UpTo, Sourced, Available;
    c, n := Choice([], [], {}, 0, budget), job.input;
    Empty(job, budget, Lo(job));
    if n == 0 || job.features == [] {
      Provided(job, c, budget, n);
      return;
    }
    for i := Lo(job) to Hi(job)
      invariant Tidy(job, c, budget, i)
      invariant Covers(job, c, job.input, Lo(job), i)
      invariant n == job.input
    {
      var c1, stop := Visit(job, c, budget, i);
      if stop {
        n := UpTo(job, i);
        StopIsSound(job, c, i);
        TidyLater(job, c, budget, i, |job.features|);
        Provided(job, c, budget, n);
        return;
      }
      CoversNext(job, c, c1, i);
      c := c1;
    }
    WindowIsEnough(job, c);
    TidyLater(job, c, budget, Hi(job), |job.features|);
    Provided(job, c, budget, n);
  }

  lemma Provided(job: Job, c: Choice, budget: int, n: nat)
    requires Tidy(job, c, budget, |job.features|) && Covers(job, c, n, 0, |job.features|)
    ensures forall j :: 0 <= j < |job.features| && Reads(job, j, n) ==> Available(job, c, j)
  {
    hide Tidy, Reads, Available;
    forall j | 0 <= j < |job.features| && Reads(job, j, n) ensures Available(job, c, j) {
      CoveredIsAvailable(job, c, budget, j);
    }
  }

  lemma CoversNext(job: Job, c: Choice, c1: Choice, i: nat)
    requires Lo(job) <= i < |job.features| && Covers(job, c, job.input, Lo(job), i)
    requires c.hashes <= c1.hashes && (Reads(job, i, job.input) ==> Covered(job, c1, i))
    ensures Covers(job, c1, job.input, Lo(job), i + 1)
  {
    hide Reads, Lo;
  }

  lemma TidyLater(job: Job, c: Choice, budget: int, i: nat, k: nat)
    requires Tidy(job, c, budget, i) && i <= k <= |job.features|
    ensures Tidy(job, c, budget, k)
  {
  }

  lemma Empty(job: Job, budget: int, lo: nat)
    requires lo <= |job.features|
    ensures var c := Choice([], [], {}, 0, budget);
            && Tidy(job, c, budget, 0) && Tidy(job, c, budget, lo)
            && (job.input == 0 || job.features == [] ==> Covers(job, c, job.input, 0, |job.features|))
  {
  }
}

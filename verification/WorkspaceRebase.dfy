/**
 Laying out the prefill requests of a batch in a shared workspace, chunk by chunk, and
 writing the output rows.
 */
module WorkspaceRebase {
  import opened Seqs

  /** Decode requests come first. `queryStart` holds the first query token of every
      request and, last, the number of tokens; `lens` those of the prefill requests. */
  datatype Batch = Batch(decodes: nat, lens: seq<nat>, queryStart: seq<nat>)

  function Tokens(b: Batch): nat
    requires Shaped(b)
  {
    b.queryStart[|b.queryStart| - 1]
  }

  predicate Shaped(b: Batch) {
    && |b.queryStart| == b.decodes + |b.lens| + 1
    && b.queryStart[0] == 0
    && forall i, j :: 0 <= i <= j < |b.queryStart| ==> b.queryStart[i] <= b.queryStart[j]
  }

  /** The first token of prefill request `r`; of the one after the last, the end. */
  function TokenStart(b: Batch, r: nat): nat
    requires Shaped(b) && r <= |b.lens|
  {
    b.queryStart[b.decodes + r]
  }

  /** Requests `first..last`. */
  datatype Bounds = Bounds(first: nat, last: nat)

  /** The bounds cut `0..n` into consecutive stretches. */
  predicate Cuts(bounds: seq<Bounds>, n: nat) {
    && (bounds == [] ==> n == 0)
    && (bounds != [] ==> bounds[0].first == 0 && bounds[|bounds| - 1].last == n)
    && (forall k :: 0 <= k < |bounds| ==> bounds[k].first < bounds[k].last <= n)
    && (forall k, m :: 0 <= k && m == k + 1 < |bounds| ==> bounds[k].last == bounds[m].first)
  }

  lemma {:induction false} CutsInOrder(bounds: seq<Bounds>, n: nat, j: nat, k: nat)
    requires Cuts(bounds, n) && j < k < |bounds|
    ensures bounds[j].last <= bounds[k].first
  {
    if j + 1 < k {
      CutsInOrder(bounds, n, j, k - 1);
    }
    assert bounds[k - 1].last == bounds[k].first;
  }

  // ---------------------------------------------------------------------
  // The metadata
  // ---------------------------------------------------------------------

  datatype Chunk = Chunk(first: nat, last: nat, total: nat, tokenStart: nat, tokenEnd: nat)

  function ChunkOf(b: Batch, c: Bounds): Chunk
    requires Shaped(b) && c.first <= c.last <= |b.lens|
  {
    Chunk(c.first, c.last, Sum(b.lens, c.first, c.last), TokenStart(b, c.first), TokenStart(b, c.last))
  }

  /** Where request `r` starts in the workspace of its chunk. */
  predicate Rebased(b: Batch, starts: seq<int>, c: Bounds)
    requires |starts| == |b.lens| && c.last <= |b.lens|
  {
    forall r :: c.first <= r < c.last ==> starts[r] == Sum(b.lens, c.first, r)
  }

  predicate Cumulative(b: Batch, starts: seq<int>, from: nat)
    requires |starts| == |b.lens|
  {
    forall r :: from <= r < |starts| ==> starts[r] == Sum(b.lens, 0, r)
  }

  /** Request ids: -1 on decode tokens, and on prefill tokens the request. */
  predicate Numbered(b: Batch, ids: seq<int>, to: nat)
    requires Shaped(b) && |ids| == Tokens(b) && to <= |b.lens|
  {
    && (forall r, t :: 0 <= r < to && TokenStart(b, r) <= t < TokenStart(b, r + 1) ==> ids[t] == r)
    && (forall t :: 0 <= t < |ids| && !(TokenStart(b, 0) <= t < TokenStart(b, to)) ==> ids[t] == -1)
  }

  method NumberTokens(b: Batch) returns (ids: array<int>)
    requires Shaped(b)
    ensures fresh(ids) && ids.Length == Tokens(b) && Numbered(b, ids[..], |b.lens|)
  {
    ids := new int[Tokens(b)](_ => -1);
    for r := 0 to |b.lens|
      invariant Numbered(b, ids[..], r)
    {
      var was := ids[..];
      FillRange(ids, TokenStart(b, r), TokenStart(b, r + 1), r);
      NumberOne(b, was, ids[..], r);
    }
  }

  method FillRange(a: array<int>, from: nat, to: nat, v: int)
    requires from <= to <= a.Length
    modifies a
    ensures a[..] == old(a[..])[..from] + seq(to - from, _ => v) + old(a[..])[to..]
  {
    for t := from to to
      invariant a[..] == old(a[..])[..from] + seq(t - from, _ => v) + old(a[..])[t..]
    {
      a[t] := v;
    }
  }

  lemma NumberOne(b: Batch, was: seq<int>, now: seq<int>, r: nat)
    requires Shaped(b) && r < |b.lens| && |was| == Tokens(b) && Numbered(b, was, r)
    requires now == was[..TokenStart(b, r)] + seq(TokenStart(b, r + 1) - TokenStart(b, r), _ => r as int) +
          was[TokenStart(b, r + 1)..]
    ensures |now| == |was| && Numbered(b, now, r + 1)
  {
    var from, to := TokenStart(b, r), TokenStart(b, r + 1);
    assert forall t :: 0 <= t < |was| ==> now[t] == if from <= t < to then r else was[t];
    forall q, t | 0 <= q < r + 1 && TokenStart(b, q) <= t < TokenStart(b, q + 1) ensures now[t] == q {
      assert q < r ==> TokenStart(b, q + 1) <= from;
    }
  }

  /** Takes the start of the first request of a chunk off all its starts. */
  method Shift(starts: array<int>, first: nat, last: nat)
    requires first < last <= starts.Length
    modifies starts
    ensures forall r :: 0 <= r < starts.Length ==>
              starts[r] == old(starts[r]) - if first <= r < last then old(starts[first]) else 0
  {
    var offset := starts[first];
    for r := first to last
      invariant forall q :: 0 <= q < starts.Length ==>
            starts[q] == old(starts[q]) - if first <= q < r then offset else 0
    {
      starts[r] := starts[r] - offset;
    }
  }

  /** The starts of all prefill requests, as if they were one chunk. */
  method CumulativeStarts(b: Batch) returns (starts: array<int>)
    ensures fresh(starts) && starts.Length == |b.lens| && Cumulative(b, starts[..], 0)
  {
    starts := new int[|b.lens|](_ => 0);
    if |b.lens| == 0 {
      return;
    }
    for r := 1 to |b.lens|
      invariant forall q :: 0 <= q < r ==> starts[q] == Sum(b.lens, 0, q)
    {
      starts[r] := starts[r - 1] + b.lens[r - 1];
    }
  }

  /** Chunks `0..k` rebased, the other starts still cumulative. */
  predicate RebasedUpTo(b: Batch, bounds: seq<Bounds>, starts: seq<int>, k: nat)
    requires Cuts(bounds, |b.lens|) && k <= |bounds| && |starts| == |b.lens|
  {
    && (forall j :: 0 <= j < k ==> Rebased(b, starts, bounds[j]))
    && (k < |bounds| ==> Cumulative(b, starts, bounds[k].first))
  }

  function Offset(bounds: seq<Bounds>, starts: seq<int>, k: nat, r: nat): int
    requires k < |bounds| && bounds[k].first < |starts|
  {
    if bounds[k].first <= r < bounds[k].last then starts[bounds[k].first] else 0
  }

  lemma RebaseOne(b: Batch, bounds: seq<Bounds>, was: seq<int>, now: seq<int>, k: nat)
    requires Cuts(bounds, |b.lens|) && k < |bounds| && |was| == |now| == |b.lens|
    requires RebasedUpTo(b, bounds, was, k)
    requires forall r :: 0 <= r < |was| ==> now[r] == was[r] - Offset(bounds, was, k, r)
    ensures RebasedUpTo(b, bounds, now, k + 1)
  {
    var c := bounds[k];
    forall j | 0 <= j < k ensures Rebased(b, now, bounds[j]) {
      CutsInOrder(bounds, |b.lens|, j, k);
      assert Rebased(b, was, bounds[j]);
    }
    forall r | c.first <= r < c.last ensures now[r] == Sum(b.lens, c.first, r) {
      SumSplits(b.lens, 0, c.first, r);
    }
    if k + 1 < |bounds| {
      assert bounds[k].last == bounds[k + 1].first;
    }
    hide Sum;
  }

  /** The metadata of a batch: after the loop the starts of every chunk count from the
      start of that chunk. */
  method BuildPrefill(b: Batch, bounds: seq<Bounds>) returns (ids: array<int>, starts: array<int>, chunks: seq<Chunk>)
    requires Shaped(b) && Cuts(bounds, |b.lens|)
    ensures ids.Length == Tokens(b) && Numbered(b, ids[..], |b.lens|)
    ensures starts.Length == |b.lens| && forall k :: 0 <= k < |bounds| ==> Rebased(b, starts[..], bounds[k])
    ensures |chunks| == |bounds| && forall k :: 0 <= k < |bounds| ==> chunks[k] == ChunkOf(b, bounds[k])
  {
    ids := NumberTokens(b);
    starts := CumulativeStarts(b);
    chunks := [];
    assert bounds != [] ==> bounds[0].first == 0;
    hide Sum, Rebased, Cumulative, Numbered;
    for k := 0 to |bounds|
      invariant RebasedUpTo(b, bounds, starts[..], k)
      invariant |chunks| == k && forall j :: 0 <= j < k ==> chunks[j] == ChunkOf(b, bounds[j])
      invariant ids.Length == Tokens(b) && Numbered(b, ids[..], |b.lens|) && ids != starts
    {
      var c := bounds[k];
      ghost var was := starts[..];
      Shift(starts, c.first, c.last);
      RebaseOne(b, bounds, was, starts[..], k);
      chunks := chunks + [ChunkOf(b, c)];
    }
  }

  // ---------------------------------------------------------------------
  // What the layout gives
  // ---------------------------------------------------------------------

  /** Workspace row `w` of a chunk belongs to request `r`. */
  predicate Owns(b: Batch, starts: seq<int>, r: nat, w: nat)
    requires |starts| == |b.lens| && r < |b.lens|
  {
    starts[r] <= w < starts[r] + b.lens[r]
  }

  lemma {:induction false} Locate(xs: seq<nat>, i: nat, j: nat, w: nat) returns (r: nat)
    requires i <= j <= |xs| && w < Sum(xs, i, j)
    ensures i <= r < j && Sum(xs, i, r) <= w < Sum(xs, i, r) + xs[r]
  {
    if w < Sum(xs, i, j - 1) {
      r := Locate(xs, i, j - 1, w);
    } else {
      r := j - 1;
    }
  }

  /** The regions of the requests of a chunk are its workspace: each row belongs to one
      of them and to no other, and none lies outside. */
  lemma RegionsTile(b: Batch, starts: seq<int>, c: Bounds, w: nat)
    requires |starts| == |b.lens| && c.first <= c.last <= |b.lens| && Rebased(b, starts, c)
    ensures w < Sum(b.lens, c.first, c.last) <==> exists r :: c.first <= r < c.last && Owns(b, starts, r, w)
    ensures forall q, r ::
              c.first <= q < c.last && c.first <= r < c.last && Owns(b, starts, q, w) && Owns(b, starts, r, w)
              ==> q == r
  {
    if w < Sum(b.lens, c.first, c.last) {
      var r := Locate(b.lens, c.first, c.last, w);
      assert Owns(b, starts, r, w);
    }
    forall r | c.first <= r < c.last && Owns(b, starts, r, w) ensures w < Sum(b.lens, c.first, c.last) {
      RegionEnd(b, c.first, r, c.last);
    }
    forall q, r | c.first <= q < r < c.last && Owns(b, starts, q, w) ensures !Owns(b, starts, r, w) {
      RegionEnd(b, c.first, q, r);
    }
  }

  lemma RegionEnd(b: Batch, first: nat, q: nat, r: nat)
    requires first <= q < r <= |b.lens|
    ensures Sum(b.lens, first, q) + b.lens[q] <= Sum(b.lens, first, r)
  {
    SumSplits(b.lens, first, q + 1, r);
  }

  /** Every token of a chunk's slice carries the id of a request of that chunk, and each
      position within that request's length is mapped into that request's region of the
      chunk's workspace. */
  lemma TokensStayInChunk(b: Batch, ids: seq<int>, starts: seq<int>, c: Bounds, t: nat, pos: nat)
    requires Shaped(b) && |ids| == Tokens(b) && Numbered(b, ids, |b.lens|)
    requires |starts| == |b.lens| && c.first <= c.last <= |b.lens| && Rebased(b, starts, c)
    requires TokenStart(b, c.first) <= t < TokenStart(b, c.last)
    ensures c.first <= ids[t] < c.last
    ensures pos < b.lens[ids[t]] ==>
              && Owns(b, starts, ids[t], starts[ids[t]] + pos)
              && starts[ids[t]] + pos < Sum(b.lens, c.first, c.last)
  {
    var r := FindRequest(b, c.first, c.last, t);
    assert ids[t] == r;
    RegionEnd(b, c.first, r, c.last);
    hide Sum, Numbered;
  }

  lemma {:induction false} FindRequest(b: Batch, i: nat, j: nat, t: nat) returns (r: nat)
    requires Shaped(b) && i <= j <= |b.lens| && TokenStart(b, i) <= t < TokenStart(b, j)
    ensures i <= r < j && TokenStart(b, r) <= t < TokenStart(b, r + 1)
  {
    if t < TokenStart(b, j - 1) {
      r := FindRequest(b, i, j - 1, t);
    } else {
      r := j - 1;
    }
  }

  // ---------------------------------------------------------------------
  // Writing the output
  // ---------------------------------------------------------------------

  /** The token lies in the slice of chunk `k`. */
  predicate InSlice(b: Batch, c: Bounds, t: nat)
    requires Shaped(b) && c.first <= c.last <= |b.lens|
  {
    TokenStart(b, c.first) <= t < TokenStart(b, c.last)
  }

  lemma SlicesAreDisjoint(b: Batch, bounds: seq<Bounds>, j: nat, k: nat, t: nat)
    requires Shaped(b) && Cuts(bounds, |b.lens|) && j < k < |bounds| && InSlice(b, bounds[j], t)
    ensures !InSlice(b, bounds[k], t)
  {
    CutsInOrder(bounds, |b.lens|, j, k);
  }

  /** The tokens of decodes and of the chunks before `k`. */
  function UpTo(b: Batch, bounds: seq<Bounds>, k: nat): (r: nat)
    requires Shaped(b) && Cuts(bounds, |b.lens|) && k <= |bounds|
  {
    if k == 0 then TokenStart(b, 0) else TokenStart(b, bounds[k - 1].last)
  }

  lemma SlicesMeet(b: Batch, bounds: seq<Bounds>, k: nat)
    requires Shaped(b) && Cuts(bounds, |b.lens|) && k <= |bounds|
    ensures UpTo(b, bounds, k) <= UpTo(b, bounds, |bounds|) == Tokens(b)
    ensures k < |bounds| ==>
              && UpTo(b, bounds, k) == TokenStart(b, bounds[k].first)
              && TokenStart(b, bounds[k].first) <= TokenStart(b, bounds[k].last) == UpTo(b, bounds, k + 1)
  {
    if 0 < k < |bounds| {
      assert bounds[k - 1].last == bounds[k].first;
    }
  }

  /** One more write to each of the rows `from..to`. */
  function Counted(writes: seq<nat>, from: nat, to: nat): (r: seq<nat>)
    ensures |r| == |writes|
  {
    seq(|writes|, t requires 0 <= t < |writes| => writes[t] + if from <= t < to then 1 else 0)
  }

  method WriteRows<V>(out: array<V>, from: nat, to: nat, row: nat -> V, ghost writes: seq<nat>)
      returns (ghost writes1: seq<nat>)
    requires from <= to <= out.Length == |writes|
    modifies out
    ensures forall t :: 0 <= t < out.Length ==> out[t] == if from <= t < to then row(t) else old(out[t])
    ensures writes1 == Counted(writes, from, to)
  {
    writes1 := writes;
    for t := from to to
      invariant forall i :: 0 <= i < out.Length ==> out[i] == if from <= i < t then row(i) else old(out[i])
      invariant |writes1| == |writes| == out.Length
      invariant forall i :: 0 <= i < out.Length ==> writes1[i] == writes[i] + if from <= i < t then 1 else 0
    {
      out[t], writes1 := row(t), writes1[t := writes1[t] + 1];
    }
  }

  predicate WrittenOnce(writes: seq<nat>, to: nat) {
    forall t :: 0 <= t < |writes| ==> writes[t] == if t < to then 1 else 0
  }

  /** The rows of the decodes and of the chunks before `k` hold what was computed for
      them. */
  predicate Holds<V(==)>(b: Batch, bounds: seq<Bounds>, out: seq<V>, k: nat, decode: nat -> V, prefill: (nat, nat) -> V)
    requires Shaped(b) && Cuts(bounds, |b.lens|) && k <= |bounds| && |out| == Tokens(b)
  {
    && (forall t :: 0 <= t < TokenStart(b, 0) ==> out[t] == decode(t))
    && (forall j, t :: 0 <= j < k && 0 <= t < |out| && InSlice(b, bounds[j], t) ==> out[t] == prefill(j, t))
  }

  lemma HoldsNext<V>(b: Batch, bounds: seq<Bounds>, was: seq<V>, now: seq<V>, k: nat, decode: nat -> V,
      prefill: (nat, nat) -> V)
    requires Shaped(b) && Cuts(bounds, |b.lens|) && k < |bounds| && |was| == |now| == Tokens(b)
    requires Holds(b, bounds, was, k, decode, prefill)
    requires forall t :: 0 <= t < |now| ==> now[t] == if InSlice(b, bounds[k], t) then prefill(k, t) else was[t]
    ensures Holds(b, bounds, now, k + 1, decode, prefill)
  {
    forall j, t | 0 <= j < k && 0 <= t < |now| && InSlice(b, bounds[j], t) ensures now[t] == prefill(j, t) {
      SlicesAreDisjoint(b, bounds, j, k, t);
    }
  }

  /** Each output row is written once: by the decode kernel, or by the kernel of the
      chunk that its token is in. What the new output held before plays no part. */
  method WriteOutput<V(==)>(b: Batch, bounds: seq<Bounds>, out: array<V>, decode: nat -> V, prefill: (nat, nat) -> V)
      returns (ghost writes: seq<nat>)
    requires Shaped(b) && Cuts(bounds, |b.lens|) && out.Length == Tokens(b)
    modifies out
    ensures |writes| == out.Length && WrittenOnce(writes, out.Length)
    ensures Holds(b, bounds, out[..], |bounds|, decode, prefill)
  {
    writes := seq(out.Length, _ => 0);
    SlicesMeet(b, bounds, 0);
    writes := WriteRows(out, 0, TokenStart(b, 0), decode, writes);
    for k := 0 to |bounds|
      invariant |writes| == out.Length && WrittenOnce(writes, UpTo(b, bounds, k))
      invariant Holds(b, bounds, out[..], k, decode, prefill)
    {
      var c := bounds[k];
      SlicesMeet(b, bounds, k);
      SlicesMeet(b, bounds, k + 1);
      ghost var was := out[..];
      writes := WriteRows(out, TokenStart(b, c.first), TokenStart(b, c.last), (t: nat) => prefill(k, t), writes);
      HoldsNext(b, bounds, was, out[..], k, decode, prefill);
    }
    SlicesMeet(b, bounds, |bounds|);
  }
}

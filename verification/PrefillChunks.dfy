/**
 Cutting a prefill batch into chunks that fit a workspace, and sizing the workspace so
 that no batch is cut differently.
 */
module PrefillChunks {
  import opened Seqs
  import opened Arithmetic

  /** The query tokens and the compressed length of each request of a batch. */
  datatype Batch = Batch(queries: seq<nat>, lens: seq<nat>)

  /** What a chunk may take: compressed entries, and logits in all. */
  datatype Limits = Limits(workspace: int, logits: nat)

  /** Requests `first..last`, and of their query rows `from..to`. */
  datatype Chunk = Chunk(first: nat, last: nat, from: nat, to: nat)

  predicate Shaped(b: Batch) {
    |b.queries| == |b.lens|
  }

  /** Requests `i..j` fit in one chunk. */
  predicate Fits(b: Batch, l: Limits, i: nat, j: nat)
    requires Shaped(b) && i <= j <= |b.lens|
  {
    Sum(b.lens, i, j) <= l.workspace && Sum(b.queries, i, j) * Sum(b.lens, i, j) <= l.logits
  }

  lemma FewerFit(b: Batch, l: Limits, i: nat, j: nat, k: nat)
    requires Shaped(b) && i <= j <= k <= |b.lens| && Fits(b, l, i, k)
    ensures Fits(b, l, i, j)
  {
    SumSplits(b.lens, i, j, k);
    SumSplits(b.queries, i, j, k);
    Products(Sum(b.queries, i, j), Sum(b.lens, i, j), Sum(b.queries, i, k), Sum(b.lens, i, k));
  }

  // ---------------------------------------------------------------------
  // The chunks
  // ---------------------------------------------------------------------

  /** The requests taken greedily from `end` on into a group that starts at `start`. */
  function Take(b: Batch, l: Limits, start: nat, end: nat): (r: nat)
    requires Shaped(b) && start <= end <= |b.lens|
    ensures end <= r <= |b.lens|
    decreases |b.lens| - end
  {
    if end < |b.lens| && Fits(b, l, start, end + 1) then Take(b, l, start, end + 1) else end
  }

  function GroupEnd(b: Batch, l: Limits, start: nat): (r: nat)
    requires Shaped(b) && start < |b.lens|
    ensures start < r <= |b.lens|
  {
    var end := Take(b, l, start, start);
    if end == start then start + 1 else end
  }

  /** How many query rows of a group of `m` rows and `n` entries go into one chunk. */
  function Rows(l: Limits, m: nat, n: nat): (r: nat)
    ensures r > 0
  {
    if n > 0 then Max(1, l.logits / n) else Max(1, m)
  }

  function Slices(first: nat, last: nat, m: nat, rows: nat, off: nat): seq<Chunk>
    requires rows > 0
    decreases m - off
  {
    if off >= m then []
    else
      [Chunk(first, last, off, off + Min(rows, m - off))] + Slices(first, last, m, rows, off + rows)
  }

  function GroupChunks(b: Batch, l: Limits, start: nat, end: nat): seq<Chunk>
    requires Shaped(b) && start <= end <= |b.lens|
  {
    var m, n := Sum(b.queries, start, end), Sum(b.lens, start, end);
    Slices(start, end, m, Rows(l, m, n), 0)
  }

  function Chunks(b: Batch, l: Limits, start: nat): seq<Chunk>
    requires Shaped(b) && start <= |b.lens|
    decreases |b.lens| - start
  {
    if start == |b.lens| then []
    else
      var end := GroupEnd(b, l, start);
      GroupChunks(b, l, start, end) + Chunks(b, l, end)
  }

  method SplitPrefillChunks(b: Batch, l: Limits) returns (chunks: seq<Chunk>)
    requires Shaped(b)
    ensures chunks == Chunks(b, l, 0)
  {
    hide Slices, Rows;
    chunks := [];
    var end := 0;
    while end < |b.lens|
      invariant end <= |b.lens|
      invariant chunks + Chunks(b, l, end) == Chunks(b, l, 0)
    {
      var start := end;
      var m, n;
      end, m, n := FillGroup(b, l, start);
      var more := SliceGroup(start, end, m, Rows(l, m, n));
      chunks := chunks + more;
    }
  }

  /** The inner loop: requests as long as they fit, or the next one alone. */
  method FillGroup(b: Batch, l: Limits, start: nat) returns (end: nat, m: nat, n: nat)
    requires Shaped(b) && start < |b.lens|
    ensures end == GroupEnd(b, l, start) && m == Sum(b.queries, start, end) && n == Sum(b.lens, start, end)
  {
    end, m, n := start, 0, 0;
    while end < |b.lens|
      invariant start <= end <= |b.lens|
      invariant m == Sum(b.queries, start, end) && n == Sum(b.lens, start, end)
      invariant Take(b, l, start, end) == Take(b, l, start, start)
    {
      var newM, newN := m + b.queries[end], n + b.lens[end];
      if newN <= l.workspace && newM * newN <= l.logits {
        m, n, end := newM, newN, end + 1;
      } else {
        break;
      }
    }
    if end == start {
      m, n := b.queries[end], b.lens[end];
      end := end + 1;
    }
  }

  method SliceGroup(first: nat, last: nat, m: nat, rows: nat) returns (chunks: seq<Chunk>)
    requires rows > 0
    ensures chunks == Slices(first, last, m, rows, 0)
  {
    chunks := [];
    var off := 0;
    while off < m
      invariant chunks + Slices(first, last, m, rows, off) == Slices(first, last, m, rows, 0)
      decreases m - off
    {
      chunks := chunks + [Chunk(first, last, off, off + Min(rows, m - off))];
      off := off + rows;
    }
  }

  // ---------------------------------------------------------------------
  // What the chunks are
  // ---------------------------------------------------------------------

  /** A group is the longest that fits, or the next request alone. */
  lemma GroupIsLongest(b: Batch, l: Limits, start: nat)
    requires Shaped(b) && start < |b.lens|
    ensures var end := GroupEnd(b, l, start);
            && (Fits(b, l, start, end) || end == start + 1)
            && forall j :: end < j <= |b.lens| ==> !Fits(b, l, start, j)
  {
    TakeIsLongest(b, l, start, start);
  }

  lemma {:induction false} TakeIsLongest(b: Batch, l: Limits, start: nat, end: nat)
    requires Shaped(b) && start <= end <= |b.lens|
    ensures var r := Take(b, l, start, end);
            && (r > end ==> Fits(b, l, start, r))
            && forall j :: r < j <= |b.lens| ==> !Fits(b, l, start, j)
    decreases |b.lens| - end
  {
    if end < |b.lens| && Fits(b, l, start, end + 1) {
      TakeIsLongest(b, l, start, end + 1);
    } else {
      forall j | end < j <= |b.lens| ensures !Fits(b, l, start, j) {
        if Fits(b, l, start, j) {
          FewerFit(b, l, start, end + 1, j);
        }
      }
    }
  }

  /** A chunk within both limits, as far as requests and rows can be divided; and as long
      as can be: neither one more request nor one more row would fit. */
  predicate Good(b: Batch, l: Limits, c: Chunk)
    requires Shaped(b)
  {
    && c.first < c.last <= |b.lens| && c.from < c.to <= Sum(b.queries, c.first, c.last)
    && (Sum(b.lens, c.first, c.last) <= l.workspace || c.last == c.first + 1)
    && ((c.to - c.from) * Sum(b.lens, c.first, c.last) <= l.logits || c.to == c.from + 1)
    && (c.last > c.first + 1 ==> c.from == 0 && c.to == Sum(b.queries, c.first, c.last))
    && (forall j :: c.last < j <= |b.lens| ==> !Fits(b, l, c.first, j))
    && (c.to == Sum(b.queries, c.first, c.last) || (c.to - c.from + 1) * Sum(b.lens, c.first, c.last) > l.logits)
  }

  /** The chunks are the query rows `from..to` of the batch, one after the other. */
  predicate Tiles(b: Batch, chunks: seq<Chunk>, from: nat, to: nat)
    requires Shaped(b)
  {
    if chunks == [] then from == to
    else
      var c := chunks[0];
      && c.first <= |b.lens| && Sum(b.queries, 0, c.first) + c.from == from && c.from <= c.to
      && Tiles(b, chunks[1..], from + (c.to - c.from), to)
  }

  lemma {:induction false} TilesConcat(b: Batch, xs: seq<Chunk>, ys: seq<Chunk>, from: nat, mid: nat, to: nat)
    requires Shaped(b) && Tiles(b, xs, from, mid) && Tiles(b, ys, mid, to)
    ensures Tiles(b, xs + ys, from, to)
  {
    if xs == [] {
      assert xs + ys == ys;
    } else {
      assert (xs + ys)[1..] == xs[1..] + ys;
      TilesConcat(b, xs[1..], ys, from + (xs[0].to - xs[0].from), mid, to);
    }
  }

  lemma {:induction false} SlicesTile(b: Batch, first: nat, last: nat, m: nat, rows: nat, off: nat)
    requires Shaped(b) && rows > 0 && first <= |b.lens|
    requires off <= m || off < m + rows
    ensures var at := Sum(b.queries, 0, first);
            Tiles(b, Slices(first, last, m, rows, off), at + Min(off, m), at + m)
    ensures forall k :: 0 <= k < |Slices(first, last, m, rows, off)| ==>
          SliceOf(first, last, m, rows, off, Slices(first, last, m, rows, off)[k])
    decreases m - off
  {
    if off < m {
      SlicesTile(b, first, last, m, rows, off + rows);
    }
  }

  predicate SliceOf(first: nat, last: nat, m: nat, rows: nat, off: nat, c: Chunk) {
    && c.first == first && c.last == last && off <= c.from < c.to <= m && c.to - c.from <= rows
    && (c.to == m || c.to - c.from == rows) && (rows >= m ==> c.from == off && c.to == m)
  }

  /** Rows of a chunk stay within the logits, unless there is one row. */
  lemma RowsFit(l: Limits, m: nat, n: nat, k: nat)
    requires k <= Rows(l, m, n)
    ensures k * n <= l.logits || k <= 1
    ensures k == Rows(l, m, n) ==> k >= m || (k + 1) * n > l.logits
    ensures m * n <= l.logits ==> Rows(l, m, n) >= m
  {
    if n > 0 {
      var q := l.logits / n;
      assert q * n <= l.logits < q * n + n;
      assert (q + 1) * n == q * n + n;
      if k > 1 {
        Products(k, n, q, n);
      }
      Products(q + 1, n, Rows(l, m, n) + 1, n);
      if q < m {
        Products(q + 1, n, m, n);
      }
    }
  }

  lemma GroupIsGood(b: Batch, l: Limits, start: nat, k: nat)
    requires Shaped(b) && start < |b.lens| && k < |GroupChunks(b, l, start, GroupEnd(b, l, start))|
    ensures Good(b, l, GroupChunks(b, l, start, GroupEnd(b, l, start))[k])
  {
    var end := GroupEnd(b, l, start);
    var m, n := Sum(b.queries, start, end), Sum(b.lens, start, end);
    GroupIsLongest(b, l, start);
    SlicesTile(b, start, end, m, Rows(l, m, n), 0);
    hide GroupEnd, Slices, Rows, Sum;
    var c := GroupChunks(b, l, start, end)[k];
    assert SliceOf(start, end, m, Rows(l, m, n), 0, c);
    RowsFit(l, m, n, c.to - c.from);
  }

  /** For every batch and all limits the chunks are good, and their rows are all query
      rows of the batch, each once and in order. */
  lemma {:induction false} ChunksTile(b: Batch, l: Limits, start: nat)
    requires Shaped(b) && start <= |b.lens|
    ensures forall k :: 0 <= k < |Chunks(b, l, start)| ==> Good(b, l, Chunks(b, l, start)[k])
    ensures Tiles(b, Chunks(b, l, start), Sum(b.queries, 0, start), Sum(b.queries, 0, |b.lens|))
    decreases |b.lens| - start
  {
    if start < |b.lens| {
      var end := GroupEnd(b, l, start);
      var m, n := Sum(b.queries, start, end), Sum(b.lens, start, end);
      ChunksTile(b, l, end);
      SlicesTile(b, start, end, m, Rows(l, m, n), 0);
      SumSplits(b.queries, 0, start, end);
      TilesConcat(b, GroupChunks(b, l, start, end), Chunks(b, l, end), Sum(b.queries, 0, start),
          Sum(b.queries, 0, end), Sum(b.queries, 0, |b.lens|));
      forall k | 0 <= k < |GroupChunks(b, l, start, end)| ensures Good(b, l, GroupChunks(b, l, start, end)[k]) {
        GroupIsGood(b, l, start, k);
      }
      hide Good, Tiles, GroupEnd, GroupChunks, Sum;
    }
  }

  // ---------------------------------------------------------------------
  // The size of the workspace
  // ---------------------------------------------------------------------

  datatype Config = Config(maxModelLen: nat, kpool: int, maxSeqs: int, maxTokens: int, specTokens: int)

  function StockEntries(c: Config): nat {
    c.maxModelLen * 40
  }

  function Ratio(c: Config): (r: nat)
    ensures r >= 1
  {
    if c.kpool > 1 then c.kpool else 1
  }

  function CeilDiv(a: int, d: nat): int
    requires d > 0
  {
    -((-a) / d)
  }

  function Span(c: Config): nat {
    c.maxModelLen + Max(0, c.specTokens)
  }

  function MaxRequests(c: Config): nat {
    Max(1, Min(c.maxSeqs, c.maxTokens))
  }

  function RightsizedEntries(c: Config): int {
    if Ratio(c) <= 1 then StockEntries(c)
    else Min(CeilDiv(Span(c), Ratio(c)) * MaxRequests(c), StockEntries(c))
  }

  /** A batch that the scheduler can form. */
  predicate Legal(c: Config, b: Batch) {
    && Shaped(b) && |b.lens| <= c.maxSeqs
    && (forall i :: 0 <= i < |b.lens| ==> b.queries[i] >= 1 && b.lens[i] <= Span(c) / Ratio(c))
    && Sum(b.queries, 0, |b.lens|) <= c.maxTokens
  }

  lemma {:induction false} SumBounds(xs: seq<nat>, j: nat, lo: nat, hi: nat)
    requires j <= |xs| && forall i :: 0 <= i < j ==> lo <= xs[i] <= hi
    ensures j * lo <= Sum(xs, 0, j) <= j * hi
  {
    if j > 0 {
      SumBounds(xs, j - 1, lo, hi);
      assert j * lo == (j - 1) * lo + lo;
      assert j * hi == (j - 1) * hi + hi;
    }
  }

  lemma FloorBelowCeil(a: int, d: nat)
    requires d > 0
    ensures a / d <= CeilDiv(a, d)
    ensures a % d == 0 ==> CeilDiv(a, d) == a / d
  {
    var q, r := a / d, a % d;
    var c := (-a) / d;
    assert a == q * d + r;
    assert -a == c * d + (-a) % d;
    assert (q + c) * d == q * d + c * d;
    if q + c > 0 {
      Products(1, d, q + c, d);
    }
    if q + c < 0 {
      Products(1, d, -(q + c), d);
    }
  }

  /** No legal batch has more entries than the right-sized workspace, unless that is the
      stock workspace. */
  lemma LegalFits(c: Config, b: Batch)
    requires Legal(c, b)
    ensures RightsizedEntries(c) == StockEntries(c) || Sum(b.lens, 0, |b.lens|) <= RightsizedEntries(c)
  {
    var n, per, most := |b.lens|, Span(c) / Ratio(c), CeilDiv(Span(c), Ratio(c));
    SumBounds(b.lens, n, 0, per);
    SumBounds(b.queries, n, 1, Sum(b.queries, 0, n) + MaxQuery(b.queries, n));
    FloorBelowCeil(Span(c), Ratio(c));
    Products(n, per, MaxRequests(c), most);
    hide Sum;
    assert n * per <= most * MaxRequests(c);
  }

  function MaxQuery(xs: seq<nat>, j: nat): (r: nat)
    requires j <= |xs|
    ensures forall i :: 0 <= i < j ==> xs[i] <= r
  {
    if j == 0 then 0 else Max(MaxQuery(xs, j - 1), xs[j - 1])
  }

  lemma {:induction false} SameTake(b: Batch, l1: Limits, l2: Limits, start: nat, end: nat)
    requires Shaped(b) && start <= end <= |b.lens| && l1.logits == l2.logits
    requires Sum(b.lens, 0, |b.lens|) <= l1.workspace && Sum(b.lens, 0, |b.lens|) <= l2.workspace
    ensures Take(b, l1, start, end) == Take(b, l2, start, end)
    decreases |b.lens| - end
  {
    if end < |b.lens| {
      SumSplits(b.lens, 0, start, end + 1);
      SumSplits(b.lens, 0, end + 1, |b.lens|);
      SameTake(b, l1, l2, start, end + 1);
    }
  }

  lemma {:induction false} SameChunks(b: Batch, l1: Limits, l2: Limits, start: nat)
    requires Shaped(b) && start <= |b.lens| && l1.logits == l2.logits
    requires Sum(b.lens, 0, |b.lens|) <= l1.workspace && Sum(b.lens, 0, |b.lens|) <= l2.workspace
    ensures Chunks(b, l1, start) == Chunks(b, l2, start)
    decreases |b.lens| - start
  {
    if start < |b.lens| {
      SameTake(b, l1, l2, start, start);
      SameChunks(b, l1, l2, GroupEnd(b, l1, start));
      hide Sum, Take, Slices;
    }
  }

  /** Right-sizing narrows the workspace and changes the chunks of no legal batch. */
  lemma RightsizingChangesNothing(c: Config, b: Batch, logits: nat)
    requires Legal(c, b)
    ensures RightsizedEntries(c) <= StockEntries(c)
    ensures Chunks(b, Limits(RightsizedEntries(c), logits), 0) == Chunks(b, Limits(StockEntries(c), logits), 0)
  {
    LegalFits(c, b);
    hide Legal, Sum, Chunks;
    if RightsizedEntries(c) != StockEntries(c) {
      SameChunks(b, Limits(RightsizedEntries(c), logits), Limits(StockEntries(c), logits), 0);
    }
  }

  /** And no smaller workspace would do: some legal batch is then cut differently, when
      requests come in whole compressed entries and more than one is allowed. */
  lemma RightsizedIsLeast(c: Config, w: int) returns (b: Batch, logits: nat)
    requires Span(c) > 0 && Span(c) % Ratio(c) == 0 && MaxRequests(c) > 1
    requires w < RightsizedEntries(c) < StockEntries(c)
    ensures Legal(c, b) && Chunks(b, Limits(w, logits), 0) != Chunks(b, Limits(StockEntries(c), logits), 0)
  {
    var n, per := MaxRequests(c), Span(c) / Ratio(c);
    b := Batch(seq(n, _ => 1), seq(n, _ => per));
    EvenBatch(c, b);
    logits := n * Sum(b.lens, 0, n);
    var small, stock := Limits(w, logits), Limits(StockEntries(c), logits);
    hide Sum, Legal, Chunks, GroupEnd, Ratio, CeilDiv, StockEntries, RightsizedEntries;
    assert Fits(b, stock, 0, n) && !Fits(b, small, 0, n);
    GroupIsLongest(b, stock, 0);
    GroupIsLongest(b, small, 0);
    FirstChunk(b, stock);
    FirstChunk(b, small);
  }

  /** As many of the longest requests as can be, with one query row each. */
  lemma EvenBatch(c: Config, b: Batch)
    requires Span(c) > 0 && Span(c) % Ratio(c) == 0 && MaxRequests(c) > 1 && RightsizedEntries(c) < StockEntries(c)
    requires b == Batch(seq(MaxRequests(c), _ => 1), seq(MaxRequests(c), _ => Span(c) / Ratio(c)))
    ensures Legal(c, b) && Sum(b.queries, 0, |b.lens|) == |b.lens| && Sum(b.lens, 0, |b.lens|) == RightsizedEntries(c)
  {
    var n, per := MaxRequests(c), Span(c) / Ratio(c);
    WholeEntries(c);
    hide Sum, CeilDiv, Span, Ratio, MaxRequests, RightsizedEntries, StockEntries;
    SumBounds(b.queries, n, 1, 1);
    SumBounds(b.lens, n, per, per);
  }

  lemma WholeEntries(c: Config)
    requires Span(c) % Ratio(c) == 0 && MaxRequests(c) > 1 && RightsizedEntries(c) < StockEntries(c)
    ensures RightsizedEntries(c) == MaxRequests(c) * (Span(c) / Ratio(c))
    ensures MaxRequests(c) <= c.maxSeqs && MaxRequests(c) <= c.maxTokens
  {
    FloorBelowCeil(Span(c), Ratio(c));
    hide CeilDiv, Span;
  }

  lemma FirstChunk(b: Batch, l: Limits)
    requires Shaped(b) && |b.lens| > 0 && forall i :: 0 <= i < |b.lens| ==> b.queries[i] >= 1
    ensures Chunks(b, l, 0) != [] && Chunks(b, l, 0)[0].last == GroupEnd(b, l, 0)
  {
    var end := GroupEnd(b, l, 0);
    SumBounds(b.queries, end, 1, MaxQuery(b.queries, end));
  }
}

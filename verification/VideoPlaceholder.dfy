/**
 The placeholder tokens of a video, one block of embeddings for each group of frames
 that the encoder yields.
 */
module VideoPlaceholder {
  import opened Seqs
  import opened Arithmetic

  /** `p / q`, rounded to the nearest integer and to the even one of two. */
  function RoundHalfEven(p: nat, q: nat): nat
    requires q > 0
  {
    var d, r := p / q, p % q;
    if 2 * r < q || (2 * r == q && d % 2 == 0) then d else d + 1
  }

  lemma RoundIsNearest(p: nat, q: nat)
    requires q > 0
    ensures var r := RoundHalfEven(p, q); 2 * p - q <= 2 * (q * r) <= 2 * p + q
    ensures var r := RoundHalfEven(p, q); 2 * (q * r) in {2 * p - q, 2 * p + q} ==> r % 2 == 0
  {
    var d := p / q;
    assert p == q * d + p % q;
    assert q * (d + 1) == q * d + q;
  }

  /** As many timestamps as groups: padded with the last, or picked evenly. */
  function AlignTimestamps<T>(ts: seq<T>, groups: int, zero: T): seq<T> {
    var t: nat := Max(groups, 1);
    var n := |ts|;
    if n == 0 then seq(t, _ => zero)
    else if n == t then ts
    else if t == 1 then [ts[0]]
    else if n < t then ts + seq(t - n, _ => ts[n - 1])
    else seq(t, i requires 0 <= i < t => PickInRange(n, t, i); ts[Pick(n, t, i)])
  }

  /** Which of `n` timestamps stands for group `i` of `t`. */
  function Pick(n: nat, t: nat, i: nat): nat
    requires n >= 1 && t > 1
  {
    RoundHalfEven(i * (n - 1), t - 1)
  }

  lemma PickInRange(n: nat, t: nat, i: nat)
    requires 2 <= t < n && i < t
    ensures Pick(n, t, i) < n
  {
    var q, last := t - 1, n - 1;
    var a, x := Pick(n, t, i), i * last;
    RoundIsNearest(x, q);
    MulOrder(i, q, last);
    hide *;
    RoundsBelow(q, a, last, x);
  }

  lemma RoundsBelow(q: nat, a: nat, last: nat, x: nat)
    requires q > 0 && 2 * (q * a) <= 2 * x + q && x <= q * last
    ensures a <= last
  {
    Cancel(q, a, last);
  }

  /** There are as many timestamps as groups, at least one. Of as many or fewer all are kept,
      the last one repeated; of none there is the given one; for one group the first. When
      there were more, and two groups or more, the first and the last are kept and the picks
      between them strictly increase, each the nearest to an even spacing. */
  lemma AlignedTimestamps<T>(ts: seq<T>, groups: int, zero: T)
    ensures |AlignTimestamps(ts, groups, zero)| == Max(groups, 1)
    ensures forall i :: 0 <= i < Max(groups, 1) && (|ts| <= groups || groups <= 1) ==>
              AlignTimestamps(ts, groups, zero)[i] == if ts == [] then zero else ts[Min(i, |ts| - 1)]
    ensures 2 <= groups < |ts| ==>
              var n, r := |ts|, AlignTimestamps(ts, groups, zero);
              && Pick(n, groups, 0) == 0 && Pick(n, groups, groups - 1) == n - 1
              && (forall i :: 0 <= i < groups ==> Pick(n, groups, i) < n && r[i] == ts[Pick(n, groups, i)])
              && (forall i, j :: 0 <= i < j < groups ==> Pick(n, groups, i) < Pick(n, groups, j))
  {
    if 2 <= groups < |ts| {
      var n := |ts|;
      Ends(n, groups);
      forall i | 0 <= i < groups ensures Pick(n, groups, i) < n {
        PickInRange(n, groups, i);
      }
      forall i, j | 0 <= i < j < groups ensures Pick(n, groups, i) < Pick(n, groups, j) {
        PicksIncrease(n, groups, i, j);
      }
      hide Pick;
    }
  }

  lemma Ends(n: nat, t: nat)
    requires 2 <= t < n
    ensures Pick(n, t, 0) == 0 && Pick(n, t, t - 1) == n - 1
  {
    var q, last := t - 1, n - 1;
    assert q * last == last * q;
    Exact(0, q);
    Exact(last, q);
  }

  lemma Exact(d: nat, q: nat)
    requires q > 0
    ensures RoundHalfEven(d * q, q) == d
  {
    RoundIsNearest(d * q, q);
    assert d * q == q * d;
    var r := RoundHalfEven(d * q, q);
    hide *;
    Cancel(q, r, d);
    Cancel(q, d, r);
  }

  lemma PicksIncrease(n: nat, t: nat, i: nat, j: nat)
    requires 2 <= t < n && i < j < t
    ensures Pick(n, t, i) < Pick(n, t, j)
  {
    hide *;
    var q, last := t - 1, n - 1;
    PickIsNearest(n, t, i);
    PickIsNearest(n, t, j);
    Spread(i, j, last);
    RoundsApart(q, Pick(n, t, i), Pick(n, t, j), i * last, j * last);
  }

  lemma PickIsNearest(n: nat, t: nat, i: nat)
    requires n >= 1 && t > 1
    ensures var x, q, a := i * (n - 1), t - 1, Pick(n, t, i);
            2 * x - q <= 2 * (q * a) <= 2 * x + q
  {
    RoundIsNearest(i * (n - 1), t - 1);
    hide RoundHalfEven;
  }

  lemma Spread(i: nat, j: nat, last: nat)
    requires i < j
    ensures i * last + last <= j * last
  {
    MulOrder(i + 1, j, last);
    assert (i + 1) * last == i * last + last;
  }

  /** Numbers more than `q` apart are not rounded to the same multiple of `q`. */
  lemma RoundsApart(q: nat, a: nat, b: nat, x: nat, y: nat)
    requires 2 * (q * a) <= 2 * x + q && 2 * y - q <= 2 * (q * b) && x + q < y
    ensures a < b
  {
    assert q * (a + 1) == q * a + q;
    Cancel(q, a + 1, b);
  }

  // ---------------------------------------------------------------------
  // The placeholder
  // ---------------------------------------------------------------------

  type Token = nat

  /** The special tokens, and the tokens of a timestamp's text. */
  datatype Vocabulary<!T> = Vocabulary(videoStart: Token, videoEnd: Token, imageStart: Token, imageEnd: Token,
      embed: Token,
                                       text: T -> seq<Token>)

  function Count(s: seq<Token>, x: Token): nat {
    multiset(s)[x]
  }

  /** The embedding token stands for embeddings only. */
  ghost predicate Distinct<T(!new)>(v: Vocabulary<T>) {
    && v.embed !in {v.videoStart, v.videoEnd, v.imageStart, v.imageEnd}
    && forall t :: v.embed !in v.text(t)
  }

  function PerGroup(height: nat, width: nat, mergeSize: nat): nat
    requires mergeSize > 0
  {
    height * width / (mergeSize * mergeSize)
  }

  /** The tokens of the video: as many embeddings as the encoder yields, in as many
      blocks as it has groups. */
  method ConstructVideoPlaceholder<T(!new)>(v: Vocabulary<T>, ts: seq<T>, zero: T, groups: int, height: nat,
      width: nat, mergeSize: nat) returns (p: seq<Token>)
    requires mergeSize > 0 && Distinct(v)
    ensures Count(p, v.embed) == Max(groups, 1) * PerGroup(height, width, mergeSize)
    ensures p == [v.videoStart] + Blocks(v, AlignTimestamps(ts, groups, zero), PerGroup(height, width, mergeSize)) +
          [v.videoEnd]
  {
    hide AlignTimestamps, Distinct, Blocks, Block, Count, PerGroup;
    var n := PerGroup(height, width, mergeSize);
    var aligned := AlignTimestamps(ts, groups, zero);
    AlignedTimestamps(ts, groups, zero);
    p := [v.videoStart];
    NoBlocks(v, aligned, n);
    for i := 0 to |aligned|
      invariant p == [v.videoStart] + Blocks(v, aligned[..i], n)
    {
      ghost var was := p;
      p := p + [v.imageStart];
      p := p + seq(n, _ => v.embed);
      p := p + [v.imageEnd];
      p := p + v.text(aligned[i]);
      NextBlock(v, aligned, n, i, was, p);
    }
    assert aligned[..|aligned|] == aligned;
    p := p + [v.videoEnd];
    BlocksCount(v, aligned, n);
    EndsCount(v, Blocks(v, aligned, n));
  }

  lemma NoBlocks<T>(v: Vocabulary<T>, ts: seq<T>, n: nat)
    ensures [v.videoStart] == [v.videoStart] + Blocks(v, ts[..0], n)
  {
  }

  lemma NextBlock<T>(v: Vocabulary<T>, ts: seq<T>, n: nat, i: nat, was: seq<Token>, p: seq<Token>)
    requires i < |ts| && was == [v.videoStart] + Blocks(v, ts[..i], n)
    requires p == was + [v.imageStart] + seq(n, _ => v.embed) + [v.imageEnd] + v.text(ts[i])
    ensures p == [v.videoStart] + Blocks(v, ts[..i + 1], n)
  {
    assert ts[..i + 1][..i] == ts[..i];
    assert Blocks(v, ts[..i + 1], n) == Blocks(v, ts[..i], n) + Block(v, ts[i], n);
    hide Blocks;
    assert p == was + Block(v, ts[i], n);
  }

  lemma EndsCount<T(!new)>(v: Vocabulary<T>, blocks: seq<Token>)
    requires Distinct(v)
    ensures Count([v.videoStart] + blocks + [v.videoEnd], v.embed) == Count(blocks, v.embed)
  {
  }

  function Block<T>(v: Vocabulary<T>, t: T, n: nat): seq<Token> {
    [v.imageStart] + seq(n, _ => v.embed) + [v.imageEnd] + v.text(t)
  }

  function Blocks<T>(v: Vocabulary<T>, ts: seq<T>, n: nat): seq<Token> {
    if ts == [] then []
    else
      Blocks(v, ts[..|ts| - 1], n) + Block(v, ts[|ts| - 1], n)
  }

  lemma {:induction false} Copies(n: nat, x: Token)
    ensures Count(seq(n, _ => x), x) == n
  {
    if n > 0 {
      Copies(n - 1, x);
      assert seq(n, _ => x) == seq(n - 1, _ => x) + [x];
    }
  }

  lemma {:induction false} BlocksCount<T(!new)>(v: Vocabulary<T>, ts: seq<T>, n: nat)
    requires Distinct(v)
    ensures Count(Blocks(v, ts, n), v.embed) == |ts| * n
  {
    if ts != [] {
      hide Count, Block, Distinct;
      var k := |ts| - 1;
      BlocksCount(v, ts[..k], n);
      OneBlock(v, ts[k], n);
      CountConcat(Blocks(v, ts[..k], n), Block(v, ts[k], n), v.embed);
      Next(k, n);
    }
  }

  lemma Next(k: nat, n: nat)
    ensures (k + 1) * n == k * n + n
  {
  }

  lemma CountConcat(s: seq<Token>, t: seq<Token>, x: Token)
    ensures Count(s + t, x) == Count(s, x) + Count(t, x)
  {
  }

  lemma OneBlock<T(!new)>(v: Vocabulary<T>, t: T, n: nat)
    requires Distinct(v)
    ensures Count(Block(v, t, n), v.embed) == n
  {
    Copies(n, v.embed);
    assert v.embed !in v.text(t);
  }
}

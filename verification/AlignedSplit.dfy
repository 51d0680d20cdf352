/**
 Block-aligned chunked prefill, for models whose recurrent state is cached at block
 boundaries only.
 */
module AlignedSplit {
  import opened Seqs
  import opened Arithmetic

  /** What one prefill is about: its tokens are fixed until it ends. */
  datatype Prefill = Prefill(prompt: nat, tokens: nat, blockSize: nat, eagle: bool, maxModelLen: nat)

  predicate Sound(p: Prefill) {
    p.blockSize > 0 && p.prompt <= p.tokens
  }

  /** The last boundary at which the state has to be cached. */
  function LastCachePosition(p: Prefill): nat
    requires Sound(p)
  {
    var aligned := p.tokens - p.tokens % p.blockSize;
    if p.eagle then Max(aligned - p.blockSize, 0) else aligned
  }

  function Split(p: Prefill, computed: nat, n: int, common: nat): int
    requires Sound(p)
  {
    if computed < Max(p.prompt, p.tokens - 1) then
      var last := LastCachePosition(p);
      var cut :=
        if computed + n < last then n / p.blockSize * p.blockSize
        else if computed < last < computed + n then last - computed
        else n;
      if common >= p.blockSize && cut > common then common / p.blockSize * p.blockSize else cut
    else n
  }

  // ---------------------------------------------------------------------
  // One split
  // ---------------------------------------------------------------------

  /** A position whose state is cached, or from which on none needs to be. */
  predicate OnTrack(p: Prefill, at: nat)
    requires Sound(p)
  {
    at % p.blockSize == 0 || at >= LastCachePosition(p)
  }

  /** A chunk that ends on track and does not jump over the last cache position. */
  predicate Good(p: Prefill, computed: nat, m: nat)
    requires Sound(p)
  {
    OnTrack(p, computed + m) && !(computed < LastCachePosition(p) < computed + m)
  }

  lemma LastIsAligned(p: Prefill)
    requires Sound(p)
    ensures LastCachePosition(p) % p.blockSize == 0 && LastCachePosition(p) <= p.tokens
  {
    var d := p.blockSize;
    var q := p.tokens / d;
    assert p.tokens - p.tokens % d == q * d;
    MultipleMod(q, d);
    if q > 0 {
      MultipleMod(q - 1, d);
      assert q * d - d == (q - 1) * d;
    }
  }

  /** Two aligned positions differ by whole blocks, so a chunk of whole blocks keeps
      the alignment, and nothing shorter than a block does. */
  lemma AlignedStep(at: nat, m: nat, d: nat)
    requires d > 0 && at % d == 0
    ensures (at + m) % d == 0 <==> m % d == 0
  {
    var q := at / d;
    var k, r := m / d, m % d;
    assert at == q * d;
    assert (q + k) * d == q * d + k * d;
    DivModUnique(at + m, q + k, d, r);
  }

  lemma FloorIsGreatest(n: nat, d: nat)
    requires d > 0
    ensures 0 <= n / d * d <= n && (n / d * d) % d == 0 && (n >= d ==> n / d * d >= d)
    ensures forall m :: n / d * d < m <= n ==> m % d != 0
  {
    var q := n / d;
    MultipleMod(q, d);
    assert n == q * d + n % d;
    forall m | q * d < m <= n ensures m % d != 0 {
      DivModUnique(m, q, d, m - q * d);
    }
    if n >= d {
      assert q >= 1 by {
        if q < 1 {
          DivModUnique(n, 0, d, n);
        }
      }
      assert (q - 1) * d >= 0;
      assert (q - 1) * d == q * d - d;
    }
  }

  /** Without a common prefix to cache, a split is the longest good chunk that fits: of
      all chunks of at most `n` tokens it is good, and no longer one is. */
  lemma SplitIsLongest(p: Prefill, computed: nat, n: nat)
    requires Sound(p) && OnTrack(p, computed) && n <= p.tokens - computed
    ensures var r := Split(p, computed, n, 0);
            && 0 <= r <= n && Good(p, computed, r)
            && forall m :: r < m <= n ==> !Good(p, computed, m)
  {
    LastIsAligned(p);
    var d, last := p.blockSize, LastCachePosition(p);
    if computed < Max(p.prompt, p.tokens - 1) && computed < last {
      if computed + n < last {
        FloorIsGreatest(n, d);
        AlignedStep(computed, n / d * d, d);
        forall m | n / d * d < m <= n ensures !Good(p, computed, m) {
          AlignedStep(computed, m, d);
        }
      } else {
        assert computed + (last - computed) == last;
      }
    }
  }

  /** The last cache position: the end of the last whole block, and where the last matching
      block is pruned, the one before. */
  lemma LastCachePositionIs(p: Prefill)
    requires Sound(p)
    ensures var last, d := LastCachePosition(p), p.blockSize;
            && last % d == 0 && last <= p.tokens
            && (!p.eagle ==> forall m :: last < m <= p.tokens ==> m % d != 0)
            && (p.eagle && p.tokens < d ==> last == 0)
            && (p.eagle && d <= p.tokens ==>
                  last + d <= p.tokens && forall m :: last + d < m <= p.tokens ==> m % d != 0)
  {
    LastIsAligned(p);
    FloorIsGreatest(p.tokens, p.blockSize);
    assert p.tokens == p.tokens / p.blockSize * p.blockSize + p.tokens % p.blockSize;
    if p.tokens < p.blockSize {
      DivModUnique(p.tokens, 0, p.blockSize, p.tokens);
    }
  }

  /** A common prefix worth caching makes the chunk shorter: it is then the longest one of
      whole blocks within that prefix. */
  lemma SplitIsGood(p: Prefill, computed: nat, n: nat, common: nat)
    requires Sound(p) && OnTrack(p, computed) && n <= p.tokens - computed
    ensures var r := Split(p, computed, n, common);
            && 0 <= r <= n && Good(p, computed, r)
            && var alone := Split(p, computed, n, 0);
               if computed < Max(p.prompt, p.tokens - 1) && p.blockSize <= common < alone then
                 && p.blockSize <= r <= common && r % p.blockSize == 0
                 && forall m :: r < m <= common ==> m % p.blockSize != 0
               else r == alone
  {
    SplitIsLongest(p, computed, n);
    FloorIsGreatest(common, p.blockSize);
    if Split(p, computed, n, common) != Split(p, computed, n, 0) && computed < LastCachePosition(p) {
      AlignedStep(computed, common / p.blockSize * p.blockSize, p.blockSize);
    }
  }

  /** The last token of a request, padded for `drafts` tokens to be verified with it: the
      split leaves the padded row whole exactly when it is no prefill, or neither the end
      of the prompt is a boundary to be cached nor a common prefix ends inside the row. */
  lemma PaddedRowIff(p: Prefill, drafts: nat, common: nat)
    requires Sound(p) && p.tokens > 0 && drafts > 0
    ensures Split(p, p.tokens - 1, 1 + drafts, common) == 1 + drafts
       <==> || p.prompt < p.tokens
            || ((p.eagle || p.tokens % p.blockSize != 0) && !(p.blockSize <= common < 1 + drafts))
  {
    LastIsAligned(p);
    FloorIsGreatest(common, p.blockSize);
    hide OnTrack, Good;
  }

  /** So from an aligned position, with blocks of more than one token, it is left whole. */
  lemma AlignedPaddingIsKept(p: Prefill, drafts: nat)
    requires Sound(p) && p.tokens > 0 && drafts > 0 && p.blockSize > 1 && (p.tokens - 1) % p.blockSize == 0
    ensures Split(p, p.tokens - 1, 1 + drafts, 0) == 1 + drafts
  {
    AlignedStep(p.tokens - 1, 1, p.blockSize);
    DivModUnique(1, 0, p.blockSize, 1);
    PaddedRowIff(p, drafts, 0);
    hide Split;
  }

  // ---------------------------------------------------------------------
  // A prefill over many steps
  // ---------------------------------------------------------------------

  /** What a step has for the request: the least of its budget and threshold, the
      common prefix found, and whether the request is already running. */
  datatype Offer = Offer(limit: nat, common: nat, running: bool)

  /** The tokens asked for: only a running request is kept below the model length. */
  function Asked(p: Prefill, computed: nat, o: Offer): int {
    var n := Min(p.tokens - computed, o.limit);
    if o.running then Min(n, p.maxModelLen - computed - 1) else n
  }

  predicate Fits(p: Prefill) {
    Sound(p) && p.tokens <= p.maxModelLen
  }

  function Next(p: Prefill, computed: nat, o: Offer): (r: nat)
    requires Fits(p) && OnTrack(p, computed) && computed <= p.tokens
    ensures computed <= r <= p.tokens && OnTrack(p, r)
    ensures computed < LastCachePosition(p) ==> r <= LastCachePosition(p)
  {
    if computed == p.tokens then computed
    else
      SplitIsGood(p, computed, Asked(p, computed, o), o.common);
      computed + Split(p, computed, Asked(p, computed, o), o.common)
  }

  /** The ends of all chunks. */
  function Ends(p: Prefill, computed: nat, offers: seq<Offer>): (s: seq<nat>)
    requires Fits(p) && OnTrack(p, computed) && computed <= p.tokens
    ensures |s| == |offers|
    decreases |offers|
  {
    if offers == [] then []
    else
      var at := Next(p, computed, offers[0]);
      [at] + Ends(p, at, offers[1..])
  }

  function Reached(p: Prefill, computed: nat, offers: seq<Offer>): (r: nat)
    requires Fits(p) && OnTrack(p, computed) && computed <= p.tokens
    ensures computed <= r <= p.tokens
    decreases |offers|
  {
    if offers == [] then computed
    else
      Reached(p, Next(p, computed, offers[0]), offers[1..])
  }

  /** However the steps turn out, no chunk ends off track, and a prefill that gets to
      the last cache position stops exactly there, so that state is cached. */
  lemma {:induction false} PrefillStaysOnTrack(p: Prefill, computed: nat, offers: seq<Offer>)
    requires Fits(p) && OnTrack(p, computed) && computed <= p.tokens
    ensures forall e :: e in Ends(p, computed, offers) ==>
          OnTrack(p, e) && computed <= e <= Reached(p, computed, offers)
    ensures computed < LastCachePosition(p) <= Reached(p, computed, offers) ==>
          LastCachePosition(p) in Ends(p, computed, offers)
    decreases |offers|
  {
    hide OnTrack, LastCachePosition, Next;
    if offers != [] {
      PrefillStaysOnTrack(p, Next(p, computed, offers[0]), offers[1..]);
    }
  }

  /** Given a block of tokens to spend, a chunk is a block at least, or all that is left. */
  lemma NextIsLong(p: Prefill, computed: nat, o: Offer)
    requires Fits(p) && OnTrack(p, computed) && computed < p.tokens < p.maxModelLen && p.blockSize <= o.limit
    ensures Next(p, computed, o) == p.tokens || Next(p, computed, o) >= computed + p.blockSize
  {
    var n := Asked(p, computed, o);
    var d, last := p.blockSize, LastCachePosition(p);
    LastIsAligned(p);
    SplitIsGood(p, computed, n, o.common);
    if computed + n < last {
      FloorIsGreatest(n, d);
    } else if computed < last < computed + n {
      AlignedStep(computed, last - computed, d);
      WholeBlock(last - computed, d);
    }
  }

  lemma WholeBlock(m: nat, d: nat)
    requires 0 < d && 0 < m && m % d == 0
    ensures m >= d
  {
    if m < d {
      DivModUnique(m, 0, d, m);
    }
  }

  /** With a block to spend in each step, a prefill ends, in no more steps than it has
      blocks left: exactly when its tokens leave room below the model length. */
  lemma {:induction false} PrefillEndsIff(p: Prefill, computed: nat, offers: seq<Offer>)
    requires Fits(p) && OnTrack(p, computed) && computed < p.tokens
    requires forall o :: o in offers ==> o.running && p.blockSize <= o.limit
    requires p.tokens - computed <= |offers| * p.blockSize
    ensures Reached(p, computed, offers) == p.tokens <==> p.tokens < p.maxModelLen
  {
    if p.tokens < p.maxModelLen {
      PrefillEnds(p, computed, offers);
    } else {
      NeverEnds(p, computed, offers);
    }
  }

  lemma {:induction false} PrefillEnds(p: Prefill, computed: nat, offers: seq<Offer>)
    requires Fits(p) && OnTrack(p, computed) && computed <= p.tokens < p.maxModelLen
    requires forall o :: o in offers ==> p.blockSize <= o.limit
    requires p.tokens - computed <= |offers| * p.blockSize
    ensures Reached(p, computed, offers) == p.tokens
    decreases |offers|
  {
    hide OnTrack, LastCachePosition, Next, Asked;
    if offers != [] {
      var at := Next(p, computed, offers[0]);
      OneLess(|offers|, p.blockSize);
      if computed < p.tokens {
        NextIsLong(p, computed, offers[0]);
      }
      PrefillEnds(p, at, offers[1..]);
    }
  }

  lemma OneLess(n: nat, d: nat)
    requires n > 0
    ensures n * d == (n - 1) * d + d && (n - 1) * d >= 0
  {
  }

  lemma NextIsBelow(p: Prefill, computed: nat, o: Offer)
    requires Fits(p) && OnTrack(p, computed) && computed < p.tokens == p.maxModelLen && o.running
    ensures Next(p, computed, o) < p.tokens
  {
    hide OnTrack, LastCachePosition, Split;
    SplitIsGood(p, computed, Asked(p, computed, o), o.common);
  }

  lemma {:induction false} NeverEnds(p: Prefill, computed: nat, offers: seq<Offer>)
    requires Fits(p) && OnTrack(p, computed) && computed < p.tokens == p.maxModelLen
    requires forall o :: o in offers ==> o.running
    ensures Reached(p, computed, offers) < p.tokens
    decreases |offers|
  {
    hide OnTrack, LastCachePosition, Next, Split, Asked;
    if offers != [] {
      NextIsBelow(p, computed, offers[0]);
      NeverEnds(p, Next(p, computed, offers[0]), offers[1..]);
    }
  }
}

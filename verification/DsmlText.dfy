/**
 First occurrences of a pattern in a text, and the reader built on them: read up to
 the nearest of several stop strings.
 */
module DsmlText {
  import opened Options

  /** `pat` stands in `text` at position `p`. */
  predicate At(text: string, p: int, pat: string) {
    0 <= p && p + |pat| <= |text| && text[p..p + |pat|] == pat
  }

  ghost predicate Free(text: string, pat: string) {
    forall p :: !At(text, p, pat)
  }

  /** The first position of `pat` at or after `from`, or -1. */
  function Find(text: string, pat: string, from: nat): (r: int)
    ensures r == -1 || (from <= r && At(text, r, pat))
    ensures forall p :: from <= p && (r == -1 || p < r) ==> !At(text, p, pat)
    decreases |text| - from
  {
    if from + |pat| > |text| then -1
    else if At(text, from, pat) then from
    else Find(text, pat, from + 1)
  }

  /** What was read: the text before the stop, the stop, and the text after it. */
  datatype Read = Read(content: string, stop: Option<string>, rest: string)

  datatype Hit = Hit(pos: nat, stop: Option<string>)

  /** Over the stops in order, a strictly earlier position replaces the best one. */
  function Nearest(text: string, stops: seq<string>, best: Hit): (h: Hit)
    requires best.pos <= |text| && (best.stop.Some? ==> At(text, best.pos, best.stop.value))
    ensures h.pos <= |text| && (h.stop.Some? ==> At(text, h.pos, h.stop.value))
    decreases stops
  {
    if stops == [] then best
    else
      var p := Find(text, stops[0], 0);
      Nearest(text, stops[1..], if p != -1 && p < best.pos then Hit(p, Some(stops[0])) else best)
  }

  function ReadUntil(text: string, stops: seq<string>): (r: Read)
    ensures r.stop.Some? ==> text == r.content + r.stop.value + r.rest
    ensures r.stop.None? ==> r.content == text && r.rest == ""
  {
    var h := Nearest(text, stops, Hit(|text|, None));
    match h.stop
    case Some(s) => Read(text[..h.pos], Some(s), text[h.pos + |s|..])
    case None => Read(text, None, "")
  }

  /** No stop stands before `p`, and only `s` may stand at `p`. */
  ghost predicate FirstAt(text: string, stops: seq<string>, p: int, s: string) {
    forall k :: 0 <= k < |stops| ==>
      && (forall q :: q < p ==> !At(text, q, stops[k]))
      && (At(text, p, stops[k]) ==> stops[k] == s)
  }

  lemma {:induction false} NearestIs(text: string, stops: seq<string>, best: Hit, p: nat, s: string)
    requires best.pos <= |text| && (best.stop.Some? ==> At(text, best.pos, best.stop.value))
    requires At(text, p, s) && FirstAt(text, stops, p, s)
    requires best == Hit(p, Some(s)) || (p < best.pos && s in stops)
    ensures Nearest(text, stops, best) == Hit(p, Some(s))
    decreases stops
  {
    if stops != [] {
      var f := Find(text, stops[0], 0);
      var next := if f != -1 && f < best.pos then Hit(f, Some(stops[0])) else best;
      assert forall q :: q < p ==> !At(text, q, stops[0]);
      if stops[0] == s {
        assert f == p;
      } else {
        assert f != p;
      }
      assert FirstAt(text, stops[1..], p, s) by {
        forall k | 0 <= k < |stops[1..]|
          ensures (forall q :: q < p ==> !At(text, q, stops[1..][k])) &&
                (At(text, p, stops[1..][k]) ==> stops[1..][k] == s)
        {
          assert stops[1..][k] == stops[k + 1];
        }
      }
      NearestIs(text, stops[1..], next, p, s);
    }
  }

  /** The stop found is one of those asked for, and none of them stands before it. */
  lemma {:induction false} NearestStop(text: string, stops: seq<string>, best: Hit)
    requires best.pos <= |text| && (best.stop.Some? ==> At(text, best.pos, best.stop.value))
    ensures var h := Nearest(text, stops, best);
            && h.pos <= best.pos && (h.stop.Some? ==> best.stop == h.stop || h.stop.value in stops)
            && (h.stop.None? ==> h == best)
            && forall k, q :: 0 <= k < |stops| && 0 <= q < h.pos ==> !At(text, q, stops[k])
    decreases stops
  {
    if stops != [] {
      var p := Find(text, stops[0], 0);
      var next := if p != -1 && p < best.pos then Hit(p, Some(stops[0])) else best;
      NearestStop(text, stops[1..], next);
      assert forall k :: 1 <= k < |stops| ==> stops[k] == stops[1..][k - 1];
    }
  }

  /** The reader stops at the first stop and nowhere else. */
  lemma ReadUntilIs(x: string, s: string, r: string, stops: seq<string>)
    requires s in stops && s != "" && FirstAt(x + s + r, stops, |x|, s)
    ensures ReadUntil(x + s + r, stops) == Read(x, Some(s), r)
  {
    var text := x + s + r;
    assert text[|x|..|x| + |s|] == s;
    NearestIs(text, stops, Hit(|text|, None), |x|, s);
    assert text[..|x|] == x && text[|x| + |s|..] == r;
  }

  lemma {:induction false} NearestNone(text: string, stops: seq<string>)
    requires forall k :: 0 <= k < |stops| ==> Free(text, stops[k])
    ensures Nearest(text, stops, Hit(|text|, None)) == Hit(|text|, None)
    decreases stops
  {
    if stops != [] {
      assert Free(text, stops[0]);
      assert forall k :: 0 <= k < |stops[1..]| ==> stops[1..][k] == stops[k + 1];
      NearestNone(text, stops[1..]);
    }
  }

  /** Without a stop everything is read. */
  lemma ReadUntilNone(text: string, stops: seq<string>)
    requires forall k :: 0 <= k < |stops| ==> Free(text, stops[k])
    ensures ReadUntil(text, stops) == Read(text, None, "")
  {
    NearestNone(text, stops);
  }

  // ---------------------------------------------------------------------
  // Occurrences across the pieces of a text
  // ---------------------------------------------------------------------

  lemma AtChar(text: string, p: int, pat: string, k: int)
    requires At(text, p, pat) && p <= k < p + |pat|
    ensures text[k] == pat[k - p]
  {
    assert text[p..p + |pat|][k - p] == text[k];
  }

  lemma AtMismatch(text: string, p: int, pat: string, k: int)
    requires p <= k < p + |pat| && 0 <= k < |text| && text[k] != pat[k - p]
    ensures !At(text, p, pat)
  {
    if At(text, p, pat) {
      AtChar(text, p, pat, k);
    }
  }

  /** Inside the first piece. */
  lemma AtLeft(x: string, y: string, p: int, pat: string)
    requires p + |pat| <= |x|
    ensures At(x + y, p, pat) <==> At(x, p, pat)
  {
    if 0 <= p {
      assert (x + y)[p..p + |pat|] == x[p..p + |pat|];
    }
  }

  /** Inside the second piece. */
  lemma AtRight(x: string, y: string, p: int, pat: string)
    requires |x| <= p
    ensures At(x + y, p, pat) <==> At(y, p - |x|, pat)
  {
    if p + |pat| <= |x + y| {
      assert (x + y)[p..p + |pat|] == y[p - |x|..p - |x| + |pat|];
    }
  }

  ghost predicate NoneIn(s: string, pat: string) {
    forall k :: 0 <= k < |s| ==> s[k] !in pat
  }

  /** A piece free of the pattern followed by characters foreign to it has no
      occurrence that starts before those characters end. */
  lemma NoEarly(x: string, sep: string, y: string, pat: string, q: int)
    requires Free(x, pat) && NoneIn(sep, pat) && sep != "" && pat != "" && q < |x| + |sep|
    ensures !At(x + sep + y, q, pat)
  {
    var text := x + sep + y;
    if q + |pat| <= |x| {
      assert text == x + (sep + y);
      AtLeft(x, sep + y, q, pat);
    } else {
      var k := if q < |x| then |x| else q;
      assert text[k] == sep[k - |x|];
      AtMismatch(text, q, pat, k);
    }
  }

  lemma FreeAround(x: string, sep: string, y: string, pat: string)
    requires Free(x, pat) && Free(y, pat) && NoneIn(sep, pat) && sep != "" && pat != ""
    ensures Free(x + sep + y, pat)
  {
    forall q ensures !At(x + sep + y, q, pat) {
      if q < |x| + |sep| {
        NoEarly(x, sep, y, pat, q);
      } else {
        AtRight(x + sep, y, q, pat);
      }
    }
  }

  lemma Thirds(a: string, b: string, c: string)
    ensures (a + b + c)[..|a|] == a
    ensures (a + b + c)[|a|..|a| + |b|] == b
    ensures (a + b + c)[|a| + |b|..] == c
  {
  }

  lemma Within(text: string, q: nat, s: string, i: nat, j: nat)
    requires At(text, q, s) && i <= j <= |s|
    ensures text[q + i..q + j] == s[i..j]
  {
    forall k | i <= k < j ensures text[q + k] == s[k] {
      AtChar(text, q, s, q + k);
    }
    assert text[q + i..q + j] == s[i..j];
  }

  /** A stop made of a prefix, a token and a suffix carries the token with it. */
  lemma TokenInside(text: string, q: int, pre: string, token: string, post: string)
    requires At(text, q, pre + token + post)
    ensures At(text, q + |pre|, token) && At(text, q, pre)
    ensures At(text, q + |pre| + |token|, post)
  {
    var s := pre + token + post;
    Thirds(pre, token, post);
    Within(text, q, s, 0, |pre|);
    Within(text, q, s, |pre|, |pre| + |token|);
    Within(text, q, s, |pre| + |token|, |s|);
  }
}

/**
 Parsing a printed assistant message gives the message back.
 */
module DsmlRoundTrip {
  import opened Options
  import opened DsmlText
  import opened DsmlCodec

  // ---------------------------------------------------------------------
  // What the pieces of a message must not contain
  // ---------------------------------------------------------------------

  ghost predicate NameOk(name: string) {
    Free(name, PARAMETER) && Free(name, END_INVOKE)
  }

  ghost predicate KeyOk(key: string) {
    Free(key, END_PARAMETER) && Free(key, TRUE_FLAG) && Free(key, FALSE_FLAG)
  }

  ghost predicate ArgumentOk(d: Dumps, a: Argument) {
    KeyOk(a.key) && Free(Inline(d, a.value), END_PARAMETER)
  }

  ghost predicate CallOk(d: Dumps, c: Call) {
    && NameOk(c.name)
    && (forall k :: 0 <= k < |c.arguments| ==> ArgumentOk(d, c.arguments[k]))
    && (forall i, j :: 0 <= i < j < |c.arguments| ==> c.arguments[i].key != c.arguments[j].key)
  }

  ghost predicate CallsOk(d: Dumps, calls: seq<Call>) {
    forall k :: 0 <= k < |calls| ==> CallOk(d, calls[k])
  }

  // ---------------------------------------------------------------------
  // Small facts about occurrences
  // ---------------------------------------------------------------------

  /** A stop whose other characters are not `c` cannot reach across a `c`. */
  lemma NoCross(x: string, c: char, y: string, pat: string, q: int)
    requires Free(x, pat) && pat != "" && c !in pat[1..] && q < |x|
    ensures !At(x + [c] + y, q, pat)
  {
    var text := x + [c] + y;
    if q + |pat| <= |x| {
      assert text == x + ([c] + y);
      AtLeft(x, [c] + y, q, pat);
    } else {
      assert text[|x|] == c;
      assert pat[|x| - q] == pat[1..][|x| - q - 1];
      AtMismatch(text, q, pat, |x|);
    }
  }

  lemma FreeShort(x: string, pat: string)
    requires |x| < |pat|
    ensures Free(x, pat)
  {
  }

  lemma FreeMissing(x: string, pat: string, c: char, k: nat)
    requires k < |pat| && pat[k] == c && c !in x
    ensures Free(x, pat)
  {
    forall p ensures !At(x, p, pat) {
      if At(x, p, pat) {
        assert x[p + k] in x;
        AtChar(x, p, pat, p + k);
      }
    }
  }

  /** What is free of a part is free of the whole. */
  lemma FreeOfPart(x: string, pre: string, token: string, post: string)
    requires Free(x, token)
    ensures Free(x, pre + token + post)
  {
    forall p ensures !At(x, p, pre + token + post) {
      if At(x, p, pre + token + post) {
        TokenInside(x, p, pre, token, post);
      }
    }
  }

  lemma ContainsFree(s: string, pat: string)
    ensures !Contains(s, pat) <==> Free(s, pat)
  {
  }

  lemma CleanFree(s: string)
    requires Clean(s)
    ensures Free(s, EOS) && Free(s, END_THINK) && Free(s, DSML) && Free(s, START_CALLS)
  {
    assert SPECIALS[1] == EOS && SPECIALS[3] == END_THINK && SPECIALS[4] == DSML;
    ContainsFree(s, EOS);
    ContainsFree(s, END_THINK);
    ContainsFree(s, DSML);
    FreeOfPart(s, "\n\n<", DSML, "tool_calls");
  }

  // ---------------------------------------------------------------------
  // The reads of the parser
  // ---------------------------------------------------------------------

  /** Two stops that begin with `<` and differ in the next character. */
  lemma ReadTag(x: string, s: string, other: string, r: string, stops: seq<string>)
    requires |stops| == 2 && s in stops && other in stops
    requires |s| > 1 && |other| > 1 && s[0] == other[0] == '<' && '<' !in s[1..] && '<' !in other[1..]
    requires s[1] != other[1]
    requires forall k :: 0 <= k < |stops| ==> stops[k] == s || stops[k] == other
    requires Free(x, s) && Free(x, other)
    ensures ReadUntil(x + s + r, stops) == Read(x, Some(s), r)
  {
    var text := x + s + r;
    assert s == ['<'] + s[1..];
    assert text == x + ['<'] + (s[1..] + r);
    forall k, q | 0 <= k < |stops| && q < |x| ensures !At(text, q, stops[k]) {
      NoCross(x, '<', s[1..] + r, stops[k], q);
    }
    assert text[|x| + 1] == s[1];
    AtMismatch(text, |x|, other, |x| + 1);
    ReadUntilIs(x, s, r, stops);
  }

  lemma ReadEndParameter(x: string, r: string)
    requires Free(x, END_PARAMETER)
    ensures ReadUntil(x + END_PARAMETER + r, [END_PARAMETER]) == Read(x, Some(END_PARAMETER), r)
  {
    var text := x + END_PARAMETER + r;
    assert text == x + ['/'] + (END_PARAMETER[1..] + r);
    forall q | q < |x| ensures !At(text, q, END_PARAMETER) {
      NoCross(x, '/', END_PARAMETER[1..] + r, END_PARAMETER, q);
    }
    ReadUntilIs(x, END_PARAMETER, r, [END_PARAMETER]);
  }

  lemma ReadThinking(x: string, r: string)
    requires Free(x, END_THINK) && Free(x, START_CALLS)
    ensures ReadUntil(x + END_THINK + r, [END_THINK, START_CALLS]) == Read(x, Some(END_THINK), r)
  {
    var text := x + END_THINK + r;
    assert text == x + ['<'] + ("/think>" + r);
    forall q | q < |x| ensures !At(text, q, END_THINK) && !At(text, q, START_CALLS) {
      NoCross(x, '<', "/think>" + r, END_THINK, q);
      StartNotAcrossThink(x, r, q);
    }
    assert text[|x|] == '<';
    AtMismatch(text, |x|, START_CALLS, |x|);
    ReadUntilIs(x, END_THINK, r, [END_THINK, START_CALLS]);
  }

  lemma StartNotAcrossThink(x: string, r: string, q: int)
    requires Free(x, START_CALLS) && q < |x|
    ensures !At(x + END_THINK + r, q, START_CALLS)
  {
    var text := x + END_THINK + r;
    if q + |START_CALLS| <= |x| {
      assert text == x + (END_THINK + r);
      AtLeft(x, END_THINK + r, q, START_CALLS);
    } else {
      assert text[|x|] == '<' && text[|x| + 1] == '/';
      AtMismatch(text, q, START_CALLS, if |x| - q == 2 then |x| + 1 else |x|);
    }
  }

  lemma ReadContentBeforeCalls(x: string, r: string)
    requires Free(x, EOS) && Free(x, DSML)
    ensures ReadUntil(x + START_CALLS + r, [EOS, START_CALLS]) == Read(x, Some(START_CALLS), r)
  {
    var text := x + START_CALLS + r;
    assert text == x + ['\n'] + (START_CALLS[1..] + r);
    assert text == x + "\n\n<" + (DSML + "tool_calls" + r);
    forall q | q < |x| ensures !At(text, q, EOS) && !At(text, q, START_CALLS) {
      NoCross(x, '\n', START_CALLS[1..] + r, EOS, q);
      NoEarly(x, "\n\n<", DSML + "tool_calls" + r, DSML, q + 3);
      if At(text, q, START_CALLS) {
        TokenInside(text, q, "\n\n<", DSML, "tool_calls");
      }
    }
    assert text[|x|] == '\n';
    AtMismatch(text, |x|, EOS, |x|);
    ReadUntilIs(x, START_CALLS, r, [EOS, START_CALLS]);
  }

  lemma ReadContentBeforeEos(x: string)
    requires Free(x, EOS) && Free(x, DSML)
    ensures ReadUntil(x + EOS + "", [EOS, START_CALLS]) == Read(x, Some(EOS), "")
  {
    var text := x + EOS + "";
    assert text == x + ['<'] + EOS[1..];
    FreeMissing(EOS[1..], DSML, 'D', 1);
    FreeAround(x, ['<'], EOS[1..], DSML);
    FreeOfPart(text, "\n\n<", DSML, "tool_calls");
    forall q | q < |x| ensures !At(text, q, EOS) {
      NoCross(x, '<', EOS[1..], EOS, q);
    }
    ReadUntilIs(x, EOS, "", [EOS, START_CALLS]);
  }

  // ---------------------------------------------------------------------
  // The two patterns
  // ---------------------------------------------------------------------

  lemma SuffixIs(x: string, post: string)
    ensures DropSuffix(x + post, post) == Some(x)
  {
    assert (x + post)[|x|..] == post && (x + post)[..|x|] == x;
  }

  lemma PrefixIs(pre: string, y: string)
    ensures DropPrefix(pre + y, pre) == Some(y)
  {
    assert (pre + y)[..|pre|] == pre && (pre + y)[|pre|..] == y;
  }

  /** The name comes back from a call with arguments and from one without: in the
      latter the pattern ends before the last newline. */
  lemma MatchNameIs(name: string, s: string)
    requires s == NAME_OPEN + name + "\">\n" || s == NAME_OPEN + name + "\">\n\n"
    ensures MatchName(s) == Some(name)
  {
    var t1 := name + "\">\n";
    var t2 := name + "\">\n\n";
    SkipOne("name=\"" + t1);
    SkipOne("name=\"" + t2);
    assert NAME_OPEN + name + "\">\n" == " " + ("name=\"" + t1);
    assert NAME_OPEN + name + "\">\n\n" == " " + ("name=\"" + t2);
    PrefixIs("name=\"", t1);
    PrefixIs("name=\"", t2);
    SuffixIs(name, "\">\n");
    SuffixIs(name, "\">\n\n");
    assert DropSuffix(t1, "\">\n\n") == None by {
      if |t1| >= 4 {
        assert t1[|t1| - 4..][2] == t1[|t1| - 2] == '>';
      }
    }
  }

  lemma SkipOne(t: string)
    requires t != "" && !IsSpace(t[0])
    ensures SkipSpace(" " + t) == t
  {
    assert (" " + t)[1..] == t;
  }

  ghost predicate FlagAt(t: string, p: int) {
    At(t, p, TRUE_FLAG) || At(t, p, FALSE_FLAG)
  }

  lemma DropPrefixAt(t: string, k: nat, pre: string)
    requires k <= |t|
    ensures DropPrefix(t[k..], pre).Some? <==> At(t, k, pre)
    ensures At(t, k, pre) ==> DropPrefix(t[k..], pre) == Some(t[k + |pre|..])
  {
    if k + |pre| <= |t| {
      assert t[k..][..|pre|] == t[k..k + |pre|];
      assert t[k..][|pre|..] == t[k + |pre|..];
    }
  }

  /** A text that ends in `<` after the flag has a value. */
  lemma MatchValueIs(v: string)
    ensures MatchValue(v + "<") == Some(v)
  {
    SuffixIs(v, "<");
    var s := v + "<";
    if |s| >= 2 {
      assert s[|s| - 2..][1] == '<';
    }
  }

  ghost predicate MatchedAt(t: string, p: nat, m: Option<Parameter>)
    requires p <= |t|
  {
    var f := FlagText(At(t, p, TRUE_FLAG));
    && m.Some? && m.value.key == t[..p] && m.value.isText == At(t, p, TRUE_FLAG)
    && p + |f| <= |t| && m.value.value + "<" == t[p + |f|..]
  }

  /** A text that ends in `<` has a value after any flag in it. */
  lemma ValueAfterFlag(t: string, p: nat, f: string)
    requires At(t, p, f) && f != "" && f[|f| - 1] == '>' && |t| > 0 && t[|t| - 1] == '<'
    ensures var m := MatchValue(t[p + |f|..]); m.Some? && m.value + "<" == t[p + |f|..]
  {
    AtChar(t, p, f, p + |f| - 1);
    var y := t[p + |f|..];
    assert y[|y| - 1] == '<';
    assert y == y[..|y| - 1] + "<";
    MatchValueIs(y[..|y| - 1]);
  }

  lemma MatchFlagHere(t: string, p: nat)
    requires p <= |t| && FlagAt(t, p) && |t| > 0 && t[|t| - 1] == '<'
    ensures MatchedAt(t, p, MatchFlag(t, p))
  {
    hide MatchValue, DropPrefix, At;
    DropPrefixAt(t, p, TRUE_FLAG);
    DropPrefixAt(t, p, FALSE_FLAG);
    assert |TRUE_FLAG| > 0 && |FALSE_FLAG| > 0;
    ValueAfterFlag(t, p, FlagText(At(t, p, TRUE_FLAG)));
    FlagFits(t, p, FlagText(At(t, p, TRUE_FLAG)));
  }

  lemma FlagFits(t: string, p: nat, f: string)
    requires At(t, p, f)
    ensures p + |f| <= |t|
  {
  }

  /** The match stops at the first flag at or after `k`. */
  lemma {:induction false} MatchFlagFirst(t: string, k: nat, p: nat)
    requires k <= p <= |t| && FlagAt(t, p) && |t| > 0 && t[|t| - 1] == '<'
    requires forall q :: k <= q < p ==> !FlagAt(t, q)
    ensures MatchedAt(t, p, MatchFlag(t, k))
    decreases p - k
  {
    if k < p {
      assert !FlagAt(t, k);
      DropPrefixAt(t, k, TRUE_FLAG);
      DropPrefixAt(t, k, FALSE_FLAG);
      hide MatchValue, DropPrefix, At, MatchedAt;
      MatchFlagFirst(t, k + 1, p);
    } else {
      MatchFlagHere(t, p);
    }
  }

  lemma FlagQuotes(f: string, j: nat)
    requires f == TRUE_FLAG || f == FALSE_FLAG
    requires 0 < j < |f|
    ensures f[j] != '"' || (j + 1 < |f| && f[j + 1] != ' ')
  {
  }

  /** No flag starts inside a key that contains none. */
  lemma NoFlagInKey(key: string, y: string, f: string, q: int)
    requires f == TRUE_FLAG || f == FALSE_FLAG
    requires Free(key, f) && |y| >= 2 && y[..2] == "\" " && q < |key|
    ensures !At(key + y, q, f)
  {
    var t := key + y;
    if q + |f| <= |key| {
      AtLeft(key, y, q, f);
    } else if 0 <= q {
      var j := |key| - q;
      FlagQuotes(f, j);
      assert y[0] == y[..2][0] && y[1] == y[..2][1];
      assert t[|key|] == '"' && t[|key| + 1] == ' ';
      AtMismatch(t, q, f, if f[j] != '"' then |key| else |key| + 1);
    }
  }

  lemma FlagsDiffer(x: string, y: string, isText: bool)
    ensures At(x + FlagText(isText) + y, |x|, TRUE_FLAG) == isText
    ensures FlagAt(x + FlagText(isText) + y, |x|)
  {
    var t := x + FlagText(isText) + y;
    assert t[|x|..|x| + |FlagText(isText)|] == FlagText(isText);
    if !isText {
      assert t[|x| + 10] == 'f';
      AtMismatch(t, |x|, TRUE_FLAG, |x| + 10);
    }
  }

  /** The parameter pattern gives key, flag and value back exactly when the key
      contains neither of the two flags. */
  lemma MatchParameterIff(key: string, isText: bool, value: string)
    ensures MatchParameter(Inside(key, isText, value)) == Some(Parameter(key, isText, value))
            <==> Free(key, TRUE_FLAG) && Free(key, FALSE_FLAG)
  {
    var y := FlagText(isText) + (value + "<");
    var t := key + FlagText(isText) + (value + "<");
    assert t == key + y && y[..2] == "\" ";
    PrefixIs(NAME_OPEN, t);
    assert t[|t| - 1] == '<';
    FlagsDiffer(key, value + "<", isText);
    if Free(key, TRUE_FLAG) && Free(key, FALSE_FLAG) {
      forall q | 0 <= q < |key| ensures !FlagAt(t, q) {
        NoFlagInKey(key, y, TRUE_FLAG, q);
        NoFlagInKey(key, y, FALSE_FLAG, q);
      }
      var m := MatchFlag(t, 0);
      MatchFlagFirst(t, 0, |key|);
      assert t[|key| + |FlagText(isText)|..] == value + "<";
      SameBefore(m.value.value, value);
      assert t[..|key|] == key;
    } else {
      var p := FirstFlag(key, t);
      MatchFlagFirst(t, 0, p);
      assert |MatchFlag(t, 0).value.key| == p < |key|;
    }
  }

  lemma SameBefore(a: string, b: string)
    requires a + "<" == b + "<"
    ensures a == b
  {
    assert (a + "<")[..|a|] == a && (b + "<")[..|b|] == b;
  }

  lemma FlagNotEmpty()
    ensures TRUE_FLAG != "" && FALSE_FLAG != ""
  {
  }

  /** The first flag of a text that begins with a key containing one. */
  lemma FirstFlag(key: string, t: string) returns (p: nat)
    requires key <= t && !(Free(key, TRUE_FLAG) && Free(key, FALSE_FLAG))
    ensures p < |key| && FlagAt(t, p) && forall q :: 0 <= q < p ==> !FlagAt(t, q)
  {
    hide TRUE_FLAG, FALSE_FLAG;
    var f := if Free(key, TRUE_FLAG) then FALSE_FLAG else TRUE_FLAG;
    var k :| At(key, k, f);
    FlagNotEmpty();
    assert t == key + t[|key|..];
    AtLeft(key, t[|key|..], k, f);
    p := 0;
    while !FlagAt(t, p)
      invariant p <= k && forall q :: 0 <= q < p ==> !FlagAt(t, q)
      decreases k - p
    {
      p := p + 1;
    }
  }
}

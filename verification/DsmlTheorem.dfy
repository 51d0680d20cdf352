/**
 The round trip of a whole assistant message, by way of the shape in which the
 parser meets the printed text.
 */
module DsmlTheorem {
  import opened Options
  import opened DsmlText
  import opened DsmlCodec
  import opened DsmlRoundTrip

  // ---------------------------------------------------------------------
  // The printed text as the parser meets it
  // ---------------------------------------------------------------------

  /** After the first parameter tag of a call. */
  function ParametersText(d: Dumps, args: seq<Argument>, tail: string): string
    requires args != []
  {
    InsideOf(d, args[0]) + END_PARAMETER
    + (">\n" + (if |args| == 1 then END_INVOKE + tail else PARAMETER + ParametersText(d, args[1..], tail)))
  }

  /** After the opening tag of a call. */
  function CallText(d: Dumps, c: Call, tail: string): string {
    if c.arguments == [] then NAME_OPEN + c.name + "\">\n\n" + END_INVOKE + tail
    else NAME_OPEN + c.name + "\">\n" + PARAMETER + ParametersText(d, c.arguments, tail)
  }

  /** After the opening of the block or after a call. */
  function BlockText(d: Dumps, calls: seq<Call>, tail: string): string {
    ">\n" + (if calls == [] then END_CALLS + tail else INVOKE + CallText(d, calls[0], BlockText(d, calls[1..], tail)))
  }

  lemma Regroup(a: string, b: string, c: string, more: string)
    ensures a + (b + (c + ">")) + ("\n" + more) == a + (b + c + (">\n" + more))
  {
    assert ">" + ("\n" + more) == ">\n" + more;
    Assoc5(a, b, c, ">", "\n" + more);
  }

  lemma Assoc5(a: string, b: string, c: string, e: string, f: string)
    ensures a + (b + (c + e)) + f == a + (b + c + (e + f))
  {
  }

  lemma Assoc3(a: string, b: string, c: string)
    ensures a + b + c == a + (b + c)
  {
  }

  lemma JoinMore(p: string, rest: seq<string>, sep: string, end: string)
    requires rest != []
    ensures Join([p] + rest, sep) + end == p + (sep + (Join(rest, sep) + end))
  {
    assert ([p] + rest)[1..] == rest;
    var j := Join(rest, sep);
    assert p + sep + j + end == p + (sep + (j + end));
  }

  lemma {:induction false} ParametersShape(d: Dumps, args: seq<Argument>, tail: string)
    requires args != []
    ensures Join(PrintParameters(d, args), "\n") + ("\n" + (END_INVOKE + tail)) == PARAMETER +
          ParametersText(d, args, tail)
  {
    hide PARAMETER, END_PARAMETER, END_INVOKE, InsideOf;
    var p := PrintParameter(d, args[0]);
    var rest := PrintParameters(d, args[1..]);
    if |args| == 1 {
      assert Join([p] + rest, "\n") == p;
      Regroup(PARAMETER, InsideOf(d, args[0]), END_PARAMETER, END_INVOKE + tail);
    } else {
      assert rest != [];
      ParametersShape(d, args[1..], tail);
      JoinMore(p, rest, "\n", "\n" + (END_INVOKE + tail));
      Regroup(PARAMETER, InsideOf(d, args[0]), END_PARAMETER, PARAMETER + ParametersText(d, args[1..], tail));
    }
  }

  // ---------------------------------------------------------------------
  // One parameter, one call, a block
  // ---------------------------------------------------------------------

  /** A text of free pieces around four characters foreign to the pattern. */
  lemma FreePieces(a: string, key: string, flag: string, value: string, c: char, e: char, f: char, pat: string)
    requires Free(a, pat) && Free(key, pat) && Free(flag, pat) && Free(value, pat) && pat != ""
    requires c !in pat && e !in pat && f !in pat
    ensures Free((a + [c]) + (key + ([c] + flag + [e]) + (value + [f])), pat)
  {
    FreeShort("", pat);
    FreeAround(value, [f], "", pat);
    var v := value + [f] + "";
    FreeAround(flag, [e], v, pat);
    FreeAround(key, [c], flag + [e] + v, pat);
    FreeAround(a, [c], key + [c] + (flag + [e] + v), pat);
    assert v == value + [f];
    Assoc3(key + [c], flag + [e], v);
    assert key + ([c] + flag + [e]) == key + [c] + (flag + [e]);
  }

  lemma FlagPieces(isText: bool) returns (flag: string)
    ensures FlagText(isText) == ['"'] + flag + ['>'] && Free(flag, END_PARAMETER)
    ensures NAME_OPEN == " name=" + ['"'] && Free(" name=", END_PARAMETER)
    ensures '"' !in END_PARAMETER && '>' !in END_PARAMETER && '<' !in END_PARAMETER && END_PARAMETER != ""
  {
    flag := if isText then " string=\"true\"" else " string=\"false\"";
    FreeShort(flag, END_PARAMETER);
    FreeShort(" name=", END_PARAMETER);
  }

  lemma InsideFree(d: Dumps, a: Argument)
    requires ArgumentOk(d, a)
    ensures Free(InsideOf(d, a), END_PARAMETER)
  {
    hide END_PARAMETER, Free, NAME_OPEN, FlagText, TRUE_FLAG, FALSE_FLAG;
    var flag := FlagPieces(a.value.Text?);
    FreePieces(" name=", a.key, flag, Inline(d, a.value), '"', '>', '<', END_PARAMETER);
  }

  function Parameters(d: Dumps, args: seq<Argument>): seq<Parameter> {
    if args == [] then []
    else [ParameterOf(d, args[0])] + Parameters(d, args[1..])
  }

  /** Reading just after `>\n` meets the next tag at once. */
  lemma ReadNext(s: string, other: string, r: string, stops: seq<string>)
    requires stops == [s, other] || stops == [other, s]
    requires |s| > 2 && |other| > 2 && s[0] == other[0] == '<' && '<' !in s[1..] && '<' !in other[1..] &&
          s[1] != other[1]
    ensures ReadUntil(">\n" + (s + r), stops) == Read(">\n", Some(s), r)
  {
    hide Free, ReadUntil;
    FreeShort(">\n", s);
    FreeShort(">\n", other);
    ReadTag(">\n", s, other, r, stops);
    Assoc3(">\n", s, r);
  }

  lemma ReadNextTags(r: string)
    ensures ReadUntil(">\n" + (PARAMETER + r), [PARAMETER, END_INVOKE]) == Read(">\n", Some(PARAMETER), r)
    ensures ReadUntil(">\n" + (END_INVOKE + r), [PARAMETER, END_INVOKE]) == Read(">\n", Some(END_INVOKE), r)
    ensures ReadUntil(">\n" + (INVOKE + r), [INVOKE, END_CALLS]) == Read(">\n", Some(INVOKE), r)
    ensures ReadUntil(">\n" + (END_CALLS + r), [INVOKE, END_CALLS]) == Read(">\n", Some(END_CALLS), r)
    ensures PARAMETER != END_INVOKE && INVOKE != END_CALLS
  {
    hide ReadUntil;
    assert PARAMETER[1] != END_INVOKE[1] && INVOKE[1] != END_CALLS[1];
    ReadNext(PARAMETER, END_INVOKE, r, [PARAMETER, END_INVOKE]);
    ReadNext(END_INVOKE, PARAMETER, r, [PARAMETER, END_INVOKE]);
    ReadNext(INVOKE, END_CALLS, r, [INVOKE, END_CALLS]);
    ReadNext(END_CALLS, INVOKE, r, [INVOKE, END_CALLS]);
  }

  function ParameterOf(d: Dumps, a: Argument): Parameter {
    Parameter(a.key, a.value.Text?, Inline(d, a.value))
  }

  /** One parameter is read and recognised. */
  lemma ReadParameter(d: Dumps, a: Argument, more: string)
    requires ArgumentOk(d, a)
    ensures var r := ReadUntil(InsideOf(d, a) + END_PARAMETER + more, [END_PARAMETER]);
            r.rest == more && MatchParameter(r.content) == Some(ParameterOf(d, a))
  {
    hide ReadUntil, MatchParameter, Inside, END_PARAMETER, TRUE_FLAG, FALSE_FLAG;
    InsideFree(d, a);
    ReadEndParameter(InsideOf(d, a), more);
    MatchParameterIff(a.key, a.value.Text?, Inline(d, a.value));
  }

  lemma {:induction false} ParseParametersIs(d: Dumps, args: seq<Argument>, tail: string, ps: seq<Parameter>)
    requires args != [] && (forall k :: 0 <= k < |args| ==> ArgumentOk(d, args[k]))
    requires forall i, j :: 0 <= i < j < |args| ==> args[i].key != args[j].key
    requires forall k :: 0 <= k < |args| ==> !HasKey(ps, args[k].key)
    ensures ParseParameters(ParametersText(d, args, tail), ps)
            == Ok(Left(ps + Parameters(d, args), Some(END_INVOKE), tail))
  {
    hide ReadUntil, MatchParameter, InsideOf, HasKey, ArgumentOk, END_PARAMETER, PARAMETER, END_INVOKE;
    var p := ParameterOf(d, args[0]);
    if |args| == 1 {
      ReadParameter(d, args[0], ">\n" + (END_INVOKE + tail));
      ReadNextTags(tail);
      assert Parameters(d, args) == [p];
    } else {
      var text := ParametersText(d, args[1..], tail);
      ReadParameter(d, args[0], ">\n" + (PARAMETER + text));
      ReadNextTags(text);
      KeysStayNew(args, ps, p);
      ParseParametersIs(d, args[1..], tail, ps + [p]);
      assert (ps + [p]) + Parameters(d, args[1..]) == ps + Parameters(d, args);
    }
  }

  lemma KeysStayNew(args: seq<Argument>, ps: seq<Parameter>, p: Parameter)
    requires args != [] && p.key == args[0].key
    requires forall i, j :: 0 <= i < j < |args| ==> args[i].key != args[j].key
    requires forall k :: 0 <= k < |args| ==> !HasKey(ps, args[k].key)
    ensures forall k :: 0 <= k < |args[1..]| ==> !HasKey(ps + [p], args[1..][k].key)
  {
    forall k | 0 <= k < |args[1..]| ensures !HasKey(ps + [p], args[1..][k].key) {
      assert !HasKey(ps, args[k + 1].key);
      forall i | 0 <= i < |ps + [p]| ensures (ps + [p])[i].key != args[k + 1].key {
        if i < |ps| {
          assert (ps + [p])[i] == ps[i];
        }
      }
    }
  }

  lemma {:induction false} DecodedMembers(d: Dumps, args: seq<Argument>)
    ensures DecodeMembers(d, Parameters(d, args)) == Members(d, args)
  {
    if args != [] {
      DecodedMembers(d, args[1..]);
      assert Parameters(d, args)[1..] == Parameters(d, args[1..]);
    }
  }

  /** The call as the parser reports it: its arguments are the JSON object. */
  function Expected(d: Dumps, c: Call): ParsedCall {
    ParsedCall(c.name, ObjectText(d, c.arguments))
  }

  lemma NameTextFree(name: string, pat: string, end: string)
    requires Free(name, pat) && |pat| > 6 && '"' !in pat && |end| <= 3
    ensures Free(NAME_OPEN + name + (['"'] + end), pat)
  {
    FreeShort(" name=", pat);
    FreeShort(end, pat);
    FreeAround(name, ['"'], end, pat);
    FreeAround(" name=", ['"'], name + ['"'] + end, pat);
    assert NAME_OPEN == " name=" + ['"'];
    assert NAME_OPEN + name + (['"'] + end) == " name=" + ['"'] + (name + ['"'] + end);
  }

  lemma ReadName(name: string, end: string, s: string, other: string, r: string)
    requires NameOk(name) && |end| <= 3
    requires (s == PARAMETER && other == END_INVOKE) || (s == END_INVOKE && other == PARAMETER)
    ensures ReadUntil(NAME_OPEN + name + (['"'] + end) + s + r, [PARAMETER, END_INVOKE])
            == Read(NAME_OPEN + name + (['"'] + end), Some(s), r)
  {
    hide Free, ReadUntil, NAME_OPEN;
    NameTextFree(name, PARAMETER, end);
    NameTextFree(name, END_INVOKE, end);
    ReadTag(NAME_OPEN + name + (['"'] + end), s, other, r, [PARAMETER, END_INVOKE]);
  }

  lemma ParseCallIs(d: Dumps, c: Call, tail: string)
    requires CallOk(d, c)
    ensures ParseCall(d, CallText(d, c, tail)) == Ok(Left(Expected(d, c), Some(END_INVOKE), tail))
  {
    assert ['"'] + ">\n\n" == "\">\n\n" && ['"'] + ">\n" == "\">\n";
    hide ReadUntil, NAME_OPEN, PARAMETER, END_INVOKE, MatchName, ArgumentOk, NameOk;
    MatchNameIs(c.name, NAME_OPEN + c.name + "\">\n");
    MatchNameIs(c.name, NAME_OPEN + c.name + "\">\n\n");
    DecodedMembers(d, c.arguments);
    if c.arguments == [] {
      ReadNextTags(tail);
      ReadName(c.name, ">\n\n", END_INVOKE, PARAMETER, tail);
    } else {
      var text := ParametersText(d, c.arguments, tail);
      ReadName(c.name, ">\n", PARAMETER, END_INVOKE, text);
      ParseParametersIs(d, c.arguments, tail, []);
      assert [] + Parameters(d, c.arguments) == Parameters(d, c.arguments);
    }
  }

  function ExpectedCalls(d: Dumps, calls: seq<Call>): seq<ParsedCall> {
    if calls == [] then [] else [Expected(d, calls[0])] + ExpectedCalls(d, calls[1..])
  }

  /** The calls of a printed block come back in order, whatever follows it. */
  lemma {:induction false} ParseCallsIs(d: Dumps, calls: seq<Call>, text: string, tail: string, stop: Option<string>,
                                        done: seq<ParsedCall>)
    requires CallsOk(d, calls) && text == BlockText(d, calls, tail)
    ensures ParseCalls(d, text, stop, done) == Ok(Left(done + ExpectedCalls(d, calls), Some(END_CALLS), tail))
    decreases |calls|
  {
    hide ReadUntil, INVOKE, END_CALLS, END_INVOKE, CallText, ParseCall, CallOk;
    if calls == [] {
      ReadNextTags(tail);
      assert done + [] == done;
    } else {
      var rest := BlockText(d, calls[1..], tail);
      ReadNextTags(CallText(d, calls[0], rest));
      assert ">\n" + (INVOKE + CallText(d, calls[0], rest)) != "";
      ParseCallIs(d, calls[0], rest);
      ParseCallsIs(d, calls[1..], rest, tail, Some(END_INVOKE), done + [Expected(d, calls[0])]);
      assert (done + [Expected(d, calls[0])]) + ExpectedCalls(d, calls[1..]) == done + ExpectedCalls(d, calls);
    }
  }

  // ---------------------------------------------------------------------
  // The printed block and the whole message
  // ---------------------------------------------------------------------

  lemma PrintCallShape(d: Dumps, c: Call, more: string)
    ensures PrintCall(d, c) + ("\n" + more) == INVOKE + CallText(d, c, ">\n" + more)
  {
    hide INVOKE, END_INVOKE, PARAMETER, NAME_OPEN;
    var end := "\n" + (END_INVOKE + ">");
    var tail := ">\n" + more;
    var head := NAME_OPEN + c.name + "\">\n";
    var args := Join(PrintParameters(d, c.arguments), "\n");
    assert end + ("\n" + more) == "\n" + (END_INVOKE + tail) by {
      assert ">" + ("\n" + more) == tail;
    }
    Assoc5(INVOKE, head, args, end, "\n" + more);
    assert PrintCall(d, c) + ("\n" + more) == INVOKE + (head + args + ("\n" + (END_INVOKE + tail)));
    if c.arguments == [] {
      assert head + "" + ("\n" + (END_INVOKE + tail)) == NAME_OPEN + c.name + "\">\n\n" + END_INVOKE + tail;
    } else {
      ParametersShape(d, c.arguments, tail);
      Assoc3(head, args, "\n" + (END_INVOKE + tail));
      Assoc3(head, PARAMETER, ParametersText(d, c.arguments, tail));
    }
  }

  lemma {:induction false} CallsShape(d: Dumps, calls: seq<Call>, tail: string)
    requires calls != []
    ensures ">\n" + (Join(PrintCalls(d, calls), "\n") + ("\n" + (END_CALLS + tail))) == BlockText(d, calls, tail)
  {
    hide INVOKE, END_CALLS, PrintCall, CallText;
    var p := PrintCall(d, calls[0]);
    var rest := PrintCalls(d, calls[1..]);
    if |calls| == 1 {
      assert Join([p] + rest, "\n") == p;
      PrintCallShape(d, calls[0], END_CALLS + tail);
      assert BlockText(d, [], tail) == ">\n" + (END_CALLS + tail);
      assert calls[1..] == [];
    } else {
      assert rest != [];
      CallsShape(d, calls[1..], tail);
      JoinMore(p, rest, "\n", "\n" + (END_CALLS + tail));
      PrintCallShape(d, calls[0], Join(rest, "\n") + ("\n" + (END_CALLS + tail)));
    }
  }

  lemma Assoc6(a: string, b: string, c: string, e: string, f: string, g: string)
    ensures (a + (b + (c + (e + f)))) + g == a + (b + (c + (e + (f + g))))
  {
  }

  lemma BlockShape(d: Dumps, calls: seq<Call>, tail: string)
    requires calls != []
    ensures PrintBlock(d, calls) + tail == START_CALLS + BlockText(d, calls, tail)
  {
    hide START_CALLS, END_CALLS;
    CallsShape(d, calls, tail);
    var j := Join(PrintCalls(d, calls), "\n");
    Assoc6(START_CALLS, ">\n", j, "\n", END_CALLS, tail);
  }

  /** Reading the content and the calls after it. */
  lemma ParseRestWithCalls(d: Dumps, content: string, calls: seq<Call>, tail: string)
    requires Clean(content) && CallsOk(d, calls) && (tail == EOS || tail == "") && calls != []
    ensures var r := ReadUntil(content + PrintBlock(d, calls) + tail, [EOS, START_CALLS]);
            && r.content == content && r.stop == Some(START_CALLS)
            && ParseTail(d, r.rest) == Ok(Left(ExpectedCalls(d, calls), if tail == EOS then Some(EOS) else None, ""))
  {
    CleanFree(content);
    hide EOS, START_CALLS, DSML, BlockText, PrintBlock, ReadUntil, Free, Clean, ParseCalls, CallsOk, END_CALLS;
    BlockShape(d, calls, tail);
    Assoc3(content, PrintBlock(d, calls), tail);
    Assoc3(content, START_CALLS, BlockText(d, calls, tail));
    ReadContentBeforeCalls(content, BlockText(d, calls, tail));
    ParseCallsIs(d, calls, BlockText(d, calls, tail), tail, None, []);
    assert [] + ExpectedCalls(d, calls) == ExpectedCalls(d, calls);
    ReadEnd(tail);
  }

  /** Reading the content when no call follows it. */
  lemma ParseRestAlone(content: string, tail: string)
    requires Clean(content) && (tail == EOS || tail == "")
    ensures var r := ReadUntil(content + "" + tail, [EOS, START_CALLS]);
            r == if tail == EOS then Read(content, Some(EOS), "") else Read(content, None, "")
  {
    assert content + "" == content && content + "" + "" == content && EOS != "";
    CleanFree(content);
    hide EOS, START_CALLS, DSML, ReadUntil, Clean;
    if tail == EOS {
      ReadContentBeforeEos(content);
      assert content + EOS + "" == content + EOS;
    } else {
      ReadUntilNone(content, [EOS, START_CALLS]);
    }
  }

  lemma ReadEnd(tail: string)
    requires tail == EOS || tail == ""
    ensures ReadUntil(tail, [EOS]) == Read("", if tail == EOS then Some(EOS) else None, "")
  {
    if tail == EOS {
      assert "" + EOS + "" == EOS;
      assert FirstAt("" + EOS + "", [EOS], 0, EOS);
      ReadUntilIs("", EOS, "", [EOS]);
    } else {
      FreeShort("", EOS);
      ReadUntilNone("", [EOS]);
    }
  }

  lemma ParseReasoningIs(reasoning: string, rest: string, thinking: bool)
    requires thinking ==> Clean(reasoning)
    ensures var l := ParseReasoning((if thinking then reasoning + END_THINK else "") + rest, thinking);
            l.Ok? && l.value.value == (if thinking then reasoning else "") && l.value.rest == rest
  {
    if thinking {
      CleanFree(reasoning);
      ReadThinking(reasoning, rest);
    } else {
      assert "" + rest == rest;
    }
  }

  /** For all reasoning and content free of the special tokens and all calls whose
      names, keys and values contain none of the tags that end them: the printed
      message parses to the same reasoning, content and calls in order, each with its
      arguments as a JSON object. Without the end-of-sentence token this still holds
      if there is a call, and is an error if there is none. */
  lemma RoundTrip(d: Dumps, thinking: bool, reasoning: string, content: string, calls: seq<Call>, withoutEos: bool)
    requires Clean(content) && (thinking ==> Clean(reasoning)) && CallsOk(d, calls)
    ensures ParseMessage(d, PrintAssistant(d, thinking, reasoning, content, calls, withoutEos), thinking)
            == if withoutEos && calls == [] then Err(MissingEos)
               else Ok(Message(content, if thinking then reasoning else "", ExpectedCalls(d, calls)))
  {
    var tail := if withoutEos then "" else EOS;
    var rest := content + PrintBlock(d, calls) + tail;
    var head := if thinking then reasoning + END_THINK else "";
    EmptyClean();
    StopsDiffer();
    hide EOS, END_THINK, Clean, ParseReasoning, PrintBlock, CallsOk, ParseBody;
    Regroup4(head, content, PrintBlock(d, calls), tail);
    ParseReasoningIs(reasoning, rest, thinking);
    ParseBodyIs(d, if thinking then reasoning else "", content, calls, tail);
  }

  lemma Regroup4(a: string, b: string, c: string, e: string)
    ensures a + b + c + e == a + (b + c + e)
  {
  }

  lemma ParseBodyIs(d: Dumps, reasoning: string, content: string, calls: seq<Call>, tail: string)
    requires Clean(content) && Clean(reasoning) && CallsOk(d, calls) && (tail == EOS || tail == "")
    ensures ParseBody(d, content + PrintBlock(d, calls) + tail, reasoning)
            == if tail == "" && calls == [] then Err(MissingEos)
               else Ok(Message(content, reasoning, ExpectedCalls(d, calls)))
  {
    assert PrintBlock(d, []) == "";
    StopsDiffer();
    hide EOS, START_CALLS, Clean, ReadUntil, ParseTail, PrintBlock, CallsOk;
    if calls == [] {
      ParseRestAlone(content, tail);
    } else {
      ParseRestWithCalls(d, content, calls, tail);
    }
  }

  lemma EmptyClean()
    ensures Clean("")
  {
    forall k | 0 <= k < |SPECIALS| ensures !Contains("", SPECIALS[k]) {
      FreeShort("", SPECIALS[k]);
    }
  }

  lemma StopsDiffer()
    ensures START_CALLS != EOS && EOS != ""
  {
    assert START_CALLS[0] != EOS[0];
  }

  /** What the parser accepts is free of special tokens. */
  lemma AcceptedIsClean(d: Dumps, text: string, thinking: bool)
    requires ParseMessage(d, text, thinking).Ok?
    ensures var m := ParseMessage(d, text, thinking).value;
            forall k :: 0 <= k < |SPECIALS| ==> Free(m.content, SPECIALS[k]) && Free(m.reasoning, SPECIALS[k])
  {
    var m := ParseMessage(d, text, thinking).value;
    forall k | 0 <= k < |SPECIALS| ensures Free(m.content, SPECIALS[k]) && Free(m.reasoning, SPECIALS[k]) {
      ContainsFree(m.content, SPECIALS[k]);
      ContainsFree(m.reasoning, SPECIALS[k]);
    }
  }

  /** The conditions hold in particular for names, keys and values without the DSML
      token and keys without quotes. */
  lemma SimpleCallOk(d: Dumps, c: Call)
    requires Free(c.name, DSML)
    requires forall k :: 0 <= k < |c.arguments| ==>
               && '"' !in c.arguments[k].key && Free(c.arguments[k].key, DSML)
               && Free(Inline(d, c.arguments[k].value), DSML)
    requires forall i, j :: 0 <= i < j < |c.arguments| ==> c.arguments[i].key != c.arguments[j].key
    ensures CallOk(d, c)
  {
    FreeOfPart(c.name, "<", DSML, "parameter");
    FreeOfPart(c.name, "</", DSML, "invoke");
    forall k | 0 <= k < |c.arguments| ensures ArgumentOk(d, c.arguments[k]) {
      var a := c.arguments[k];
      FreeOfPart(a.key, "/", DSML, "parameter");
      FreeOfPart(Inline(d, a.value), "/", DSML, "parameter");
      FreeMissing(a.key, TRUE_FLAG, '"', 0);
      FreeMissing(a.key, FALSE_FLAG, '"', 0);
    }
  }

  /** A stop inside `x` ends the reading before the end of `x`. */
  lemma ReadsShorter(x: string, s: string, y: string)
    requires !Free(x, s) && s != ""
    ensures |ReadUntil(x + y, [s]).content| < |x|
  {
    var k :| At(x, k, s);
    AtLeft(x, y, k, s);
    var p := Find(x + y, s, 0);
    assert p != -1 && p <= k;
    assert Nearest(x + y, [s], Hit(|x + y|, None)) == Hit(p, Some(s));
  }

  lemma DroppedLength(s: string, k: nat, f: string)
    requires k <= |s|
    ensures var t := DropPrefix(s[k..], f);
            t.Some? ==>
              && |s| - k == |f| + |t.value|
              && (MatchValue(t.value).Some? ==> |t.value| >= |MatchValue(t.value).value| + 1)
  {
  }

  lemma {:induction false} MatchedFlagLength(s: string, k: nat)
    ensures var m := MatchFlag(s, k);
            m.Some? ==> |s| >= |m.value.key| + |FlagText(m.value.isText)| + |m.value.value| + 1
    decreases |s| - k
  {
    hide DropPrefix, MatchValue, TRUE_FLAG, FALSE_FLAG;
    if k <= |s| {
      DroppedLength(s, k, TRUE_FLAG);
      DroppedLength(s, k, FALSE_FLAG);
      MatchedFlagLength(s, k + 1);
    }
  }

  /** A match accounts for every character but a final newline. */
  lemma MatchedLength(s: string)
    ensures var m := MatchParameter(s);
            m.Some? ==> |s| >= |Inside(m.value.key, m.value.isText, m.value.value)|
  {
    hide FlagText, MatchFlag;
    if |s| >= |NAME_OPEN| {
      MatchedFlagLength(s[|NAME_OPEN|..], 0);
    }
  }

  /** One parameter comes back exactly when its text contains no closing tag before
      its own and its key contains no flag. */
  lemma ParameterComesBackIff(d: Dumps, a: Argument, more: string)
    ensures MatchParameter(ReadUntil(InsideOf(d, a) + END_PARAMETER + more, [END_PARAMETER]).content)
            == Some(ParameterOf(d, a))
            <==> Free(InsideOf(d, a), END_PARAMETER) && Free(a.key, TRUE_FLAG) && Free(a.key, FALSE_FLAG)
  {
    assert END_PARAMETER != "";
    hide MatchParameter, ReadUntil, Inside, Free, END_PARAMETER, TRUE_FLAG, FALSE_FLAG;
    var x := InsideOf(d, a);
    var r := ReadUntil(x + END_PARAMETER + more, [END_PARAMETER]);
    MatchParameterIff(a.key, a.value.Text?, Inline(d, a.value));
    if Free(x, END_PARAMETER) {
      ReadEndParameter(x, more);
    } else {
      Assoc3(x, END_PARAMETER, more);
      ReadsShorter(x, END_PARAMETER, END_PARAMETER + more);
      MatchedLength(r.content);
    }
  }
}

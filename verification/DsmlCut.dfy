/**
 Messages that are cut inside their block of calls: the parser takes the calls that are
 there for the whole message.
 */
module DsmlCut {
  import opened Options
  import opened DsmlText
  import opened DsmlCodec
  import opened DsmlRoundTrip
  import opened DsmlTheorem

  /** The block up to the closing token of its last call. */
  function CutText(d: Dumps, calls: seq<Call>): string {
    if calls == [] then "" else ">\n" + (INVOKE + CallText(d, calls[0], CutText(d, calls[1..])))
  }

  lemma {:induction false} ParametersAppend(d: Dumps, args: seq<Argument>, a: string, b: string)
    requires args != []
    ensures ParametersText(d, args, a + b) == ParametersText(d, args, a) + b
    decreases |args|
  {
    hide InsideOf, END_PARAMETER, END_INVOKE, PARAMETER;
    var x := InsideOf(d, args[0]) + END_PARAMETER;
    if |args| == 1 {
      Append4(x, ">\n", END_INVOKE, a, b);
    } else {
      ParametersAppend(d, args[1..], a, b);
      Append4(x, ">\n", PARAMETER, ParametersText(d, args[1..], a), b);
    }
  }

  lemma Append4(x: string, y: string, z: string, a: string, b: string)
    ensures x + (y + (z + (a + b))) == (x + (y + (z + a))) + b
  {
  }

  lemma CallAppend(d: Dumps, c: Call, a: string, b: string)
    ensures CallText(d, c, a + b) == CallText(d, c, a) + b
  {
    hide NAME_OPEN, PARAMETER, END_INVOKE, ParametersText;
    if c.arguments == [] {
      Assoc3(NAME_OPEN + c.name + "\">\n\n" + END_INVOKE, a, b);
    } else {
      ParametersAppend(d, c.arguments, a, b);
      Assoc3(NAME_OPEN + c.name + "\">\n" + PARAMETER, ParametersText(d, c.arguments, a), b);
    }
  }

  lemma {:induction false} CutConcat(d: Dumps, xs: seq<Call>, ys: seq<Call>)
    ensures CutText(d, xs + ys) == CutText(d, xs) + CutText(d, ys)
    decreases |xs|
  {
    hide CallText, INVOKE;
    if xs == [] {
      assert xs + ys == ys;
      assert "" + CutText(d, ys) == CutText(d, ys);
    } else {
      assert (xs + ys)[1..] == xs[1..] + ys;
      CutConcat(d, xs[1..], ys);
      CallAppend(d, xs[0], CutText(d, xs[1..]), CutText(d, ys));
      Append3(">\n", INVOKE, CallText(d, xs[0], CutText(d, xs[1..])), CutText(d, ys));
    }
  }

  lemma Append3(x: string, y: string, a: string, b: string)
    ensures x + (y + (a + b)) == (x + (y + a)) + b
  {
  }

  lemma {:induction false} BlockGoesOn(d: Dumps, calls: seq<Call>, tail: string)
    ensures BlockText(d, calls, tail) == CutText(d, calls) + (">\n" + (END_CALLS + tail))
    decreases |calls|
  {
    hide CallText, INVOKE, END_CALLS;
    var after := ">\n" + (END_CALLS + tail);
    if calls == [] {
      assert "" + after == after;
    } else {
      BlockGoesOn(d, calls[1..], tail);
      CallAppend(d, calls[0], CutText(d, calls[1..]), after);
      Append3(">\n", INVOKE, CallText(d, calls[0], CutText(d, calls[1..])), after);
    }
  }

  lemma {:induction false} ParseCut(d: Dumps, calls: seq<Call>, stop: Option<string>, done: seq<ParsedCall>)
    requires CallsOk(d, calls)
    ensures var r := ParseCalls(d, CutText(d, calls), stop, done);
            r.Ok? && r.value.value == done + ExpectedCalls(d, calls) && r.value.rest == ""
    decreases |calls|
  {
    hide ReadUntil, INVOKE, END_CALLS, END_INVOKE, CallText, ParseCall, CallOk;
    if calls == [] {
      assert done + [] == done;
    } else {
      var rest := CutText(d, calls[1..]);
      ReadNextTags(CallText(d, calls[0], rest));
      assert ">\n" + (INVOKE + CallText(d, calls[0], rest)) != "";
      ParseCallIs(d, calls[0], rest);
      ParseCut(d, calls[1..], Some(END_INVOKE), done + [Expected(d, calls[0])]);
      assert (done + [Expected(d, calls[0])]) + ExpectedCalls(d, calls[1..]) == done + ExpectedCalls(d, calls);
    }
  }

  lemma FirstCallsOk(d: Dumps, calls: seq<Call>, n: nat)
    requires CallsOk(d, calls) && n <= |calls|
    ensures CallsOk(d, calls[..n])
  {
    hide CallOk;
  }

  lemma CutBody(d: Dumps, reasoning: string, content: string, calls: seq<Call>)
    requires Clean(content) && Clean(reasoning) && CallsOk(d, calls)
    ensures ParseBody(d, content + (START_CALLS + CutText(d, calls)), reasoning)
            == Ok(Message(content, reasoning, ExpectedCalls(d, calls)))
  {
    CleanFree(content);
    StopsDiffer();
    hide EOS, START_CALLS, DSML, CutText, ReadUntil, Free, Clean, ParseCalls, CallsOk;
    ReadContentBeforeCalls(content, CutText(d, calls));
    Assoc3(content, START_CALLS, CutText(d, calls));
    ParseCut(d, calls, None, []);
    ReadEnd("");
    assert [] + ExpectedCalls(d, calls) == ExpectedCalls(d, calls);
  }

  /** A printed message that is cut after any of its calls, and before the end of its block,
      is accepted, with the calls up to there as if they were all. */
  lemma CutIsAccepted(d: Dumps, thinking: bool, reasoning: string, content: string, calls: seq<Call>, n: nat,
                      withoutEos: bool)
    requires Clean(content) && (thinking ==> Clean(reasoning)) && CallsOk(d, calls) && n <= |calls| && calls != []
    ensures var text := (if thinking then reasoning + END_THINK else "")
                        + (content + (START_CALLS + CutText(d, calls[..n])));
            && text <= PrintAssistant(d, thinking, reasoning, content, calls, withoutEos)
            && ParseMessage(d, text, thinking)
               == Ok(Message(content, if thinking then reasoning else "", ExpectedCalls(d, calls[..n])))
  {
    hide CutText, PrintBlock, BlockText, CallsOk, Clean, ParseReasoning, ParseBody, ExpectedCalls, START_CALLS,
        END_THINK, END_CALLS, EOS;
    var head := if thinking then reasoning + END_THINK else "";
    var cut := content + (START_CALLS + CutText(d, calls[..n]));
    FirstCallsOk(d, calls, n);
    EmptyClean();
    ParseReasoningIs(reasoning, cut, thinking);
    CutBody(d, if thinking then reasoning else "", content, calls[..n]);
    var tail := if withoutEos then "" else EOS;
    BlockShape(d, calls, tail);
    BlockGoesOn(d, calls, tail);
    CutConcat(d, calls[..n], calls[n..]);
    assert calls[..n] + calls[n..] == calls;
    Regroup4(head, content, PrintBlock(d, calls), tail);
    Assoc3(content, PrintBlock(d, calls), tail);
    Prefixed(head, content, START_CALLS, CutText(d, calls[..n]), CutText(d, calls[n..]), ">\n" + (END_CALLS + tail));
  }

  lemma Prefixed(a: string, b: string, c: string, e: string, f: string, g: string)
    ensures a + (b + (c + e)) <= a + (b + (c + ((e + f) + g)))
  {
    var x, y := a + (b + (c + e)), a + (b + (c + ((e + f) + g)));
    assert y == x + (f + g);
    assert y[..|x|] == x;
  }
}

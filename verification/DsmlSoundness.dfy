/**
 What the parser accepts: every text that it takes for a message is laid out as one, and
 the message is what stands in it.
 */
module DsmlSoundness {
  import opened Options
  import opened DsmlText
  import opened DsmlCodec

  // ---------------------------------------------------------------------
  // The layout
  // ---------------------------------------------------------------------

  predicate AllSpace(s: string) {
    forall k :: 0 <= k < |s| ==> IsSpace(s[k])
  }

  /** A parameter as it stands between its tags; the patterns let a newline pass at the end. */
  predicate SpellsParameter(text: string, p: Parameter) {
    var inside := NAME_OPEN + p.key + FlagText(p.isText) + p.value;
    text == inside + "<" || text == inside + "<\n"
  }

  /** The name of a call as it stands after its tag. */
  predicate SpellsName(text: string, name: string) {
    exists k :: 0 <= k <= |text| && AllSpace(text[..k]) && EndsName(text[k..], name)
  }

  predicate EndsName(text: string, name: string) {
    text == "name=\"" + name + "\">\n" || text == "name=\"" + name + "\">\n\n"
  }

  datatype Field = Field(p: Parameter, text: string)

  /** A call as it stands in a text; one that is not closed is the end of it. */
  datatype Spelled = Spelled(name: string, head: string, fields: seq<Field>, closed: bool)

  function FieldsText(fs: seq<Field>): string {
    if fs == [] then "" else PARAMETER + (fs[0].text + (END_PARAMETER + (">\n" + FieldsText(fs[1..]))))
  }

  function SpelledText(c: Spelled): string {
    INVOKE + (c.head + (FieldsText(c.fields) + if c.closed then END_INVOKE else ""))
  }

  function BlockText(cs: seq<Spelled>): string {
    if cs == [] then "" else ">\n" + (SpelledText(cs[0]) + BlockText(cs[1..]))
  }

  function Parameters(fs: seq<Field>): seq<Parameter> {
    if fs == [] then [] else [fs[0].p] + Parameters(fs[1..])
  }

  /** Each field is spelled as its parameter, with a key that none before has. */
  predicate FieldsOk(before: seq<Parameter>, fs: seq<Field>)
    decreases |fs|
  {
    fs != [] ==>
      SpellsParameter(fs[0].text, fs[0].p) && !HasKey(before, fs[0].p.key) && FieldsOk(before + [fs[0].p], fs[1..])
  }

  predicate SpelledOk(c: Spelled) {
    SpellsName(c.head, c.name) && FieldsOk([], c.fields)
  }

  /** Only the last call may be left open. */
  predicate BlockOk(cs: seq<Spelled>) {
    forall k :: 0 <= k < |cs| ==> SpelledOk(cs[k]) && (k < |cs| - 1 ==> cs[k].closed)
  }

  function Decoded(d: Dumps, cs: seq<Spelled>): seq<ParsedCall> {
    if cs == [] then []
    else [DecodeCall(d, cs[0].name, Parameters(cs[0].fields))] + Decoded(d, cs[1..])
  }

  /** How a message ends: at once, after a whole block of calls, or inside the block. */
  datatype Ending = Plain | Whole(eos: bool) | Cut

  function TailText(cs: seq<Spelled>, e: Ending): string {
    match e
    case Plain => EOS
    case Whole(eos) => START_CALLS + (BlockText(cs) + (">\n" + (END_CALLS + if eos then EOS else "")))
    case Cut => START_CALLS + BlockText(cs)
  }

  /** The text is laid out as the message. */
  predicate Spells(d: Dumps, text: string, thinking: bool, m: Message, cs: seq<Spelled>, e: Ending) {
    && text == (if thinking then m.reasoning + END_THINK else "") + (m.content + TailText(cs, e))
    && (thinking || m.reasoning == "") && Clean(m.content) && Clean(m.reasoning)
    && BlockOk(cs) && m.calls == Decoded(d, cs)
    && (e.Plain? ==> cs == []) && (e.Whole? ==> cs == [] || cs[|cs| - 1].closed)
  }

  // ---------------------------------------------------------------------
  // The patterns
  // ---------------------------------------------------------------------

  lemma DroppedPrefix(s: string, pre: string)
    ensures DropPrefix(s, pre).Some? ==> s == pre + DropPrefix(s, pre).value
  {
  }

  lemma DroppedSuffix(s: string, post: string)
    ensures DropSuffix(s, post).Some? ==> s == DropSuffix(s, post).value + post
  {
  }

  lemma {:induction false} SkippedSpace(s: string) returns (k: nat)
    ensures k <= |s| && AllSpace(s[..k]) && SkipSpace(s) == s[k..]
  {
    if s != "" && IsSpace(s[0]) {
      var j := SkippedSpace(s[1..]);
      k := j + 1;
      assert s[..k] == [s[0]] + s[1..][..j] && s[k..] == s[1..][j..];
    } else {
      k := 0;
    }
  }

  lemma MatchedName(s: string)
    ensures MatchName(s).Some? ==> SpellsName(s, MatchName(s).value)
  {
    if MatchName(s).Some? {
      var name := MatchName(s).value;
      var k := SkippedSpace(s);
      DroppedPrefix(s[k..], "name=\"");
      var t := DropPrefix(s[k..], "name=\"").value;
      DroppedSuffix(t, "\">\n\n");
      DroppedSuffix(t, "\">\n");
      assert EndsName(s[k..], name);
    }
  }

  lemma MatchedValue(s: string)
    ensures MatchValue(s).Some? ==> s == MatchValue(s).value + "<" || s == MatchValue(s).value + "<\n"
  {
    DroppedSuffix(s, "<\n");
    DroppedSuffix(s, "<");
  }

  predicate AfterName(s: string, p: Parameter) {
    var inside := p.key + FlagText(p.isText) + p.value;
    s == inside + "<" || s == inside + "<\n"
  }

  lemma FlagAndValue(s: string, k: nat, flag: string)
    requires k <= |s| && DropPrefix(s[k..], flag).Some?
    ensures var v := MatchValue(DropPrefix(s[k..], flag).value);
            v.Some? ==> s == s[..k] + flag + v.value + "<" || s == s[..k] + flag + v.value + "<\n"
  {
    hide MatchValue, DropPrefix;
    var t := DropPrefix(s[k..], flag).value;
    DroppedPrefix(s[k..], flag);
    MatchedValue(t);
    assert s == s[..k] + (flag + t);
    var v := MatchValue(t);
    if v.Some? {
      Grouped(s[..k], flag, v.value, "<");
      Grouped(s[..k], flag, v.value, "<\n");
    }
  }

  lemma Grouped(a: string, b: string, c: string, e: string)
    ensures a + (b + (c + e)) == a + b + c + e
  {
  }

  lemma {:induction false} MatchedFlag(s: string, k: nat)
    ensures MatchFlag(s, k).Some? ==> AfterName(s, MatchFlag(s, k).value)
    decreases |s| - k
  {
    hide MatchValue, DropPrefix;
    if k <= |s| {
      var yes := DropPrefix(s[k..], TRUE_FLAG);
      var no := DropPrefix(s[k..], FALSE_FLAG);
      if yes.Some? {
        FlagAndValue(s, k, TRUE_FLAG);
      }
      if no.Some? {
        FlagAndValue(s, k, FALSE_FLAG);
      }
      if !(yes.Some? && MatchValue(yes.value).Some?) && !(no.Some? && MatchValue(no.value).Some?) {
        MatchedFlag(s, k + 1);
      }
    }
  }

  lemma MatchedParameter(s: string)
    ensures MatchParameter(s).Some? ==> SpellsParameter(s, MatchParameter(s).value)
  {
    if MatchParameter(s).Some? {
      var t := DropPrefix(s, NAME_OPEN).value;
      var p := MatchParameter(s).value;
      DroppedPrefix(s, NAME_OPEN);
      MatchedFlag(t, 0);
      Regroup(NAME_OPEN, p.key, FlagText(p.isText), p.value, "<");
      Regroup(NAME_OPEN, p.key, FlagText(p.isText), p.value, "<\n");
    }
  }

  lemma Regroup(a: string, b: string, c: string, e: string, f: string)
    ensures a + (b + c + e + f) == a + b + c + e + f
  {
  }

  // ---------------------------------------------------------------------
  // The loops
  // ---------------------------------------------------------------------

  /** The stop that was read is one of those asked for; without one all was read. */
  lemma StopOf(text: string, stops: seq<string>)
    ensures var r := ReadUntil(text, stops);
            && (r.stop.Some? ==> r.stop.value in stops && text == r.content + (r.stop.value + r.rest))
            && (r.stop.None? ==> r.content == text && r.rest == "")
  {
    NearestStop(text, stops, Hit(|text|, None));
    var r := ReadUntil(text, stops);
    if r.stop.Some? {
      assert r.content + r.stop.value + r.rest == r.content + (r.stop.value + r.rest);
    }
  }

  function StopText(stop: Option<string>): string {
    if stop.Some? then stop.value else ""
  }

  /** The first parameter: its tags, its pattern, its new key, and what follows it. */
  lemma FirstParameter(text: string, ps: seq<Parameter>)
    requires ParseParameters(text, ps).Ok?
    ensures var r1 := ReadUntil(text, [END_PARAMETER]);
            var r2 := ReadUntil(r1.rest, [PARAMETER, END_INVOKE]);
            && MatchParameter(r1.content).Some?
            && var p := MatchParameter(r1.content).value;
               && SpellsParameter(r1.content, p) && !HasKey(ps, p.key)
               && text == r1.content + (END_PARAMETER + (">\n" + (StopText(r2.stop) + r2.rest)))
               && r2.stop in {None, Some(PARAMETER), Some(END_INVOKE)} && (r2.stop.None? ==> r2.rest == "")
               && |r2.rest| < |text|
               && ParseParameters(text, ps) == if r2.stop == Some(PARAMETER) then ParseParameters(r2.rest, ps + [p])
                                               else Ok(Left(ps + [p], r2.stop, r2.rest))
  {
    var r1 := ReadUntil(text, [END_PARAMETER]);
    var r2 := ReadUntil(r1.rest, [PARAMETER, END_INVOKE]);
    StopOf(text, [END_PARAMETER]);
    StopOf(r1.rest, [PARAMETER, END_INVOKE]);
    MatchedParameter(r1.content);
    hide ReadUntil, MatchParameter, SpellsParameter;
    assert r2.content == ">\n" && r1.stop.Some?;
    assert r2.stop.None? ==> ">\n" + ("" + "") == ">\n";
  }

  lemma {:induction false} ParametersSpelled(text: string, ps: seq<Parameter>) returns (fs: seq<Field>)
    requires ParseParameters(text, ps).Ok?
    ensures var l := ParseParameters(text, ps).value;
            && l.stop in {None, Some(END_INVOKE)} && (l.stop.None? ==> l.rest == "")
            && FieldsOk(ps, fs) && l.value == ps + Parameters(fs)
            && PARAMETER + text == FieldsText(fs) + (StopText(l.stop) + l.rest)
    decreases |text|
  {
    FirstParameter(text, ps);
    TagsDiffer();
    hide ReadUntil, MatchParameter, SpellsParameter, ParseParameters, FieldsText, HasKey;
    var l := ParseParameters(text, ps).value;
    var r1 := ReadUntil(text, [END_PARAMETER]);
    var p := MatchParameter(r1.content).value;
    var r2 := ReadUntil(r1.rest, [PARAMETER, END_INVOKE]);
    var f := Field(p, r1.content);
    if r2.stop == Some(PARAMETER) {
      var rest := ParametersSpelled(r2.rest, ps + [p]);
      fs := [f] + rest;
      FieldText(f, rest, StopText(l.stop) + l.rest, text, r2.rest);
      MoreFields(ps, f, rest);
    } else {
      fs := [f] + [];
      NoFields();
      MoreFields(ps, f, []);
      LastFieldText(f, StopText(l.stop) + l.rest, text);
    }
  }

  lemma NoFields()
    ensures FieldsText([]) == "" && Parameters([]) == []
  {
  }

  lemma MoreFields(ps: seq<Parameter>, f: Field, fs: seq<Field>)
    ensures SpellsParameter(f.text, f.p) && !HasKey(ps, f.p.key) && FieldsOk(ps + [f.p], fs) ==> FieldsOk(ps, [f] + fs)
    ensures ps + Parameters([f] + fs) == ps + [f.p] + Parameters(fs)
    ensures ps + [f.p] + Parameters([]) == ps + [f.p] && FieldsOk(ps + [f.p], [])
  {
    assert ([f] + fs)[1..] == fs;
    hide SpellsParameter, HasKey;
  }

  lemma TagsDiffer()
    ensures PARAMETER != END_INVOKE && END_PARAMETER != "" && INVOKE != END_CALLS
  {
    assert PARAMETER[1] != END_INVOKE[1] && INVOKE[1] != END_CALLS[1];
  }

  lemma FieldText(f: Field, fs: seq<Field>, after: string, text: string, rest: string)
    requires text == f.text + (END_PARAMETER + (">\n" + (PARAMETER + rest)))
    requires PARAMETER + rest == FieldsText(fs) + after
    ensures PARAMETER + text == FieldsText([f] + fs) + after
  {
    assert ([f] + fs)[1..] == fs;
    hide FieldsText;
    Five(PARAMETER, f.text, END_PARAMETER, ">\n", FieldsText(fs), after);
  }

  lemma Five(a: string, b: string, c: string, e: string, f: string, g: string)
    ensures a + (b + (c + (e + (f + g)))) == (a + (b + (c + (e + f)))) + g
  {
  }

  lemma LastFieldText(f: Field, after: string, text: string)
    requires text == f.text + (END_PARAMETER + (">\n" + after))
    ensures PARAMETER + text == FieldsText([f] + []) + after
  {
    assert ([f] + [])[1..] == [];
    assert FieldsText([]) == "";
    Five(PARAMETER, f.text, END_PARAMETER, ">\n", "", after);
    assert "" + after == after;
  }

  // ---------------------------------------------------------------------
  // Calls
  // ---------------------------------------------------------------------

  lemma CallSpelled(d: Dumps, text: string) returns (c: Spelled)
    requires ParseCall(d, text).Ok?
    ensures var l := ParseCall(d, text).value;
            && SpelledOk(c) && l.value == DecodeCall(d, c.name, Parameters(c.fields))
            && (c.closed <==> l.stop == Some(END_INVOKE)) && (!c.closed ==> l.rest == "")
            && INVOKE + text == SpelledText(c) + l.rest
  {
    var r := ReadUntil(text, [PARAMETER, END_INVOKE]);
    StopOf(text, [PARAMETER, END_INVOKE]);
    MatchedName(r.content);
    TagsDiffer();
    NoFields();
    hide ReadUntil, MatchName, SpellsName, ParseParameters, DecodeCall, FieldsText;
    var l := ParseCall(d, text).value;
    var name := MatchName(r.content).value;
    if r.stop == Some(PARAMETER) {
      var fs := ParametersSpelled(r.rest, []);
      assert [] + Parameters(fs) == Parameters(fs);
      c := Spelled(name, r.content, fs, l.stop.Some?);
      CallText(c, l.stop, text, l.rest);
    } else {
      c := Spelled(name, r.content, [], l.stop.Some?);
      assert text == r.content + (StopText(l.stop) + l.rest);
      assert "" + (StopText(l.stop) + l.rest) == StopText(l.stop) + l.rest;
      CallText(c, l.stop, text, l.rest);
    }
  }

  lemma CallText(c: Spelled, stop: Option<string>, text: string, rest: string)
    requires text == c.head + (FieldsText(c.fields) + (StopText(stop) + rest))
    requires stop in {None, Some(END_INVOKE)} && c.closed == stop.Some?
    ensures INVOKE + text == SpelledText(c) + rest
  {
    hide FieldsText;
    Four(INVOKE, c.head, FieldsText(c.fields), StopText(stop), rest);
  }

  lemma Four(a: string, b: string, c: string, e: string, f: string)
    ensures a + (b + (c + (e + f))) == (a + (b + (c + e))) + f
  {
  }

  function BlockEnd(stop: Option<string>): string {
    if stop == Some(END_CALLS) then ">\n" + END_CALLS else ""
  }

  lemma FirstCall(d: Dumps, text: string, stop: Option<string>, calls: seq<ParsedCall>)
    requires ParseCalls(d, text, stop, calls).Ok? && text != ""
    ensures var r := ReadUntil(text, [INVOKE, END_CALLS]);
            if r.stop == Some(END_CALLS) then
              && text == ">\n" + (END_CALLS + r.rest)
              && ParseCalls(d, text, stop, calls) == Ok(Left(calls, r.stop, r.rest))
            else
              && text == ">\n" + (INVOKE + r.rest) && ParseCall(d, r.rest).Ok?
              && var l := ParseCall(d, r.rest).value;
                 && |l.rest| < |text|
                 && ParseCalls(d, text, stop, calls) == ParseCalls(d, l.rest, l.stop, calls + [l.value])
  {
    StopOf(text, [INVOKE, END_CALLS]);
    TagsDiffer();
    hide ReadUntil, ParseCall;
  }

  lemma {:induction false} CallsSpelled(d: Dumps, text: string, stop: Option<string>, calls: seq<ParsedCall>)
    returns (cs: seq<Spelled>, whole: bool)
    requires ParseCalls(d, text, stop, calls).Ok?
    ensures var l := ParseCalls(d, text, stop, calls).value;
            && BlockOk(cs) && l.value == calls + Decoded(d, cs) && (!whole ==> l.rest == "")
            && (whole && cs != [] ==> cs[|cs| - 1].closed)
            && text == BlockText(cs) + ((if whole then ">\n" + END_CALLS else "") + l.rest)
    decreases |text|
  {
    hide ReadUntil, ParseCalls, ParseCall, DecodeCall, SpelledText, SpelledOk;
    var l := ParseCalls(d, text, stop, calls).value;
    NoCalls(d, calls);
    if text == "" {
      cs, whole := [], false;
      EndOfText(d, stop, calls);
    } else {
      FirstCall(d, text, stop, calls);
      var r := ReadUntil(text, [INVOKE, END_CALLS]);
      if r.stop == Some(END_CALLS) {
        cs, whole := [], true;
        assert ">\n" + (END_CALLS + r.rest) == "" + ((">\n" + END_CALLS) + r.rest);
      } else {
        var one := ParseCall(d, r.rest).value;
        var c := CallSpelled(d, r.rest);
        var rest, w := CallsSpelled(d, one.rest, one.stop, calls + [one.value]);
        cs, whole := [c] + rest, w;
        if !c.closed {
          NothingAfter(rest, w, l.rest);
        }
        MoreCalls(d, calls, c, rest, (if w then ">\n" + END_CALLS else "") + l.rest, text, one.rest);
      }
    }
  }

  lemma NoCalls(d: Dumps, calls: seq<ParsedCall>)
    ensures BlockOk([]) && BlockText([]) == "" && calls + Decoded(d, []) == calls
  {
  }

  lemma EndOfText(d: Dumps, stop: Option<string>, calls: seq<ParsedCall>)
    ensures ParseCalls(d, "", stop, calls) == Ok(Left(calls, stop, ""))
  {
  }

  /** Nothing follows a call that is not closed. */
  lemma NothingAfter(cs: seq<Spelled>, whole: bool, rest: string)
    requires "" == BlockText(cs) + ((if whole then ">\n" + END_CALLS else "") + rest)
    ensures cs == [] && !whole
  {
    hide SpelledText;
    assert |BlockText(cs)| == 0;
  }

  lemma MoreCalls(d: Dumps, calls: seq<ParsedCall>, c: Spelled, cs: seq<Spelled>, after: string, text: string,
                  rest: string)
    requires SpelledOk(c) && BlockOk(cs) && (cs == [] || c.closed)
    requires rest == BlockText(cs) + after && text == ">\n" + (SpelledText(c) + rest)
    ensures var all := [c] + cs;
            && BlockOk(all) && text == BlockText(all) + after
            && calls + Decoded(d, all) == calls + [DecodeCall(d, c.name, Parameters(c.fields))] + Decoded(d, cs)
  {
    hide SpelledText, SpelledOk, DecodeCall;
    var all := [c] + cs;
    assert all[1..] == cs;
    assert forall k :: 0 <= k < |all| ==> all[k] == if k == 0 then c else cs[k - 1];
    Three(">\n", SpelledText(c), BlockText(cs), after);
  }

  lemma Three(a: string, b: string, c: string, e: string)
    ensures a + (b + (c + e)) == (a + (b + c)) + e
  {
  }

  // ---------------------------------------------------------------------
  // The message
  // ---------------------------------------------------------------------

  /** The calls with what follows them, up to the end of the text. */
  lemma TailSpelled(d: Dumps, text: string) returns (cs: seq<Spelled>, e: Ending)
    requires ParseTail(d, text).Ok?
    requires var l := ParseTail(d, text).value; l.rest == ""
    ensures var l := ParseTail(d, text).value;
            && BlockOk(cs) && l.value == Decoded(d, cs) && !e.Plain?
            && (e.Whole? && cs != [] ==> cs[|cs| - 1].closed)
            && START_CALLS + text == TailText(cs, e)
  {
    hide ReadUntil, ParseCalls, SpelledOk, BlockText, BlockOk, Decoded;
    var whole;
    cs, whole := CallsSpelled(d, text, None, []);
    var l := ParseCalls(d, text, None, []).value;
    var r := ReadUntil(l.rest, [EOS]);
    assert [] + Decoded(d, cs) == Decoded(d, cs);
    EndOfCalls(l.rest);
    e := if whole then Whole(r.stop.Some?) else Cut;
    TailIs(cs, whole, l.rest);
  }

  lemma EndOfCalls(text: string)
    requires var r := ReadUntil(text, [EOS]); r.content == "" && r.rest == ""
    ensures text == if ReadUntil(text, [EOS]).stop.Some? then EOS else ""
    ensures text == "" ==> ReadUntil(text, [EOS]).stop.None?
  {
    StopOf(text, [EOS]);
    NoEosInNothing();
    hide ReadUntil;
    assert "" + (EOS + "") == EOS;
  }

  lemma TailIs(cs: seq<Spelled>, whole: bool, rest: string)
    requires rest == "" || rest == EOS
    ensures whole ==> START_CALLS + (BlockText(cs) + ((">\n" + END_CALLS) + rest)) == TailText(cs, Whole(rest == EOS))
    ensures START_CALLS + (BlockText(cs) + ("" + "")) == TailText(cs, Cut)
  {
    hide BlockText;
    assert (">\n" + END_CALLS) + rest == ">\n" + (END_CALLS + rest);
    assert BlockText(cs) + ("" + "") == BlockText(cs);
    assert EOS != "";
  }

  lemma NoEosInNothing()
    ensures ReadUntil("", [EOS]).stop.None?
  {
    StopOf("", [EOS]);
    assert EOS != "";
  }

  lemma BodySpelled(d: Dumps, text: string, reasoning: string) returns (cs: seq<Spelled>, e: Ending)
    requires ParseBody(d, text, reasoning).Ok?
    ensures var m := ParseBody(d, text, reasoning).value;
            && m.reasoning == reasoning && Clean(m.content) && Clean(reasoning)
            && text == m.content + TailText(cs, e)
            && BlockOk(cs) && m.calls == Decoded(d, cs)
            && (e.Plain? ==> cs == []) && (e.Whole? ==> cs == [] || cs[|cs| - 1].closed)
  {
    hide ReadUntil, ParseTail, SpelledOk, BlockText, Clean;
    StopOf(text, [EOS, START_CALLS]);
    var r := ReadUntil(text, [EOS, START_CALLS]);
    if r.stop == Some(START_CALLS) {
      cs, e := TailSpelled(d, r.rest);
    } else {
      cs, e := [], Plain;
      assert EOS + "" == EOS;
    }
  }

  /** Whatever the parser takes for a message is laid out as one: reasoning, content, calls and
      end stand in the text one after the other, each call as its name and its parameters,
      no key twice; and nothing else does. */
  lemma AcceptedIsSpelled(d: Dumps, text: string, thinking: bool) returns (cs: seq<Spelled>, e: Ending)
    requires ParseMessage(d, text, thinking).Ok?
    ensures Spells(d, text, thinking, ParseMessage(d, text, thinking).value, cs, e)
  {
    var head := ParseReasoning(text, thinking).value;
    StopOf(text, [END_THINK, START_CALLS]);
    hide ReadUntil, ParseBody, BlockOk, TailText, Clean, Decoded;
    cs, e := BodySpelled(d, head.rest, head.value);
    assert "" + head.rest == head.rest;
    if thinking {
      assert text == head.value + (END_THINK + head.rest) == (head.value + END_THINK) + head.rest;
    }
  }

  // ---------------------------------------------------------------------
  // Complete messages
  // ---------------------------------------------------------------------

  predicate Last(s: string, c: char) {
    s != "" && s[|s| - 1] == c
  }

  lemma LastOf(a: string, b: string, c: char)
    requires Last(b, c)
    ensures Last(a + b, c)
  {
  }

  lemma HeadEnds(c: Spelled)
    requires SpelledOk(c)
    ensures Last(c.head, '\n')
  {
    var k :| 0 <= k <= |c.head| && AllSpace(c.head[..k]) && EndsName(c.head[k..], c.name);
    assert Last(c.head[k..], '\n');
    LastOf(c.head[..k], c.head[k..], '\n');
    assert c.head == c.head[..k] + c.head[k..];
  }

  lemma {:induction false} FieldsEnd(fs: seq<Field>)
    requires fs != []
    ensures Last(FieldsText(fs), '\n')
  {
    var f, rest := fs[0], FieldsText(fs[1..]);
    if fs[1..] != [] {
      FieldsEnd(fs[1..]);
      LastOf(">\n", rest, '\n');
    } else {
      assert ">\n" + rest == ">\n";
    }
    LastOf(END_PARAMETER, ">\n" + rest, '\n');
    LastOf(f.text, END_PARAMETER + (">\n" + rest), '\n');
    LastOf(PARAMETER, f.text + (END_PARAMETER + (">\n" + rest)), '\n');
  }

  lemma SpelledEnds(c: Spelled)
    requires SpelledOk(c)
    ensures Last(SpelledText(c), if c.closed then 'e' else '\n')
  {
    HeadEnds(c);
    hide SpelledOk, FieldsText;
    if c.closed {
      assert Last(END_INVOKE, 'e');
      LastOf(FieldsText(c.fields), END_INVOKE, 'e');
      LastOf(c.head, FieldsText(c.fields) + END_INVOKE, 'e');
      LastOf(INVOKE, c.head + (FieldsText(c.fields) + END_INVOKE), 'e');
    } else if c.fields == [] {
      NoFields();
      assert c.head + ("" + "") == c.head;
      LastOf(INVOKE, c.head, '\n');
    } else {
      FieldsEnd(c.fields);
      assert FieldsText(c.fields) + "" == FieldsText(c.fields);
      LastOf(c.head, FieldsText(c.fields), '\n');
      LastOf(INVOKE, c.head + FieldsText(c.fields), '\n');
    }
  }

  lemma {:induction false} BlockEnds(cs: seq<Spelled>)
    requires BlockOk(cs) && cs != []
    ensures Last(BlockText(cs), 'e') || Last(BlockText(cs), '\n')
  {
    SpelledEnds(cs[0]);
    hide SpelledText, SpelledOk;
    var c := if cs[0].closed then 'e' else '\n';
    if cs[1..] == [] {
      assert SpelledText(cs[0]) + "" == SpelledText(cs[0]);
      LastOf(">\n", SpelledText(cs[0]), c);
    } else {
      assert BlockOk(cs[1..]) by {
        assert forall k :: 0 <= k < |cs[1..]| ==> cs[1..][k] == cs[k + 1];
      }
      BlockEnds(cs[1..]);
      c := if Last(BlockText(cs[1..]), 'e') then 'e' else '\n';
      LastOf(SpelledText(cs[0]), BlockText(cs[1..]), c);
      LastOf(">\n", SpelledText(cs[0]) + BlockText(cs[1..]), c);
    }
  }

  predicate EndsWithEos(text: string) {
    |EOS| <= |text| && text[|text| - |EOS|..] == EOS
  }

  lemma EosOf(a: string, b: string)
    requires |b| >= 2
    ensures EndsWithEos(b) ==> EndsWithEos(a + b)
    ensures Last(a + b, b[|b| - 1]) && (a + b)[|a + b| - 2] == b[|b| - 2]
  {
    if EndsWithEos(b) {
      assert (a + b)[|a + b| - |EOS|..] == b[|b| - |EOS|..];
    }
  }

  lemma NotEos(text: string)
    ensures EndsWithEos(text) ==> |text| >= 2 && Last(text, '>') && text[|text| - 2] == '｜'
  {
    if EndsWithEos(text) {
      var n := |text| - |EOS|;
      assert text[n..][|EOS| - 1] == text[|text| - 1] && text[n..][|EOS| - 2] == text[|text| - 2];
    }
  }

  /** A message accepted is whole exactly if it ends with the end-of-sentence token. */
  lemma CompleteIff(d: Dumps, text: string, thinking: bool) returns (cs: seq<Spelled>, e: Ending)
    requires ParseMessage(d, text, thinking).Ok?
    ensures Spells(d, text, thinking, ParseMessage(d, text, thinking).value, cs, e)
    ensures EndsWithEos(text) <==> e.Plain? || e == Whole(true)
  {
    cs, e := AcceptedIsSpelled(d, text, thinking);
    var m := ParseMessage(d, text, thinking).value;
    var tail := TailText(cs, e);
    var front := (if thinking then m.reasoning + END_THINK else "") + m.content;
    assert text == front + tail;
    TailEnds(cs, e);
    NotEos(text);
    hide TailText, ParseMessage, Spells, EndsWithEos;
    EosOf(front, tail);
  }

  lemma TailEnds(cs: seq<Spelled>, e: Ending)
    requires BlockOk(cs)
    ensures var tail := TailText(cs, e);
            && |tail| >= 2
            && if e.Plain? || e == Whole(true) then EndsWithEos(tail)
               else !Last(tail, '>') || tail[|tail| - 2] != '｜'
  {
    hide BlockText;
    match e
    case Plain =>
    case Whole(eos) =>
      var last := END_CALLS + if eos then EOS else "";
      var front := START_CALLS + (BlockText(cs) + ">\n");
      assert TailText(cs, e) == front + last;
      if eos {
        assert last[|last| - |EOS|..] == EOS;
      } else {
        assert last == END_CALLS;
      }
      EosOf(front, last);
    case Cut =>
      if cs == [] {
        NoBlock();
        assert START_CALLS + "" == START_CALLS;
      } else {
        BlockEnds(cs);
        LastOf(START_CALLS, BlockText(cs), if Last(BlockText(cs), 'e') then 'e' else '\n');
      }
  }

  lemma NoBlock()
    ensures BlockText([]) == ""
  {
  }
}

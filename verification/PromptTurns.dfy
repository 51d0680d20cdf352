/**
 One turn of a conversation: the prompt hands over to the assistant, and what the
 assistant's message adds to the prompt is a completion that parses back to it.
 */
module PromptTurns {
  import opened Options
  import opened PromptMessages
  import opened PromptEncoding
  import opened PromptStability
  import DsmlCodec
  import DsmlRoundTrip
  import DsmlTheorem

  /** The prepared context ends with a message that has no task. */
  predicate EndsPlain(context: seq<Message>) {
    var c := PreparedContext(context);
    c != [] && c[|c| - 1].task.None?
  }

  /** What the parser is to find in a completion. */
  function ExpectedMessage(s: Style, m: Message): DsmlCodec.Result<DsmlCodec.Message> {
    var calls := CallsOf(m.calls);
    if m.withoutEos && calls == [] then DsmlCodec.Err(DsmlCodec.MissingEos)
    else
      DsmlCodec.Ok(DsmlCodec.Message(OrEmpty(m.content), if s.thinking then m.reasoning else "",
                                     DsmlTheorem.ExpectedCalls(s.texts.dumps, calls)))
  }

  lemma PreparedOne(m: Message, context: seq<Message>)
    requires m.role == Assistant
    ensures Prepared([m], context) == [m]
  {
    assert [m][..0] == [];
    assert Merge([m]) == [m];
    assert (context + [m])[..|context|] == context;
  }

  /** What an assistant message adds to a prompt. */
  function Completion(s: Style, m: Message): string {
    DsmlCodec.PrintAssistant(s.texts.dumps, s.thinking, m.reasoning, OrEmpty(m.content), CallsOf(m.calls), m.withoutEos)
  }

  lemma PrintCompletion(s: Style, m: Message, a: Around)
    requires m.role == Assistant && m.task.None? && s.texts.effort(s.effort).Some?
    requires !a.first && !a.afterTask && (s.thinking ==> a.keeps)
    ensures Print(s, m, a) == Ok(Completion(s, m))
  {
    hide DsmlCodec.PrintAssistant, CallsOf;
  }

  lemma EncodeCompletion(s: Style, context: seq<Message>, m: Message, drop: bool, bos: bool)
    requires context != [] && EndsPlain(context) && KeepsReasoning(s, context, drop)
    requires m.role == Assistant && m.task.None? && s.texts.effort(s.effort).Some?
    ensures Encode(s, [m], context, drop, bos) == Ok(Completion(s, m))
  {
    var c := PreparedContext(context);
    PreparedOne(m, context);
    ToolsStay(c, [m]);
    var full, drops := c + [m], drop && !HasTools(c + [m]);
    assert PlanOf(s, [m], context, drop) == Plan(full, drops, |c|);
    EncodeIs(s, [m], context, drop, bos, Plan(full, drops, |c|));
    PrintCompletion(s, m, AroundAt(full, drops, |c|));
    hide PlanOf, Encode, PreparedContext, Prepared, Print, HasTools, Completion, DsmlCodec.BOS;
    assert Render(s, full, drops, |c|, |full|) ==
          Then(Render(s, full, drops, |c|, |c|), RenderMessage(s, full, drops, |c|));
    assert full[|c|] == m;
  }

  /** For every context and assistant message that follows it: encoding them together is
      the prompt of the context followed by a completion, and parsing that completion
      gives the message back. */
  lemma TurnComesBack(s: Style, context: seq<Message>, m: Message, drop: bool, bos: bool)
    requires context != [] && EndsPlain(context) && KeepsReasoning(s, context, drop)
    requires m.role == Assistant && m.task.None? && s.texts.effort(s.effort).Some?
    requires DsmlCodec.Clean(OrEmpty(m.content)) && (s.thinking ==> DsmlCodec.Clean(m.reasoning))
    requires DsmlRoundTrip.CallsOk(s.texts.dumps, CallsOf(m.calls))
    ensures Encode(s, context + [m], [], drop, bos) == Then(Encode(s, context, [], drop, bos), Ok(Completion(s, m)))
    ensures DsmlCodec.ParseMessage(s.texts.dumps, Completion(s, m), s.thinking) == ExpectedMessage(s, m)
  {
    PrefixIsStable(s, context, [m], drop, bos, bos);
    EncodeCompletion(s, context, m, drop, bos);
    DsmlTheorem.RoundTrip(s.texts.dumps, s.thinking, m.reasoning, OrEmpty(m.content), CallsOf(m.calls), m.withoutEos);
    hide Encode, Then, DsmlCodec.ParseMessage, DsmlCodec.PrintAssistant, DsmlRoundTrip.CallsOk, DsmlCodec.Clean;
  }

  predicate EndsWith(text: string, suffix: string) {
    |suffix| <= |text| && text[|text| - |suffix|..] == suffix
  }

  /** What the prompt ends with when the assistant is asked. */
  function HandOver(s: Style): string {
    ASSISTANT + if s.thinking then DsmlCodec.THINK else DsmlCodec.END_THINK
  }

  lemma EndsWithConcat(a: string, b: string, suffix: string)
    requires EndsWith(b, suffix)
    ensures EndsWith(a + b, suffix)
  {
    assert (a + b)[|a + b| - |suffix|..] == b[|b| - |suffix|..];
  }

  lemma ThenEnds(a: Result, b: Result, suffix: string)
    requires Then(a, b).Ok? && EndsWith(b.text, suffix)
    ensures EndsWith(Then(a, b).text, suffix)
  {
    EndsWithConcat(a.text, b.text, suffix);
  }

  lemma PrintEnds(s: Style, m: Message, a: Around)
    requires Asks(m) && m.task.None? && a.transition && (s.thinking ==> a.opens) && Print(s, m, a).Ok?
    ensures EndsWith(Print(s, m, a).text, HandOver(s))
  {
    var body := Body(s, m, a);
    assert Transition(s, m, a) == Ok(HandOver(s));
    var start := Ok(if a.first && s.thinking then s.texts.effort(s.effort).value else "");
    assert Print(s, m, a) == Then(start, Then(body, Ok(HandOver(s))));
    hide Print, Body, HandOver, Transition;
    ThenEnds(body, Ok(HandOver(s)), HandOver(s));
    ThenEnds(start, Then(body, Ok(HandOver(s))), HandOver(s));
  }

  /** When the last to speak asks, the prompt hands over: with the thinking token in
      thinking mode, where the completion is then parsed for reasoning, and with the end
      of thinking otherwise. */
  lemma PromptHandsOver(s: Style, context: seq<Message>, drop: bool, bos: bool)
    requires context != [] && EndsPlain(context) && KeepsReasoning(s, context, drop)
    requires !Quiet(context[|context| - 1]) && Encode(s, context, [], drop, bos).Ok?
    ensures EndsWith(Encode(s, context, [], drop, bos).text, HandOver(s))
  {
    var c := PreparedContext(context);
    var n := |c| - 1;
    NoisyStays(context);
    PreparedAlone(context);
    EmptyContext([]);
    assert [] + c == c;
    var drops := drop && !HasTools(c);
    assert PlanOf(s, context, [], drop) == Plan(c, drops, 0);
    hide PlanOf, Prepared, PreparedContext, HasTools, HandOver, DsmlCodec.BOS;
    EncodeIs(s, context, [], drop, bos, Plan(c, drops, 0));
    assert Render(s, c, drops, 0, |c|) == Then(Render(s, c, drops, 0, n), RenderMessage(s, c, drops, n));
    hide Render, Encode;
    ThenLength(Start([], bos), Render(s, c, drops, 0, |c|));
    ThenLength(Render(s, c, drops, 0, n), RenderMessage(s, c, drops, n));
    hide Print, Then;
    PrintEnds(s, c[n], AroundAt(c, drops, n));
    ThenEnds(Render(s, c, drops, 0, n), RenderMessage(s, c, drops, n), HandOver(s));
    ThenEnds(Start([], bos), Render(s, c, drops, 0, |c|), HandOver(s));
  }
}

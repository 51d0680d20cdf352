/**
 Printing a conversation as a prompt, and the law by which a prompt is extended: what
 was printed before stays a prefix of what is printed after.
 */
module PromptEncoding {
  import opened Options
  import DsmlCodec
  import opened PromptMessages

  datatype Error = EmptyDeveloper | ToolRole | UnknownRole | InvalidTask | InvalidEffort

  datatype Result = Ok(text: string) | Err(error: Error)

  /** The fixed texts of the prompt that are not part of the message format: the JSON
      printer, the tool section, the response format section, and the text of each
      reasoning effort. */
  datatype Texts = Texts(dumps: DsmlCodec.Dumps, tools: seq<Schema> -> string, format: string -> string,
                         effort: string -> Option<string>)

  /** How a conversation is printed. */
  datatype Style = Style(texts: Texts, thinking: bool, effort: string)

  const USER := "<｜User｜>"
  const ASSISTANT := "<｜Assistant｜>"
  const REMINDER := "<｜latest_reminder｜>"

  /** The tokens of the internal classification tasks. */
  function TaskToken(task: string): Option<string> {
    if task == "action" then Some("<｜action｜>")
    else if task == "query" then Some("<｜query｜>")
    else if task == "authority" then Some("<｜authority｜>")
    else if task == "domain" then Some("<｜domain｜>")
    else if task == "title" then Some("<｜title｜>")
    else if task == "read_url" then Some("<｜read_url｜>")
    else None
  }

  predicate Asks(m: Message) {
    m.role == User || m.role == Developer
  }

  /** The last user or developer message, or -1. */
  function LastUser(msgs: seq<Message>): (r: int)
    ensures -1 <= r < |msgs|
  {
    if msgs == [] then -1
    else if Asks(msgs[|msgs| - 1]) then |msgs| - 1
    else LastUser(msgs[..|msgs| - 1])
  }

  lemma {:induction false} LastUserIsLast(msgs: seq<Message>)
    ensures LastUser(msgs) >= 0 ==> Asks(msgs[LastUser(msgs)])
    ensures forall k :: LastUser(msgs) < k < |msgs| ==> !Asks(msgs[k])
  {
    if msgs != [] && !Asks(msgs[|msgs| - 1]) {
      LastUserIsLast(msgs[..|msgs| - 1]);
    }
  }

  method FindLastUserIndex(msgs: seq<Message>) returns (last: int)
    ensures last == LastUser(msgs)
  {
    last := -1;
    assert msgs[..|msgs|] == msgs;
    for idx := |msgs| downto 0
      invariant last == -1
      invariant LastUser(msgs) == LastUser(msgs[..idx])
    {
      assert msgs[..idx + 1][..idx] == msgs[..idx];
      if Asks(msgs[idx]) {
        return idx;
      }
    }
  }

  // ---------------------------------------------------------------------
  // One message
  // ---------------------------------------------------------------------

  function Sections(t: Texts, m: Message): string {
    (if m.tools != [] then "\n\n" + t.tools(m.tools) else "")
    + (if m.format.Some? then "\n\n" + t.format(m.format.value) else "")
  }

  function BlockText(b: Block): string {
    match b
    case TextBlock(text) => text
    case ToolResult(_, content) => "<tool_result>" + ContentText(content) + "</tool_result>"
  }

  /** Content as text; parts that are not text are only named. */
  function ContentText(c: Content): string {
    match c
    case Plain(text) => text
    case Parts(parts) => DsmlCodec.Join(PartTexts(parts), "\n\n")
  }

  function PartTexts(parts: seq<Part>): seq<string> {
    seq(|parts|, k requires 0 <= k < |parts| =>
      if parts[k].TextPart? then parts[k].text else "[Unsupported " + parts[k].kind + "]")
  }

  function BlockTexts(blocks: seq<Block>): seq<string> {
    seq(|blocks|, k requires 0 <= k < |blocks| => BlockText(blocks[k]))
  }

  function CallsOf(calls: seq<ToolCall>): seq<DsmlCodec.Call> {
    seq(|calls|, k requires 0 <= k < |calls| => calls[k].call)
  }

  /** What is around a message: whether the one before has a task, whether it is the first,
      whether the one after lets the assistant speak, and whether the message keeps its
      reasoning and opens the reasoning of the next. */
  datatype Around = Around(first: bool, afterTask: bool, transition: bool, keeps: bool, opens: bool)

  function Body(s: Style, m: Message, a: Around): Result {
    match m.role
    case System => Ok(OrEmpty(m.content) + Sections(s.texts, m))
    case Developer =>
      if OrEmpty(m.content) == "" then Err(EmptyDeveloper)
      else Ok(USER + OrEmpty(m.content) + Sections(s.texts, m))
    case User =>
      Ok(USER + if m.blocks != [] then DsmlCodec.Join(BlockTexts(m.blocks), "\n\n") else OrEmpty(m.content))
    case Reminder => Ok(REMINDER + if m.content.Some? then m.content.value else "None")
    case Tool => Err(ToolRole)
    case Assistant =>
      Ok(DsmlCodec.PrintAssistant(s.texts.dumps, s.thinking && !a.afterTask && a.keeps, m.reasoning,
                                  OrEmpty(m.content), CallsOf(m.calls), m.withoutEos))
    case Unknown(_) => Err(UnknownRole)
  }

  /** The tokens that hand over to the assistant. */
  function Transition(s: Style, m: Message, a: Around): Result {
    if !a.transition then Ok("")
    else if m.task.Some? then
      var token := TaskToken(m.task.value);
      if token.None? then Err(InvalidTask)
      else if m.task.value != "action" then Ok(token.value)
      else Ok(ASSISTANT + (if s.thinking then DsmlCodec.THINK else DsmlCodec.END_THINK) + token.value)
    else if Asks(m) then Ok(ASSISTANT + if s.thinking && a.opens then DsmlCodec.THINK else DsmlCodec.END_THINK)
    else Ok("")
  }

  function Then(a: Result, b: Result): Result {
    if a.Err? then a else if b.Err? then b else Ok(a.text + b.text)
  }

  function Print(s: Style, m: Message, a: Around): Result {
    var effort := s.texts.effort(s.effort);
    if effort.None? then Err(InvalidEffort)
    else
      Then(Ok(if a.first && s.thinking then effort.value else ""), Then(Body(s, m, a), Transition(s, m, a)))
  }

  predicate Answers(m: Message) {
    m.role == Assistant || m.role == Reminder
  }

  function AroundAt(msgs: seq<Message>, drop: bool, i: nat): Around
    requires i < |msgs|
  {
    Around(i == 0, i > 0 && msgs[i - 1].task.Some?, i + 1 == |msgs| || Answers(msgs[i + 1]),
           !drop || i > LastUser(msgs), !drop || i >= LastUser(msgs))
  }

  function RenderMessage(s: Style, msgs: seq<Message>, drop: bool, i: nat): Result
    requires i < |msgs|
  {
    Print(s, msgs[i], AroundAt(msgs, drop, i))
  }

  /** Messages `from..to`. */
  function Render(s: Style, msgs: seq<Message>, drop: bool, from: nat, to: nat): Result
    requires from <= to <= |msgs|
  {
    if from == to then Ok("") else Then(Render(s, msgs, drop, from, to - 1), RenderMessage(s, msgs, drop, to - 1))
  }

  // ---------------------------------------------------------------------
  // The whole conversation
  // ---------------------------------------------------------------------

  /** Without earlier reasoning: before the last user message the assistant's reasoning
      goes, and so do developer messages and those of unknown roles. */
  function DropFrom(msgs: seq<Message>, lastUser: int): seq<Message> {
    if msgs == [] then []
    else
      var n := |msgs| - 1;
      var m := msgs[n];
      DropFrom(msgs[..n], lastUser)
      + if n >= lastUser || m.role in {User, System, Tool, Reminder}
           || m.role == Unknown("direct_search_results") then [m]
        else if m.role == Assistant then [m.(reasoning := "")]
        else []
  }

  function DropThinking(msgs: seq<Message>): seq<Message> {
    DropFrom(msgs, LastUser(msgs))
  }

  method DropThinkingMessages(msgs: seq<Message>) returns (result: seq<Message>)
    ensures result == DropThinking(msgs)
  {
    var lastUser := FindLastUserIndex(msgs);
    result := [];
    for idx := 0 to |msgs|
      invariant result == DropFrom(msgs[..idx], lastUser)
    {
      assert msgs[..idx + 1][..idx] == msgs[..idx];
      var m := msgs[idx];
      if m.role in {User, System, Tool, Reminder} || m.role == Unknown("direct_search_results") || idx >= lastUser {
        result := result + [m];
      } else if m.role == Assistant {
        result := result + [m.(reasoning := "")];
      }
    }
    assert msgs[..|msgs|] == msgs;
  }

  predicate HasTools(msgs: seq<Message>) {
    exists k :: 0 <= k < |msgs| && msgs[k].tools != []
  }

  /** The messages and the context, merged and sorted. */
  function Prepared(msgs: seq<Message>, context: seq<Message>): seq<Message> {
    SortAll(map[], context + Merge(msgs))[|context|..]
  }

  function PreparedContext(context: seq<Message>): seq<Message> {
    SortAll(map[], Merge(context))
  }

  /** The messages to print and the first of them to print. */
  datatype Plan = Plan(full: seq<Message>, drop: bool, from: nat)

  function PlanOf(s: Style, msgs: seq<Message>, context: seq<Message>, drop: bool): (p: Plan)
    ensures p.from <= |p.full|
  {
    var c := PreparedContext(context);
    var full := c + Prepared(msgs, context);
    var effective := drop && !HasTools(full);
    if s.thinking && effective then
      var kept := DropThinking(full);
      Plan(kept, true, if |DropThinking(c)| <= |kept| then |DropThinking(c)| else |kept|)
    else
      Plan(full, effective, |c|)
  }

  function Start(context: seq<Message>, bos: bool): Result {
    Ok(if bos && context == [] then DsmlCodec.BOS else "")
  }

  function Encode(s: Style, msgs: seq<Message>, context: seq<Message>, drop: bool, bos: bool): Result {
    var p := PlanOf(s, msgs, context, drop);
    Then(Start(context, bos), Render(s, p.full, p.drop, p.from, |p.full|))
  }

  /** The rendering loop; a message that cannot be printed ends it. */
  method RenderFrom(s: Style, full: seq<Message>, drop: bool, from: nat, prefix: string) returns (r: Result)
    requires from <= |full|
    ensures r == Then(Ok(prefix), Render(s, full, drop, from, |full|))
  {
    hide RenderMessage;
    r := Ok(prefix);
    for idx := from to |full|
      invariant r == Then(Ok(prefix), Render(s, full, drop, from, idx)) && r.Ok?
    {
      var m := RenderMessage(s, full, drop, idx);
      ThenAssociates(Ok(prefix), Render(s, full, drop, from, idx), m);
      r := Then(r, m);
      if r.Err? {
        FailureStays(s, full, drop, from, idx + 1, |full|);
        return;
      }
    }
  }

  lemma ThenAssociates(a: Result, b: Result, c: Result)
    ensures Then(Then(a, b), c) == Then(a, Then(b, c))
  {
  }

  lemma {:induction false} FailureStays(s: Style, msgs: seq<Message>, drop: bool, from: nat, mid: nat, to: nat)
    requires from <= mid <= to <= |msgs| && Render(s, msgs, drop, from, mid).Err?
    ensures Render(s, msgs, drop, from, to) == Render(s, msgs, drop, from, mid)
  {
    hide RenderMessage;
    if mid < to {
      FailureStays(s, msgs, drop, from, mid, to - 1);
    }
  }

  lemma EmptyContext(context: seq<Message>)
    ensures PreparedContext(context) == [] <==> context == []
  {
    MergeKeepsItems(context);
  }
}

/**
 The printer of assistant messages with tool calls and the parser of model
 completions, as functions over unbounded strings. The parser works on the text
 still to be read; the loops over an index into the text are in DsmlParser.dfy.
 */
module DsmlCodec {
  import opened Options
  import opened DsmlText

  const BOS := "<｜begin▁of▁sentence｜>"
  const EOS := "<｜end▁of▁sentence｜>"
  const THINK := "<think>"
  const END_THINK := "</think>"
  const DSML := "｜DSML｜"

  const INVOKE := "<" + DSML + "invoke"
  const END_INVOKE := "</" + DSML + "invoke"
  const PARAMETER := "<" + DSML + "parameter"
  const END_PARAMETER := "/" + DSML + "parameter"
  const END_CALLS := "</" + DSML + "tool_calls>"
  const START_CALLS := "\n\n<" + DSML + "tool_calls"

  /** An argument value: a string, or any other JSON value by its identity. */
  datatype Json = Text(s: string) | Other(id: int)

  /** `json.dumps` on strings and on the other values; nothing is known about it. */
  datatype Dumps = Dumps(text: string -> string, other: int -> string)

  function ToJson(d: Dumps, v: Json): string {
    match v
    case Text(s) => d.text(s)
    case Other(id) => d.other(id)
  }

  datatype Argument = Argument(key: string, value: Json)

  datatype Call = Call(name: string, arguments: seq<Argument>)

  function Join(parts: seq<string>, sep: string): string {
    if parts == [] then ""
    else if |parts| == 1 then parts[0]
    else parts[0] + sep + Join(parts[1..], sep)
  }

  /** A JSON object (RFC 8259, section 4) with the separators of `json.dumps`. */
  function ObjectText(d: Dumps, arguments: seq<Argument>): string {
    "{" + Join(Members(d, arguments), ", ") + "}"
  }

  function Members(d: Dumps, arguments: seq<Argument>): seq<string> {
    if arguments == [] then []
    else [d.text(arguments[0].key) + ": " + ToJson(d, arguments[0].value)] + Members(d, arguments[1..])
  }

  // ---------------------------------------------------------------------
  // Printing
  // ---------------------------------------------------------------------

  const NAME_OPEN := " name=\""
  const TRUE_FLAG := "\" string=\"true\">"
  const FALSE_FLAG := "\" string=\"false\">"

  function FlagText(isText: bool): string {
    if isText then TRUE_FLAG else FALSE_FLAG
  }

  /** The value as it stands between the parameter tags. */
  function Inline(d: Dumps, v: Json): string {
    if v.Text? then v.s else ToJson(d, v)
  }

  /** The text of a parameter between its opening tag and the token of its closing
      tag: name, string flag, value and the `<` of the closing tag. */
  function Inside(key: string, isText: bool, value: string): string {
    NAME_OPEN + (key + FlagText(isText) + (value + "<"))
  }

  function InsideOf(d: Dumps, a: Argument): string {
    Inside(a.key, a.value.Text?, Inline(d, a.value))
  }

  function PrintParameter(d: Dumps, a: Argument): string {
    PARAMETER + (InsideOf(d, a) + (END_PARAMETER + ">"))
  }

  function PrintParameters(d: Dumps, arguments: seq<Argument>): seq<string> {
    if arguments == [] then [] else [PrintParameter(d, arguments[0])] + PrintParameters(d, arguments[1..])
  }

  function PrintCall(d: Dumps, c: Call): string {
    INVOKE + (NAME_OPEN + c.name + "\">\n"
              + (Join(PrintParameters(d, c.arguments), "\n") + ("\n" + (END_INVOKE + ">"))))
  }

  function PrintCalls(d: Dumps, calls: seq<Call>): seq<string> {
    if calls == [] then [] else [PrintCall(d, calls[0])] + PrintCalls(d, calls[1..])
  }

  function PrintBlock(d: Dumps, calls: seq<Call>): string {
    if calls == [] then ""
    else
      START_CALLS + (">\n" + (Join(PrintCalls(d, calls), "\n") + ("\n" + END_CALLS)))
  }

  /** The assistant part of a rendered message: reasoning (only if it is kept),
      content, tool calls and the end-of-sentence token. */
  function PrintAssistant(d: Dumps, thinking: bool, reasoning: string, content: string, calls: seq<Call>,
      withoutEos: bool): string {
    (if thinking then reasoning + END_THINK else "") + content + PrintBlock(d, calls)
    + (if withoutEos then "" else EOS)
  }

  // ---------------------------------------------------------------------
  // Parsing
  // ---------------------------------------------------------------------

  datatype Error =
    | ToolCallFormat | MissingSpecialToken | ToolNameFormat | ParameterFormat | DuplicateParameter
    | InvalidThinking | MissingEos | UnexpectedAfterCalls | UnexpectedAtEnd | SpecialTokenInContent

  datatype Result<+T> = Ok(value: T) | Err(error: Error)

  /** The characters matched by `\s`. */
  predicate IsSpace(c: char) {
    || '\U{9}' <= c <= '\U{D}' || '\U{1C}' <= c <= '\U{20}' || c == '\U{85}' || c == '\U{A0}'
    || c == '\U{1680}' || '\U{2000}' <= c <= '\U{200A}' || c == '\U{2028}' || c == '\U{2029}'
    || c == '\U{202F}' || c == '\U{205F}' || c == '\U{3000}'
  }

  function SkipSpace(s: string): string {
    if s != "" && IsSpace(s[0]) then SkipSpace(s[1..]) else s
  }

  function DropPrefix(s: string, pre: string): Option<string> {
    if |pre| <= |s| && s[..|pre|] == pre then Some(s[|pre|..]) else None
  }

  function DropSuffix(s: string, post: string): Option<string> {
    if |post| <= |s| && s[|s| - |post|..] == post then Some(s[..|s| - |post|]) else None
  }

  /** `^\s*name="(.*?)">\n$`, where `$` also matches before a final newline. */
  function MatchName(s: string): Option<string> {
    match DropPrefix(SkipSpace(s), "name=\"")
    case None => None
    case Some(t) =>
      match DropSuffix(t, "\">\n\n")
      case Some(name) => Some(name)
      case None => DropSuffix(t, "\">\n")
  }

  datatype Parameter = Parameter(key: string, isText: bool, value: string)

  /** The value before the final `<`, which may be followed by a newline. */
  function MatchValue(s: string): Option<string> {
    match DropSuffix(s, "<\n")
    case Some(v) => Some(v)
    case None => DropSuffix(s, "<")
  }

  /** The shortest key from position `k` on, with its flag and value. */
  function MatchFlag(s: string, k: nat): Option<Parameter>
    decreases |s| - k
  {
    if k > |s| then None
    else
      var yes := DropPrefix(s[k..], TRUE_FLAG);
      var no := DropPrefix(s[k..], FALSE_FLAG);
      if yes.Some? && MatchValue(yes.value).Some? then Some(Parameter(s[..k], true, MatchValue(yes.value).value))
      else if no.Some? && MatchValue(no.value).Some? then Some(Parameter(s[..k], false, MatchValue(no.value).value))
      else MatchFlag(s, k + 1)
  }

  /** `^ name="(.*?)" string="(true|false)">(.*?)<$`. */
  function MatchParameter(s: string): Option<Parameter> {
    match DropPrefix(s, NAME_OPEN)
    case None => None
    case Some(t) => MatchFlag(t, 0)
  }

  function HasKey(ps: seq<Parameter>, key: string): bool {
    exists k :: 0 <= k < |ps| && ps[k].key == key
  }

  datatype ParsedCall = ParsedCall(name: string, arguments: string)

  function DecodeMembers(d: Dumps, ps: seq<Parameter>): seq<string> {
    if ps == [] then []
    else
      [d.text(ps[0].key) + ": " + (if ps[0].isText then d.text(ps[0].value) else ps[0].value)]
      + DecodeMembers(d, ps[1..])
  }

  function DecodeCall(d: Dumps, name: string, ps: seq<Parameter>): ParsedCall {
    ParsedCall(name, "{" + Join(DecodeMembers(d, ps), ", ") + "}")
  }

  /** What a loop leaves behind: its value, the last stop, the text still unread. */
  datatype Left<+T> = Left(value: T, stop: Option<string>, rest: string)

  /** The parameters of one call, from just after a parameter tag. */
  function ParseParameters(text: string, ps: seq<Parameter>): (r: Result<Left<seq<Parameter>>>)
    ensures r.Ok? ==> |r.value.rest| <= |text|
    decreases |text|
  {
    var r1 := ReadUntil(text, [END_PARAMETER]);
    match MatchParameter(r1.content)
    case None => Err(ParameterFormat)
    case Some(p) =>
      if HasKey(ps, p.key) then Err(DuplicateParameter)
      else
        var r2 := ReadUntil(r1.rest, [PARAMETER, END_INVOKE]);
        if r2.content != ">\n" then Err(ParameterFormat)
        else if r2.stop == Some(PARAMETER) then ParseParameters(r2.rest, ps + [p])
        else Ok(Left(ps + [p], r2.stop, r2.rest))
  }

  /** One call, from just after its opening tag. */
  function ParseCall(d: Dumps, text: string): (r: Result<Left<ParsedCall>>)
    ensures r.Ok? ==> |r.value.rest| <= |text|
  {
    var r := ReadUntil(text, [PARAMETER, END_INVOKE]);
    match MatchName(r.content)
    case None => Err(ToolNameFormat)
    case Some(name) =>
      if r.stop == Some(PARAMETER) then
        match ParseParameters(r.rest, [])
        case Err(e) => Err(e)
        case Ok(l) => Ok(Left(DecodeCall(d, name, l.value), l.stop, l.rest))
      else Ok(Left(DecodeCall(d, name, []), r.stop, r.rest))
  }

  function ParseCalls(d: Dumps, text: string, stop: Option<string>,
      calls: seq<ParsedCall>): Result<Left<seq<ParsedCall>>>
    decreases |text|
  {
    if text == "" then Ok(Left(calls, stop, text))
    else
      var r := ReadUntil(text, [INVOKE, END_CALLS]);
      if r.content != ">\n" then Err(ToolCallFormat)
      else if r.stop == Some(END_CALLS) then Ok(Left(calls, r.stop, r.rest))
      else if r.stop == None then Err(MissingSpecialToken)
      else
        match ParseCall(d, r.rest)
        case Err(e) => Err(e)
        case Ok(l) => ParseCalls(d, l.rest, l.stop, calls + [l.value])
  }

  datatype Message = Message(content: string, reasoning: string, calls: seq<ParsedCall>)

  const SPECIALS := [BOS, EOS, THINK, END_THINK, DSML]

  predicate Contains(s: string, pat: string) {
    Find(s, pat, 0) != -1
  }

  predicate Clean(s: string) {
    forall k :: 0 <= k < |SPECIALS| ==> !Contains(s, SPECIALS[k])
  }

  /** The reasoning and the text after it. */
  function ParseReasoning(text: string, thinking: bool): Result<Left<string>> {
    if !thinking then Ok(Left("", None, text))
    else
      var r := ReadUntil(text, [END_THINK, START_CALLS]);
      if r.stop == Some(END_THINK) then Ok(Left(r.content, r.stop, r.rest)) else Err(InvalidThinking)
  }

  /** The tool calls and what follows them, up to the end-of-sentence token. */
  function ParseTail(d: Dumps, text: string): Result<Left<seq<ParsedCall>>> {
    match ParseCalls(d, text, None, [])
    case Err(e) => Err(e)
    case Ok(l) =>
      var r := ReadUntil(l.rest, [EOS]);
      if r.content != "" then Err(UnexpectedAfterCalls) else Ok(Left(l.value, r.stop, r.rest))
  }

  /** Content, tool calls and end, given the reasoning already read. */
  function ParseBody(d: Dumps, text: string, reasoning: string): Result<Message> {
    var r := ReadUntil(text, [EOS, START_CALLS]);
    var tail := if r.stop == Some(START_CALLS) then ParseTail(d, r.rest)
                else if r.stop == Some(EOS) then Ok(Left([], r.stop, r.rest))
                else Err(MissingEos);
    match tail
    case Err(e) => Err(e)
    case Ok(l) =>
      if l.rest != "" || !(l.stop == Some(EOS) || l.stop == None) then Err(UnexpectedAtEnd)
      else if !(Clean(r.content) && Clean(reasoning)) then Err(SpecialTokenInContent)
      else Ok(Message(r.content, reasoning, l.value))
  }

  function ParseMessage(d: Dumps, text: string, thinking: bool): Result<Message> {
    match ParseReasoning(text, thinking)
    case Err(e) => Err(e)
    case Ok(head) => ParseBody(d, head.rest, head.value)
  }
}

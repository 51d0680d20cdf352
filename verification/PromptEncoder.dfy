/**
 Encoding a conversation, loop by loop.
 */
module PromptEncoder {
  import opened PromptMessages
  import opened PromptEncoding
  import opened PromptScript
  import DsmlCodec

  /** The prompt has the signs of the conversation, and there is one exactly if each message
      can be printed. */
  method EncodeMessages(s: Style, msgs: seq<Message>, context: seq<Message>, drop: bool, bos: bool) returns (r: Result)
    ensures r == Encode(s, msgs, context, drop, bos) && Prints(r, Script(s, msgs, context, drop, bos))
  {
    hide Script, Prints;
    PromptSays(s, msgs, context, drop, bos);
    var merged := MergeToolMessages(msgs);
    var sorted := SortToolResultsByCallOrder(context + merged);
    var messages := sorted[|context|..];
    var c := [];
    if context != [] {
      var m := MergeToolMessages(context);
      c := SortToolResultsByCallOrder(m);
    }
    EmptyContext(context);
    var full := c + messages;
    var prompt := if bos && |c| == 0 then DsmlCodec.BOS else "";
    var effective := drop && !HasTools(full);
    var from := |c|;
    if s.thinking && effective {
      full := DropThinkingMessages(full);
      var keptContext := DropThinkingMessages(c);
      from := if |keptContext| <= |full| then |keptContext| else |full|;
    }
    r := RenderFrom(s, full, effective, from, prompt);
  }
}

/**
 The parser's loops over an index into the completion text, proved to compute the
 functions of DsmlCodec.dfy on the text that is left; both loops end because the
 index moves forward.
 */
module DsmlParser {
  import opened Options
  import opened DsmlText
  import opened DsmlCodec

  lemma AtShift(text: string, index: nat, p: int, s: string)
    requires index <= |text| && index <= p
    ensures At(text, p, s) <==> At(text[index..], p - index, s)
  {
    assert text == text[..index] + text[index..];
    AtRight(text[..index], text[index..], p, s);
  }

  /** Searching from an index is searching the rest. */
  lemma FindShift(text: string, index: nat, s: string)
    requires index <= |text|
    ensures var p := Find(text, s, index);
            var q := Find(text[index..], s, 0);
            if p == -1 then q == -1 else q == p - index
  {
    var p := Find(text, s, index);
    var q := Find(text[index..], s, 0);
    if p != -1 {
      AtShift(text, index, p, s);
    }
    if q != -1 {
      AtShift(text, index, q + index, s);
    }
  }

  method ReadUntilStop(index: nat, text: string, stops: seq<string>)
    returns (newIndex: nat, content: string, matched: Option<string>)
    requires index <= |text|
    ensures index <= newIndex <= |text|
    ensures Read(content, matched, text[newIndex..]) == ReadUntil(text[index..], stops)
  {
    var minPos := |text|;
    matched := None;
    ghost var rest := text[index..];
    for k := 0 to |stops|
      invariant index <= minPos <= |text|
      invariant matched.Some? ==> At(rest, minPos - index, matched.value)
      invariant Nearest(rest, stops[k..], Hit(minPos - index, matched)) == Nearest(rest, stops, Hit(|rest|, None))
    {
      var pos := Find(text, stops[k], index);
      FindShift(text, index, stops[k]);
      assert stops[k..][0] == stops[k] && stops[k..][1..] == stops[k + 1..];
      if pos != -1 && pos < minPos {
        minPos, matched := pos, Some(stops[k]);
      }
    }
    assert stops[|stops|..] == [];
    match matched
    case Some(s) =>
      content, newIndex := text[index..minPos], minPos + |s|;
      assert content == rest[..minPos - index] && text[newIndex..] == rest[minPos - index + |s|..];
    case None =>
      content, newIndex := text[index..], |text|;
  }

  /** The parameters of one call, from just after a parameter tag. */
  method ReadParameters(index: nat, text: string)
    returns (newIndex: nat, r: Result<Left<seq<Parameter>>>)
    requires index <= |text|
    ensures index <= newIndex <= |text|
    ensures r == ParseParameters(text[index..], [])
    ensures r.Ok? ==> r.value.rest == text[newIndex..]
  {
    hide ReadUntil, MatchParameter, HasKey, PARAMETER, END_PARAMETER, END_INVOKE;
    newIndex := index;
    var ps: seq<Parameter> := [];
    var stop: Option<string> := Some(PARAMETER);
    while stop == Some(PARAMETER)
      invariant index <= newIndex <= |text|
      invariant if stop == Some(PARAMETER)
                then ParseParameters(text[newIndex..], ps) == ParseParameters(text[index..], [])
                else ParseParameters(text[index..], []) == Ok(Left(ps, stop, text[newIndex..]))
      decreases |text| - newIndex, stop == Some(PARAMETER)
    {
      var content;
      newIndex, content, stop := ReadUntilStop(newIndex, text, [END_PARAMETER]);
      var p := MatchParameter(content);
      if p == None {
        return newIndex, Err(ParameterFormat);
      }
      if HasKey(ps, p.value.key) {
        return newIndex, Err(DuplicateParameter);
      }
      newIndex, content, stop := ReadUntilStop(newIndex, text, [PARAMETER, END_INVOKE]);
      if content != ">\n" {
        return newIndex, Err(ParameterFormat);
      }
      ps := ps + [p.value];
    }
    r := Ok(Left(ps, stop, text[newIndex..]));
  }

  method ParseToolCalls(d: Dumps, index: nat, text: string)
    returns (newIndex: nat, r: Result<Left<seq<ParsedCall>>>)
    requires index <= |text|
    ensures index <= newIndex <= |text|
    ensures r == ParseCalls(d, text[index..], None, [])
    ensures r.Ok? ==> r.value.rest == text[newIndex..]
  {
    newIndex := index;
    var calls: seq<ParsedCall> := [];
    var stop: Option<string> := None;
    while newIndex < |text|
      invariant index <= newIndex <= |text|
      invariant ParseCalls(d, text[newIndex..], stop, calls) == ParseCalls(d, text[index..], None, [])
      decreases |text| - newIndex
    {
      var content;
      newIndex, content, stop := ReadUntilStop(newIndex, text, [INVOKE, END_CALLS]);
      if content != ">\n" {
        return newIndex, Err(ToolCallFormat);
      }
      if stop == Some(END_CALLS) {
        r := Ok(Left(calls, stop, text[newIndex..]));
        return;
      }
      if stop == None {
        return newIndex, Err(MissingSpecialToken);
      }
      newIndex, content, stop := ReadUntilStop(newIndex, text, [PARAMETER, END_INVOKE]);
      var name := MatchName(content);
      if name == None {
        return newIndex, Err(ToolNameFormat);
      }
      var ps: seq<Parameter> := [];
      if stop == Some(PARAMETER) {
        var args;
        newIndex, args := ReadParameters(newIndex, text);
        if args.Err? {
          return newIndex, Err(args.error);
        }
        ps, stop := args.value.value, args.value.stop;
      }
      calls := calls + [DecodeCall(d, name.value, ps)];
    }
    r := Ok(Left(calls, stop, text[newIndex..]));
  }
}

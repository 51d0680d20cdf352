/**
 Reading a prompt back: split at the tokens that mark who speaks, it gives the conversation.
 */
module PromptReading {
  import opened Options
  import opened DsmlText
  import opened PromptMessages
  import opened PromptEncoding
  import opened PromptScript
  import DsmlCodec

  const MARKS := [USER, ASSISTANT, REMINDER]

  /** What is said after a mark, up to the next one; nothing marks the start. */
  datatype Heard = Heard(mark: Option<string>, text: string)

  /** The reader: knows the marks and nothing else of the format. */
  function Hear(mark: Option<string>, text: string): seq<Heard>
    decreases |text|
  {
    var r := ReadUntil(text, MARKS);
    StopIsMark(text);
    match r.stop
    case None => [Heard(mark, text)]
    case Some(token) => [Heard(mark, r.content)] + Hear(Some(token), r.rest)
  }

  lemma StopIsMark(text: string)
    ensures var r := ReadUntil(text, MARKS);
            (r.stop.Some? ==> r.stop.value in {USER, ASSISTANT, REMINDER} && |r.rest| < |text|)
  {
    NearestStop(text, MARKS, Hit(|text|, None));
    assert MARKS[0] == USER && MARKS[1] == ASSISTANT && MARKS[2] == REMINDER;
  }

  /** No mark stands in the text. */
  ghost predicate Unmarked(text: string) {
    Free(text, USER) && Free(text, ASSISTANT) && Free(text, REMINDER)
  }

  /** What is said in the signs, from one mark to the next. */
  function Gather(mark: Option<string>, text: string, signs: Signs): seq<Heard>
    decreases |signs|
  {
    if signs == [] then [Heard(mark, text)]
    else
      match signs[0]
      case Mark(token) => [Heard(mark, text)] + Gather(Some(token), "", signs[1..])
      case Said(more) => Gather(mark, text + more, signs[1..])
  }

  ghost predicate AllUnmarked(heard: seq<Heard>) {
    forall k :: 0 <= k < |heard| ==> Unmarked(heard[k].text)
  }

  predicate MarksOnly(signs: Signs) {
    forall k :: 0 <= k < |signs| && signs[k].Mark? ==> signs[k].token in {USER, ASSISTANT, REMINDER}
  }

  /** The marks begin alike, with a character that comes nowhere else in them. */
  lemma MarksDiffer(a: string, b: string)
    requires a in {USER, ASSISTANT, REMINDER} && b in {USER, ASSISTANT, REMINDER}
    ensures |a| > 2 && a[0] == '<' && forall k :: 1 <= k < |a| ==> a[k] != '<'
    ensures a[0] == b[0] && a[1] == b[1] && (a[2] == b[2] ==> a == b)
  {
  }

  /** Before a mark that follows text without one, no other begins, nor at its place. */
  lemma MarkIsFirst(x: string, mark: string, rest: string)
    requires Unmarked(x) && mark in {USER, ASSISTANT, REMINDER}
    ensures FirstAt(x + mark + rest, MARKS, |x|, mark)
  {
    var text := x + mark + rest;
    assert text == x + (mark + rest);
    forall k | 0 <= k < |MARKS|
      ensures forall q :: q < |x| ==> !At(text, q, MARKS[k])
      ensures At(text, |x|, MARKS[k]) ==> MARKS[k] == mark
    {
      var m := MARKS[k];
      MarksDiffer(m, mark);
      MarksDiffer(mark, mark);
      assert text[|x|] == mark[0] && text[|x| + 2] == mark[2];
      forall q | q < |x| ensures !At(text, q, m) {
        if q + |m| <= |x| {
          AtLeft(x, mark + rest, q, m);
        } else if 0 <= q && At(text, q, m) {
          AtChar(text, q, m, |x|);
        }
      }
      if At(text, |x|, m) {
        AtChar(text, |x|, m, |x| + 2);
      }
    }
  }

  lemma MarkStops(x: string, mark: string, rest: string)
    requires Unmarked(x) && mark in {USER, ASSISTANT, REMINDER}
    ensures ReadUntil(x + mark + rest, MARKS) == Read(x, Some(mark), rest)
  {
    MarkIsFirst(x, mark, rest);
    assert mark in MARKS by {
      assert MARKS[0] == USER && MARKS[1] == ASSISTANT && MARKS[2] == REMINDER;
    }
    MarksDiffer(mark, mark);
    ReadUntilIs(x, mark, rest, MARKS);
  }

  lemma NoMarkNoStop(x: string)
    requires Unmarked(x)
    ensures ReadUntil(x, MARKS) == Read(x, None, "")
  {
    assert MARKS[0] == USER && MARKS[1] == ASSISTANT && MARKS[2] == REMINDER;
    ReadUntilNone(x, MARKS);
  }

  lemma HearsMark(mark: Option<string>, x: string, token: string, rest: string)
    requires Unmarked(x) && token in {USER, ASSISTANT, REMINDER}
    ensures Hear(mark, x + token + rest) == [Heard(mark, x)] + Hear(Some(token), rest)
  {
    MarkStops(x, token, rest);
    hide ReadUntil, Unmarked;
  }

  lemma HearsEnd(mark: Option<string>, x: string)
    requires Unmarked(x)
    ensures Hear(mark, x) == [Heard(mark, x)]
  {
    NoMarkNoStop(x);
    hide ReadUntil, Unmarked;
  }

  lemma UnmarkedCons(h: Heard, rest: seq<Heard>)
    requires AllUnmarked([h] + rest)
    ensures Unmarked(h.text) && AllUnmarked(rest)
  {
    hide Unmarked;
    var all := [h] + rest;
    assert all[0] == h;
    forall k | 0 <= k < |rest| ensures Unmarked(rest[k].text) {
      assert all[k + 1] == rest[k];
    }
  }

  lemma FlatCons(text: string, signs: Signs)
    requires signs != []
    ensures text + Flat(signs) == text + SignText(signs[0]) + Flat(signs[1..])
  {
  }

  lemma MarksTail(signs: Signs)
    requires MarksOnly(signs) && signs != []
    ensures MarksOnly(signs[1..]) && (signs[0].Mark? ==> signs[0].token in {USER, ASSISTANT, REMINDER})
  {
  }

  lemma {:induction false} HearsSigns(mark: Option<string>, text: string, signs: Signs)
    requires MarksOnly(signs) && AllUnmarked(Gather(mark, text, signs))
    ensures Hear(mark, text + Flat(signs)) == Gather(mark, text, signs)
    decreases |signs|
  {
    hide Unmarked, AllUnmarked, MarksOnly, Hear;
    if signs == [] {
      assert text + Flat(signs) == text;
      assert [Heard(mark, text)] + [] == [Heard(mark, text)];
      UnmarkedCons(Heard(mark, text), []);
      HearsEnd(mark, text);
    } else {
      FlatCons(text, signs);
      MarksTail(signs);
      hide Flat;
      match signs[0]
      case Mark(token) =>
        UnmarkedCons(Heard(mark, text), Gather(Some(token), "", signs[1..]));
        HearsSigns(Some(token), "", signs[1..]);
        assert "" + Flat(signs[1..]) == Flat(signs[1..]);
        HearsMark(mark, text, token, Flat(signs[1..]));
      case Said(more) =>
        HearsSigns(mark, text + more, signs[1..]);
    }
  }

  /** What is heard has no marks in it. */
  lemma {:induction false} HeardIsUnmarked(mark: Option<string>, text: string)
    ensures AllUnmarked(Hear(mark, text))
    decreases |text|
  {
    var r := ReadUntil(text, MARKS);
    StopIsMark(text);
    ContentIsUnmarked(text);
    hide Unmarked, ReadUntil;
    if r.stop.Some? {
      HeardIsUnmarked(Some(r.stop.value), r.rest);
    }
  }

  lemma ContentIsUnmarked(text: string)
    ensures Unmarked(ReadUntil(text, MARKS).content)
  {
    var h := Nearest(text, MARKS, Hit(|text|, None));
    NearestStop(text, MARKS, Hit(|text|, None));
    assert MARKS[0] == USER && MARKS[1] == ASSISTANT && MARKS[2] == REMINDER;
    var x := text[..h.pos];
    assert x + text[h.pos..] == text;
    forall m, q | m in {USER, ASSISTANT, REMINDER} ensures !At(x, q, m) {
      MarksDiffer(m, m);
      assert m == MARKS[0] || m == MARKS[1] || m == MARKS[2];
      if At(x, q, m) {
        AtLeft(x, text[h.pos..], q, m);
      }
    }
  }

  // ---------------------------------------------------------------------
  // The signs of a conversation
  // ---------------------------------------------------------------------

  lemma LineMarks(s: Style, lines: seq<Line>, drop: bool, i: nat)
    requires i < |lines|
    ensures LineSigns(s, lines, drop, i).Some? ==> MarksOnly(LineSigns(s, lines, drop, i).value)
  {
    hide LastAsk, DsmlCodec.PrintAssistant, WithSections, TaskMark, TASKS;
    var words, cue := Words(s, lines, drop, i), Cue(s, lines, drop, i);
    assert words.Some? ==> MarksOnly(words.value);
    assert cue.Some? ==> MarksOnly(cue.value);
  }

  lemma {:induction false} ScriptMarks(s: Style, lines: seq<Line>, drop: bool, from: nat, n: nat)
    requires from <= n <= |lines|
    ensures Signed(s, lines, drop, from, n).Some? ==> MarksOnly(Signed(s, lines, drop, from, n).value)
  {
    hide LineSigns;
    if n > from {
      ScriptMarks(s, lines, drop, from, n - 1);
      LineMarks(s, lines, drop, n - 1);
    }
  }

  /** Reading a prompt gives back the conversation, who spoke and what was said: the text of
      every message and turn, with the tool results in their tags; exactly if no text of it
      has a mark in it. For every conversation, context, mode and effort that can be
      printed. */
  lemma PromptComesBack(s: Style, msgs: seq<Message>, context: seq<Message>, drop: bool, bos: bool)
    requires Encode(s, msgs, context, drop, bos).Ok?
    ensures var script := Script(s, msgs, context, drop, bos);
            && script.Some?
            && (Hear(None, Encode(s, msgs, context, drop, bos).text) == Gather(None, "", script.value)
                <==> AllUnmarked(Gather(None, "", script.value)))
  {
    var script := Script(s, msgs, context, drop, bos);
    PromptSays(s, msgs, context, drop, bos);
    assert MarksOnly(script.value) by {
      var p := PlayOf(s, msgs, context, drop);
      ScriptMarks(s, p.lines, p.drops, p.from, |p.lines|);
      hide PlayOf, Signed;
    }
    var text := Encode(s, msgs, context, drop, bos).text;
    HeardIsUnmarked(None, text);
    hide Encode, Script, Hear, Gather, MarksOnly, Flat, AllUnmarked;
    if AllUnmarked(Gather(None, "", script.value)) {
      HearsSigns(None, "", script.value);
      assert "" + Flat(script.value) == Flat(script.value);
    }
  }

  // ---------------------------------------------------------------------
  // Texts that cannot make up a mark
  // ---------------------------------------------------------------------

  /** No bar is followed by the start of a name of a mark. */
  predicate Harmless(text: string) {
    forall k :: 0 <= k < |text| && text[k] == '｜' ==> k + 1 < |text| && text[k + 1] !in {'U', 'A', 'l'}
  }

  lemma HarmlessIsUnmarked(text: string)
    requires Harmless(text)
    ensures Unmarked(text)
  {
    forall m, q | m in {USER, ASSISTANT, REMINDER} ensures !At(text, q, m) {
      if At(text, q, m) {
        AtChar(text, q, m, q + 1);
        AtChar(text, q, m, q + 2);
      }
    }
  }

  lemma HarmlessConcat(a: string, b: string)
    requires Harmless(a) && Harmless(b)
    ensures Harmless(a + b)
  {
    forall k | 0 <= k < |a + b| && (a + b)[k] == '｜'
      ensures k + 1 < |a + b| && (a + b)[k + 1] !in {'U', 'A', 'l'}
    {
      if k < |a| {
        assert a[k] == '｜';
      } else {
        assert b[k - |a|] == '｜';
      }
    }
  }

  /** Harmless texts are enough, whatever they are put together from. */
  lemma {:induction false} HarmlessSigns(mark: Option<string>, text: string, signs: Signs)
    requires Harmless(text) && forall k :: 0 <= k < |signs| && signs[k].Said? ==> Harmless(signs[k].text)
    ensures AllUnmarked(Gather(mark, text, signs))
    decreases |signs|
  {
    hide Harmless, Unmarked;
    HarmlessIsUnmarked(text);
    if signs != [] {
      var rest := signs[1..];
      assert forall k :: 0 <= k < |rest| ==> rest[k] == signs[k + 1];
      match signs[0]
      case Mark(token) =>
        NothingIsHarmless();
        HarmlessSigns(Some(token), "", rest);
      case Said(more) =>
        HarmlessConcat(text, more);
        HarmlessSigns(mark, text + more, rest);
    }
  }

  lemma NothingIsHarmless()
    ensures Harmless("")
  {
  }
}

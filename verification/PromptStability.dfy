/**
 A prompt grows at its end: printing a longer conversation prints the shorter one first.
 */
module PromptStability {
  import opened Options
  import opened PromptMessages
  import opened PromptEncoding
  import DsmlCodec

  /** A message after which nothing is printed to hand over to the assistant. */
  predicate Quiet(m: Message) {
    !IsTurn(m) && m.role != Developer && m.task.None?
  }

  /** What follows the context starts with a message of the assistant or a reminder, or
      nobody was asked. */
  predicate Continues(context: seq<Message>, rest: seq<Message>) {
    context != [] && rest != [] && (Answers(rest[0]) || Quiet(context[|context| - 1]))
  }

  /** Reasoning is not dropped. */
  predicate KeepsReasoning(s: Style, context: seq<Message>, drop: bool) {
    !drop || !s.thinking || HasTools(PreparedContext(context))
  }

  lemma MergedLast(msgs: seq<Message>)
    requires msgs != []
    ensures var r := Merge(msgs);
            r != [] && (Quiet(msgs[|msgs| - 1]) ==> r[|r| - 1] == msgs[|msgs| - 1])
  {
    MergeKeepsItems(msgs);
  }

  lemma ContinuesApart(context: seq<Message>, rest: seq<Message>)
    requires Continues(context, rest)
    ensures Apart(context, rest[0])
  {
    MergedLast(context);
  }

  /** Preparing the rest after a context is sorting it by the order after the context. */
  lemma PreparedIsSorted(msgs: seq<Message>, context: seq<Message>, merged: seq<Message>)
    requires merged == Merge(msgs)
    ensures Prepared(msgs, context) == SortAll(OrderAfter(map[], context), merged)
  {
    SortAllSplits(map[], context, merged);
    hide Merge, SortAll, OrderAfter;
    var before, after := SortAll(map[], context), SortAll(OrderAfter(map[], context), merged);
    assert (before + after)[|context|..] == after;
  }

  /** The context and the rest, prepared one by one, are the whole, prepared. */
  lemma PreparedSplits(context: seq<Message>, rest: seq<Message>)
    requires context != [] && rest != [] && Apart(context, rest[0])
    ensures PreparedContext(context + rest) == PreparedContext(context) + Prepared(rest, context)
    ensures Prepared(rest, context) != [] && PreparedContext(context) != []
  {
    MergedLast(context);
    MergeSplits(context, rest);
    SortAllSplits(map[], Merge(context), Merge(rest));
    PreparedIsSorted(rest, context, Merge(rest));
    OrderAfterMerge(map[], context);
    hide Merge, SortAll, OrderAfter, Apart;
  }

  lemma PreparedAlone(msgs: seq<Message>)
    ensures Prepared(msgs, []) == PreparedContext(msgs)
  {
    assert [] + Merge(msgs) == Merge(msgs);
  }

  /** Printing in two stretches. */
  lemma {:induction false} RenderSplits(s: Style, msgs: seq<Message>, drop: bool, from: nat, mid: nat, to: nat)
    requires from <= mid <= to <= |msgs|
    ensures Render(s, msgs, drop, from, to) == Then(Render(s, msgs, drop, from, mid), Render(s, msgs, drop, mid, to))
  {
    hide RenderMessage;
    if mid < to {
      RenderSplits(s, msgs, drop, from, mid, to - 1);
      ThenAssociates(Render(s, msgs, drop, from, mid), Render(s, msgs, drop, mid, to - 1),
          RenderMessage(s, msgs, drop, to - 1));
    }
  }

  /** The surroundings of a message as far as it matters to a style. */
  predicate Alike(s: Style, m: Message, a: Around, b: Around) {
    && a.first == b.first && a.afterTask == b.afterTask
    && (s.thinking ==> a.keeps == b.keeps && a.opens == b.opens)
    && (a.transition == b.transition || (m.task.None? && !Asks(m)))
  }

  lemma PrintAlike(s: Style, m: Message, a: Around, b: Around)
    requires Alike(s, m, a, b)
    ensures Print(s, m, a) == Print(s, m, b)
  {
    hide Sections, BlockTexts, CallsOf, DsmlCodec.PrintAssistant, DsmlCodec.Join;
    assert Body(s, m, a) == Body(s, m, b);
    assert Transition(s, m, a) == Transition(s, m, b);
  }

  /** What follows a prefix does not change how it is printed. */
  lemma {:induction false} RenderPrefix(s: Style, c: seq<Message>, more: seq<Message>, d1: bool, d2: bool, to: nat)
    requires to <= |c| && c != [] && more != []
    requires s.thinking ==> !d1 && !d2
    requires to < |c| || Answers(more[0]) || (c[|c| - 1].task.None? && !Asks(c[|c| - 1]))
    ensures Render(s, c + more, d1, 0, to) == Render(s, c, d2, 0, to)
  {
    hide RenderMessage;
    if to > 0 {
      RenderPrefix(s, c, more, d1, d2, to - 1);
      RenderMessagePrefix(s, c, more, d1, d2, to - 1);
    }
  }

  lemma RenderMessagePrefix(s: Style, c: seq<Message>, more: seq<Message>, d1: bool, d2: bool, i: nat)
    requires i < |c| && more != []
    requires s.thinking ==> !d1 && !d2
    requires i + 1 < |c| || Answers(more[0]) || (c[|c| - 1].task.None? && !Asks(c[|c| - 1]))
    ensures RenderMessage(s, c + more, d1, i) == RenderMessage(s, c, d2, i)
  {
    hide LastUser;
    assert (c + more)[i] == c[i];
    assert i + 1 == |c| ==> (c + more)[i + 1] == more[0];
    PrintAlike(s, c[i], AroundAt(c + more, d1, i), AroundAt(c, d2, i));
  }

  lemma ToolsStay(c: seq<Message>, more: seq<Message>)
    ensures HasTools(c) ==> HasTools(c + more)
  {
    if HasTools(c) {
      var k :| 0 <= k < |c| && c[k].tools != [];
      assert (c + more)[k].tools != [];
    }
  }

  /** Sorting changes blocks only. */
  lemma {:induction false} SortKeepsHeads(order: Order, msgs: seq<Message>)
    requires msgs != []
    ensures var r := SortAll(order, msgs);
            && r[0] == SortMessage(order, msgs[0])
            && r[|r| - 1].task == msgs[|msgs| - 1].task && r[|r| - 1].role == msgs[|msgs| - 1].role
  {
    var n := |msgs| - 1;
    if n > 0 {
      SortKeepsHeads(order, msgs[..n]);
    } else {
      assert msgs[..n] == [];
    }
  }

  /** The first message keeps its part in the conversation. */
  lemma {:induction false} MergeKeepsPart(msgs: seq<Message>)
    requires msgs != []
    ensures Merge(msgs) != [] && (Answers(Merge(msgs)[0]) <==> Answers(msgs[0]))
  {
    var n := |msgs| - 1;
    if n == 0 {
      assert msgs[..n] == [];
    } else {
      MergeKeepsPart(msgs[..n]);
    }
  }

  lemma FirstKeepsPart(context: seq<Message>, rest: seq<Message>)
    requires rest != []
    ensures Prepared(rest, context) != [] && (Answers(Prepared(rest, context)[0]) <==> Answers(rest[0]))
  {
    MergeKeepsPart(rest);
    PreparedIsSorted(rest, context, Merge(rest));
    SortKeepsHeads(OrderAfter(map[], context), Merge(rest));
    hide Merge, SortAll, OrderAfter, Prepared;
  }

  /** The seam between the context and the rest is quiet, or hands over on both sides. */
  lemma SeamIsQuiet(context: seq<Message>, rest: seq<Message>)
    requires Continues(context, rest)
    ensures var c, more := PreparedContext(context), Prepared(rest, context);
            c != [] && more != [] && (Answers(more[0]) || (c[|c| - 1].task.None? && !Asks(c[|c| - 1])))
  {
    ContinuesApart(context, rest);
    PreparedSplits(context, rest);
    if Answers(rest[0]) {
      FirstKeepsPart(context, rest);
    } else {
      MergedLast(context);
      SortKeepsHeads(map[], Merge(context));
    }
    hide Merge, SortAll;
  }

  /** The three conversations to print: the whole, the context and the rest. */
  lemma PlansAgree(s: Style, context: seq<Message>, rest: seq<Message>, drop: bool)
    requires context != [] && rest != [] && Apart(context, rest[0]) && KeepsReasoning(s, context, drop)
    ensures var c, more := PreparedContext(context), Prepared(rest, context);
            var d1, d2 := drop && !HasTools(c + more), drop && !HasTools(c);
            && (s.thinking ==> !d1 && !d2)
            && PlanOf(s, context + rest, [], drop) == Plan(c + more, d1, 0)
            && PlanOf(s, rest, context, drop) == Plan(c + more, d1, |c|)
            && PlanOf(s, context, [], drop) == Plan(c, d2, 0)
  {
    var c, more := PreparedContext(context), Prepared(rest, context);
    PreparedSplits(context, rest);
    PreparedAlone(context);
    PreparedAlone(context + rest);
    EmptyContext([]);
    ToolsStay(c, more);
    assert [] + (c + more) == c + more && [] + c == c;
    hide Prepared, PreparedContext, HasTools, DropThinking;
  }

  /** Printing the context and then the rest with that context prints the whole, for
      every context and rest that continues it, and an error in either is the error of
      the whole. */
  lemma PrefixIsStable(s: Style, context: seq<Message>, rest: seq<Message>, drop: bool, bos: bool, bosRest: bool)
    requires Continues(context, rest) && KeepsReasoning(s, context, drop)
    ensures Encode(s, context + rest, [], drop, bos)
         == Then(Encode(s, context, [], drop, bos), Encode(s, rest, context, drop, bosRest))
  {
    var c, more := PreparedContext(context), Prepared(rest, context);
    ContinuesApart(context, rest);
    PlansAgree(s, context, rest, drop);
    SeamIsQuiet(context, rest);
    var d1, d2 := drop && !HasTools(c + more), drop && !HasTools(c);
    hide *;
    EncodeIs(s, context + rest, [], drop, bos, Plan(c + more, d1, 0));
    EncodeIs(s, rest, context, drop, bosRest, Plan(c + more, d1, |c|));
    EncodeIs(s, context, [], drop, bos, Plan(c, d2, 0));
    RenderSplits(s, c + more, d1, 0, |c|, |c + more|);
    RenderPrefix(s, c, more, d1, d2, |c|);
    ThenAssociates(Start([], bos), Render(s, c, d2, 0, |c|), Render(s, c + more, d1, |c|, |c + more|));
    NothingToStart(context, bosRest, Render(s, c + more, d1, |c|, |c + more|));
  }

  lemma EncodeIs(s: Style, msgs: seq<Message>, context: seq<Message>, drop: bool, bos: bool, p: Plan)
    requires PlanOf(s, msgs, context, drop) == p
    ensures p.from <= |p.full|
    ensures Encode(s, msgs, context, drop, bos) ==
          Then(Start(context, bos), Render(s, p.full, p.drop, p.from, |p.full|))
  {
    hide PlanOf, Render, Start, Then;
  }

  lemma NothingToStart(context: seq<Message>, bos: bool, r: Result)
    requires context != []
    ensures Then(Start(context, bos), r) == r
  {
  }

  // ---------------------------------------------------------------------
  // Exactly when a prompt grows at its end
  // ---------------------------------------------------------------------

  lemma ThenLength(a: Result, b: Result)
    ensures Then(a, b).Ok? <==> a.Ok? && b.Ok?
    ensures Then(a, b).Ok? ==> |Then(a, b).text| == |a.text| + |b.text|
  {
  }

  lemma TransitionPrints(s: Style, m: Message, a: Around)
    requires (m.task.Some? || Asks(m)) && a.transition && Transition(s, m, a).Ok?
    ensures |Transition(s, m, a).text| > 0
  {
    hide DsmlCodec.THINK, DsmlCodec.END_THINK;
  }

  /** Handing over prints something. */
  lemma HandOverPrints(s: Style, m: Message, a: Around)
    requires (m.task.Some? || Asks(m)) && Print(s, m, a.(transition := true)).Ok?
    ensures Print(s, m, a.(transition := false)).Ok?
    ensures |Print(s, m, a.(transition := false)).text| < |Print(s, m, a.(transition := true)).text|
  {
    var on, off := a.(transition := true), a.(transition := false);
    var body := Body(s, m, on);
    assert body == Body(s, m, off) by {
      hide Sections, BlockTexts, CallsOf, DsmlCodec.PrintAssistant, DsmlCodec.Join;
    }
    assert Transition(s, m, off) == Ok("");
    var effort := s.texts.effort(s.effort).value;
    var start := Ok(if a.first && s.thinking then effort else "");
    assert Print(s, m, on) == Then(start, Then(body, Transition(s, m, on)));
    assert Print(s, m, off) == Then(start, Then(body, Ok("")));
    hide *;
    ThenLength(start, Then(body, Transition(s, m, on)));
    ThenLength(body, Transition(s, m, on));
    ThenLength(start, Then(body, Ok("")));
    ThenLength(body, Ok(""));
    TransitionPrints(s, m, on);
  }

  /** After a noisy context whatever does not answer prints less than the context did. */
  lemma NoisySeam(s: Style, c: seq<Message>, more: seq<Message>, d1: bool, d2: bool)
    requires c != [] && more != [] && !Answers(more[0]) && (s.thinking ==> !d1 && !d2)
    requires (c[|c| - 1].task.Some? || Asks(c[|c| - 1]))
    requires Render(s, c, d2, 0, |c|).Ok?
    ensures Render(s, c + more, d1, 0, |c|).Ok?
    ensures |Render(s, c + more, d1, 0, |c|).text| < |Render(s, c, d2, 0, |c|).text|
  {
    var n := |c| - 1;
    var m := c[n];
    RenderPrefix(s, c, more, d1, d2, n);
    assert Render(s, c, d2, 0, |c|) == Then(Render(s, c, d2, 0, n), RenderMessage(s, c, d2, n));
    assert Render(s, c + more, d1, 0, |c|) == Then(Render(s, c + more, d1, 0, n), RenderMessage(s, c + more, d1, n));
    hide Render, LastUser;
    assert (c + more)[n] == m && (c + more)[n + 1] == more[0];
    var a1, a2 := AroundAt(c + more, d1, n), AroundAt(c, d2, n);
    HandOverPrints(s, m, a2);
    PrintAlike(s, m, a1, a2.(transition := false));
    hide Print;
    assert a2 == a2.(transition := true);
  }

  /** A context that is not quiet is prepared as one. */
  lemma NoisyStays(context: seq<Message>)
    requires context != [] && !Quiet(context[|context| - 1])
    ensures var c := PreparedContext(context); c != [] && (c[|c| - 1].task.Some? || Asks(c[|c| - 1]))
  {
    MergeKeepsItems(context);
    SortKeepsHeads(map[], Merge(context));
    var k := |context| - 1;
    NoisyLast(Merge(context[..k]), context[k]);
  }

  lemma NoisyLast(merged: seq<Message>, m: Message)
    requires !Quiet(m)
    ensures var r := MergeOne(merged, m); r != [] && (r[|r| - 1].task.Some? || Asks(r[|r| - 1]))
  {
  }

  /** The prompt grows at its end exactly when the rest continues the context: for every
      rest whose first message does not join the last of the context, when both can be
      printed. */
  lemma PrefixIsStableIff(s: Style, context: seq<Message>, rest: seq<Message>, drop: bool, bos: bool, bosRest: bool)
    requires context != [] && rest != [] && Apart(context, rest[0]) && KeepsReasoning(s, context, drop)
    ensures var both := Then(Encode(s, context, [], drop, bos), Encode(s, rest, context, drop, bosRest));
            both.Ok? ==> (Encode(s, context + rest, [], drop, bos) == both <==> Continues(context, rest))
  {
    ThenLength(Encode(s, context, [], drop, bos), Encode(s, rest, context, drop, bosRest));
    if Continues(context, rest) {
      PrefixIsStable(s, context, rest, drop, bos, bosRest);
    } else if Then(Encode(s, context, [], drop, bos), Encode(s, rest, context, drop, bosRest)).Ok? {
      NoisyBreaks(s, context, rest, drop, bos, bosRest);
    }
    hide Encode;
  }

  lemma NoisyBreaks(s: Style, context: seq<Message>, rest: seq<Message>, drop: bool, bos: bool, bosRest: bool)
    requires context != [] && rest != [] && Apart(context, rest[0]) && KeepsReasoning(s, context, drop)
    requires Encode(s, context, [], drop, bos).Ok? && Encode(s, rest, context, drop, bosRest).Ok? &&
          !Continues(context, rest)
    ensures Encode(s, context + rest, [], drop, bos) != Then(Encode(s, context, [], drop, bos),
          Encode(s, rest, context, drop, bosRest))
  {
    var c, more := PreparedContext(context), Prepared(rest, context);
    PlansAgree(s, context, rest, drop);
    FirstKeepsPart(context, rest);
    NoisyStays(context);
    assert !Answers(more[0]);
    var d1, d2 := drop && !HasTools(c + more), drop && !HasTools(c);
    hide *;
    EncodeIs(s, context + rest, [], drop, bos, Plan(c + more, d1, 0));
    EncodeIs(s, rest, context, drop, bosRest, Plan(c + more, d1, |c|));
    EncodeIs(s, context, [], drop, bos, Plan(c, d2, 0));
    RenderSplits(s, c + more, d1, 0, |c|, |c + more|);
    ThenLength(Start([], bos), Render(s, c, d2, 0, |c|));
    NoisySeam(s, c, more, d1, d2);
    Longer(Start([], bos), Render(s, c, d2, 0, |c|), Render(s, c + more, d1, 0, |c|),
        Render(s, c + more, d1, |c|, |c + more|), Start(context, bosRest));
  }

  /** A shorter part in the middle makes the whole shorter. */
  lemma Longer(start: Result, alone: Result, inside: Result, rest: Result, start1: Result)
    requires Then(start, alone).Ok? && Then(start1, rest).Ok? && inside.Ok? && |inside.text| < |alone.text|
    ensures Then(start, Then(inside, rest)) != Then(Then(start, alone), Then(start1, rest))
  {
    ThenLength(start, alone);
    ThenLength(start1, rest);
    ThenLength(inside, rest);
    ThenLength(start, Then(inside, rest));
    ThenLength(Then(start, alone), Then(start1, rest));
    hide Then;
  }
}

/**
 Dropping earlier reasoning: what the assistant thought before the last question leaves
 no trace in the prompt.
 */
module PromptReasoning {
  import opened PromptMessages
  import opened PromptEncoding
  import opened PromptStability

  /** Two conversations that differ at most in reasoning before position `last`. */
  predicate Twins(a: seq<Message>, b: seq<Message>, last: int) {
    && |a| == |b|
    && forall k :: 0 <= k < |a| ==>
         b[k] == a[k] || (k < last && a[k].role == Assistant && b[k] == a[k].(reasoning := b[k].reasoning))
  }

  // ---------------------------------------------------------------------
  // What is dropped from a prepared conversation
  // ---------------------------------------------------------------------

  lemma {:induction false} SameLastUser(a: seq<Message>, b: seq<Message>)
    requires |a| == |b| && forall k :: 0 <= k < |a| ==> a[k].role == b[k].role
    ensures LastUser(a) == LastUser(b)
  {
    if a != [] && !Asks(a[|a| - 1]) {
      SameLastUser(a[..|a| - 1], b[..|b| - 1]);
    }
  }

  /** Reasoning before the last user message is dropped without a trace. */
  lemma DropIgnoresReasoning(a: seq<Message>, b: seq<Message>)
    requires Twins(a, b, LastUser(a))
    ensures DropThinking(a) == DropThinking(b)
  {
    SameLastUser(a, b);
    DropFromTwins(a, b, LastUser(a));
  }

  lemma {:induction false} DropFromTwins(a: seq<Message>, b: seq<Message>, last: int)
    requires Twins(a, b, last)
    ensures DropFrom(a, last) == DropFrom(b, last)
  {
    if a != [] {
      DropFromTwins(a[..|a| - 1], b[..|b| - 1], last);
    }
  }

  /** From the last user message on nothing is dropped. */
  lemma {:induction false} LaterMessagesStay(msgs: seq<Message>, last: nat)
    requires last <= |msgs|
    ensures DropFrom(msgs, last) == DropFrom(msgs[..last], last) + msgs[last..]
  {
    if last < |msgs| {
      var n := |msgs| - 1;
      LaterMessagesStay(msgs[..n], last);
      assert msgs[..n][..last] == msgs[..last];
      assert msgs[last..] == msgs[..n][last..] + [msgs[n]];
    } else {
      assert msgs[..last] == msgs;
    }
  }

  // ---------------------------------------------------------------------
  // Twins through merging and sorting
  // ---------------------------------------------------------------------

  /** A message that becomes or joins one that asks. */
  predicate Questions(m: Message) {
    IsTurn(m) || m.role == Developer
  }

  /** Twins whose differences lie before a message that asks. */
  predicate TwinsUpTo(x: seq<Message>, y: seq<Message>, p: nat) {
    p < |x| && Asks(x[p]) && Twins(x, y, p)
  }

  lemma MergeOneTwins(x: seq<Message>, y: seq<Message>, m: Message, n: Message)
    requires Twins(x, y, |x|) && Twins([m], [n], 1)
    ensures Twins(MergeOne(x, m), MergeOne(y, n), |MergeOne(x, m)|)
  {
    assert [m][0] == m && [n][0] == n;
    hide BlockOf, NewTurn;
  }

  lemma {:induction false} MergeTwins(a: seq<Message>, b: seq<Message>)
    requires Twins(a, b, |a|)
    ensures Twins(Merge(a), Merge(b), |Merge(a)|)
  {
    if a != [] {
      var n := |a| - 1;
      MergeTwins(a[..n], b[..n]);
      assert Twins([a[n]], [b[n]], 1);
      hide Twins;
      MergeOneTwins(Merge(a[..n]), Merge(b[..n]), a[n], b[n]);
    }
  }

  /** A question ends the differences. */
  lemma QuestionEnds(x: seq<Message>, y: seq<Message>, q: Message)
    requires Twins(x, y, |x|) && Questions(q)
    ensures var r := MergeOne(x, q); r != [] && TwinsUpTo(r, MergeOne(y, q), |r| - 1)
  {
    hide BlockOf;
  }

  lemma MergeOneKeepsTwins(x: seq<Message>, y: seq<Message>, p: nat, m: Message)
    requires TwinsUpTo(x, y, p)
    ensures TwinsUpTo(MergeOne(x, m), MergeOne(y, m), p)
  {
    hide BlockOf, NewTurn;
  }

  lemma MergeSnoc(a: seq<Message>, m: Message)
    ensures Merge(a + [m]) == MergeOne(Merge(a), m)
  {
    assert (a + [m])[..|a|] == a;
  }

  lemma {:induction false} MergeOnTwins(a: seq<Message>, b: seq<Message>, rest: seq<Message>, p: nat)
    requires TwinsUpTo(Merge(a), Merge(b), p)
    ensures TwinsUpTo(Merge(a + rest), Merge(b + rest), p)
  {
    hide TwinsUpTo, MergeOne;
    if rest == [] {
      assert a + rest == a && b + rest == b;
    } else {
      var n := |rest| - 1;
      MergeOnTwins(a, b, rest[..n], p);
      assert a + rest == (a + rest[..n]) + [rest[n]] && b + rest == (b + rest[..n]) + [rest[n]];
      MergeSnoc(a + rest[..n], rest[n]);
      MergeSnoc(b + rest[..n], rest[n]);
      MergeOneKeepsTwins(Merge(a + rest[..n]), Merge(b + rest[..n]), p, rest[n]);
    }
  }

  lemma {:induction false} OrderOfTwins(order: Order, x: seq<Message>, y: seq<Message>, p: nat)
    requires Twins(x, y, p)
    ensures OrderAfter(order, x) == OrderAfter(order, y)
  {
    hide CallOrder;
    if x != [] {
      OrderOfTwins(order, x[..|x| - 1], y[..|y| - 1], p);
    }
  }

  lemma {:induction false} SortTwins(order: Order, x: seq<Message>, y: seq<Message>, p: nat)
    requires Twins(x, y, p)
    ensures Twins(SortAll(order, x), SortAll(order, y), p)
    ensures forall k :: 0 <= k < |x| ==>
              SortAll(order, x)[k].role == x[k].role && SortAll(order, x)[k].tools == x[k].tools
  {
    hide OrderAfter, SortBlocks;
    if x != [] {
      var n := |x| - 1;
      SortTwins(order, x[..n], y[..n], p);
      OrderOfTwins(order, x[..n], y[..n], p);
    }
  }

  // ---------------------------------------------------------------------
  // The prompt
  // ---------------------------------------------------------------------

  lemma PreparedTwins(before1: seq<Message>, before2: seq<Message>, q: Message, rest: seq<Message>,
      context: seq<Message>)
    returns (p: nat)
    requires Twins(before1, before2, |before1|) && Questions(q)
    ensures TwinsUpTo(Prepared(before1 + [q] + rest, context), Prepared(before2 + [q] + rest, context), p)
  {
    MergeTwins(before1, before2);
    MergeSnoc(before1, q);
    MergeSnoc(before2, q);
    QuestionEnds(Merge(before1), Merge(before2), q);
    p := |Merge(before1 + [q])| - 1;
    hide Merge, MergeOne, Prepared;
    MergeOnTwins(before1 + [q], before2 + [q], rest, p);
    var x, y := Merge(before1 + [q] + rest), Merge(before2 + [q] + rest);
    SortTwins(OrderAfter(map[], context), x, y, p);
    PreparedIsSorted(before1 + [q] + rest, context, x);
    PreparedIsSorted(before2 + [q] + rest, context, y);
  }

  lemma {:induction false} LastUserAtLeast(msgs: seq<Message>, p: nat)
    requires p < |msgs| && Asks(msgs[p])
    ensures LastUser(msgs) >= p
  {
    if !Asks(msgs[|msgs| - 1]) {
      LastUserAtLeast(msgs[..|msgs| - 1], p);
    }
  }

  /** With a prefix in front they are twins up to the last user message. */
  lemma FullTwins(c: seq<Message>, x: seq<Message>, y: seq<Message>, p: nat)
    requires TwinsUpTo(x, y, p)
    ensures Twins(c + x, c + y, LastUser(c + x)) && (HasTools(c + x) <==> HasTools(c + y))
  {
    assert (c + x)[|c| + p] == x[p];
    LastUserAtLeast(c + x, |c| + p);
    assert forall k :: 0 <= k < |c + x| ==> (c + x)[k].tools == (c + y)[k].tools;
  }

  /** Two conversations that differ only in what the assistant thought before some
      question give the same prompt in thinking mode, when earlier reasoning is dropped
      and no message brings tools. */
  lemma EarlierReasoningIsGone(s: Style, before1: seq<Message>, before2: seq<Message>, q: Message, rest: seq<Message>,
                               context: seq<Message>, bos: bool)
    requires Twins(before1, before2, |before1|) && Questions(q)
    requires s.thinking && !HasTools(PreparedContext(context) + Prepared(before1 + [q] + rest, context))
    ensures Encode(s, before1 + [q] + rest, context, true, bos) == Encode(s, before2 + [q] + rest, context, true, bos)
  {
    var p := PreparedTwins(before1, before2, q, rest, context);
    var c := PreparedContext(context);
    var x, y := Prepared(before1 + [q] + rest, context), Prepared(before2 + [q] + rest, context);
    hide Prepared, PreparedContext, HasTools, Render, DropThinking, Twins, TwinsUpTo, Start;
    FullTwins(c, x, y, p);
    DropIgnoresReasoning(c + x, c + y);
    assert PlanOf(s, before1 + [q] + rest, context, true) == PlanOf(s, before2 + [q] + rest, context, true);
  }
}

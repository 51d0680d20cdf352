/**
 What a prompt contains, said of the conversation as it comes: its messages gathered into
 turns from left to right, each turn's texts and tool results, and the signs between them.
 */
module PromptScript {
  import opened Options
  import opened Seqs
  import opened PromptMessages
  import opened PromptEncoding
  import opened PromptStability
  import DsmlCodec

  // ---------------------------------------------------------------------
  // What one message contributes
  // ---------------------------------------------------------------------

  /** What a message of a turn says: a tool its result inside tags, a user the text. */
  function Saying(m: Message): string {
    if m.role != Tool then OrEmpty(m.content)
    else
      "<tool_result>"
      + (if m.listed.Some? then DsmlCodec.Join(PartSayings(m.listed.value), "\n\n") else OrEmpty(m.content))
      + "</tool_result>"
  }

  function PartSayings(parts: seq<Part>): seq<string> {
    if parts == [] then []
    else
      var n := |parts| - 1;
      PartSayings(parts[..n])
      + [match parts[n] case TextPart(text) => text case OtherPart(kind) => "[Unsupported " + kind + "]"]
  }

  lemma {:induction false} PartsSay(parts: seq<Part>)
    ensures PartTexts(parts) == PartSayings(parts)
  {
    if parts != [] {
      PartsSay(parts[..|parts| - 1]);
      PartsSnoc(parts);
      hide PartTexts;
    }
  }

  lemma PartsSnoc(parts: seq<Part>)
    requires parts != []
    ensures var p := parts[|parts| - 1];
            PartTexts(parts) == PartTexts(parts[..|parts| - 1])
                + [match p case TextPart(text) => text case OtherPart(kind) => "[Unsupported " + kind + "]"]
  {
  }

  /** The block made of a message says that, and a tool result names its call. */
  lemma BlockSays(m: Message)
    ensures BlockText(BlockOf(m)) == Saying(m)
    ensures BlockOf(m).ToolResult? <==> m.role == Tool
    ensures m.role == Tool ==> BlockOf(m).useId == m.callId
  {
    if m.listed.Some? {
      PartsSay(m.listed.value);
    }
  }

  /** The position of the last call with an id; a result of an unknown call counts as one
      of the first. */
  function Position(calls: seq<ToolCall>, id: CallId): nat {
    if calls == [] || id.name == "" then 0
    else
      var n := |calls| - 1;
      if calls[n].id == id then n else Position(calls[..n], id)
  }

  lemma {:induction false} KeyIsPosition(calls: seq<ToolCall>, b: Block)
    requires b.ToolResult?
    ensures Key(CallOrder(calls), b) == Position(calls, b.useId) < Bound(calls)
  {
    if calls != [] {
      KeyIsPosition(calls[..|calls| - 1], b);
    }
  }

  function Bound(calls: seq<ToolCall>): nat {
    if calls == [] then 1 else |calls|
  }

  // ---------------------------------------------------------------------
  // Turns
  // ---------------------------------------------------------------------

  /** A turn of user and tool messages, or a message of another role. */
  datatype Entry = Turn(ms: seq<Message>) | Single(m: Message)

  /** The task of a turn is that of its first message. */
  function TaskOf(m: Message): Option<string> {
    if m.role == Tool then None else m.task
  }

  /** A tool's message belongs to the turn before it, and a user's to one without a task. */
  predicate Belongs(m: Message, task: Option<string>) {
    m.role == Tool || (m.role == User && task.None?)
  }

  /** Where the turn ends that goes on at `i`. */
  function TurnEnd(msgs: seq<Message>, i: nat, task: Option<string>): (k: nat)
    requires i <= |msgs|
    ensures i <= k <= |msgs| && forall j :: i <= j < k ==> Belongs(msgs[j], task)
    ensures k < |msgs| ==> !Belongs(msgs[k], task)
    decreases |msgs| - i
  {
    if i < |msgs| && Belongs(msgs[i], task) then TurnEnd(msgs, i + 1, task) else i
  }

  function Entries(msgs: seq<Message>): seq<Entry>
    decreases |msgs|
  {
    if msgs == [] then []
    else if IsTurn(msgs[0]) then
      var k := TurnEnd(msgs, 1, TaskOf(msgs[0]));
      [Turn(msgs[..k])] + Entries(msgs[k..])
    else [Single(msgs[0])] + Entries(msgs[1..])
  }

  function BlocksOf(ms: seq<Message>): seq<Block> {
    seq(|ms|, k requires 0 <= k < |ms| => BlockOf(ms[k]))
  }

  predicate WellFormed(e: Entry) {
    match e
    case Turn(ms) => ms != [] && IsTurn(ms[0]) && forall k :: 1 <= k < |ms| ==> Belongs(ms[k], TaskOf(ms[0]))
    case Single(m) => !IsTurn(m)
  }

  /** The one message of an entry. */
  function AsMessage(e: Entry): Message
    requires WellFormed(e)
  {
    match e
    case Turn(ms) => NewTurn(ms[0]).(blocks := BlocksOf(ms))
    case Single(m) => m
  }

  predicate AllWellFormed(es: seq<Entry>) {
    forall k :: 0 <= k < |es| ==> WellFormed(es[k])
  }

  function AsMessages(es: seq<Entry>): seq<Message>
    requires AllWellFormed(es)
  {
    seq(|es|, k requires 0 <= k < |es| => AsMessage(es[k]))
  }

  /** One more message for a turn. */
  lemma GrowTurn(ms: seq<Message>)
    requires WellFormed(Turn(ms)) && |ms| > 1
    ensures var n := |ms| - 1;
            WellFormed(Turn(ms[..n])) && MergeOne([AsMessage(Turn(ms[..n]))], ms[n]) == [AsMessage(Turn(ms))]
  {
    hide BlockOf;
    var n := |ms| - 1;
    var last := AsMessage(Turn(ms[..n]));
    assert last.task == TaskOf(ms[0]) && last.role == User && last.blocks != [];
    assert Joins(last, ms[n]);
    assert BlocksOf(ms) == BlocksOf(ms[..n]) + [BlockOf(ms[n])];
    assert [last][..0] == [];
  }

  lemma TurnOfOne(ms: seq<Message>)
    requires WellFormed(Turn(ms)) && |ms| == 1
    ensures Merge(ms) == [AsMessage(Turn(ms))]
  {
    assert ms[..0] == [] && Merge(ms[..0]) == [];
    assert BlocksOf(ms) == [BlockOf(ms[0])];
    hide BlockOf;
  }

  lemma {:induction false} MergeTurn(ms: seq<Message>)
    requires WellFormed(Turn(ms))
    ensures Merge(ms) == [AsMessage(Turn(ms))]
    decreases |ms|
  {
    hide Merge, AsMessage, MergeOne;
    if |ms| == 1 {
      TurnOfOne(ms);
    } else {
      GrowTurn(ms);
      MergeTurn(ms[..|ms| - 1]);
      MergeLast(ms);
    }
  }

  lemma MergeLast(ms: seq<Message>)
    requires ms != []
    ensures Merge(ms) == MergeOne(Merge(ms[..|ms| - 1]), ms[|ms| - 1])
  {
  }

  lemma MergeSingle(m: Message)
    requires !IsTurn(m)
    ensures Merge([m]) == [m]
  {
    assert [m][..0] == [];
  }

  /** The entry that a conversation starts with. */
  function FirstEntry(msgs: seq<Message>): Entry
    requires msgs != []
  {
    if IsTurn(msgs[0]) then Turn(msgs[..TurnEnd(msgs, 1, TaskOf(msgs[0]))]) else Single(msgs[0])
  }

  function FirstLength(e: Entry): nat {
    if e.Turn? then |e.ms| else 1
  }

  lemma FirstMerges(msgs: seq<Message>)
    requires msgs != []
    ensures var first := FirstEntry(msgs);
            var k := FirstLength(first);
            && 1 <= k <= |msgs| && WellFormed(first) && Merge(msgs[..k]) == [AsMessage(first)]
            && Entries(msgs) == [first] + Entries(msgs[k..])
  {
    if IsTurn(msgs[0]) {
      var k := TurnEnd(msgs, 1, TaskOf(msgs[0]));
      assert msgs[..k][0] == msgs[0];
      hide Merge, AsMessage, TurnEnd;
      MergeTurn(msgs[..k]);
    } else {
      assert msgs[..1] == [msgs[0]];
      hide Merge;
      MergeSingle(msgs[0]);
    }
  }

  lemma FirstIsApart(msgs: seq<Message>)
    requires msgs != []
    ensures var first := FirstEntry(msgs);
            var k := FirstLength(first);
            k < |msgs| ==> Apart(msgs[..k], msgs[k])
  {
    var first := FirstEntry(msgs);
    FirstMerges(msgs);
    hide Merge, Entries, BlocksOf, BlockOf, TurnEnd;
  }

  /** Merging makes one message of each turn. */
  lemma {:induction false} MergeIsEntries(msgs: seq<Message>)
    ensures AllWellFormed(Entries(msgs)) && Merge(msgs) == AsMessages(Entries(msgs))
    decreases |msgs|
  {
    hide *;
    if msgs == [] {
      NoEntries();
    } else {
      var first := FirstEntry(msgs);
      var k := FirstLength(first);
      FirstMerges(msgs);
      var a, b := msgs[..k], msgs[k..];
      assert msgs == a + b;
      MergeIsEntries(b);
      OneMoreEntry(first, Entries(b));
      if b == [] {
        assert a == msgs;
        NoEntries();
      } else {
        FirstIsApart(msgs);
        MergeSplits(a, b);
      }
    }
  }

  lemma OneMoreEntry(first: Entry, es: seq<Entry>)
    requires WellFormed(first) && AllWellFormed(es)
    ensures AllWellFormed([first] + es) && AsMessages([first] + es) == [AsMessage(first)] + AsMessages(es)
  {
    hide WellFormed, AsMessage;
    var all := [first] + es;
    assert forall k :: 0 <= k < |all| ==> all[k] == if k == 0 then first else es[k - 1];
  }

  lemma NoEntries()
    ensures Merge([]) == [] && Entries([]) == [] && AllWellFormed([]) && AsMessages([]) == []
  {
  }

  // ---------------------------------------------------------------------
  // Lines
  // ---------------------------------------------------------------------

  /** What is printed for an entry: the text of a turn with its task, or a message. */
  datatype Line = Asked(text: string, task: Option<string>) | Alone(m: Message)

  /** The calls of the last assistant message before entry `i` that has any. */
  function LastCalls(es: seq<Entry>, i: nat): seq<ToolCall>
    requires i <= |es|
  {
    if i == 0 then []
    else if es[i - 1].Single? && es[i - 1].m.role == Assistant && es[i - 1].m.calls != [] then es[i - 1].m.calls
    else LastCalls(es, i - 1)
  }

  /** The tool messages that answer call `p`, as they came. */
  function Replies(calls: seq<ToolCall>, ms: seq<Message>, p: nat): seq<Message> {
    if ms == [] then []
    else
      var n := |ms| - 1;
      Replies(calls, ms[..n], p) + if ms[n].role == Tool && Position(calls, ms[n].callId) == p then [ms[n]] else []
  }

  /** Those that answer the first `n` calls, call by call. */
  function CallByCall(calls: seq<ToolCall>, ms: seq<Message>, n: nat): seq<Message> {
    if n == 0 then [] else CallByCall(calls, ms, n - 1) + Replies(calls, ms, n - 1)
  }

  function ToolCount(ms: seq<Message>): nat {
    if ms == [] then 0 else ToolCount(ms[..|ms| - 1]) + if ms[|ms| - 1].role == Tool then 1 else 0
  }

  /** What the users say at their places, and what the tools say at those of tools. */
  function Placed(ms: seq<Message>, replies: seq<Message>): seq<string>
    requires |replies| == ToolCount(ms)
  {
    if ms == [] then []
    else
      var n, k := |ms| - 1, |replies| - 1;
      if ms[n].role == Tool then Placed(ms[..n], replies[..k]) + [Saying(replies[k])]
      else Placed(ms[..n], replies) + [Saying(ms[n])]
  }

  /** A turn: the texts at their places, and between them the tool results in the order of
      the calls that they answer. */
  function TurnText(calls: seq<ToolCall>, ms: seq<Message>): string {
    var replies := CallByCall(calls, ms, Bound(calls));
    EveryReply(calls, ms);
    DsmlCodec.Join(Placed(ms, replies), "\n\n")
  }

  lemma BlocksSnoc(ms: seq<Message>, m: Message)
    ensures BlocksOf(ms + [m]) == BlocksOf(ms) + [BlockOf(m)]
  {
  }

  lemma BlocksConcat(a: seq<Message>, b: seq<Message>)
    ensures BlocksOf(a + b) == BlocksOf(a) + BlocksOf(b)
  {
  }

  /** The blocks with one key are those of the messages that answer one call. */
  lemma {:induction false} RepliesAre(calls: seq<ToolCall>, ms: seq<Message>, p: nat)
    ensures WithKey(CallOrder(calls), ToolBlocks(BlocksOf(ms)), p) == BlocksOf(Replies(calls, ms, p))
  {
    hide CallOrder, Key;
    if ms == [] {
      assert BlocksOf(ms) == [];
    } else {
      var n := |ms| - 1;
      var b := BlockOf(ms[n]);
      RepliesAre(calls, ms[..n], p);
      BlockSays(ms[n]);
      assert ms == ms[..n] + [ms[n]];
      BlocksSnoc(ms[..n], ms[n]);
      ToolsSnoc(BlocksOf(ms[..n]), b);
      BlocksSnoc(Replies(calls, ms[..n], p), ms[n]);
      assert Replies(calls, ms[..n], p) + [] == Replies(calls, ms[..n], p);
      assert ToolBlocks(BlocksOf(ms[..n])) + [] == ToolBlocks(BlocksOf(ms[..n]));
      if b.ToolResult? {
        KeyIsPosition(calls, b);
        WithKeySnoc(CallOrder(calls), ToolBlocks(BlocksOf(ms[..n])), b, p);
      }
      hide BlockOf, ToolBlocks, WithKey, BlocksOf, Saying;
    }
  }

  /** The blocks with the keys below `n`, key by key. */
  function KeyByKey(order: Order, blocks: seq<Block>, n: nat): seq<Block> {
    if n == 0 then [] else KeyByKey(order, blocks, n - 1) + WithKey(order, blocks, n - 1)
  }

  lemma {:induction false} CallByCallIs(calls: seq<ToolCall>, ms: seq<Message>, n: nat)
    ensures KeyByKey(CallOrder(calls), ToolBlocks(BlocksOf(ms)), n) == BlocksOf(CallByCall(calls, ms, n))
  {
    hide CallOrder, WithKey, ToolBlocks, BlocksOf, Replies;
    if n == 0 {
      NoMessages();
    } else {
      CallByCallIs(calls, ms, n - 1);
      RepliesAre(calls, ms, n - 1);
      BlocksConcat(CallByCall(calls, ms, n - 1), Replies(calls, ms, n - 1));
    }
  }

  lemma NoMessages()
    ensures BlocksOf([]) == []
  {
  }

  /** An ordered sequence is its blocks key by key: all with keys below `n`. */
  lemma {:induction false} OrderedIsKeyByKey(order: Order, s: seq<Block>, n: nat)
    requires Ordered(order, s) && forall k :: 0 <= k < |s| ==> Key(order, s[k]) < n
    ensures KeyByKey(order, s, n) == s
  {
    if s == [] {
      NoneByKey(order, n);
    } else {
      var m := |s| - 1;
      assert s == s[..m] + [s[m]];
      OrderedIsKeyByKey(order, s[..m], n);
      LastByKey(order, s[..m], s[m], n);
    }
  }

  lemma {:induction false} NoneByKey(order: Order, n: nat)
    ensures KeyByKey(order, [], n) == []
  {
    if n > 0 {
      NoneByKey(order, n - 1);
    }
  }

  /** A last block with the greatest key comes last. */
  lemma {:induction false} LastByKey(order: Order, s: seq<Block>, b: Block, n: nat)
    requires AllUpTo(order, s, Key(order, b))
    ensures KeyByKey(order, s + [b], n) == KeyByKey(order, s, n) + if Key(order, b) < n then [b] else []
  {
    hide WithKey, Key, AllUpTo;
    if n > 0 {
      LastByKey(order, s, b, n - 1);
      WithKeySnoc(order, s, b, n - 1);
      if Key(order, b) < n - 1 {
        NoneAbove(order, s, b, n - 1);
      }
      LastKey(KeyByKey(order, s, n - 1), WithKey(order, s, n - 1), b);
    }
  }

  lemma LastKey(a: seq<Block>, c: seq<Block>, b: Block)
    ensures a + (c + [b]) == (a + c) + [b] && a + (c + []) == (a + c) + [] && (a + []) + c == (a + c) + []
    ensures (a + [b]) + [] == (a + []) + [b]
  {
  }

  lemma {:induction false} NoneAbove(order: Order, s: seq<Block>, b: Block, key: nat)
    requires AllUpTo(order, s, Key(order, b)) && Key(order, b) < key
    ensures WithKey(order, s, key) == [] && WithKey(order, s + [b], key) == []
  {
    WithKeySnoc(order, s, b, key);
    if s != [] {
      NoneAbove(order, s[..|s| - 1], b, key);
    }
  }

  lemma {:induction false} SameByKey(order: Order, s: seq<Block>, t: seq<Block>, n: nat)
    requires forall key: nat :: WithKey(order, s, key) == WithKey(order, t, key)
    ensures KeyByKey(order, s, n) == KeyByKey(order, t, n)
  {
    hide WithKey;
    if n > 0 {
      SameByKey(order, s, t, n - 1);
    }
  }

  /** The tool results of a sorted user message are those that came, key by key. */
  lemma SortedByKey(order: Order, blocks: seq<Block>, n: nat)
    requires forall k :: 0 <= k < |blocks| && blocks[k].ToolResult? ==> Key(order, blocks[k]) < n
    ensures ToolBlocks(SortBlocks(order, blocks)) == KeyByKey(order, ToolBlocks(blocks), n)
  {
    var r := ToolBlocks(SortBlocks(order, blocks));
    var t := ToolBlocks(blocks);
    SortedBlocks(order, blocks, 0);
    forall key: nat ensures WithKey(order, r, key) == WithKey(order, t, key) {
      SortedBlocks(order, blocks, key);
    }
    SameMembers(r, t);
    ToolsAmong(blocks);
    hide SortBlocks, ToolBlocks, WithKey, SamePlaces, Key;
    SameByKey(order, r, t, n);
    forall k | 0 <= k < |r| ensures Key(order, r[k]) < n {
      assert r[k] in t;
    }
    OrderedIsKeyByKey(order, r, n);
  }

  lemma {:induction false} ToolsAmong(blocks: seq<Block>)
    ensures forall b :: b in ToolBlocks(blocks) ==> b.ToolResult? && b in blocks
  {
    if blocks != [] {
      ToolsAmong(blocks[..|blocks| - 1]);
    }
  }

  lemma KeysBelow(calls: seq<ToolCall>, ms: seq<Message>)
    ensures var blocks := BlocksOf(ms);
            forall k :: 0 <= k < |blocks| && blocks[k].ToolResult? ==> Key(CallOrder(calls), blocks[k]) < Bound(calls)
  {
    var blocks := BlocksOf(ms);
    forall k | 0 <= k < |blocks| && blocks[k].ToolResult? ensures Key(CallOrder(calls), blocks[k]) < Bound(calls) {
      KeyIsPosition(calls, blocks[k]);
    }
  }

  lemma {:induction false} CountTools(ms: seq<Message>)
    ensures |ToolBlocks(BlocksOf(ms))| == ToolCount(ms)
  {
    if ms == [] {
      NoMessages();
    } else {
      var n := |ms| - 1;
      CountTools(ms[..n]);
      BlockSays(ms[n]);
      assert ms == ms[..n] + [ms[n]];
      BlocksSnoc(ms[..n], ms[n]);
      ToolsSnoc(BlocksOf(ms[..n]), BlockOf(ms[n]));
      hide BlockOf, ToolBlocks, BlocksOf, Saying;
    }
  }

  /** The sorted tool results of a turn are the replies, call by call. */
  lemma SortedReplies(calls: seq<ToolCall>, ms: seq<Message>)
    ensures ToolBlocks(SortBlocks(CallOrder(calls), BlocksOf(ms))) == BlocksOf(CallByCall(calls, ms, Bound(calls)))
    ensures SamePlaces(SortBlocks(CallOrder(calls), BlocksOf(ms)), BlocksOf(ms))
  {
    hide SortBlocks, ToolBlocks, WithKey, SamePlaces, Key, CallOrder, BlocksOf, Bound;
    KeysBelow(calls, ms);
    SortedByKey(CallOrder(calls), BlocksOf(ms), Bound(calls));
    CallByCallIs(calls, ms, Bound(calls));
    SortedBlocks(CallOrder(calls), BlocksOf(ms), 0);
  }

  /** Every tool result is among the replies. */
  lemma EveryReply(calls: seq<ToolCall>, ms: seq<Message>)
    ensures |CallByCall(calls, ms, Bound(calls))| == ToolCount(ms)
  {
    var blocks := BlocksOf(ms);
    SortedReplies(calls, ms);
    SortedBlocks(CallOrder(calls), blocks, 0);
    CountTools(ms);
    hide SortBlocks, ToolBlocks, WithKey, SamePlaces, CallOrder;
    SameSize(ToolBlocks(SortBlocks(CallOrder(calls), blocks)), ToolBlocks(blocks));
  }

  lemma SameSize(s: seq<Block>, t: seq<Block>)
    requires multiset(s) == multiset(t)
    ensures |s| == |t|
  {
    assert |multiset(s)| == |s| && |multiset(t)| == |t|;
  }

  lemma BlocksLast(ms: seq<Message>)
    requires ms != []
    ensures var n := |ms| - 1;
            && |BlocksOf(ms)| == n + 1 && BlocksOf(ms)[..n] == BlocksOf(ms[..n]) && BlocksOf(ms)[n] == BlockOf(ms[n])
            && BlocksOf(ms) == BlocksOf(ms[..n]) + [BlockOf(ms[n])]
  {
    hide BlockOf;
  }

  lemma TextsLast(r: seq<Block>)
    requires r != []
    ensures var n := |r| - 1;
            && BlockTexts(r) == BlockTexts(r[..n]) + [BlockText(r[n])]
            && ToolBlocks(r) == ToolBlocks(r[..n]) + if r[n].ToolResult? then [r[n]] else []
  {
    hide BlockText;
  }

  lemma NonePlaced(r: seq<Block>, replies: seq<Message>)
    requires SamePlaces(r, BlocksOf([])) && |replies| == ToolCount([])
    ensures BlockTexts(r) == Placed([], replies)
  {
  }

  lemma {:induction false} PlacedIs(ms: seq<Message>, replies: seq<Message>, r: seq<Block>)
    requires SamePlaces(r, BlocksOf(ms)) && ToolBlocks(r) == BlocksOf(replies) && |replies| == ToolCount(ms)
    ensures BlockTexts(r) == Placed(ms, replies)
    decreases |ms|
  {
    hide *;
    if ms == [] {
      NonePlaced(r, replies);
    } else {
      var n, k := |ms| - 1, |replies| - 1;
      BlocksLast(ms);
      LastPlace(r, BlocksOf(ms));
      TextsLast(r);
      BlockSays(ms[n]);
      PlacedLast(ms, replies);
      if ms[n].role == Tool {
        BlocksLast(replies);
        BlockSays(replies[k]);
        SnocEqual(ToolBlocks(r[..n]), r[n], BlocksOf(replies[..k]), BlockOf(replies[k]));
        PlacedIs(ms[..n], replies[..k], r[..n]);
      } else {
        assert ToolBlocks(r[..n]) + [] == ToolBlocks(r[..n]);
        PlacedIs(ms[..n], replies, r[..n]);
      }
    }
  }

  lemma PlacedLast(ms: seq<Message>, replies: seq<Message>)
    requires ms != [] && |replies| == ToolCount(ms)
    ensures var n, k := |ms| - 1, |replies| - 1;
            if ms[n].role == Tool then
              && k >= 0 && k == ToolCount(ms[..n])
              && Placed(ms, replies) == Placed(ms[..n], replies[..k]) + [Saying(replies[k])]
            else
              |replies| == ToolCount(ms[..n]) && Placed(ms, replies) == Placed(ms[..n], replies) + [Saying(ms[n])]
  {
  }

  lemma SnocEqual(s: seq<Block>, x: Block, t: seq<Block>, y: Block)
    requires s + [x] == t + [y]
    ensures s == t && x == y
  {
    assert (s + [x])[..|s|] == s && (t + [y])[..|t|] == t;
  }

  lemma LastPlace(r: seq<Block>, blocks: seq<Block>)
    requires SamePlaces(r, blocks) && blocks != []
    ensures var n := |blocks| - 1;
            && |r| == n + 1 && SamePlaces(r[..n], blocks[..n]) && r[n].ToolResult? == blocks[n].ToolResult?
            && (blocks[n].TextBlock? ==> r[n] == blocks[n])
  {
  }

  /** What is printed of the blocks of a turn. */
  lemma TurnTextIs(calls: seq<ToolCall>, ms: seq<Message>)
    ensures DsmlCodec.Join(BlockTexts(SortBlocks(CallOrder(calls), BlocksOf(ms))), "\n\n") == TurnText(calls, ms)
  {
    hide SortBlocks, CallOrder, BlocksOf, BlockTexts, Placed, CallByCall, SamePlaces, ToolBlocks;
    EveryReply(calls, ms);
    SortedReplies(calls, ms);
    PlacedIs(ms, CallByCall(calls, ms, Bound(calls)), SortBlocks(CallOrder(calls), BlocksOf(ms)));
  }

  function LineOf(es: seq<Entry>, i: nat): Line
    requires i < |es| && WellFormed(es[i])
  {
    match es[i]
    case Turn(ms) => Asked(TurnText(LastCalls(es, i), ms), TaskOf(ms[0]))
    case Single(m) => Alone(m)
  }

  function Lines(es: seq<Entry>): seq<Line>
    requires AllWellFormed(es)
  {
    seq(|es|, k requires 0 <= k < |es| => LineOf(es, k))
  }

  /** The prepared message that a line stands for. */
  predicate Matches(line: Line, m: Message) {
    match line
    case Asked(text, task) =>
      m.role == User && m.task == task && m.tools == [] && m.blocks != []
      && DsmlCodec.Join(BlockTexts(m.blocks), "\n\n") == text
    case Alone(m1) => m == m1 && m.role != User && m.role != Tool
  }

  predicate AllMatch(lines: seq<Line>, msgs: seq<Message>) {
    |lines| == |msgs| && forall k :: 0 <= k < |lines| ==> Matches(lines[k], msgs[k])
  }

  lemma {:induction false} SortAllAt(order: Order, msgs: seq<Message>, i: nat)
    requires i < |msgs|
    ensures SortAll(order, msgs)[i] == SortMessage(OrderAfter(order, msgs[..i]), msgs[i])
  {
    var n := |msgs| - 1;
    if i < n {
      SortAllAt(order, msgs[..n], i);
      assert msgs[..n][..i] == msgs[..i];
    }
  }

  lemma {:induction false} OrderAt(es: seq<Entry>, i: nat)
    requires i <= |es| && AllWellFormed(es)
    ensures OrderAfter(map[], AsMessages(es)[..i]) == CallOrder(LastCalls(es, i))
  {
    if i > 0 {
      OrderAt(es, i - 1);
      var ms := AsMessages(es);
      assert ms[..i] == ms[..i - 1] + [AsMessage(es[i - 1])];
      OrderSnoc(map[], ms[..i - 1], AsMessage(es[i - 1]));
    }
  }

  lemma BlocksStay(order: Order, blocks: seq<Block>)
    requires blocks != []
    ensures SortBlocks(order, blocks) != []
  {
    SortedBlocks(order, blocks, 0);
  }

  lemma LineMatches(es: seq<Entry>, i: nat)
    requires i < |es| && WellFormed(es[i])
    ensures Matches(LineOf(es, i), SortMessage(CallOrder(LastCalls(es, i)), AsMessage(es[i])))
  {
    hide SortBlocks, CallOrder, LastCalls, BlockOf, DsmlCodec.Join, BlockTexts, TurnText;
    if es[i].Turn? {
      TurnTextIs(LastCalls(es, i), es[i].ms);
      BlocksStay(CallOrder(LastCalls(es, i)), BlocksOf(es[i].ms));
    }
  }

  lemma LinesMatch(es: seq<Entry>)
    requires AllWellFormed(es)
    ensures AllMatch(Lines(es), SortAll(map[], AsMessages(es)))
  {
    var ms := AsMessages(es);
    hide SortAll, OrderAfter, LastCalls, CallOrder, SortMessage, Matches, LineOf;
    forall k | 0 <= k < |es| ensures Matches(Lines(es)[k], SortAll(map[], ms)[k]) {
      SortAllAt(map[], ms, k);
      OrderAt(es, k);
      LineMatches(es, k);
    }
  }

  // ---------------------------------------------------------------------
  // Dropped reasoning
  // ---------------------------------------------------------------------

  predicate LineAsks(line: Line) {
    line.Asked? || line.m.role == Developer
  }

  /** The last line that asks, or -1. */
  function LastAsk(lines: seq<Line>): (r: int)
    ensures -1 <= r < |lines|
  {
    if lines == [] then -1
    else if LineAsks(lines[|lines| - 1]) then |lines| - 1
    else LastAsk(lines[..|lines| - 1])
  }

  /** What is left of a line before the last one that asks: an assistant's reasoning goes,
      and so do developers and roles that are not known, but for search results. */
  function Thinned(line: Line): seq<Line> {
    match line
    case Asked(_, _) => [line]
    case Alone(m) =>
      match m.role
      case Assistant => [Alone(m.(reasoning := ""))]
      case Developer => []
      case Unknown(name) => if name == "direct_search_results" then [line] else []
      case _ => [line]
  }

  function Kept(lines: seq<Line>, last: int): seq<Line> {
    if lines == [] then []
    else
      var n := |lines| - 1;
      Kept(lines[..n], last) + if n >= last then [lines[n]] else Thinned(lines[n])
  }

  lemma {:induction false} LastAskIs(lines: seq<Line>, msgs: seq<Message>)
    requires AllMatch(lines, msgs)
    ensures LastAsk(lines) == LastUser(msgs)
  {
    if lines != [] {
      var n := |lines| - 1;
      assert Matches(lines[n], msgs[n]);
      LastAskIs(lines[..n], msgs[..n]);
    }
  }

  lemma {:induction false} KeptMatches(lines: seq<Line>, msgs: seq<Message>, last: int)
    requires AllMatch(lines, msgs)
    ensures AllMatch(Kept(lines, last), DropFrom(msgs, last))
  {
    if lines != [] {
      var n := |lines| - 1;
      assert Matches(lines[n], msgs[n]);
      assert AllMatch(lines[..n], msgs[..n]);
      KeptMatches(lines[..n], msgs[..n], last);
      var a, b := Kept(lines, last), DropFrom(msgs, last);
      ThinnedMatches(lines[n], msgs[n]);
      hide Matches, Thinned;
    }
  }

  lemma OneMatches(line: Line, m: Message)
    requires Matches(line, m)
    ensures AllMatch([line], [m])
  {
    hide Matches;
  }

  lemma ThinnedMatches(line: Line, m: Message)
    requires Matches(line, m)
    ensures var kept := if m.role in {User, System, Tool, Reminder} ||
          m.role == Unknown("direct_search_results") then [m]
                        else if m.role == Assistant then [m.(reasoning := "")]
                        else [];
            AllMatch(Thinned(line), kept)
  {
    hide DsmlCodec.Join, BlockTexts, AllMatch;
    OneMatches(line, m);
    if m.role == Assistant {
      OneMatches(Alone(m.(reasoning := "")), m.(reasoning := ""));
    }
    NoneMatch();
  }

  lemma NoneMatch()
    ensures AllMatch([], [])
  {
  }

  // ---------------------------------------------------------------------
  // The script
  // ---------------------------------------------------------------------

  datatype Sign = Mark(token: string) | Said(text: string)

  type Signs = seq<Sign>

  const TASKS := {"action", "query", "authority", "domain", "title", "read_url"}

  function TaskMark(task: string): string {
    "<｜" + task + "｜>"
  }

  lemma TaskTokenIs(task: string)
    ensures TaskToken(task) == if task in TASKS then Some(TaskMark(task)) else None
  {
    assert TaskMark("action") == "<｜action｜>" && TaskMark("query") == "<｜query｜>";
    assert TaskMark("authority") == "<｜authority｜>" && TaskMark("domain") == "<｜domain｜>";
    assert TaskMark("title") == "<｜title｜>" && TaskMark("read_url") == "<｜read_url｜>";
  }

  /** The text of a message with the tools it offers and the format it asks for. */
  function WithSections(t: Texts, m: Message): string {
    OrEmpty(m.content)
    + (if m.tools == [] then "" else "\n\n" + t.tools(m.tools))
    + (match m.format case None => "" case Some(format) => "\n\n" + t.format(format))
  }

  function LineTask(line: Line): Option<string> {
    if line.Asked? then line.task else line.m.task
  }

  /** What line `i` says, or that it cannot be printed. */
  function Words(s: Style, lines: seq<Line>, drop: bool, i: nat): Option<Signs>
    requires i < |lines|
  {
    match lines[i]
    case Asked(text, _) => Some([Mark(USER), Said(text)])
    case Alone(m) =>
      match m.role
      case System => Some([Said(WithSections(s.texts, m))])
      case Developer => if OrEmpty(m.content) == "" then None else Some([Mark(USER), Said(WithSections(s.texts, m))])
      case Reminder => Some([Mark(REMINDER), Said(if m.content == None then "None" else OrEmpty(m.content))])
      case Assistant =>
        var thinks := s.thinking && (drop ==> LastAsk(lines) < i) && (i > 0 ==> LineTask(lines[i - 1]).None?);
        Some([Said(DsmlCodec.PrintAssistant(s.texts.dumps, thinks, m.reasoning, OrEmpty(m.content), CallsOf(m.calls),
                                            m.withoutEos))])
      case _ => None
  }

  /** Whether the assistant's turn follows line `i`. */
  predicate Cued(lines: seq<Line>, i: nat)
    requires i < |lines|
  {
    i + 1 < |lines| ==> lines[i + 1].Alone? && lines[i + 1].m.role in {Assistant, Reminder}
  }

  /** The signs that hand over to the assistant, or that the task is not known. */
  function Cue(s: Style, lines: seq<Line>, drop: bool, i: nat): Option<Signs>
    requires i < |lines|
  {
    var task := LineTask(lines[i]);
    if !Cued(lines, i) then Some([])
    else if task.Some? then
      if task.value !in TASKS then None
      else if task.value != "action" then Some([Said(TaskMark(task.value))])
      else Some([Mark(ASSISTANT), Said(if s.thinking then "<think>" else "</think>"), Said(TaskMark("action"))])
    else if !LineAsks(lines[i]) then Some([])
    else Some([Mark(ASSISTANT), Said(if s.thinking && (drop ==> LastAsk(lines) <= i) then "<think>" else "</think>")])
  }

  function Join2(a: Option<Signs>, b: Option<Signs>): Option<Signs> {
    if a.None? || b.None? then None else Some(a.value + b.value)
  }

  function LineSigns(s: Style, lines: seq<Line>, drop: bool, i: nat): Option<Signs>
    requires i < |lines|
  {
    var effort := s.texts.effort(s.effort);
    if effort.None? then None
    else
      Join2(Some(if i == 0 && s.thinking then [Said(effort.value)] else []),
            Join2(Words(s, lines, drop, i), Cue(s, lines, drop, i)))
  }

  /** The signs of lines `from..n`. */
  function Signed(s: Style, lines: seq<Line>, drop: bool, from: nat, n: nat): Option<Signs>
    requires from <= n <= |lines|
  {
    if n == from then Some([]) else Join2(Signed(s, lines, drop, from, n - 1), LineSigns(s, lines, drop, n - 1))
  }

  /** Some message that belongs to no turn offers tools. */
  predicate OffersTools(msgs: seq<Message>) {
    exists k :: 0 <= k < |msgs| && !IsTurn(msgs[k]) && msgs[k].tools != []
  }

  /** What is to be printed: the lines, whether reasoning is dropped, and the first line
      after the context. */
  datatype Play = Play(lines: seq<Line>, drops: bool, from: nat)

  /** The context and the messages, each gathered into turns on its own. Reasoning is dropped
      only where no tools are offered, and then the context counts as long as it is without
      its own. */
  function PlayOf(s: Style, msgs: seq<Message>, context: seq<Message>, drop: bool): (p: Play)
    ensures p.from <= |p.lines|
  {
    var before, es := Entries(context), Entries(context) + Entries(msgs);
    MergeIsEntries(context);
    MergeIsEntries(msgs);
    var lines, drops := Lines(es), drop && !OffersTools(context) && !OffersTools(msgs);
    if s.thinking && drops then
      var kept := Kept(lines, LastAsk(lines));
      Play(kept, drops, Min(|Kept(Lines(before), LastAsk(Lines(before)))|, |kept|))
    else Play(lines, drops, |before|)
  }

  /** The signs of a conversation. */
  function Script(s: Style, msgs: seq<Message>, context: seq<Message>, drop: bool, bos: bool): Option<Signs> {
    var p := PlayOf(s, msgs, context, drop);
    Join2(Some(if bos && context == [] then [Said("<｜begin▁of▁sentence｜>")] else []),
          Signed(s, p.lines, p.drops, p.from, |p.lines|))
  }

  function Flat(signs: Signs): string {
    if signs == [] then ""
    else (match signs[0] case Mark(token) => token case Said(text) => text) + Flat(signs[1..])
  }

  lemma {:induction false} FlatConcat(a: Signs, b: Signs)
    ensures Flat(a + b) == Flat(a) + Flat(b)
  {
    if a == [] {
      assert a + b == b;
    } else {
      assert (a + b)[1..] == a[1..] + b;
      FlatConcat(a[1..], b);
    }
  }

  /** A result that prints the signs, or fails where there are none. */
  predicate Prints(r: Result, signs: Option<Signs>) {
    (r.Ok? <==> signs.Some?) && (signs.Some? ==> r.text == Flat(signs.value))
  }

  lemma ThenPrints(a: Result, b: Result, x: Option<Signs>, y: Option<Signs>)
    requires Prints(a, x) && Prints(b, y)
    ensures Prints(Then(a, b), Join2(x, y))
  {
    if x.Some? && y.Some? {
      FlatConcat(x.value, y.value);
    }
    hide Flat;
  }

  lemma FlatShort(a: Sign, b: Sign, c: Sign)
    ensures Flat([]) == "" && Flat([a]) == SignText(a) && Flat([a, b]) == SignText(a) + SignText(b)
    ensures Flat([a, b, c]) == SignText(a) + SignText(b) + SignText(c)
  {
    FlatOne(a);
    FlatOne(b);
    FlatOne(c);
    hide Flat;
    assert [a, b] == [a] + [b] && [a, b, c] == [a, b] + [c];
    FlatConcat([a], [b]);
    FlatConcat([a, b], [c]);
  }

  lemma FlatOne(a: Sign)
    ensures Flat([]) == "" && Flat([a]) == SignText(a)
  {
    assert [a][1..] == [];
  }

  function SignText(a: Sign): string {
    match a case Mark(token) => token case Said(text) => text
  }

  lemma SectionsAre(t: Texts, m: Message)
    ensures OrEmpty(m.content) + Sections(t, m) == WithSections(t, m)
  {
  }

  lemma TurnPrints(s: Style, line: Line, m: Message, a: Around)
    requires Matches(line, m) && line.Asked?
    ensures Prints(Body(s, m, a), Some([Mark(USER), Said(line.text)]))
  {
    FlatShort(Mark(USER), Said(line.text), Mark(""));
    hide Flat, DsmlCodec.Join, BlockTexts;
  }

  /** The two forms in which a message is printed. */
  lemma FormsPrint(t: string, mark: string)
    ensures Prints(Ok(t), Some([Said(t)])) && Prints(Ok(mark + t), Some([Mark(mark), Said(t)]))
  {
    FlatShort(Said(t), Said(t), Said(t));
    FlatShort(Mark(mark), Said(t), Said(t));
    hide Flat;
  }

  lemma AlonePrints(s: Style, lines: seq<Line>, drop: bool, i: nat, m: Message, a: Around)
    requires i < |lines| && lines[i] == Alone(m) && m.role != User
    requires a.keeps == (drop ==> LastAsk(lines) < i) && a.afterTask == (i > 0 && LineTask(lines[i - 1]).Some?)
    ensures Prints(Body(s, m, a), Words(s, lines, drop, i))
  {
    SectionsAre(s.texts, m);
    hide LastAsk, Flat, DsmlCodec.PrintAssistant, CallsOf, Sections, WithSections, Prints, LineTask;
    var body := Body(s, m, a);
    var words := Words(s, lines, drop, i);
    if m.role.Developer? || m.role.Reminder? {
      FormsPrint(if m.role.Developer? then WithSections(s.texts, m) else if m.content.Some? then
          m.content.value else "None",
                 if m.role.Developer? then USER else REMINDER);
    } else if m.role.System? || m.role.Assistant? {
      FormsPrint(body.text, "");
    }
    NothingPrints();
    ReminderText(m);
    assert USER + (OrEmpty(m.content) + Sections(s.texts, m)) == USER + OrEmpty(m.content) + Sections(s.texts, m);
  }

  lemma NothingPrints()
    ensures forall e :: Prints(Err(e), None)
  {
  }

  lemma ReminderText(m: Message)
    ensures (if m.content == None then "None" else OrEmpty(m.content))
            == if m.content.Some? then m.content.value else "None"
  {
  }

  lemma WordsPrint(s: Style, lines: seq<Line>, msgs: seq<Message>, drop: bool, i: nat)
    requires AllMatch(lines, msgs) && i < |lines|
    ensures Prints(Body(s, msgs[i], AroundAt(msgs, drop, i)), Words(s, lines, drop, i))
  {
    LastAskIs(lines, msgs);
    var m, a := msgs[i], AroundAt(msgs, drop, i);
    assert Matches(lines[i], m);
    assert i > 0 ==> Matches(lines[i - 1], msgs[i - 1]);
    hide LastAsk, LastUser, Body, Prints, DsmlCodec.PrintAssistant, DsmlCodec.Join, BlockTexts, CallsOf, WithSections;
    if lines[i].Asked? {
      TurnPrints(s, lines[i], m, a);
    } else {
      AlonePrints(s, lines, drop, i, m, a);
    }
  }

  lemma ThreePrint(mark: string, t: string, u: string)
    ensures Prints(Ok(""), Some([])) && Prints(Ok(mark + t + u), Some([Mark(mark), Said(t), Said(u)]))
  {
    FlatShort(Mark(mark), Said(t), Said(u));
    assert mark + (t + u) == mark + t + u;
    hide Flat;
  }

  lemma CuePrints(s: Style, lines: seq<Line>, msgs: seq<Message>, drop: bool, i: nat)
    requires AllMatch(lines, msgs) && i < |lines|
    ensures Prints(Transition(s, msgs[i], AroundAt(msgs, drop, i)), Cue(s, lines, drop, i))
  {
    LastAskIs(lines, msgs);
    assert Matches(lines[i], msgs[i]);
    assert i + 1 < |lines| ==> Matches(lines[i + 1], msgs[i + 1]);
    var task := LineTask(lines[i]);
    assert task == msgs[i].task;
    if task.Some? {
      TaskTokenIs(task.value);
    }
    hide LastAsk, LastUser, Prints, TaskToken, TaskMark, TASKS, DsmlCodec.Join, BlockTexts;
    var think := if s.thinking then "<think>" else "</think>";
    NothingPrints();
    ThreePrint(ASSISTANT, think, TaskMark("action"));
    if task.Some? {
      FormsPrint(TaskMark(task.value), "");
    } else {
      FormsPrint("<think>", ASSISTANT);
      FormsPrint("</think>", ASSISTANT);
    }
  }

  lemma LinePrints(s: Style, lines: seq<Line>, msgs: seq<Message>, drop: bool, i: nat)
    requires AllMatch(lines, msgs) && i < |lines|
    ensures Prints(RenderMessage(s, msgs, drop, i), LineSigns(s, lines, drop, i))
  {
    WordsPrint(s, lines, msgs, drop, i);
    CuePrints(s, lines, msgs, drop, i);
    hide AllMatch, Body, Transition, Words, Cue, Then, Join2, AroundAt, Flat;
    var effort := s.texts.effort(s.effort);
    if effort.Some? {
      var a := AroundAt(msgs, drop, i);
      assert a.first == (i == 0) by {
        FirstIs(msgs, drop, i);
      }
      StartPrints(effort.value, a.first && s.thinking);
      ThenPrints(Body(s, msgs[i], a), Transition(s, msgs[i], a), Words(s, lines, drop, i), Cue(s, lines, drop, i));
      ThenPrints(Ok(if a.first && s.thinking then effort.value else ""),
                 Then(Body(s, msgs[i], a), Transition(s, msgs[i], a)),
                 Some(if i == 0 && s.thinking then [Said(effort.value)] else []),
                 Join2(Words(s, lines, drop, i), Cue(s, lines, drop, i)));
    }
  }

  lemma FirstIs(msgs: seq<Message>, drop: bool, i: nat)
    requires i < |msgs|
    ensures AroundAt(msgs, drop, i).first == (i == 0)
  {
  }

  lemma StartPrints(text: string, on: bool)
    ensures Prints(Ok(if on then text else ""), Some(if on then [Said(text)] else []))
  {
    FlatOne(Said(text));
    hide Flat;
  }

  lemma {:induction false} LinesPrint(s: Style, lines: seq<Line>, msgs: seq<Message>, drop: bool, from: nat, n: nat)
    requires AllMatch(lines, msgs) && from <= n <= |lines|
    ensures Prints(Render(s, msgs, drop, from, n), Signed(s, lines, drop, from, n))
  {
    hide RenderMessage, LineSigns, Prints, Matches;
    if n == from {
      StartPrints("", false);
    } else {
      LinesPrint(s, lines, msgs, drop, from, n - 1);
      LinePrints(s, lines, msgs, drop, n - 1);
      ThenPrints(Render(s, msgs, drop, from, n - 1), RenderMessage(s, msgs, drop, n - 1),
                 Signed(s, lines, drop, from, n - 1), LineSigns(s, lines, drop, n - 1));
    }
  }

  predicate EntryOffers(e: Entry) {
    e.Single? && e.m.tools != []
  }

  predicate SomeOffers(es: seq<Entry>) {
    exists k :: 0 <= k < |es| && EntryOffers(es[k])
  }

  lemma SomeOffersCons(e: Entry, es: seq<Entry>)
    ensures SomeOffers([e] + es) <==> EntryOffers(e) || SomeOffers(es)
  {
    var all := [e] + es;
    assert all[0] == e && forall k :: 0 <= k < |es| ==> all[k + 1] == es[k];
    hide EntryOffers;
    if SomeOffers(es) {
      var k :| 0 <= k < |es| && EntryOffers(es[k]);
      assert EntryOffers(all[k + 1]);
    }
  }

  lemma {:induction false} EntriesOffer(msgs: seq<Message>)
    ensures SomeOffers(Entries(msgs)) <==> OffersTools(msgs)
    decreases |msgs|
  {
    if msgs == [] {
      NoEntries();
    } else {
      var first := FirstEntry(msgs);
      var k := FirstLength(first);
      FirstMerges(msgs);
      EntriesOffer(msgs[k..]);
      FirstOffers(msgs, k);
      SomeOffersCons(first, Entries(msgs[k..]));
      hide Merge, Entries, FirstEntry, FirstLength, AsMessage, OffersTools, SomeOffers;
    }
  }

  lemma FirstOffers(msgs: seq<Message>, k: nat)
    requires msgs != [] && k == FirstLength(FirstEntry(msgs)) <= |msgs|
    ensures OffersTools(msgs) <==>
            EntryOffers(FirstEntry(msgs)) || OffersTools(msgs[k..])
  {
    hide TurnEnd;
    if OffersTools(msgs) {
      var j :| 0 <= j < |msgs| && !IsTurn(msgs[j]) && msgs[j].tools != [];
      if j >= k {
        assert msgs[k..][j - k] == msgs[j];
      }
    }
    if OffersTools(msgs[k..]) {
      var j :| 0 <= j < |msgs[k..]| && !IsTurn(msgs[k..][j]) && msgs[k..][j].tools != [];
      assert msgs[k + j] == msgs[k..][j];
    }
  }

  lemma {:induction false} SomeOffersConcat(a: seq<Entry>, b: seq<Entry>)
    ensures SomeOffers(a + b) <==> SomeOffers(a) || SomeOffers(b)
  {
    if a == [] {
      assert a + b == b;
    } else {
      assert a + b == [a[0]] + (a[1..] + b) && a == [a[0]] + a[1..];
      SomeOffersCons(a[0], a[1..] + b);
      SomeOffersCons(a[0], a[1..]);
      SomeOffersConcat(a[1..], b);
    }
    hide SomeOffers;
  }

  lemma ToolsAre(es: seq<Entry>)
    requires AllWellFormed(es)
    ensures HasTools(SortAll(map[], AsMessages(es))) <==> SomeOffers(es)
  {
    LinesMatch(es);
    var lines, full := Lines(es), SortAll(map[], AsMessages(es));
    hide SortAll, TurnText, LastCalls;
    forall k | 0 <= k < |full| ensures full[k].tools != [] <==> EntryOffers(es[k]) {
      assert Matches(lines[k], full[k]);
    }
  }

  lemma EntriesConcat(a: seq<Entry>, b: seq<Entry>)
    requires AllWellFormed(a) && AllWellFormed(b)
    ensures AllWellFormed(a + b) && AsMessages(a + b) == AsMessages(a) + AsMessages(b)
  {
    hide WellFormed, AsMessage;
    var all := a + b;
    assert forall k :: 0 <= k < |all| ==> all[k] == if k < |a| then a[k] else b[k - |a|];
  }

  /** The prepared messages are those of the turns of both parts. */
  lemma FullIs(msgs: seq<Message>, context: seq<Message>)
    ensures AllWellFormed(Entries(context)) && AllWellFormed(Entries(context) + Entries(msgs))
    ensures PreparedContext(context) == SortAll(map[], AsMessages(Entries(context)))
    ensures PreparedContext(context) + Prepared(msgs, context)
            == SortAll(map[], AsMessages(Entries(context) + Entries(msgs)))
  {
    MergeIsEntries(context);
    MergeIsEntries(msgs);
    EntriesConcat(Entries(context), Entries(msgs));
    PreparedIsSorted(msgs, context, Merge(msgs));
    OrderAfterMerge(map[], context);
    SortAllSplits(map[], Merge(context), Merge(msgs));
    hide Merge, Entries, SortAll, OrderAfter, AsMessages, Prepared, WellFormed;
  }

  lemma ToolsOffered(msgs: seq<Message>, context: seq<Message>)
    ensures HasTools(PreparedContext(context) + Prepared(msgs, context)) <==> OffersTools(context) || OffersTools(msgs)
  {
    hide *;
    FullIs(msgs, context);
    ToolsAre(Entries(context) + Entries(msgs));
    SomeOffersConcat(Entries(context), Entries(msgs));
    EntriesOffer(context);
    EntriesOffer(msgs);
  }

  lemma DropIs(msgs: seq<Message>)
    ensures DropThinking(msgs) == DropFrom(msgs, LastUser(msgs))
  {
  }

  /** Dropping keeps lines and messages matched. */
  lemma DropMatches(lines: seq<Line>, msgs: seq<Message>)
    requires AllMatch(lines, msgs)
    ensures AllMatch(Kept(lines, LastAsk(lines)), DropThinking(msgs))
    ensures |Kept(lines, LastAsk(lines))| == |DropThinking(msgs)|
  {
    hide *;
    LastAskIs(lines, msgs);
    KeptMatches(lines, msgs, LastAsk(lines));
    DropIs(msgs);
    SameLength(Kept(lines, LastAsk(lines)), DropThinking(msgs));
  }

  /** What is printed matches what is to be printed. */
  lemma PlanMatches(s: Style, msgs: seq<Message>, context: seq<Message>, drop: bool)
    ensures var plan, play := PlanOf(s, msgs, context, drop), PlayOf(s, msgs, context, drop);
            && AllMatch(play.lines, plan.full) && |play.lines| == |plan.full|
            && play.drops == plan.drop && play.from == plan.from
  {
    var before, es := Entries(context), Entries(context) + Entries(msgs);
    FullIs(msgs, context);
    ToolsOffered(msgs, context);
    LinesMatch(before);
    LinesMatch(es);
    var c := PreparedContext(context);
    var full := c + Prepared(msgs, context);
    SameLength(Lines(before), c);
    SameLength(Lines(es), full);
    DropMatches(Lines(before), c);
    DropMatches(Lines(es), full);
    LinesLength(before);
    hide Entries, PreparedContext, Prepared, AllMatch, HasTools, OffersTools, Kept, LastAsk, DropThinking, Lines,
        SortAll,
         AsMessages;
  }

  lemma LinesLength(es: seq<Entry>)
    requires AllWellFormed(es)
    ensures |Lines(es)| == |es|
  {
  }

  /** A prompt is the signs of the conversation, and there is one exactly if each message
      can be printed: for every conversation and context, mode and effort, reasoning kept
      or dropped. */
  lemma PromptSays(s: Style, msgs: seq<Message>, context: seq<Message>, drop: bool, bos: bool)
    ensures Prints(Encode(s, msgs, context, drop, bos), Script(s, msgs, context, drop, bos))
  {
    var plan, play := PlanOf(s, msgs, context, drop), PlayOf(s, msgs, context, drop);
    PlanMatches(s, msgs, context, drop);
    assert Start(context, bos) == Ok(if bos && context == [] then "<｜begin▁of▁sentence｜>" else "");
    EncodeIs(s, msgs, context, drop, bos, plan);
    hide PlanOf, PlayOf, AllMatch, Render, Signed, Prints, Then, Join2, Start, Encode;
    LinesPrint(s, play.lines, plan.full, plan.drop, plan.from, |plan.full|);
    StartPrints("<｜begin▁of▁sentence｜>", bos && context == []);
    ThenPrints(Start(context, bos), Render(s, plan.full, plan.drop, plan.from, |plan.full|),
               Some(if bos && context == [] then [Said("<｜begin▁of▁sentence｜>")] else []),
               Signed(s, play.lines, play.drops, play.from, |play.lines|));
  }

  lemma SameLength(lines: seq<Line>, msgs: seq<Message>)
    requires AllMatch(lines, msgs)
    ensures |lines| == |msgs|
  {
  }
}

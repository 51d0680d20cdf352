/**
 Preparing a conversation for printing: tool results become blocks of user messages,
 in the order of the calls that they answer.
 */
module PromptMessages {
  import opened Options
  import DsmlCodec

  /** The id of a tool call; an empty name stands for a missing id. */
  datatype CallId = CallId(name: string)

  datatype Role = System | Developer | User | Reminder | Tool | Assistant | Unknown(name: string)

  /** Content given as a list: of texts, and of parts of other kinds. */
  datatype Part = TextPart(text: string) | OtherPart(kind: string)

  datatype Content = Plain(text: string) | Parts(parts: seq<Part>)

  datatype Block = TextBlock(text: string) | ToolResult(useId: CallId, content: Content)

  datatype ToolCall = ToolCall(id: CallId, call: DsmlCodec.Call)

  datatype Schema = Schema(id: int)

  /** A message; the fields that its role does not use are ignored. A tool message has its
      content in `listed` when it is a list. */
  datatype Message = Message(
    role: Role,
    content: Option<string>,
    tools: seq<Schema>,
    format: Option<string>,
    calls: seq<ToolCall>,
    reasoning: string,
    withoutEos: bool,
    task: Option<string>,
    callId: CallId,
    listed: Option<seq<Part>>,
    blocks: seq<Block>)

  function OrEmpty(s: Option<string>): string {
    if s.Some? then s.value else ""
  }

  // ---------------------------------------------------------------------
  // Merging tool messages into user messages
  // ---------------------------------------------------------------------

  predicate IsTurn(m: Message) {
    m.role == User || m.role == Tool
  }

  function BlockOf(m: Message): Block {
    if m.role != Tool then TextBlock(OrEmpty(m.content))
    else ToolResult(m.callId, if m.listed.Some? then Parts(m.listed.value) else Plain(OrEmpty(m.content)))
  }

  /** A user message with one block; only task and end-of-sentence flag of a
      user message are kept, and nothing of a tool message. */
  function NewTurn(m: Message): Message {
    if m.role == Tool then Message(User, None, [], None, [], "", false, None, CallId(""), None, [BlockOf(m)])
    else Message(User, Some(OrEmpty(m.content)), [], None, [], "", m.withoutEos, m.task, CallId(""), None, [BlockOf(m)])
  }

  /** Whether the block of `m` goes into the message `last` before it. */
  predicate Joins(last: Message, m: Message) {
    last.role == User && last.blocks != [] && (m.role == Tool || last.task.None?)
  }

  function MergeOne(merged: seq<Message>, m: Message): seq<Message> {
    if !IsTurn(m) then merged + [m]
    else if merged != [] && Joins(merged[|merged| - 1], m) then
      var last := merged[|merged| - 1];
      merged[..|merged| - 1] + [last.(blocks := last.blocks + [BlockOf(m)])]
    else merged + [NewTurn(m)]
  }

  function Merge(msgs: seq<Message>): seq<Message> {
    if msgs == [] then [] else MergeOne(Merge(msgs[..|msgs| - 1]), msgs[|msgs| - 1])
  }

  lemma MergeUpTo(msgs: seq<Message>, i: nat)
    requires i < |msgs|
    ensures Merge(msgs[..i + 1]) == MergeOne(Merge(msgs[..i]), msgs[i])
  {
    assert msgs[..i + 1][..i] == msgs[..i];
  }

  method MergeToolMessages(msgs: seq<Message>) returns (merged: seq<Message>)
    ensures merged == Merge(msgs)
  {
    merged := [];
    assert Merge(msgs[..0]) == [];
    hide Merge, NewTurn, BlockOf;
    for i := 0 to |msgs|
      invariant merged == Merge(msgs[..i])
    {
      MergeUpTo(msgs, i);
      var m := msgs[i];
      if m.role == Tool || m.role == User {
        if merged != [] && Joins(merged[|merged| - 1], m) {
          var last := merged[|merged| - 1];
          merged := merged[..|merged| - 1] + [last.(blocks := last.blocks + [BlockOf(m)])];
        } else {
          merged := merged + [NewTurn(m)];
        }
      } else {
        merged := merged + [m];
      }
    }
    assert msgs[..|msgs|] == msgs;
  }

  /** What a conversation says, message by message and block by block. */
  datatype Item = Whole(m: Message) | Piece(b: Block)

  function Pieces(blocks: seq<Block>): seq<Item> {
    seq(|blocks|, k requires 0 <= k < |blocks| => Piece(blocks[k]))
  }

  function ItemsOf(m: Message): seq<Item> {
    if IsTurn(m) then Pieces(m.blocks) else [Whole(m)]
  }

  /** The items of a merged conversation. */
  function Items(merged: seq<Message>): seq<Item> {
    if merged == [] then [] else Items(merged[..|merged| - 1]) + ItemsOf(merged[|merged| - 1])
  }

  /** The items of a conversation as it comes: each user or tool message is one block. */
  function RawItems(msgs: seq<Message>): seq<Item> {
    if msgs == [] then []
    else
      RawItems(msgs[..|msgs| - 1])
      + var m := msgs[|msgs| - 1]; if IsTurn(m) then [Piece(BlockOf(m))] else [Whole(m)]
  }

  /** Merged messages: no tool message is left and every user message has blocks. */
  predicate Merged(msgs: seq<Message>) {
    forall k :: 0 <= k < |msgs| ==> msgs[k].role != Tool && (msgs[k].role == User ==> msgs[k].blocks != [])
  }

  /** Merging loses no message, block or order. */
  lemma {:induction false} MergeKeepsItems(msgs: seq<Message>)
    ensures Merged(Merge(msgs)) && Items(Merge(msgs)) == RawItems(msgs)
    ensures Merge(msgs) == [] <==> msgs == []
  {
    if msgs != [] {
      MergeKeepsItems(msgs[..|msgs| - 1]);
      MergeOneItems(Merge(msgs[..|msgs| - 1]), msgs[|msgs| - 1]);
    }
  }

  lemma ItemsSnoc(merged: seq<Message>, m: Message)
    ensures Items(merged + [m]) == Items(merged) + ItemsOf(m)
  {
    assert (merged + [m])[..|merged|] == merged;
  }

  lemma MergeOneItems(merged: seq<Message>, m: Message)
    requires Merged(merged)
    ensures var r := MergeOne(merged, m);
            && r != [] && Merged(r)
            && Items(r) == Items(merged) + if IsTurn(m) then [Piece(BlockOf(m))] else [Whole(m)]
  {
    hide Items;
    if IsTurn(m) && merged != [] && Joins(merged[|merged| - 1], m) {
      var front, last := merged[..|merged| - 1], merged[|merged| - 1];
      assert merged == front + [last];
      assert Pieces(last.blocks + [BlockOf(m)]) == Pieces(last.blocks) + [Piece(BlockOf(m))];
      ItemsSnoc(front, last);
      ItemsSnoc(front, last.(blocks := last.blocks + [BlockOf(m)]));
    } else if IsTurn(m) {
      ItemsSnoc(merged, NewTurn(m));
      assert Pieces([BlockOf(m)]) == [Piece(BlockOf(m))];
    } else {
      ItemsSnoc(merged, m);
    }
  }

  /** Whether the first message of a later part of a conversation joins the part `a`. */
  predicate Apart(a: seq<Message>, m: Message) {
    !IsTurn(m) || Merge(a) == [] || !Joins(Merge(a)[|Merge(a)| - 1], m)
  }

  /** A later part that does not start inside a turn is merged on its own. */
  lemma {:induction false} MergeSplits(a: seq<Message>, b: seq<Message>)
    requires b != [] && Apart(a, b[0])
    ensures Merge(a + b) == Merge(a) + Merge(b) && Merge(b) != []
  {
    var k := |b| - 1;
    assert (a + b)[..|a + b| - 1] == a + b[..k];
    assert (a + b)[|a + b| - 1] == b[k];
    if k == 0 {
      assert a + b[..k] == a && b == [b[0]];
      assert Merge(b[..k]) == [];
    } else {
      MergeSplits(a, b[..k]);
      MergeOneSplits(Merge(a), Merge(b[..k]), b[k]);
    }
  }

  lemma MergeOneSplits(x: seq<Message>, y: seq<Message>, m: Message)
    requires y != []
    ensures MergeOne(x + y, m) == x + MergeOne(y, m) && MergeOne(y, m) != []
  {
    assert (x + y)[..|x + y| - 1] == x + y[..|y| - 1];
    assert (x + y)[|x + y| - 1] == y[|y| - 1];
  }

  /** What is kept of a message besides its blocks. */
  datatype Head = Head(role: Role, task: Option<string>, withoutEos: bool)

  function HeadOf(m: Message): Head {
    if m.role == Tool then Head(User, None, false) else Head(m.role, m.task, m.withoutEos)
  }

  /** The heads of the messages that do not join the one before them. */
  function Heads(msgs: seq<Message>): seq<Head> {
    if msgs == [] then []
    else
      var n := |msgs| - 1;
      Heads(msgs[..n]) + if Apart(msgs[..n], msgs[n]) then [HeadOf(msgs[n])] else []
  }

  function HeadsOf(merged: seq<Message>): seq<Head> {
    seq(|merged|, k requires 0 <= k < |merged| => HeadOf(merged[k]))
  }

  /** Task and flag of a message are kept exactly if it does not join another: those of a
      user message that does are lost. */
  lemma {:induction false} MergeKeepsHeads(msgs: seq<Message>)
    ensures HeadsOf(Merge(msgs)) == Heads(msgs)
  {
    if msgs != [] {
      var n := |msgs| - 1;
      MergeKeepsHeads(msgs[..n]);
      MergeOneHeads(Merge(msgs[..n]), msgs[n]);
    }
  }

  lemma MergeOneHeads(merged: seq<Message>, m: Message)
    ensures var joins := IsTurn(m) && merged != [] && Joins(merged[|merged| - 1], m);
            HeadsOf(MergeOne(merged, m)) == HeadsOf(merged) + if joins then [] else [HeadOf(m)]
  {
    hide BlockOf;
  }

  // ---------------------------------------------------------------------
  // Sorting tool results
  // ---------------------------------------------------------------------

  type Order = map<CallId, nat>

  /** The position of each call with an id; of two calls with one id, the later. */
  function CallOrder(calls: seq<ToolCall>): Order {
    if calls == [] then map[]
    else
      var n := |calls| - 1;
      var before := CallOrder(calls[..n]);
      if calls[n].id.name == "" then before else before[calls[n].id := n]
  }

  function Key(order: Order, b: Block): nat {
    if b.ToolResult? && b.useId in order then order[b.useId] else 0
  }

  /** `b` before the first block with a greater key, that is after all equal ones when
      it comes last. */
  function Insert(order: Order, sorted: seq<Block>, b: Block): seq<Block> {
    if sorted == [] then [b]
    else
      var n := |sorted| - 1;
      if Key(order, sorted[n]) <= Key(order, b) then sorted + [b]
      else Insert(order, sorted[..n], b) + [sorted[n]]
  }

  /** The stable sort. */
  function Sort(order: Order, blocks: seq<Block>): seq<Block> {
    if blocks == [] then [] else Insert(order, Sort(order, blocks[..|blocks| - 1]), blocks[|blocks| - 1])
  }

  /** The blocks with one key, in order. */
  function WithKey(order: Order, blocks: seq<Block>, key: nat): seq<Block> {
    if blocks == [] then []
    else
      WithKey(order, blocks[..|blocks| - 1], key)
      + var b := blocks[|blocks| - 1]; if Key(order, b) == key then [b] else []
  }

  predicate Ordered(order: Order, blocks: seq<Block>) {
    forall i, j :: 0 <= i < j < |blocks| ==> Key(order, blocks[i]) <= Key(order, blocks[j])
  }

  lemma WithKeySnoc(order: Order, s: seq<Block>, b: Block, key: nat)
    ensures WithKey(order, s + [b], key) == WithKey(order, s, key) + if Key(order, b) == key then [b] else []
  {
    assert (s + [b])[..|s|] == s;
  }

  predicate AllUpTo(order: Order, s: seq<Block>, key: nat) {
    forall i :: 0 <= i < |s| ==> Key(order, s[i]) <= key
  }

  lemma OrderedSnoc(order: Order, s: seq<Block>, b: Block)
    ensures Ordered(order, s + [b]) <==> Ordered(order, s) && AllUpTo(order, s, Key(order, b))
  {
    hide Key;
    var r := s + [b];
    if Ordered(order, r) {
      forall i, j | 0 <= i < j < |s| ensures Key(order, s[i]) <= Key(order, s[j]) {
        assert r[i] == s[i] && r[j] == s[j];
      }
      forall i | 0 <= i < |s| ensures Key(order, s[i]) <= Key(order, b) {
        assert r[i] == s[i] && r[|s|] == b;
      }
    }
  }

  lemma {:induction false} InsertOrders(order: Order, s: seq<Block>, b: Block)
    requires Ordered(order, s)
    ensures Ordered(order, Insert(order, s, b))
    ensures forall key :: AllUpTo(order, s, key) && Key(order, b) <= key ==> AllUpTo(order, Insert(order, s, b), key)
  {
    OrderedSnoc(order, [], b);
    if s != [] {
      var n := |s| - 1;
      assert s == s[..n] + [s[n]];
      OrderedSnoc(order, s[..n], s[n]);
      if Key(order, s[n]) <= Key(order, b) {
        OrderedSnoc(order, s, b);
      } else {
        InsertOrders(order, s[..n], b);
        OrderedSnoc(order, Insert(order, s[..n], b), s[n]);
      }
    }
    hide Ordered, Key;
  }

  lemma {:induction false} InsertKeeps(order: Order, s: seq<Block>, b: Block)
    ensures multiset(Insert(order, s, b)) == multiset(s) + multiset{b} && |Insert(order, s, b)| == |s| + 1
  {
    hide Key;
    if s != [] && !(Key(order, s[|s| - 1]) <= Key(order, b)) {
      var n := |s| - 1;
      InsertKeeps(order, s[..n], b);
      assert s == s[..n] + [s[n]];
    }
  }

  lemma {:induction false} InsertIsStable(order: Order, s: seq<Block>, b: Block, key: nat)
    ensures WithKey(order, Insert(order, s, b), key)
            == WithKey(order, s, key) + if Key(order, b) == key then [b] else []
  {
    hide Key, WithKey;
    if s == [] || Key(order, s[|s| - 1]) <= Key(order, b) {
      WithKeySnoc(order, s, b, key);
      assert s + [b] == Insert(order, s, b);
    } else {
      var n := |s| - 1;
      InsertIsStable(order, s[..n], b, key);
      WithKeySnoc(order, Insert(order, s[..n], b), s[n], key);
      WithKeySnoc(order, s[..n], s[n], key);
      assert s == s[..n] + [s[n]];
    }
  }

  /** The sort orders the blocks, keeps each of them, and keeps those with one key in
      their order. */
  lemma {:induction false} SortIsStable(order: Order, blocks: seq<Block>, key: nat)
    ensures var r := Sort(order, blocks);
            && Ordered(order, r) && multiset(r) == multiset(blocks) && |r| == |blocks|
            && WithKey(order, r, key) == WithKey(order, blocks, key)
  {
    if blocks != [] {
      var n := |blocks| - 1;
      SortIsStable(order, blocks[..n], key);
      InsertOrders(order, Sort(order, blocks[..n]), blocks[n]);
      InsertKeeps(order, Sort(order, blocks[..n]), blocks[n]);
      InsertIsStable(order, Sort(order, blocks[..n]), blocks[n], key);
      assert blocks == blocks[..n] + [blocks[n]];
    }
  }

  function ToolBlocks(blocks: seq<Block>): seq<Block> {
    if blocks == [] then []
    else
      ToolBlocks(blocks[..|blocks| - 1])
      + if blocks[|blocks| - 1].ToolResult? then [blocks[|blocks| - 1]] else []
  }

  /** The tool results of `sorted` at the places of tool results, the texts where they
      are. */
  function Refill(blocks: seq<Block>, sorted: seq<Block>): (r: seq<Block>)
    requires |sorted| == |ToolBlocks(blocks)|
    ensures |r| == |blocks|
  {
    if blocks == [] then []
    else
      var n := |blocks| - 1;
      if blocks[n].ToolResult? then Refill(blocks[..n], sorted[..|sorted| - 1]) + [sorted[|sorted| - 1]]
      else Refill(blocks[..n], sorted) + [blocks[n]]
  }

  lemma ToolsSnoc(s: seq<Block>, b: Block)
    ensures ToolBlocks(s + [b]) == ToolBlocks(s) + if b.ToolResult? then [b] else []
  {
    assert (s + [b])[..|s|] == s;
  }

  lemma RefillSnoc(blocks: seq<Block>, sorted: seq<Block>, b: Block, t: Block)
    requires |sorted| == |ToolBlocks(blocks)|
    ensures b.TextBlock? ==>
              && |sorted| == |ToolBlocks(blocks + [b])|
              && Refill(blocks + [b], sorted) == Refill(blocks, sorted) + [b]
    ensures b.ToolResult? ==>
              && |sorted + [t]| == |ToolBlocks(blocks + [b])|
              && Refill(blocks + [b], sorted + [t]) == Refill(blocks, sorted) + [t]
  {
    ToolsSnoc(blocks, b);
    hide ToolBlocks;
    assert (blocks + [b])[..|blocks|] == blocks;
    assert (sorted + [t])[..|sorted|] == sorted;
  }

  /** Texts at their places, and tool results at those of tool results. */
  predicate SamePlaces(r: seq<Block>, blocks: seq<Block>) {
    && |r| == |blocks|
    && forall k :: 0 <= k < |blocks| ==>
         r[k].ToolResult? == blocks[k].ToolResult? && (blocks[k].TextBlock? ==> r[k] == blocks[k])
  }

  lemma SamePlacesSnoc(r: seq<Block>, blocks: seq<Block>, x: Block, b: Block)
    requires SamePlaces(r, blocks) && SamePlaces([x], [b])
    ensures SamePlaces(r + [x], blocks + [b])
  {
    assert [x][0] == x && [b][0] == b;
  }

  lemma {:induction false} RefillKeepsTexts(blocks: seq<Block>, sorted: seq<Block>)
    requires |sorted| == |ToolBlocks(blocks)| && forall k :: 0 <= k < |sorted| ==> sorted[k].ToolResult?
    ensures ToolBlocks(Refill(blocks, sorted)) == sorted && SamePlaces(Refill(blocks, sorted), blocks)
  {
    if blocks != [] {
      var n := |blocks| - 1;
      var b := blocks[n];
      assert blocks == blocks[..n] + [b];
      ToolsSnoc(blocks[..n], b);
      hide ToolBlocks, Refill, SamePlaces;
      if b.ToolResult? {
        var m := |sorted| - 1;
        assert sorted == sorted[..m] + [sorted[m]];
        RefillKeepsTexts(blocks[..n], sorted[..m]);
        RefillSnoc(blocks[..n], sorted[..m], b, sorted[m]);
        ToolsSnoc(Refill(blocks[..n], sorted[..m]), sorted[m]);
        Alike(sorted[m], b);
        SamePlacesSnoc(Refill(blocks[..n], sorted[..m]), blocks[..n], sorted[m], b);
      } else {
        RefillKeepsTexts(blocks[..n], sorted);
        RefillSnoc(blocks[..n], sorted, b, b);
        ToolsSnoc(Refill(blocks[..n], sorted), b);
        Alike(b, b);
        SamePlacesSnoc(Refill(blocks[..n], sorted), blocks[..n], b, b);
      }
    }
  }

  lemma Alike(x: Block, b: Block)
    ensures SamePlaces([x], [b]) <==> x == b || (x.ToolResult? && b.ToolResult?)
  {
    assert SamePlaces([x], [b]) ==> [x][0].ToolResult? == [b][0].ToolResult?;
  }

  function SortBlocks(order: Order, blocks: seq<Block>): seq<Block> {
    var tools := ToolBlocks(blocks);
    if |tools| > 1 && order != map[] then
      SortIsStable(order, tools, 0);
      Refill(blocks, Sort(order, tools))
    else blocks
  }

  lemma {:induction false} ToolBlocksAreTools(blocks: seq<Block>)
    ensures forall k :: 0 <= k < |ToolBlocks(blocks)| ==> ToolBlocks(blocks)[k].ToolResult?
  {
    if blocks != [] {
      ToolBlocksAreTools(blocks[..|blocks| - 1]);
    }
  }

  /** In a user message the texts stay at their places and the tool results, each of
      them still there, follow the order of the calls. Those of one call keep the order they
      came in; a result of an unknown call counts as one of the first call. */
  lemma SortedBlocks(order: Order, blocks: seq<Block>, key: nat)
    ensures var r := SortBlocks(order, blocks);
            && SamePlaces(r, blocks)
            && Ordered(order, ToolBlocks(r)) && multiset(ToolBlocks(r)) == multiset(ToolBlocks(blocks))
            && WithKey(order, ToolBlocks(r), key) == WithKey(order, ToolBlocks(blocks), key)
  {
    var tools := ToolBlocks(blocks);
    if |tools| > 1 && order != map[] {
      SortIsStable(order, tools, key);
      ToolBlocksAreTools(blocks);
      SameMembers(Sort(order, tools), tools);
      RefillKeepsTexts(blocks, Sort(order, tools));
    }
  }

  lemma SameMembers(s: seq<Block>, t: seq<Block>)
    requires multiset(s) == multiset(t)
    ensures forall k :: 0 <= k < |s| ==> s[k] in t
  {
    forall k | 0 <= k < |s| ensures s[k] in t {
      assert s[k] in multiset(s);
      assert s[k] in multiset(t);
    }
  }

  /** The order that holds after a message. */
  function NextOrder(order: Order, m: Message): Order {
    if m.role == Assistant && m.calls != [] then CallOrder(m.calls) else order
  }

  function SortMessage(order: Order, m: Message): Message {
    if m.role == User then m.(blocks := SortBlocks(order, m.blocks)) else m
  }

  function OrderAfter(order: Order, msgs: seq<Message>): Order {
    if msgs == [] then order else NextOrder(OrderAfter(order, msgs[..|msgs| - 1]), msgs[|msgs| - 1])
  }

  function SortAll(order: Order, msgs: seq<Message>): (r: seq<Message>)
    ensures |r| == |msgs|
  {
    if msgs == [] then []
    else
      var n := |msgs| - 1;
      SortAll(order, msgs[..n]) + [SortMessage(OrderAfter(order, msgs[..n]), msgs[n])]
  }

  lemma {:induction false} SortAllSplits(order: Order, a: seq<Message>, b: seq<Message>)
    ensures OrderAfter(order, a + b) == OrderAfter(OrderAfter(order, a), b)
    ensures SortAll(order, a + b) == SortAll(order, a) + SortAll(OrderAfter(order, a), b)
  {
    if b == [] {
      assert a + b == a;
    } else {
      var n := |b| - 1;
      SortAllSplits(order, a, b[..n]);
      assert (a + b)[..|a + b| - 1] == a + b[..n];
      assert (a + b)[|a + b| - 1] == b[n];
    }
  }

  /** The order after a conversation is that after the merged one. */
  lemma {:induction false} OrderAfterMerge(order: Order, msgs: seq<Message>)
    ensures OrderAfter(order, Merge(msgs)) == OrderAfter(order, msgs)
  {
    if msgs != [] {
      var n := |msgs| - 1;
      OrderAfterMerge(order, msgs[..n]);
      OrderAfterOne(order, Merge(msgs[..n]), msgs[n]);
    }
  }

  lemma OrderSnoc(order: Order, msgs: seq<Message>, m: Message)
    ensures OrderAfter(order, msgs + [m]) == NextOrder(OrderAfter(order, msgs), m)
  {
    assert (msgs + [m])[..|msgs|] == msgs;
  }

  lemma OrderAfterOne(order: Order, merged: seq<Message>, m: Message)
    ensures OrderAfter(order, MergeOne(merged, m)) == NextOrder(OrderAfter(order, merged), m)
  {
    hide OrderAfter, CallOrder, BlockOf;
    if IsTurn(m) && merged != [] && Joins(merged[|merged| - 1], m) {
      var front, last := merged[..|merged| - 1], merged[|merged| - 1];
      assert merged == front + [last];
      OrderSnoc(order, front, last);
      OrderSnoc(order, front, last.(blocks := last.blocks + [BlockOf(m)]));
    } else if IsTurn(m) {
      OrderSnoc(order, merged, NewTurn(m));
    } else {
      OrderSnoc(order, merged, m);
    }
  }

  method SortToolResultsByCallOrder(msgs: seq<Message>) returns (sorted: seq<Message>)
    ensures sorted == SortAll(map[], msgs)
  {
    sorted := [];
    var order: Order := map[];
    for i := 0 to |msgs|
      invariant order == OrderAfter(map[], msgs[..i]) && sorted == SortAll(map[], msgs[..i])
    {
      assert msgs[..i + 1][..i] == msgs[..i];
      var m := msgs[i];
      if m.role == Assistant && m.calls != [] {
        order := ReadCallOrder(m.calls);
      } else if m.role == User && m.blocks != [] {
        var blocks := SortOneMessage(order, m.blocks);
        m := m.(blocks := blocks);
      }
      sorted := sorted + [m];
    }
    assert msgs[..|msgs|] == msgs;
  }

  method ReadCallOrder(calls: seq<ToolCall>) returns (order: Order)
    ensures order == CallOrder(calls)
  {
    order := map[];
    for idx := 0 to |calls|
      invariant order == CallOrder(calls[..idx])
    {
      assert calls[..idx + 1][..idx] == calls[..idx];
      if calls[idx].id.name != "" {
        order := order[calls[idx].id := idx];
      }
    }
    assert calls[..|calls|] == calls;
  }

  method SortOneMessage(order: Order, blocks: seq<Block>) returns (r: seq<Block>)
    ensures r == SortBlocks(order, blocks)
  {
    var tools := ToolBlocks(blocks);
    if |tools| <= 1 || order == map[] {
      return blocks;
    }
    SortIsStable(order, tools, 0);
    r := PlaceSorted(blocks, Sort(order, tools));
  }

  method PlaceSorted(blocks: seq<Block>, sorted: seq<Block>) returns (r: seq<Block>)
    requires |sorted| == |ToolBlocks(blocks)|
    ensures r == Refill(blocks, sorted)
  {
    var k := 0;
    r := [];
    NoBlocks(blocks, sorted);
    hide ToolBlocks, Refill;
    for i := 0 to |blocks|
      invariant k == |ToolBlocks(blocks[..i])| <= |sorted|
      invariant r == Refill(blocks[..i], sorted[..k])
    {
      RefillStep(blocks, sorted, i, k);
      if blocks[i].ToolResult? {
        r := r + [sorted[k]];
        k := k + 1;
      } else {
        r := r + [blocks[i]];
      }
    }
    assert blocks[..|blocks|] == blocks && sorted[..k] == sorted;
  }

  lemma RefillStep(blocks: seq<Block>, sorted: seq<Block>, i: nat, k: nat)
    requires i < |blocks| && |sorted| == |ToolBlocks(blocks)| && k == |ToolBlocks(blocks[..i])| <= |sorted|
    ensures var k1 := if blocks[i].ToolResult? then k + 1 else k;
            && k1 == |ToolBlocks(blocks[..i + 1])| <= |sorted|
            && Refill(blocks[..i + 1], sorted[..k1])
               == Refill(blocks[..i], sorted[..k]) + [if blocks[i].ToolResult? then sorted[k] else blocks[i]]
  {
    hide ToolBlocks, Refill;
    assert blocks[..i + 1] == blocks[..i] + [blocks[i]];
    ToolsUpTo(blocks, i + 1);
    ToolsSnoc(blocks[..i], blocks[i]);
    if blocks[i].ToolResult? {
      assert sorted[..k + 1] == sorted[..k] + [sorted[k]];
      RefillSnoc(blocks[..i], sorted[..k], blocks[i], sorted[k]);
    } else {
      RefillSnoc(blocks[..i], sorted[..k], blocks[i], blocks[i]);
    }
  }

  lemma NoBlocks(blocks: seq<Block>, sorted: seq<Block>)
    ensures |ToolBlocks(blocks[..0])| == 0 && Refill(blocks[..0], sorted[..0]) == []
  {
  }

  lemma {:induction false} ToolsUpTo(blocks: seq<Block>, i: nat)
    requires i <= |blocks|
    ensures |ToolBlocks(blocks[..i])| <= |ToolBlocks(blocks)|
    decreases |blocks|
  {
    if i < |blocks| {
      var n := |blocks| - 1;
      ToolsUpTo(blocks[..n], i);
      assert blocks[..n][..i] == blocks[..i];
    } else {
      assert blocks[..i] == blocks;
    }
  }
}

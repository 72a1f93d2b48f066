/**
 Chat turns as Anthropic messages and Google contents. Both insist on alternating roles, so
 neighbours of one role are merged; nothing a turn says may be lost on the way.
 */
module NativeRequests {
  import opened Sequences
  import opened Chat
  import opened ResponsesInput

  datatype Turn<B> = Turn(role: string, blocks: seq<B>)

  // ---- the merge both dialects share ----

  function MergeOne<B>(out: seq<Turn<B>>, t: Turn<B>): seq<Turn<B>> {
    var n := |out|;
    if n > 0 && out[n - 1].role == t.role then out[n - 1 := Turn(t.role, out[n - 1].blocks + t.blocks)]
    else out + [t]
  }

  /** Appends a turn, or its blocks to the last message when the role is the same. */
  method JoinTurn<B>(out: seq<Turn<B>>, t: Turn<B>) returns (out': seq<Turn<B>>)
    ensures out' == MergeOne(out, t)
  {
    var n := |out|;
    if n > 0 && out[n - 1].role == t.role {
      out' := out[n - 1 := out[n - 1].(blocks := out[n - 1].blocks + t.blocks)];
    } else {
      out' := out + [t];
    }
  }

  function Merged<B>(ts: seq<Turn<B>>): seq<Turn<B>> {
    if ts == [] then [] else MergeOne(Merged(ts[..|ts| - 1]), ts[|ts| - 1])
  }

  function Attributed<B>(role: string, blocks: seq<B>): seq<(string, B)> {
    Map(b => (role, b), blocks)
  }

  /** Every block with the role that says it, in order. */
  function Said<B>(ts: seq<Turn<B>>): seq<(string, B)> {
    Concat(Map((t: Turn<B>) => Attributed(t.role, t.blocks), ts))
  }

  function AllBlocks<B>(ts: seq<Turn<B>>): seq<B> {
    Concat(Map((t: Turn<B>) => t.blocks, ts))
  }

  ghost predicate Alternates<B>(ts: seq<Turn<B>>) {
    forall i :: 0 < i < |ts| ==> ts[i - 1].role != ts[i].role
  }

  lemma SaidSnoc<B>(ts: seq<Turn<B>>, t: Turn<B>)
    ensures Said(ts + [t]) == Said(ts) + Attributed(t.role, t.blocks)
    ensures AllBlocks(ts + [t]) == AllBlocks(ts) + t.blocks
  {
    var tags, blocks := (x: Turn<B>) => Attributed(x.role, x.blocks), (x: Turn<B>) => x.blocks;
    MapSnoc(tags, ts, t);
    MapSnoc(blocks, ts, t);
    SnocParts(Map(tags, ts), tags(t));
    SnocParts(Map(blocks, ts), blocks(t));
  }

  lemma AttributedAppend<B>(role: string, a: seq<B>, b: seq<B>)
    ensures Attributed(role, a + b) == Attributed(role, a) + Attributed(role, b)
  {}

  lemma MergeOneSays<B>(out: seq<Turn<B>>, t: Turn<B>)
    ensures Said(MergeOne(out, t)) == Said(out) + Attributed(t.role, t.blocks)
    ensures AllBlocks(MergeOne(out, t)) == AllBlocks(out) + t.blocks
  {
    var n := |out|;
    if n > 0 && out[n - 1].role == t.role {
      var init, last := out[..n - 1], out[n - 1];
      var joined := Turn(t.role, last.blocks + t.blocks);
      assert out == init + [last] && MergeOne(out, t) == init + [joined];
      SaidSnoc(init, last);
      SaidSnoc(init, joined);
      AttributedAppend(t.role, last.blocks, t.blocks);
      AppendAssociates(Said(init), Attributed(t.role, last.blocks), Attributed(t.role, t.blocks));
      AppendAssociates(AllBlocks(init), last.blocks, t.blocks);
    } else {
      SaidSnoc(out, t);
    }
  }

  /** Merging keeps every block, its speaker and its place. */
  lemma {:induction false} MergedSays<B>(ts: seq<Turn<B>>)
    ensures Said(Merged(ts)) == Said(ts) && AllBlocks(Merged(ts)) == AllBlocks(ts)
  {
    if ts != [] {
      MergedSays(ts[..|ts| - 1]);
      MergeOneSays(Merged(ts[..|ts| - 1]), ts[|ts| - 1]);
      assert ts == ts[..|ts| - 1] + [ts[|ts| - 1]];
      SaidSnoc(ts[..|ts| - 1], ts[|ts| - 1]);
    }
  }

  lemma {:induction false} MergedAlternates<B>(ts: seq<Turn<B>>)
    ensures Alternates(Merged(ts))
    ensures ts != [] ==> Merged(ts) != [] && Merged(ts)[0].role == ts[0].role
    ensures ts == [] ==> Merged(ts) == []
  {
    if ts != [] {
      MergedAlternates(ts[..|ts| - 1]);
    }
  }

  // ---- Anthropic ----

  datatype AnthropicBlock =
    | TextBlock(text: string)
    | ToolUse(id: string, name: string, input: string)
    | ToolResult(toolUseId: string, content: string)

  /** Arguments that are not a JSON object are sent as an empty one. */
  function ToolArgs(isObject: string -> bool, arguments: string): string {
    if isObject(arguments) then arguments else "{}"
  }

  function Use(c: ChatCall, isObject: string -> bool): AnthropicBlock {
    ToolUse(c.id, c.name, ToolArgs(isObject, c.arguments))
  }

  function Uses(calls: seq<ChatCall>, isObject: string -> bool): seq<AnthropicBlock> {
    Map(c => Use(c, isObject), calls)
  }

  function AnthropicRole(m: Message): string {
    if m.role == "assistant" then "assistant" else "user"
  }

  /** One turn as Anthropic blocks: no empty text beside calls, calls only from the assistant. */
  function AnthropicTurn(m: Message, isObject: string -> bool): Turn<AnthropicBlock> {
    if m.role == "tool" then Turn("user", [ToolResult(m.answers, m.content)])
    else Turn(AnthropicRole(m), (if m.content != "" || m.calls == [] then [TextBlock(m.content)] else []) +
                                (if m.role == "assistant" then Uses(m.calls, isObject) else []))
  }

  function SpokenText(blocks: seq<AnthropicBlock>): string {
    if blocks == [] then ""
    else SpokenText(blocks[..|blocks| - 1]) + (if blocks[|blocks| - 1].TextBlock? then blocks[|blocks| - 1].text else "")
  }

  lemma {:induction false} UsesAreSilent(calls: seq<ChatCall>, isObject: string -> bool)
    ensures SpokenText(Uses(calls, isObject)) == ""
  {
    if calls != [] {
      var n := |calls| - 1;
      UsesAreSilent(calls[..n], isObject);
      MapSnoc(c => Use(c, isObject), calls[..n], calls[n]);
      assert calls == calls[..n] + [calls[n]];
      SnocParts(Uses(calls[..n], isObject), Use(calls[n], isObject));
    }
  }

  lemma {:induction false} SpokenAppend(a: seq<AnthropicBlock>, b: seq<AnthropicBlock>)
    ensures SpokenText(a + b) == SpokenText(a) + SpokenText(b)
  {
    if b == [] {
      assert a + b == a && SpokenText(a) + "" == SpokenText(a);
    } else {
      var n := |b| - 1;
      assert a + b == (a + b[..n]) + [b[n]];
      SnocParts(a + b[..n], b[n]);
      SpokenAppend(a, b[..n]);
    }
  }

  /** A turn says its text, before any call, and an empty text stands alone or not at all, as Anthropic demands. */
  lemma AnthropicTurnReads(m: Message, isObject: string -> bool)
    requires m.role != "tool"
    ensures var blocks := AnthropicTurn(m, isObject).blocks;
      && SpokenText(blocks) == m.content
      && (forall i, j :: 0 <= i < j < |blocks| && blocks[j].TextBlock? ==> blocks[i].TextBlock?)
      && (CallsOnAssistant(m) && TextBlock("") in blocks ==> |blocks| == 1)
  {
    var text := if m.content != "" || m.calls == [] then [TextBlock(m.content)] else [];
    var uses := if m.role == "assistant" then Uses(m.calls, isObject) else [];
    UsesAreSilent(m.calls, isObject);
    SpokenAppend(text, uses);
    assert SpokenText([TextBlock(m.content)]) == m.content by {
      SnocParts([], TextBlock(m.content));
      assert [] + [TextBlock(m.content)] == [TextBlock(m.content)];
    }
    assert forall b :: b in uses ==> b.ToolUse?;
  }

  function AnthropicTurns(turns: seq<Message>, isObject: string -> bool): seq<Turn<AnthropicBlock>> {
    Map(m => AnthropicTurn(m, isObject), turns)
  }

  const OPENER: Turn<AnthropicBlock> := Turn("user", [TextBlock("(continue)")])

  /** The conversation has to open with the user. */
  function WithOpener(msgs: seq<Turn<AnthropicBlock>>): seq<Turn<AnthropicBlock>> {
    if msgs != [] && msgs[0].role != "user" then [OPENER] + msgs else msgs
  }

  method BuildAnthropic(turns: seq<Message>, isObject: string -> bool) returns (body: Option<seq<Turn<AnthropicBlock>>>)
    ensures body.None? <==> turns == []
    ensures body.Some? ==> body.value == WithOpener(Merged(AnthropicTurns(turns, isObject)))
  {
    var msgs: seq<Turn<AnthropicBlock>> := [];
    for i := 0 to |turns|
      invariant msgs == Merged(AnthropicTurns(turns, isObject)[..i])
    {
      assert AnthropicTurns(turns, isObject)[..i + 1][..i] == AnthropicTurns(turns, isObject)[..i];
      msgs := JoinTurn(msgs, AnthropicTurn(turns[i], isObject));
    }
    assert AnthropicTurns(turns, isObject)[..|turns|] == AnthropicTurns(turns, isObject);
    MergedAlternates(AnthropicTurns(turns, isObject));
    if |msgs| == 0 {
      return None;
    }
    if msgs[0].role != "user" {
      msgs := [OPENER] + msgs;
    }
    body := Some(msgs);
  }

  lemma SaidAppend<B>(a: seq<Turn<B>>, b: seq<Turn<B>>)
    ensures Said(a + b) == Said(a) + Said(b)
  {
    var tags := (x: Turn<B>) => Attributed(x.role, x.blocks);
    MapAppend(tags, a, b);
    ConcatAppend(Map(tags, a), Map(tags, b));
  }

  lemma BlocksAppend<B>(a: seq<Turn<B>>, b: seq<Turn<B>>)
    ensures AllBlocks(a + b) == AllBlocks(a) + AllBlocks(b)
  {
    var blocks := (x: Turn<B>) => x.blocks;
    MapAppend(blocks, a, b);
    ConcatAppend(Map(blocks, a), Map(blocks, b));
  }

  lemma SaidPrepend<B>(t: Turn<B>, ts: seq<Turn<B>>)
    ensures Said([t] + ts) == Attributed(t.role, t.blocks) + Said(ts)
    ensures AllBlocks([t] + ts) == t.blocks + AllBlocks(ts)
  {
    SaidAppend([t], ts);
    BlocksAppend([t], ts);
    assert [] + [t] == [t];
    SaidSnoc([], t);
  }

  /**
   What Anthropic receives: roles alternate, the user opens, and every block of every turn is there
   in order, after one synthetic opener exactly when the assistant would have spoken first.
   */
  lemma AnthropicBodyFaithful(turns: seq<Message>, isObject: string -> bool)
    requires turns != []
    ensures
      var ts := AnthropicTurns(turns, isObject);
      var body := WithOpener(Merged(ts));
      && body != [] && body[0].role == "user"
      && Alternates(body)
      && Said(body) == (if turns[0].role == "assistant" then [("user", TextBlock("(continue)"))] else []) + Said(ts)
  {
    var ts := AnthropicTurns(turns, isObject);
    MergedAlternates(ts);
    MergedSays(ts);
    assert ts[0].role == AnthropicRole(turns[0]);
    OpenerFirst(Merged(ts));
  }

  /** Putting the opener in front of messages that do not start with the user. */
  lemma OpenerFirst(msgs: seq<Turn<AnthropicBlock>>)
    requires msgs != [] && Alternates(msgs)
    ensures WithOpener(msgs)[0].role == "user" && Alternates(WithOpener(msgs))
    ensures Said(WithOpener(msgs)) == (if msgs[0].role != "user" then [("user", TextBlock("(continue)"))] else []) + Said(msgs)
  {
    if msgs[0].role != "user" {
      SaidPrepend(OPENER, msgs);
      assert Attributed("user", OPENER.blocks) == [("user", TextBlock("(continue)"))];
    } else {
      assert [] + Said(msgs) == Said(msgs);
    }
  }

  // ---- tool traffic ----

  function UseIds(blocks: seq<AnthropicBlock>): seq<string> {
    if blocks == [] then []
    else
      var b := blocks[|blocks| - 1];
      UseIds(blocks[..|blocks| - 1]) + (if b.ToolUse? then [b.id] else [])
  }

  /** The ids the tool results answer, empty ones included. */
  function AnsweredIds(blocks: seq<AnthropicBlock>): seq<string> {
    if blocks == [] then []
    else
      var b := blocks[|blocks| - 1];
      AnsweredIds(blocks[..|blocks| - 1]) + (if b.ToolResult? then [b.toolUseId] else [])
  }

  lemma {:induction false} IdsAppended(a: seq<AnthropicBlock>, b: seq<AnthropicBlock>)
    ensures UseIds(a + b) == UseIds(a) + UseIds(b) && AnsweredIds(a + b) == AnsweredIds(a) + AnsweredIds(b)
  {
    if b == [] {
      assert a + b == a;
    } else {
      var n := |b| - 1;
      assert a + b == (a + b[..n]) + [b[n]];
      SnocParts(a + b[..n], b[n]);
      IdsAppended(a, b[..n]);
    }
  }

  lemma {:induction false} UsesIds(calls: seq<ChatCall>, isObject: string -> bool)
    ensures UseIds(Uses(calls, isObject)) == IdsOf(calls) && AnsweredIds(Uses(calls, isObject)) == []
  {
    if calls != [] {
      var n := |calls| - 1;
      UsesIds(calls[..n], isObject);
      MapSnoc(c => Use(c, isObject), calls[..n], calls[n]);
      MapSnoc((c: ChatCall) => c.id, calls[..n], calls[n]);
      assert calls == calls[..n] + [calls[n]];
      SnocParts(Uses(calls[..n], isObject), Use(calls[n], isObject));
    }
  }

  /** The calls Anthropic is told of: those of the assistant. */
  function SentCalls(m: Message): seq<string> {
    if m.role == "assistant" then IdsOf(m.calls) else []
  }

  lemma OneResult(id: string, content: string)
    ensures UseIds([ToolResult(id, content)]) == [] && AnsweredIds([ToolResult(id, content)]) == [id]
  {
    SnocParts([], ToolResult(id, content));
    assert [] + [ToolResult(id, content)] == [ToolResult(id, content)];
  }

  lemma TurnIds(m: Message, isObject: string -> bool)
    ensures UseIds(AnthropicTurn(m, isObject).blocks) == SentCalls(m)
    ensures AnsweredIds(AnthropicTurn(m, isObject).blocks) == AnswerOf(m)
  {
    if m.role == "tool" {
      OneResult(m.answers, m.content);
    } else {
      var text := if m.content != "" || m.calls == [] then [TextBlock(m.content)] else [];
      var uses := if m.role == "assistant" then Uses(m.calls, isObject) else [];
      UsesIds(m.calls, isObject);
      IdsAppended(text, uses);
      TextIds(m.content);
    }
  }

  lemma OneMoreTurn(turns: seq<Message>, m: Message, isObject: string -> bool)
    ensures AnthropicTurns(turns + [m], isObject) == AnthropicTurns(turns, isObject) + [AnthropicTurn(m, isObject)]
    ensures AllBlocks(AnthropicTurns(turns + [m], isObject)) == AllBlocks(AnthropicTurns(turns, isObject)) + AnthropicTurn(m, isObject).blocks
  {
    MapSnoc(x => AnthropicTurn(x, isObject), turns, m);
    SaidSnoc(AnthropicTurns(turns, isObject), AnthropicTurn(m, isObject));
  }

  lemma TurnIdsSnoc(turns: seq<Message>, m: Message, isObject: string -> bool)
    ensures UseIds(AllBlocks(AnthropicTurns(turns + [m], isObject))) == UseIds(AllBlocks(AnthropicTurns(turns, isObject))) + SentCalls(m)
    ensures AnsweredIds(AllBlocks(AnthropicTurns(turns + [m], isObject))) == AnsweredIds(AllBlocks(AnthropicTurns(turns, isObject))) + AnswerOf(m)
  {
    OneMoreTurn(turns, m, isObject);
    TurnIds(m, isObject);
    IdsAppended(AllBlocks(AnthropicTurns(turns, isObject)), AnthropicTurn(m, isObject).blocks);
  }

  lemma {:induction false} TurnsIds(turns: seq<Message>, isObject: string -> bool)
    ensures UseIds(AllBlocks(AnthropicTurns(turns, isObject))) == Gathered(SentCalls, turns)
    ensures AnsweredIds(AllBlocks(AnthropicTurns(turns, isObject))) == AnswerIds(turns)
  {
    if turns == [] {
      assert AnthropicTurns([], isObject) == [];
    } else {
      var n := |turns| - 1;
      TurnsIds(turns[..n], isObject);
      assert turns == turns[..n] + [turns[n]];
      GatheredSnoc(SentCalls, turns[..n], turns[n]);
      AnswersSnoc(turns[..n], turns[n]);
      TurnIdsSnoc(turns[..n], turns[n], isObject);
    }
  }

  /** The blocks of the Anthropic body for a chat request. */
  function BodyBlocks(ms: seq<Message>, isObject: string -> bool): seq<AnthropicBlock> {
    AllBlocks(WithOpener(Merged(AnthropicTurns(Turns(ms), isObject))))
  }

  lemma BodyIds(ms: seq<Message>, isObject: string -> bool)
    ensures UseIds(BodyBlocks(ms, isObject)) == Gathered(SentCalls, ms)
    ensures AnsweredIds(BodyBlocks(ms, isObject)) == AnswerIds(Turns(ms))
  {
    TurnsIds(Turns(ms), isObject);
    MergedSays(AnthropicTurns(Turns(ms), isObject));
    OpenerSilent(Merged(AnthropicTurns(Turns(ms), isObject)));
    TurnsKeep(SentCalls, ms);
  }

  /** Only the assistant makes calls. */
  ghost predicate AssistantCallsOnly(ms: seq<Message>) {
    forall i :: 0 <= i < |ms| && ms[i].calls != [] ==> ms[i].role == "assistant"
  }

  lemma SentAreAll(ms: seq<Message>)
    ensures Gathered(SentCalls, ms) == CallIds(ms) <==> AssistantCallsOnly(ms)
  {
    SkipsNothing(SentCalls, CallsOf, ms);
    forall i | 0 <= i < |ms| ensures SentCalls(ms[i]) == CallsOf(ms[i]) <==> (ms[i].calls != [] ==> ms[i].role == "assistant") {
      assert |CallsOf(ms[i])| == |ms[i].calls|;
    }
  }

  /**
   What becomes of a chat request's tool traffic on the way to Anthropic, whatever the messages. The
   tool_use ids are those of the assistant's calls, so all calls arrive exactly when nobody else makes
   any; the tool_result ids are those of the tool messages, and empty ones besides exactly when some
   tool message has no id.
   */
  lemma ChatReachesAnthropic(ms: seq<Message>, isObject: string -> bool)
    ensures UseIds(BodyBlocks(ms, isObject)) == Gathered(SentCalls, ms)
    ensures UseIds(BodyBlocks(ms, isObject)) == CallIds(ms) <==> AssistantCallsOnly(ms)
    ensures Filter(Present, AnsweredIds(BodyBlocks(ms, isObject))) == ResultIds(ms)
    ensures AnsweredIds(BodyBlocks(ms, isObject)) == ResultIds(ms) <==> !AnyUnanchored(ms)
  {
    BodyIds(ms, isObject);
    SentAreAll(ms);
    AnswersRead(Turns(ms));
    TurnsKeep(ResultId, ms);
    TurnsAnchors(ms);
    OnlyPresent(AnswerIds(Turns(ms)));
  }

  /** A call on a user's message is not sent. */
  lemma UserCallIsLost(isObject: string -> bool)
    ensures var ms := [Message("user", "", [ChatCall("1", "f", "{}")], "")];
      CallIds(ms) == ["1"] && UseIds(BodyBlocks(ms, isObject)) == []
  {
    var m := Message("user", "", [ChatCall("1", "f", "{}")], "");
    assert [] + [m] == [m];
    TrafficSnoc([], m);
    GatheredSnoc(SentCalls, [], m);
    ChatReachesAnthropic([m], isObject);
  }

  /**
   Tool traffic survives the whole way from Responses items to the Anthropic body: the ids of its
   tool_use blocks are those of the call items, and the ids of its tool_result blocks those of the
   result items, in order. The latter holds exactly when no message item claims the tool role: such
   an item becomes a result with an empty id, and nothing else does.
   */
  lemma ItemsReachAnthropic(instructions: string, items: seq<InputItem>, isObject: string -> bool)
    requires !AnyRefused(items)
    ensures
      var blocks := BodyBlocks(Folded(Start(instructions) + ProducedBy(items)), isObject);
      && UseIds(blocks) == ItemCallIds(items)
      && Filter(Present, AnsweredIds(blocks)) == ItemResultIds(items)
      && (AnsweredIds(blocks) == ItemResultIds(items) <==> !AnyToolMessage(items))
  {
    var ms := Start(instructions) + ProducedBy(items);
    StartTraffic(instructions, items);
    FoldKeepsTraffic(ms);
    ChatReachesAnthropic(Folded(ms), isObject);
    CallersAssist(Folded(ms));
    StartAnchors(instructions, items);
    FoldAnchors(ms);
  }

  lemma CallersAssist(ms: seq<Message>)
    requires CallsOnAssistants(ms)
    ensures AssistantCallsOnly(ms)
  {
    forall i | 0 <= i < |ms| && ms[i].calls != [] ensures ms[i].role == "assistant" {
      assert CallsOnAssistant(ms[i]);
    }
  }

  /** One message item in the role of a tool: a result that answers nothing. */
  lemma ToolRoleAnswersNothing(isObject: string -> bool)
    ensures var items := [InputItem("message", "tool", "x", "", "", "", "")];
      && !AnyRefused(items) && ItemResultIds(items) == []
      && AnsweredIds(BodyBlocks(Folded(Start("") + ProducedBy(items)), isObject)) != []
  {
    var it := InputItem("message", "tool", "x", "", "", "", "");
    assert [] + [it] == [it];
    SnocParts([], it);
    assert AnyToolMessage([it]) && ItemResultIds([it]) == [];
    ItemsReachAnthropic("", [it], isObject);
  }

  /** Filtering out empty ids changes nothing exactly when there are none. */
  lemma OnlyPresent(ids: seq<string>)
    ensures Filter(Present, ids) == ids <==> "" !in ids
  {
    FilterMember(Present, ids, "");
    if "" !in ids {
      FilterAll(Present, ids);
    }
  }

  lemma StartAnchors(instructions: string, items: seq<InputItem>)
    requires !AnyRefused(items)
    ensures AnyUnanchored(Start(instructions) + ProducedBy(items)) <==> AnyToolMessage(items)
  {
    ProducedAnchors(Start(instructions), items);
  }

  lemma StartTraffic(instructions: string, items: seq<InputItem>)
    requires !AnyRefused(items)
    ensures var ms := Start(instructions) + ProducedBy(items);
      CallsOnAssistants(ms) && CallIds(ms) == ItemCallIds(items) && ResultIds(ms) == ItemResultIds(items)
  {
    ProducedTraffic(items);
    TrafficAppend(Start(instructions), ProducedBy(items));
    if Start(instructions) != [] {
      TrafficSnoc([], Start(instructions)[0]);
      assert [] + [Start(instructions)[0]] == Start(instructions);
    }
    assert CallIds(Start(instructions)) == [] && ResultIds(Start(instructions)) == [];
  }

  lemma TextIds(text: string)
    ensures UseIds([TextBlock(text)]) == [] && AnsweredIds([TextBlock(text)]) == []
  {
    assert [] + [TextBlock(text)] == [TextBlock(text)];
    SnocParts([], TextBlock(text));
  }

  lemma OpenerSilent(msgs: seq<Turn<AnthropicBlock>>)
    ensures UseIds(AllBlocks(WithOpener(msgs))) == UseIds(AllBlocks(msgs))
    ensures AnsweredIds(AllBlocks(WithOpener(msgs))) == AnsweredIds(AllBlocks(msgs))
  {
    assert AllBlocks([OPENER] + msgs) == OPENER.blocks + AllBlocks(msgs) by { SaidPrepend(OPENER, msgs); }
    IdsAppended(OPENER.blocks, AllBlocks(msgs));
    TextIds("(continue)");
  }

  // ---- a run of calls and its results ----

  lemma JoinLast<B>(out: seq<Turn<B>>, blocks: seq<B>, t: Turn<B>)
    requires t.role == "user"
    ensures MergeOne(out + [Turn("user", blocks)], t) == out + [Turn("user", blocks + t.blocks)]
  {}

  lemma {:induction false} ResultsMerge<B>(ts: seq<Turn<B>>, results: seq<Turn<B>>)
    requires Merged(ts) != [] && Merged(ts)[|Merged(ts)| - 1].role != "user"
    requires results != [] && forall t :: t in results ==> t.role == "user"
    ensures Merged(ts + results) == Merged(ts) + [Turn("user", AllBlocks(results))]
  {
    var n := |results| - 1;
    assert results[n] in results && ts + results == (ts + results[..n]) + [results[n]];
    SnocParts(ts + results[..n], results[n]);
    assert AllBlocks(results) == AllBlocks(results[..n]) + results[n].blocks by {
      assert results == results[..n] + [results[n]];
      SaidSnoc(results[..n], results[n]);
    }
    if n == 0 {
      assert ts + results[..0] == ts && AllBlocks(results) == results[0].blocks;
    } else {
      ResultsMerge(ts, results[..n]);
      JoinLast(Merged(ts), AllBlocks(results[..n]), results[n]);
    }
  }

  /** What follows can only extend the last message or come after it. */
  lemma {:induction false} LaterExtends<B>(ts: seq<Turn<B>>, later: seq<Turn<B>>) returns (rest: seq<B>, after: seq<Turn<B>>)
    requires Merged(ts) != []
    ensures var m := Merged(ts);
      Merged(ts + later) == m[..|m| - 1] + [Turn(m[|m| - 1].role, m[|m| - 1].blocks + rest)] + after
  {
    var m := Merged(ts);
    var n := |m| - 1;
    if later == [] {
      rest, after := [], [];
      assert ts + later == ts && m[n].blocks + [] == m[n].blocks && m == m[..n] + [m[n]] + [];
    } else {
      var k := |later| - 1;
      var last := later[k];
      assert ts + later == (ts + later[..k]) + [last];
      SnocParts(ts + later[..k], last);
      rest, after := LaterExtends(ts, later[..k]);
      var grown := Turn(m[n].role, m[n].blocks + rest);
      assert Merged(ts + later[..k]) == m[..n] + [grown] + after;
      if after == [] && m[n].role == last.role {
        AppendAssociates(m[n].blocks, rest, last.blocks);
        rest := rest + last.blocks;
        assert m[..n] + [grown] + [] == m[..n] + [grown];
      } else if after != [] && after[|after| - 1].role == last.role {
        after := after[|after| - 1 := Turn(last.role, after[|after| - 1].blocks + last.blocks)];
      } else {
        after := after + [last];
      }
    }
  }

  lemma CallerMerges<B>(before: seq<Turn<B>>, caller: Turn<B>) returns (head: seq<Turn<B>>, lead: seq<B>)
    ensures Merged(before + [caller]) == head + [Turn(caller.role, lead + caller.blocks)]
  {
    SnocParts(before, caller);
    var m := Merged(before);
    if m != [] && m[|m| - 1].role == caller.role {
      head, lead := m[..|m| - 1], m[|m| - 1].blocks;
    } else {
      head, lead := m, [];
      assert lead + caller.blocks == caller.blocks;
    }
  }

  lemma TwoTurns<B>(head: seq<Turn<B>>, a: Turn<B>, b: Turn<B>, after: seq<Turn<B>>)
    ensures head + [a] + [b] + after == head + [a, b] + after
    ensures (head + [a] + [b])[..|head| + 1] == head + [a]
  {}

  /** An assistant turn followed by results: merged, they are one assistant message and the next user message. */
  lemma RunMerges<B>(before: seq<Turn<B>>, caller: Turn<B>, results: seq<Turn<B>>, later: seq<Turn<B>>)
    returns (head: seq<Turn<B>>, lead: seq<B>, rest: seq<B>, after: seq<Turn<B>>)
    requires caller.role == "assistant" && results != [] && forall t :: t in results ==> t.role == "user"
    ensures Merged(before + [caller] + results + later) ==
      head + [Turn("assistant", lead + caller.blocks), Turn("user", AllBlocks(results) + rest)] + after
  {
    head, lead := CallerMerges(before, caller);
    var joined, answered := Turn("assistant", lead + caller.blocks), Turn("user", AllBlocks(results));
    ResultsMerge(before + [caller], results);
    TwoTurns(head, joined, answered, []);
    rest, after := LaterExtends(before + [caller] + results, later);
    TwoTurns(head, joined, Turn("user", AllBlocks(results) + rest), after);
  }

  lemma {:induction false} ResultsStayTurns(ms: seq<Message>, results: seq<Message>)
    requires forall m :: m in results ==> m.role == "tool" && m.answers != ""
    ensures Turns(ms + results) == Turns(ms) + results
  {
    if results == [] {
      assert ms + [] == ms && Turns(ms) + [] == Turns(ms);
    } else {
      var n := |results| - 1;
      assert results[n] in results && ms + results == (ms + results[..n]) + [results[n]];
      SnocParts(ms + results[..n], results[n]);
      ResultsStayTurns(ms, results[..n]);
      assert Turns(ms) + results == (Turns(ms) + results[..n]) + [results[n]];
    }
  }

  lemma {:induction false} TurnsStay(ms: seq<Message>, tail: seq<Message>)
    requires Turns(ms) != [] && !Plain(Turns(ms)[|Turns(ms)| - 1])
    ensures Turns(ms) <= Turns(ms + tail)
  {
    if tail == [] {
      assert ms + tail == ms;
    } else {
      var n := |tail| - 1;
      assert ms + tail == (ms + tail[..n]) + [tail[n]];
      SnocParts(ms + tail[..n], tail[n]);
      TurnsStay(ms, tail[..n]);
    }
  }

  lemma RunStaysTurns(head: seq<Message>, caller: Message, results: seq<Message>, tail: seq<Message>) returns (later: seq<Message>)
    requires caller.role == "assistant" && caller.calls != [] && results != []
    requires forall m :: m in results ==> m.role == "tool" && m.answers != ""
    ensures Turns(head + [caller] + results + tail) == Turns(head) + [caller] + results + later
  {
    SnocParts(head, caller);
    ResultsStayTurns(head + [caller], results);
    var kept := Turns(head + [caller] + results);
    assert kept == Turns(head) + [caller] + results;
    assert kept[|kept| - 1] == results[|results| - 1] && results[|results| - 1] in results;
    TurnsStay(head + [caller] + results, tail);
    later := Turns(head + [caller] + results + tail)[|kept|..];
  }

  lemma TurnsOfParts(head: seq<Message>, caller: Message, results: seq<Message>, later: seq<Message>, isObject: string -> bool)
    ensures AnthropicTurns(head + [caller] + results + later, isObject) ==
      AnthropicTurns(head, isObject) + [AnthropicTurn(caller, isObject)] + AnthropicTurns(results, isObject) + AnthropicTurns(later, isObject)
  {}

  /**
   Items of a call run directly followed by their results, wherever they stand in the input: the
   Anthropic body has one assistant message that ends with exactly those tool_use blocks, and the
   very next message is the user's and begins with exactly those results.
   */
  lemma RunStaysInNeighbouringTurns(pre: seq<Message>, calls: seq<Message>, results: seq<Message>, post: seq<Message>, isObject: string -> bool)
    returns (head: seq<Turn<AnthropicBlock>>, lead: seq<AnthropicBlock>, rest: seq<AnthropicBlock>, after: seq<Turn<AnthropicBlock>>)
    requires CallsOnAssistants(pre) && calls != [] && results != []
    requires forall m :: m in calls ==> CallsOnAssistant(m) && m.calls != []
    requires forall m :: m in results ==> m.role == "tool" && m.calls == [] && m.answers != ""
    ensures WithOpener(Merged(AnthropicTurns(Turns(Folded(pre + calls + results + post)), isObject))) ==
      head + [Turn("assistant", lead + Uses(AllCalls(calls), isObject)),
              Turn("user", AllBlocks(AnthropicTurns(results, isObject)) + rest)] + after
  {
    var front, more, caller, tail := RunStaysTogether(pre, calls, results, post);
    SomeCalls(calls);
    var later := RunStaysTurns(front, caller, results, tail);
    TurnsOfParts(Turns(front), caller, results, later, isObject);
    head, lead, rest, after := RunMerges(AnthropicTurns(Turns(front), isObject), AnthropicTurn(caller, isObject),
                                         AnthropicTurns(results, isObject), AnthropicTurns(later, isObject));
    var text := if caller.content != "" then [TextBlock(caller.content)] else [];
    UsesAppend(more, AllCalls(calls), isObject);
    AppendAssociates(text, Uses(more, isObject), Uses(AllCalls(calls), isObject));
    AppendAssociates(lead, text + Uses(more, isObject), Uses(AllCalls(calls), isObject));
    lead := lead + (text + Uses(more, isObject));
    OpenerInFront(head, Turn("assistant", lead + Uses(AllCalls(calls), isObject)),
                  Turn("user", AllBlocks(AnthropicTurns(results, isObject)) + rest), after);
    if (head + [Turn("assistant", lead + Uses(AllCalls(calls), isObject))])[0].role != "user" {
      head := [OPENER] + head;
    }
  }

  lemma SomeCalls(calls: seq<Message>)
    requires calls != [] && forall m :: m in calls ==> m.calls != []
    ensures AllCalls(calls) != []
  {
    assert calls[|calls| - 1] in calls;
  }

  lemma UsesAppend(a: seq<ChatCall>, b: seq<ChatCall>, isObject: string -> bool)
    ensures Uses(a + b, isObject) == Uses(a, isObject) + Uses(b, isObject)
  {}

  lemma OpenerInFront(head: seq<Turn<AnthropicBlock>>, a: Turn<AnthropicBlock>, b: Turn<AnthropicBlock>, after: seq<Turn<AnthropicBlock>>)
    ensures WithOpener(head + [a, b] + after) ==
      (if (head + [a])[0].role != "user" then [OPENER] + head else head) + [a, b] + after
  {
    var all := head + [a, b] + after;
    assert all[0] == (head + [a])[0];
    assert [OPENER] + all == ([OPENER] + head) + [a, b] + after;
  }

  // ---- Google ----

  datatype GooglePart = TextPart(text: string) | CallPart(name: string, args: string) | ResponsePart(name: string, content: string)

  function EnterNames(names: map<string, string>, calls: seq<ChatCall>): map<string, string> {
    if calls == [] then names
    else
      var last := calls[|calls| - 1];
      EnterNames(names, calls[..|calls| - 1])[last.id := last.name]
  }

  /** Call names by id; of several calls with one id the last in the conversation counts. */
  function CallNames(turns: seq<Message>): map<string, string> {
    if turns == [] then map[] else EnterNames(CallNames(turns[..|turns| - 1]), turns[|turns| - 1].calls)
  }

  function NameFor(names: map<string, string>, id: string): string {
    if id in names then names[id] else ""
  }

  function GoogleRole(m: Message): string {
    if m.role == "assistant" then "model" else "user"
  }

  function CallParts(calls: seq<ChatCall>, isObject: string -> bool): seq<GooglePart> {
    Map((c: ChatCall) => CallPart(c.name, ToolArgs(isObject, c.arguments)), calls)
  }

  function GoogleTurn(m: Message, names: map<string, string>, isObject: string -> bool): Turn<GooglePart> {
    if m.role == "tool" then Turn("user", [ResponsePart(NameFor(names, m.answers), m.content)])
    else Turn(GoogleRole(m), (if m.content != "" || m.calls == [] then [TextPart(m.content)] else []) +
                             (if m.role == "assistant" then CallParts(m.calls, isObject) else []))
  }

  function GoogleTurns(turns: seq<Message>, names: map<string, string>, isObject: string -> bool): seq<Turn<GooglePart>> {
    Map(m => GoogleTurn(m, names, isObject), turns)
  }

  method CollectNames(turns: seq<Message>) returns (names: map<string, string>)
    ensures names == CallNames(turns)
  {
    names := map[];
    for i := 0 to |turns|
      invariant names == CallNames(turns[..i])
    {
      assert turns[..i + 1][..i] == turns[..i];
      var calls := turns[i].calls;
      for j := 0 to |calls|
        invariant names == EnterNames(CallNames(turns[..i]), calls[..j])
      {
        assert calls[..j + 1][..j] == calls[..j];
        names := names[calls[j].id := calls[j].name];
      }
      assert calls[..|calls|] == calls;
    }
    assert turns[..|turns|] == turns;
  }

  method BuildGoogle(turns: seq<Message>, isObject: string -> bool) returns (contents: Option<seq<Turn<GooglePart>>>)
    ensures contents.None? <==> turns == []
    ensures contents.Some? ==> contents.value == Merged(GoogleTurns(turns, CallNames(turns), isObject))
  {
    var names := CollectNames(turns);
    ghost var ts := GoogleTurns(turns, names, isObject);
    var out: seq<Turn<GooglePart>> := [];
    for i := 0 to |turns|
      invariant out == Merged(ts[..i])
    {
      assert ts[..i + 1][..i] == ts[..i];
      out := JoinTurn(out, GoogleTurn(turns[i], names, isObject));
    }
    assert ts[..|turns|] == ts;
    MergedAlternates(ts);
    if |out| == 0 {
      return None;
    }
    contents := Some(out);
  }

  /** What Google receives alternates and says everything the turns say. */
  lemma GoogleBodyFaithful(turns: seq<Message>, isObject: string -> bool)
    requires turns != []
    ensures
      var ts := GoogleTurns(turns, CallNames(turns), isObject);
      Merged(ts) != [] && Alternates(Merged(ts)) && Said(Merged(ts)) == Said(ts)
  {
    MergedAlternates(GoogleTurns(turns, CallNames(turns), isObject));
    MergedSays(GoogleTurns(turns, CallNames(turns), isObject));
  }

  // ---- results carry the name of the call they answer ----

  lemma {:induction false} NamesSnoc(names: map<string, string>, a: seq<ChatCall>, b: seq<ChatCall>)
    ensures EnterNames(names, a + b) == EnterNames(EnterNames(names, a), b)
  {
    if b == [] {
      assert a + b == a;
    } else {
      var n := |b| - 1;
      assert a + b == (a + b[..n]) + [b[n]];
      SnocParts(a + b[..n], b[n]);
      NamesSnoc(names, a, b[..n]);
    }
  }

  lemma {:induction false} NamesOfAll(turns: seq<Message>)
    ensures CallNames(turns) == EnterNames(map[], AllCalls(turns))
  {
    if turns != [] {
      NamesOfAll(turns[..|turns| - 1]);
      NamesSnoc(map[], AllCalls(turns[..|turns| - 1]), turns[|turns| - 1].calls);
    }
  }

  lemma {:induction false} LastNameWins(calls: seq<ChatCall>, i: nat)
    requires i < |calls| && forall j :: i < j < |calls| ==> calls[j].id != calls[i].id
    ensures calls[i].id in EnterNames(map[], calls) && EnterNames(map[], calls)[calls[i].id] == calls[i].name
  {
    if i < |calls| - 1 {
      assert calls[..|calls| - 1][i] == calls[i];
      LastNameWins(calls[..|calls| - 1], i);
    }
  }

  /** The last of the calls made under an id, if any was. */
  ghost predicate LastUnder(calls: seq<ChatCall>, id: string, i: int) {
    0 <= i < |calls| && calls[i].id == id && forall j :: i < j < |calls| ==> calls[j].id != id
  }

  lemma {:induction false} SomeLast(calls: seq<ChatCall>, id: string)
    ensures id in EnterNames(map[], calls) <==> exists i :: LastUnder(calls, id, i)
  {
    if calls != [] {
      var n := |calls| - 1;
      SomeLast(calls[..n], id);
      if calls[n].id == id {
        assert LastUnder(calls, id, n);
      } else {
        forall i: int ensures LastUnder(calls, id, i) <==> LastUnder(calls[..n], id, i) {}
      }
    }
  }

  lemma HasLast(calls: seq<ChatCall>, i: nat)
    requires i < |calls|
    ensures exists j :: LastUnder(calls, calls[i].id, j)
    decreases |calls| - i
  {
    if i < |calls| - 1 && exists j :: i < j < |calls| && calls[j].id == calls[i].id {
      var j :| i < j < |calls| && calls[j].id == calls[i].id;
      HasLast(calls, j);
    } else {
      assert LastUnder(calls, calls[i].id, i);
    }
  }

  /**
   A function response goes out under the name of the last call in the whole conversation that has
   its id, even one made after the result; and under no name when no call has it.
   */
  lemma ResultTakesLastName(turns: seq<Message>, m: Message, isObject: string -> bool)
    requires m.role == "tool"
    ensures forall i :: LastUnder(AllCalls(turns), m.answers, i) ==>
      GoogleTurn(m, CallNames(turns), isObject).blocks == [ResponsePart(AllCalls(turns)[i].name, m.content)]
    ensures (forall i :: 0 <= i < |AllCalls(turns)| ==> AllCalls(turns)[i].id != m.answers) ==>
      GoogleTurn(m, CallNames(turns), isObject).blocks == [ResponsePart("", m.content)]
  {
    var calls := AllCalls(turns);
    NamesOfAll(turns);
    SomeLast(calls, m.answers);
    forall i | LastUnder(calls, m.answers, i)
      ensures GoogleTurn(m, CallNames(turns), isObject).blocks == [ResponsePart(calls[i].name, m.content)]
    {
      LastNameWins(calls, i);
    }
  }

  /** Calls made under one id name one function. */
  ghost predicate NamesAgree(calls: seq<ChatCall>) {
    forall i, j :: 0 <= i < j < |calls| && calls[i].id == calls[j].id ==> calls[i].name == calls[j].name
  }

  /** A result that answers this call goes out under the call's own name. */
  predicate CarriesName(turns: seq<Message>, c: ChatCall) {
    NameFor(CallNames(turns), c.id) == c.name
  }

  /** Every result goes out under the name of the call it answers exactly when calls that share an id share a name. */
  lemma ResultNamesItsCall(turns: seq<Message>)
    ensures (forall i :: 0 <= i < |AllCalls(turns)| ==> CarriesName(turns, AllCalls(turns)[i])) <==> NamesAgree(AllCalls(turns))
  {
    var calls := AllCalls(turns);
    NamesOfAll(turns);
    forall i | 0 <= i < |calls| && NamesAgree(calls) ensures CarriesName(turns, calls[i]) {
      HasLast(calls, i);
      var j :| LastUnder(calls, calls[i].id, j);
      LastNameWins(calls, j);
    }
    if forall i :: 0 <= i < |calls| ==> CarriesName(turns, calls[i]) {
      assert NamesAgree(calls);
    }
  }

  /** A result told between two calls under one id goes out under the later call's name. */
  lemma RepeatedIdMisnames(isObject: string -> bool)
    ensures
      var first, result, second := Message("assistant", "", [ChatCall("1", "f", "{}")], ""), Message("tool", "r", [], "1"),
                                   Message("assistant", "", [ChatCall("1", "g", "{}")], "");
      GoogleTurn(result, CallNames([first, result, second]), isObject).blocks == [ResponsePart("g", "r")]
  {
    var first, result, second := Message("assistant", "", [ChatCall("1", "f", "{}")], ""), Message("tool", "r", [], "1"),
                                 Message("assistant", "", [ChatCall("1", "g", "{}")], "");
    var turns := [first, result, second];
    assert turns[..2] == [first, result] && AllCalls(turns) == AllCalls(turns[..2]) + [ChatCall("1", "g", "{}")];
    assert LastUnder(AllCalls(turns), "1", |AllCalls(turns)| - 1);
    ResultTakesLastName(turns, result, isObject);
  }
}

/** Responses input items, flattened into a chat transcript. */
module ResponsesInput {
  import opened Sequences
  import opened Text
  import opened Chat

  /** `text` and `output` are the item's content and tool output, already flattened to text. */
  datatype InputItem = InputItem(kind: string, role: string, text: string, callId: string, name: string, arguments: string, output: string)

  datatype Input = Absent | Bare(text: string) | Items(items: seq<InputItem>)

  datatype Produced = Produces(message: Message) | Silent | Refused

  datatype Flattened = Flattened(messages: seq<Message>) | InputError

  function KindOf(it: InputItem): string {
    if it.kind == "" && it.role != "" then "message" else it.kind
  }

  /** A call or result without an id is refused; kinds chat has no place for are dropped. */
  function MessageFromItem(it: InputItem): (r: Produced)
    ensures r.Produces? ==> CallsOnAssistant(r.message)
    ensures r.Produces? && KindOf(it) == "function_call" ==> IdsOf(r.message.calls) == [it.callId]
    ensures r.Produces? && KindOf(it) == "function_call_output" ==> r.message.role == "tool" && r.message.answers == it.callId != ""
  {
    match KindOf(it)
    case "message" =>
      Produces(Message(if it.role == "" then "user" else it.role, it.text, [], ""))
    case "function_call" =>
      if it.callId == "" then Refused
      else Produces(Message("assistant", "", [ChatCall(it.callId, it.name, it.arguments)], ""))
    case "function_call_output" =>
      if it.callId == "" then Refused else Produces(Message("tool", it.output, [], it.callId))
    case _ => Silent
  }

  /** A message with calls joins an assistant message directly before it; anything else starts anew. */
  function Push(out: seq<Message>, m: Message): seq<Message> {
    var n := |out|;
    if n > 0 && m.calls != [] && out[n - 1].role == "assistant" && out[n - 1].answers == "" then
      out[n - 1 := out[n - 1].(calls := out[n - 1].calls + m.calls)]
    else out + [m]
  }

  function Folded(ms: seq<Message>): seq<Message> {
    if ms == [] then [] else Push(Folded(ms[..|ms| - 1]), ms[|ms| - 1])
  }

  function Start(instructions: string): seq<Message> {
    if Trim(instructions) != "" then [Message("system", Trim(instructions), [], "")] else []
  }

  /** The messages the items produce, one by one. */
  function ProducedBy(items: seq<InputItem>): seq<Message> {
    if items == [] then []
    else
      ProducedBy(items[..|items| - 1]) + MessagesOf(MessageFromItem(items[|items| - 1]))
  }

  function MessagesOf(r: Produced): seq<Message> {
    if r.Produces? then [r.message] else []
  }

  predicate AnyRefused(items: seq<InputItem>) {
    items != [] && (AnyRefused(items[..|items| - 1]) || MessageFromItem(items[|items| - 1]).Refused?)
  }

  method Append(out: seq<Message>, msg: Message) returns (out': seq<Message>)
    ensures out' == Push(out, msg)
  {
    var n := |out|;
    if n > 0 && |msg.calls| > 0 && out[n - 1].role == "assistant" && out[n - 1].answers == "" {
      out' := out[n - 1 := out[n - 1].(calls := out[n - 1].calls + msg.calls)];
    } else {
      out' := out + [msg];
    }
  }

  /** What one item does to the transcript: None when it is refused. */
  function TakeItem(out: seq<Message>, r: Produced): Option<seq<Message>> {
    match r
    case Refused => None
    case Silent => Some(out)
    case Produces(msg) => Some(Push(out, msg))
  }

  method AppendItem(out: seq<Message>, it: InputItem) returns (r: Option<seq<Message>>)
    ensures r == TakeItem(out, MessageFromItem(it))
  {
    var produced := MessageFromItem(it);
    match produced {
      case Refused => r := None;
      case Silent => r := Some(out);
      case Produces(msg) =>
        var out' := Append(out, msg);
        r := Some(out');
    }
  }

  /** The items one after another; a refused one ends it. */
  function FoldItems(start: seq<Message>, items: seq<InputItem>): Option<seq<Message>> {
    if items == [] then Some(start)
    else match FoldItems(start, items[..|items| - 1])
      case None => None
      case Some(out) => TakeItem(out, MessageFromItem(items[|items| - 1]))
  }

  lemma {:induction false} RefusedOnce(start: seq<Message>, items: seq<InputItem>, i: nat)
    requires i <= |items| && FoldItems(start, items[..i]) == None
    ensures FoldItems(start, items) == None
  {
    if i < |items| {
      assert items[..|items| - 1][..i] == items[..i];
      RefusedOnce(start, items[..|items| - 1], i);
    } else {
      assert items[..i] == items;
    }
  }

  lemma {:induction false} FoldItemsMeans(start: seq<Message>, items: seq<InputItem>)
    requires Folded(start) == start
    ensures FoldItems(start, items) == None <==> AnyRefused(items)
    ensures FoldItems(start, items) != None ==> FoldItems(start, items) == Some(Folded(start + ProducedBy(items)))
  {
    if items == [] {
      assert start + ProducedBy([]) == start;
    } else {
      var n := |items| - 1;
      FoldItemsMeans(start, items[..n]);
      assert items[..n + 1] == items;
      OneMoreItem(start, items, n);
    }
  }

  method FlattenItems(start: seq<Message>, items: seq<InputItem>) returns (r: Flattened)
    requires Folded(start) == start
    ensures r.InputError? <==> AnyRefused(items)
    ensures r.Flattened? ==> r.messages == Folded(start + ProducedBy(items))
  {
    FoldItemsMeans(start, items);
    var out := start;
    for i := 0 to |items|
      invariant FoldItems(start, items[..i]) == Some(out)
    {
      assert items[..i + 1][..i] == items[..i];
      var next := AppendItem(out, items[i]);
      if next.None? {
        RefusedOnce(start, items, i + 1);
        return InputError;
      }
      out := next.value;
    }
    assert items[..|items|] == items;
    r := Flattened(out);
  }

  method ResponsesMessages(instructions: string, input: Input) returns (r: Flattened)
    ensures input.Absent? ==> r == Flattened(Start(instructions))
    ensures input.Bare? ==> r == Flattened(Start(instructions) + [Message("user", input.text, [], "")])
    ensures input.Items? ==> (r.InputError? <==> AnyRefused(input.items))
    ensures input.Items? && r.Flattened? ==> r.messages == Folded(Start(instructions) + ProducedBy(input.items))
  {
    var out := [];
    var s := Trim(instructions);
    if s != "" {
      out := out + [Message("system", s, [], "")];
    }
    match input {
      case Absent => r := Flattened(out);
      case Bare(text) => r := Flattened(out + [Message("user", text, [], "")]);
      case Items(items) => r := FlattenItems(out, items);
    }
  }

  lemma OneMoreItem(start: seq<Message>, items: seq<InputItem>, i: nat)
    requires i < |items|
    ensures Folded(start + ProducedBy(items[..i + 1])) ==
      var r := MessageFromItem(items[i]);
      if r.Produces? then Push(Folded(start + ProducedBy(items[..i])), r.message) else Folded(start + ProducedBy(items[..i]))
  {
    assert items[..i + 1][..i] == items[..i];
    var r := MessageFromItem(items[i]);
    assert ProducedBy(items[..i + 1]) == ProducedBy(items[..i]) + MessagesOf(r);
    FoldedMore(start, ProducedBy(items[..i]), r);
  }

  lemma FoldedMore(start: seq<Message>, before: seq<Message>, r: Produced)
    ensures Folded(start + (before + MessagesOf(r))) ==
      if r.Produces? then Push(Folded(start + before), r.message) else Folded(start + before)
  {
    if r.Produces? {
      assert start + (before + [r.message]) == (start + before) + [r.message];
      SnocParts(start + before, r.message);
    } else {
      assert before + [] == before;
    }
  }

  // ---- tool traffic is preserved ----

  function CallIdOf(it: InputItem): seq<string> {
    if KindOf(it) == "function_call" then [it.callId] else []
  }

  function ResultIdOf(it: InputItem): seq<string> {
    if KindOf(it) == "function_call_output" then [it.callId] else []
  }

  function ItemCallIds(items: seq<InputItem>): seq<string> {
    if items == [] then [] else ItemCallIds(items[..|items| - 1]) + CallIdOf(items[|items| - 1])
  }

  function ItemResultIds(items: seq<InputItem>): seq<string> {
    if items == [] then [] else ItemResultIds(items[..|items| - 1]) + ResultIdOf(items[|items| - 1])
  }

  lemma {:induction false} ProducedTraffic(items: seq<InputItem>)
    requires !AnyRefused(items)
    ensures CallIds(ProducedBy(items)) == ItemCallIds(items)
    ensures ResultIds(ProducedBy(items)) == ItemResultIds(items)
    ensures CallsOnAssistants(ProducedBy(items))
  {
    if items != [] {
      ProducedTraffic(items[..|items| - 1]);
      ItemTraffic(ProducedBy(items[..|items| - 1]), items[|items| - 1]);
    }
  }

  lemma ItemTraffic(before: seq<Message>, it: InputItem)
    requires !MessageFromItem(it).Refused? && CallsOnAssistants(before)
    ensures CallIds(before + MessagesOf(MessageFromItem(it))) == CallIds(before) + CallIdOf(it)
    ensures ResultIds(before + MessagesOf(MessageFromItem(it))) == ResultIds(before) + ResultIdOf(it)
    ensures CallsOnAssistants(before + MessagesOf(MessageFromItem(it)))
  {
    var r := MessageFromItem(it);
    if r.Produces? {
      TrafficSnoc(before, r.message);
      MessageTraffic(it);
    } else {
      assert before + [] == before && CallIds(before) + [] == CallIds(before) && ResultIds(before) + [] == ResultIds(before);
    }
  }

  lemma MessageTraffic(it: InputItem)
    requires MessageFromItem(it).Produces?
    ensures IdsOf(MessageFromItem(it).message.calls) == CallIdOf(it) && ResultId(MessageFromItem(it).message) == ResultIdOf(it)
  {}

  lemma IdsAppend(a: seq<ChatCall>, b: seq<ChatCall>)
    ensures IdsOf(a + b) == IdsOf(a) + IdsOf(b)
  {}

  lemma JoinTraffic(init: seq<Message>, last: Message, calls: seq<ChatCall>)
    ensures var joined := last.(calls := last.calls + calls);
      CallIds(init + [joined]) == CallIds(init + [last]) + IdsOf(calls) && ResultIds(init + [joined]) == ResultIds(init + [last])
  {
    var joined := last.(calls := last.calls + calls);
    TrafficSnoc(init, last);
    TrafficSnoc(init, joined);
    IdsAppend(last.calls, calls);
    AppendAssociates(CallIds(init), IdsOf(last.calls), IdsOf(calls));
  }

  lemma PushKeepsTraffic(out: seq<Message>, m: Message)
    requires CallsOnAssistants(out) && CallsOnAssistant(m)
    ensures CallIds(Push(out, m)) == CallIds(out) + IdsOf(m.calls)
    ensures ResultIds(Push(out, m)) == ResultIds(out) + ResultId(m)
    ensures CallsOnAssistants(Push(out, m))
  {
    var n := |out|;
    if n > 0 && m.calls != [] && out[n - 1].role == "assistant" && out[n - 1].answers == "" {
      var joined := out[n - 1].(calls := out[n - 1].calls + m.calls);
      assert out == out[..n - 1] + [out[n - 1]] && Push(out, m) == out[..n - 1] + [joined];
      JoinTraffic(out[..n - 1], out[n - 1], m.calls);
      assert ResultIds(out) + [] == ResultIds(out);
    } else {
      TrafficSnoc(out, m);
    }
  }

  lemma {:induction false} FoldKeepsTraffic(ms: seq<Message>)
    requires CallsOnAssistants(ms)
    ensures CallIds(Folded(ms)) == CallIds(ms)
    ensures ResultIds(Folded(ms)) == ResultIds(ms)
    ensures CallsOnAssistants(Folded(ms))
  {
    if ms != [] {
      FoldKeepsTraffic(ms[..|ms| - 1]);
      assert CallsOnAssistant(ms[|ms| - 1]);
      PushKeepsTraffic(Folded(ms[..|ms| - 1]), ms[|ms| - 1]);
      assert ms == ms[..|ms| - 1] + [ms[|ms| - 1]];
      TrafficSnoc(ms[..|ms| - 1], ms[|ms| - 1]);
    }
  }

  /** A message item may claim to be a tool's, and then answers no call. */
  predicate ToolMessage(it: InputItem) {
    KindOf(it) == "message" && it.role == "tool"
  }

  predicate AnyToolMessage(items: seq<InputItem>) {
    items != [] && (AnyToolMessage(items[..|items| - 1]) || ToolMessage(items[|items| - 1]))
  }

  lemma ItemAnchors(before: seq<Message>, it: InputItem)
    requires !MessageFromItem(it).Refused?
    ensures AnyUnanchored(before + MessagesOf(MessageFromItem(it))) == (AnyUnanchored(before) || ToolMessage(it))
  {
    var r := MessageFromItem(it);
    if r.Produces? {
      AnswersSnoc(before, r.message);
    } else {
      assert before + [] == before;
    }
  }

  lemma {:induction false} ProducedAnchors(start: seq<Message>, items: seq<InputItem>)
    requires !AnyRefused(items) && !AnyUnanchored(start)
    ensures AnyUnanchored(start + ProducedBy(items)) <==> AnyToolMessage(items)
  {
    if items == [] {
      assert start + [] == start;
    } else {
      var n := |items| - 1;
      ProducedAnchors(start, items[..n]);
      ItemAnchors(start + ProducedBy(items[..n]), items[n]);
      AppendAssociates(start, ProducedBy(items[..n]), MessagesOf(MessageFromItem(items[n])));
    }
  }

  lemma PushAnchors(out: seq<Message>, m: Message)
    requires CallsOnAssistant(m)
    ensures AnyUnanchored(Push(out, m)) == (AnyUnanchored(out) || Unanchored(m))
  {
    var n := |out|;
    if n > 0 && m.calls != [] && out[n - 1].role == "assistant" && out[n - 1].answers == "" {
      var joined := out[n - 1].(calls := out[n - 1].calls + m.calls);
      assert out == out[..n - 1] + [out[n - 1]] && Push(out, m) == out[..n - 1] + [joined];
      AnswersSnoc(out[..n - 1], out[n - 1]);
      AnswersSnoc(out[..n - 1], joined);
    } else {
      AnswersSnoc(out, m);
    }
  }

  lemma {:induction false} FoldAnchors(ms: seq<Message>)
    requires CallsOnAssistants(ms)
    ensures AnyUnanchored(Folded(ms)) == AnyUnanchored(ms)
  {
    if ms != [] {
      FoldAnchors(ms[..|ms| - 1]);
      assert CallsOnAssistant(ms[|ms| - 1]);
      PushAnchors(Folded(ms[..|ms| - 1]), ms[|ms| - 1]);
    }
  }

  // ---- calls and the messages before them ----

  /** A message with tool calls directly after an assistant message. */
  ghost predicate Clashes(ms: seq<Message>) {
    exists i :: 0 < i < |ms| && ClashAt(ms[i - 1], ms[i])
  }

  predicate ClashAt(a: Message, b: Message) {
    a.role == "assistant" && b.calls != []
  }

  /** Among the produced messages: an assistant one, then an assistant text, then a call. */
  ghost predicate TextThenCall(ms: seq<Message>) {
    exists i :: 1 < i < |ms| && TextThenCallAt(ms[i - 2], ms[i - 1], ms[i])
  }

  predicate TextThenCallAt(x: Message, y: Message, z: Message) {
    x.role == "assistant" && y.role == "assistant" && y.calls == [] && z.calls != []
  }

  lemma ClashSnoc(ms: seq<Message>, m: Message)
    ensures Clashes(ms + [m]) <==> Clashes(ms) || (ms != [] && ClashAt(ms[|ms| - 1], m))
  {
    var all := ms + [m];
    if Clashes(ms) {
      var i :| 0 < i < |ms| && ClashAt(ms[i - 1], ms[i]);
      assert ClashAt(all[i - 1], all[i]);
    }
    if ms != [] && ClashAt(ms[|ms| - 1], m) {
      assert ClashAt(all[|ms| - 1], all[|ms|]);
    }
    if Clashes(all) {
      var i :| 0 < i < |all| && ClashAt(all[i - 1], all[i]);
      assert i < |ms| ==> ClashAt(ms[i - 1], ms[i]);
    }
  }

  lemma TextThenCallSnoc(ms: seq<Message>, m: Message)
    ensures TextThenCall(ms + [m]) <==>
      TextThenCall(ms) || (|ms| > 1 && TextThenCallAt(ms[|ms| - 2], ms[|ms| - 1], m))
  {
    var all := ms + [m];
    if TextThenCall(ms) {
      var i :| 1 < i < |ms| && TextThenCallAt(ms[i - 2], ms[i - 1], ms[i]);
      assert TextThenCallAt(all[i - 2], all[i - 1], all[i]);
    }
    if |ms| > 1 && TextThenCallAt(ms[|ms| - 2], ms[|ms| - 1], m) {
      assert TextThenCallAt(all[|ms| - 2], all[|ms| - 1], all[|ms|]);
    }
    if TextThenCall(all) {
      var i :| 1 < i < |all| && TextThenCallAt(all[i - 2], all[i - 1], all[i]);
      assert i < |ms| ==> TextThenCallAt(ms[i - 2], ms[i - 1], ms[i]);
    }
  }

  /** The last message folded shows through in the last message of the result. */
  lemma LastFolded(ms: seq<Message>)
    requires ms != [] && CallsOnAssistants(ms)
    ensures var out, m := Folded(ms), ms[|ms| - 1];
      && out != [] && out[|out| - 1].role == m.role
      && (out[|out| - 1].calls == [] <==> m.calls == [])
      && (m.role == "assistant" ==> out[|out| - 1].answers == "")
      && (m.calls == [] ==> out == Folded(ms[..|ms| - 1]) + [m])
  {
    assert CallsOnAssistant(ms[|ms| - 1]);
  }

  /** Whether one more message brings a clash, seen from the transcript. */
  lemma PushClashes(out: seq<Message>, m: Message)
    requires out != [] && CallsOnAssistants(out) && CallsOnAssistant(m)
    ensures Clashes(Push(out, m)) <==>
      Clashes(out) || (m.calls != [] && out[|out| - 1].role == "assistant" && |out| > 1 && out[|out| - 2].role == "assistant")
  {
    var n := |out| - 1;
    assert CallsOnAssistant(out[n]);
    ClashSnoc(out, m);
    if m.calls != [] && out[n].role == "assistant" {
      var joined := out[n].(calls := out[n].calls + m.calls);
      assert out == out[..n] + [out[n]] && Push(out, m) == out[..n] + [joined];
      ClashSnoc(out[..n], out[n]);
      ClashSnoc(out[..n], joined);
    }
  }

  /** Seen from the produced messages: the last two of the transcript show the last two folded, unless a call joined. */
  lemma LastTwo(ms: seq<Message>)
    requires ms != [] && CallsOnAssistants(ms) && ms[|ms| - 1].calls == []
    ensures |Folded(ms)| > 1 <==> |ms| > 1
    ensures |ms| > 1 ==> Folded(ms)[|Folded(ms)| - 2].role == ms[|ms| - 2].role
  {
    LastFolded(ms);
    if |ms| > 1 {
      LastFolded(ms[..|ms| - 1]);
    }
  }

  /**
   A tool-calling message follows an assistant message in the transcript exactly where an assistant
   text stands between an assistant message or call and a later call.
   */
  lemma {:induction false} ClashesExactly(ms: seq<Message>)
    requires CallsOnAssistants(ms)
    ensures Clashes(Folded(ms)) <==> TextThenCall(ms)
  {
    if |ms| > 1 {
      var before, m := ms[..|ms| - 1], ms[|ms| - 1];
      assert ms == before + [m];
      ClashesExactly(before);
      TextThenCallSnoc(before, m);
      LastFolded(before);
      FoldKeepsTraffic(before);
      PushClashes(Folded(before), m);
      EndsInClash(before, m);
    }
  }

  lemma EndsInClash(before: seq<Message>, m: Message)
    requires before != [] && CallsOnAssistants(before) && CallsOnAssistant(m)
    requires Clashes(Folded(before)) <==> TextThenCall(before)
    ensures var out := Folded(before);
      out != [] &&
      ((TextThenCall(before) || (|before| > 1 && TextThenCallAt(before[|before| - 2], before[|before| - 1], m))) <==>
      (Clashes(out) || (m.calls != [] && out[|out| - 1].role == "assistant" && |out| > 1 && out[|out| - 2].role == "assistant")))
  {
    var out := Folded(before);
    LastFolded(before);
    if before[|before| - 1].calls == [] {
      LastTwo(before);
    } else {
      ClashSnoc(out[..|out| - 1], out[|out| - 1]);
      assert out == out[..|out| - 1] + [out[|out| - 1]];
    }
  }

  /** The pattern occurs: two assistant texts and a call. */
  lemma ClashOccurs()
    ensures
      var a, b, c := Message("assistant", "a", [], ""), Message("assistant", "b", [], ""),
                     Message("assistant", "", [ChatCall("1", "f", "{}")], "");
      Folded([a, b, c]) == [a, b.(calls := c.calls)] && Clashes(Folded([a, b, c]))
  {
    var a, b, c := Message("assistant", "a", [], ""), Message("assistant", "b", [], ""),
                   Message("assistant", "", [ChatCall("1", "f", "{}")], "");
    SnocParts([a, b], c);
    SnocParts([a], b);
    SnocParts([], a);
    assert [] + [a] == [a] && [a] + [b] == [a, b] && [a, b] + [c] == [a, b, c];
    assert Folded([a]) == [a];
    assert Folded([a, b]) == Push([a], b) == [a, b];
    assert b.calls + c.calls == c.calls;
    assert Folded([a, b, c]) == Push([a, b], c) == [a, b.(calls := c.calls)];
    assert TextThenCallAt([a, b, c][0], [a, b, c][1], [a, b, c][2]);
    ClashesExactly([a, b, c]);
  }

  // ---- a run of calls and its results ----

  function AllCalls(ms: seq<Message>): seq<ChatCall> {
    if ms == [] then [] else AllCalls(ms[..|ms| - 1]) + ms[|ms| - 1].calls
  }

  /** A run of calls ends up on one message, after whatever calls that message already had. */
  lemma {:induction false} CallsGather(pre: seq<Message>, calls: seq<Message>) returns (head: seq<Message>, more: seq<ChatCall>, caller: Message)
    requires CallsOnAssistants(pre) && calls != []
    requires forall m :: m in calls ==> CallsOnAssistant(m) && m.calls != []
    ensures Folded(pre + calls) == head + [caller]
    ensures caller.role == "assistant" && caller.answers == "" && caller.calls == more + AllCalls(calls)
  {
    var n := |calls| - 1;
    var rest, last := calls[..n], calls[n];
    assert pre + calls == (pre + rest) + [last] && last in calls;
    SnocParts(pre + rest, last);
    if n == 0 {
      assert rest == [] && pre + rest == pre && AllCalls(calls) == last.calls;
      var out := Folded(pre);
      if out != [] && out[|out| - 1].role == "assistant" && out[|out| - 1].answers == "" {
        head, more := out[..|out| - 1], out[|out| - 1].calls;
        caller := out[|out| - 1].(calls := more + last.calls);
      } else {
        head, more, caller := out, [], last;
      }
    } else {
      head, more, caller := CallsGather(pre, rest);
      AppendAssociates(more, AllCalls(rest), last.calls);
      caller := caller.(calls := caller.calls + last.calls);
    }
  }

  lemma {:induction false} ResultsFollow(ms: seq<Message>, results: seq<Message>)
    requires forall m :: m in results ==> m.calls == []
    ensures Folded(ms + results) == Folded(ms) + results
  {
    if results == [] {
      assert ms + [] == ms && Folded(ms) + [] == Folded(ms);
    } else {
      var n := |results| - 1;
      assert results[n] in results && ms + results == (ms + results[..n]) + [results[n]];
      SnocParts(ms + results[..n], results[n]);
      ResultsFollow(ms, results[..n]);
      assert Folded(ms) + results == (Folded(ms) + results[..n]) + [results[n]];
    }
  }

  /** What ends in a message that cannot take calls is never touched again. */
  lemma {:induction false} PrefixStays(ms: seq<Message>, post: seq<Message>)
    requires Folded(ms) != [] && Folded(ms)[|Folded(ms)| - 1].role != "assistant"
    ensures Folded(ms) <= Folded(ms + post)
    ensures post == [] ==> Folded(ms + post) == Folded(ms)
  {
    if post == [] {
      assert ms + post == ms;
    } else {
      var n := |post| - 1;
      assert ms + post == (ms + post[..n]) + [post[n]];
      SnocParts(ms + post[..n], post[n]);
      PrefixStays(ms, post[..n]);
    }
  }

  lemma RestOf<T>(a: seq<T>, b: seq<T>) returns (rest: seq<T>)
    requires a <= b
    ensures b == a + rest
  {
    rest := b[|a|..];
  }

  /** Calls directly followed by their results stay so: one message carries them all, and the results come next. */
  lemma RunStaysTogether(pre: seq<Message>, calls: seq<Message>, results: seq<Message>, post: seq<Message>)
    returns (head: seq<Message>, more: seq<ChatCall>, caller: Message, tail: seq<Message>)
    requires CallsOnAssistants(pre) && calls != [] && results != []
    requires forall m :: m in calls ==> CallsOnAssistant(m) && m.calls != []
    requires forall m :: m in results ==> m.role == "tool" && m.calls == []
    ensures Folded(pre + calls + results + post) == head + [caller] + results + tail
    ensures caller.role == "assistant" && caller.answers == "" && caller.calls == more + AllCalls(calls)
  {
    head, more, caller := CallsGather(pre, calls);
    ResultsFollow(pre + calls, results);
    var out := Folded(pre + calls + results);
    assert out[|out| - 1] == results[|results| - 1] && results[|results| - 1] in results;
    PrefixStays(pre + calls + results, post);
    tail := RestOf(out, Folded(pre + calls + results + post));
  }

  // ---- what an item says ----

  /** Instructions come first, as the system's, trimmed; blank ones not at all. */
  lemma StartSays(instructions: string)
    ensures Trim(instructions) == "" ==> Start(instructions) == []
    ensures Trim(instructions) != "" ==> Start(instructions) == [Message("system", Trim(instructions), [], "")]
  {}

  /** A message item says its text as its role, the user's if it names none; a kind left out means a message. */
  lemma MessageItemSays(it: InputItem)
    requires it.kind == "message" || (it.kind == "" && it.role != "")
    ensures MessageFromItem(it).Produces?
    ensures var m := MessageFromItem(it).message;
      m.content == it.text && m.role == (if it.role != "" then it.role else "user") && m.calls == [] && m.answers == ""
  {}

  /** A call item is the assistant's one call, and a result item the tool's answer to one. */
  lemma ToolItemsSay(it: InputItem)
    requires it.callId != ""
    ensures it.kind == "function_call" ==>
      MessageFromItem(it) == Produces(Message("assistant", "", [ChatCall(it.callId, it.name, it.arguments)], ""))
    ensures it.kind == "function_call_output" ==> MessageFromItem(it) == Produces(Message("tool", it.output, [], it.callId))
  {}

  /** Calls and results without an id are refused; any other kind, and an item without kind or role, is passed over. */
  lemma OtherItems(it: InputItem)
    ensures MessageFromItem(it).Refused? <==> it.callId == "" && it.kind in {"function_call", "function_call_output"}
    ensures MessageFromItem(it).Silent? <==>
      (it.kind == "" && it.role == "") || it.kind !in {"", "message", "function_call", "function_call_output"}
  {}

  /** The texts of a transcript with who says them, calls' own empty ones apart. */
  function TextsOf(ms: seq<Message>): seq<(string, string)> {
    if ms == [] then []
    else TextsOf(ms[..|ms| - 1]) + (if ms[|ms| - 1].content != "" then [(ms[|ms| - 1].role, ms[|ms| - 1].content)] else [])
  }

  lemma PushKeepsTexts(out: seq<Message>, m: Message)
    requires m.calls != [] ==> m.content == ""
    ensures TextsOf(Push(out, m)) == TextsOf(out) + (if m.content != "" then [(m.role, m.content)] else [])
  {
    var n := |out|;
    if n > 0 && m.calls != [] && out[n - 1].role == "assistant" && out[n - 1].answers == "" {
      var joined := out[n - 1].(calls := out[n - 1].calls + m.calls);
      assert Push(out, m) == out[..n - 1] + [joined] && out == out[..n - 1] + [out[n - 1]];
      SnocParts(out[..n - 1], joined);
      assert TextsOf(out) + [] == TextsOf(out);
    } else {
      SnocParts(out, m);
    }
  }

  /** Joining calls to the message before them loses, adds and moves no text. */
  lemma {:induction false} FoldKeepsTexts(ms: seq<Message>)
    requires forall m :: m in ms && m.calls != [] ==> m.content == ""
    ensures TextsOf(Folded(ms)) == TextsOf(ms)
  {
    if ms != [] {
      var before, m := ms[..|ms| - 1], ms[|ms| - 1];
      assert m in ms;
      FoldKeepsTexts(before);
      PushKeepsTexts(Folded(before), m);
    }
  }

  /** The calls of a transcript, whole. */
  lemma {:induction false} FoldKeepsCalls(ms: seq<Message>)
    ensures AllCalls(Folded(ms)) == AllCalls(ms)
  {
    if ms != [] {
      var before, m := ms[..|ms| - 1], ms[|ms| - 1];
      FoldKeepsCalls(before);
      PushKeepsCalls(Folded(before), m);
    }
  }

  lemma PushKeepsCalls(out: seq<Message>, m: Message)
    ensures AllCalls(Push(out, m)) == AllCalls(out) + m.calls
  {
    var n := |out|;
    if n > 0 && m.calls != [] && out[n - 1].role == "assistant" && out[n - 1].answers == "" {
      var joined := out[n - 1].(calls := out[n - 1].calls + m.calls);
      assert Push(out, m) == out[..n - 1] + [joined] && out == out[..n - 1] + [out[n - 1]];
      SnocParts(out[..n - 1], joined);
      AppendAssociates(AllCalls(out[..n - 1]), out[n - 1].calls, m.calls);
    } else {
      SnocParts(out, m);
    }
  }
}

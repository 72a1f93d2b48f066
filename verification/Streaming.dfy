/**
 The streaming half of the Responses surface: a chat stream comes in chunk by chunk, framed events
 go out. The class keeps the running transcript the source keeps; `seen` is the list of fragments
 it has been given, and Valid() says every field is what that list determines.
 */
module Streaming {
  import opened Sequences
  import opened Responses

  datatype ToolCall = ToolCall(index: Option<int>, id: string, name: string, arguments: string)

  datatype Delta = Delta(role: string, content: string, toolCalls: seq<ToolCall>)

  /** One chat chunk; a choice without a delta is None. */
  datatype Chunk = Chunk(model: string, usage: Option<Usage>, choices: seq<Option<Delta>>)

  datatype ToolStream = ToolStream(itemId: ItemId, callId: CallId, name: string, arguments: string, index: nat)

  datatype Sent = Sent(seqNo: nat, event: Event)

  // ---- the fragments a chunk carries ----

  /** A call fragment without an index is numbered by its position in the delta. */
  function KeyOf(position: nat, tc: ToolCall): int {
    if tc.index.Some? then tc.index.value else position
  }

  function CallFragment(position: nat, tc: ToolCall): Fragment {
    CallPiece(KeyOf(position, tc), tc.id, tc.name, tc.arguments)
  }

  function NumberOf(tc: ToolCall, position: nat): int {
    match tc.index
    case Some(i) => i
    case None => position
  }

  predicate SameCall(f: Fragment, tc: ToolCall) {
    f.CallPiece? && f.id == tc.id && f.name == tc.name && f.arguments == tc.arguments
  }

  /** A provider that numbers its calls is taken at its word; one that does not has them numbered as they come in the delta. */
  lemma {:induction false} CallsNumbered(calls: seq<ToolCall>)
    ensures |CallFragments(calls)| == |calls|
    ensures forall k :: 0 <= k < |calls| ==> CallFragments(calls)[k].CallPiece? && CallFragments(calls)[k].key == NumberOf(calls[k], k)
    ensures forall k :: 0 <= k < |calls| ==> SameCall(CallFragments(calls)[k], calls[k])
  {
    if calls != [] {
      CallsNumbered(calls[..|calls| - 1]);
    }
  }

  function CallFragments(calls: seq<ToolCall>): seq<Fragment> {
    if calls == [] then []
    else CallFragments(calls[..|calls| - 1]) + [CallFragment(|calls| - 1, calls[|calls| - 1])]
  }

  function DeltaFragments(d: Option<Delta>): seq<Fragment> {
    if d.None? then []
    else (if d.value.content != "" then [TextPiece(d.value.content)] else []) + CallFragments(d.value.toolCalls)
  }

  function ChoiceFragments(choices: seq<Option<Delta>>): seq<Fragment> {
    if choices == [] then []
    else ChoiceFragments(choices[..|choices| - 1]) + DeltaFragments(choices[|choices| - 1])
  }

  function FragmentsOf(chunks: seq<Chunk>): seq<Fragment> {
    if chunks == [] then []
    else FragmentsOf(chunks[..|chunks| - 1]) + ChoiceFragments(chunks[|chunks| - 1].choices)
  }

  /** The roles a stream states, in order. */
  function RolesOf(chunks: seq<Chunk>): seq<string> {
    if chunks == [] then [] else RolesOf(chunks[..|chunks| - 1]) + ChoiceRoles(chunks[|chunks| - 1].choices)
  }

  function ChoiceRoles(choices: seq<Option<Delta>>): seq<string> {
    if choices == [] then []
    else
      var last := choices[|choices| - 1];
      ChoiceRoles(choices[..|choices| - 1]) + (if last.Some? && last.value.role != "" then [last.value.role] else [])
  }

  /** The last usage any chunk reported. */
  function UsageOf(chunks: seq<Chunk>): Option<Usage> {
    if chunks == [] then None
    else if chunks[|chunks| - 1].usage.Some? then chunks[|chunks| - 1].usage
    else UsageOf(chunks[..|chunks| - 1])
  }

  /** The model reported: the first chunk's own, else the one asked for. */
  function ModelOf(requested: string, chunks: seq<Chunk>): string {
    if chunks != [] && chunks[0].model != "" then chunks[0].model else requested
  }

  /** A delta says its text, unless it is empty, and then its calls. */
  lemma DeltaSays(role: string, content: string, calls: seq<ToolCall>)
    ensures content == "" ==> DeltaFragments(Some(Delta(role, content, calls))) == CallFragments(calls)
    ensures content != "" ==> DeltaFragments(Some(Delta(role, content, calls))) == [TextPiece(content)] + CallFragments(calls)
  {}

  function ChoicesSay(c: Chunk): seq<Fragment> {
    Concat(Map(DeltaFragments, c.choices))
  }

  lemma {:induction false} ChoicesAre(choices: seq<Option<Delta>>)
    ensures ChoiceFragments(choices) == Concat(Map(DeltaFragments, choices))
  {
    if choices != [] {
      var n := |choices| - 1;
      ChoicesAre(choices[..n]);
      assert choices == choices[..n] + [choices[n]];
      MapSnoc(DeltaFragments, choices[..n], choices[n]);
      SnocParts(Map(DeltaFragments, choices[..n]), DeltaFragments(choices[n]));
    }
  }

  /** A stream says what the deltas of all its choices say, chunk by chunk. */
  lemma {:induction false} ChunksSay(chunks: seq<Chunk>)
    ensures FragmentsOf(chunks) == Concat(Map(ChoicesSay, chunks))
  {
    if chunks != [] {
      var n := |chunks| - 1;
      ChunksSay(chunks[..n]);
      ChoicesAre(chunks[n].choices);
      assert chunks == chunks[..n] + [chunks[n]];
      MapSnoc(ChoicesSay, chunks[..n], chunks[n]);
      SnocParts(Map(ChoicesSay, chunks[..n]), ChoicesSay(chunks[n]));
    }
  }

  /** The model reported is what the first chunk says it is, or else the one asked for. */
  lemma FirstModelCounts(requested: string, first: Chunk, rest: seq<Chunk>)
    ensures ModelOf(requested, []) == requested
    ensures ModelOf(requested, [first] + rest) == if first.model == "" then requested else first.model
  {}

  ghost predicate LastUsage(chunks: seq<Chunk>, i: int) {
    0 <= i < |chunks| && chunks[i].usage.Some? && forall j :: i < j < |chunks| ==> chunks[j].usage.None?
  }

  /** The usage reported is that of the last chunk that reports any. */
  lemma {:induction false} LastUsageCounts(chunks: seq<Chunk>)
    ensures UsageOf(chunks).None? <==> forall i :: 0 <= i < |chunks| ==> chunks[i].usage.None?
    ensures UsageOf(chunks).Some? ==> exists i :: LastUsage(chunks, i) && chunks[i].usage == UsageOf(chunks)
  {
    if chunks != [] {
      var n := |chunks| - 1;
      LastUsageCounts(chunks[..n]);
      if chunks[n].usage.Some? {
        assert LastUsage(chunks, n);
      } else if UsageOf(chunks[..n]).Some? {
        var i :| LastUsage(chunks[..n], i) && chunks[..n][i].usage == UsageOf(chunks[..n]);
        assert LastUsage(chunks, i);
      }
    }
  }

  function EventsOf(log: seq<Sent>): seq<Event> {
    Map((s: Sent) => s.event, log)
  }

  ghost predicate Numbered(log: seq<Sent>) {
    forall i :: 0 <= i < |log| ==> log[i].seqNo == i
  }

  /** The log sends these events, numbered from zero. */
  ghost predicate Records(log: seq<Sent>, events: seq<Event>) {
    |log| == |events| && forall i :: 0 <= i < |log| ==> log[i] == Sent(i, events[i])
  }

  lemma RecordsMeans(log: seq<Sent>, events: seq<Event>)
    requires Records(log, events)
    ensures Numbered(log) && EventsOf(log) == events
  {}

  function CallState(fs: seq<Fragment>, key: int): ToolStream
    requires CallSlot(key) in Opened(fs)
  {
    var j := Place(Opened(fs), CallSlot(key));
    ToolStream(ItemId("fc_", j), CallIdFor(IdOf(fs, key), j), NameOf(fs, key), Content(fs, CallSlot(key)), j)
  }

  ghost predicate ToolsAgree(tools: map<int, ToolStream>, toolOrder: seq<int>, fs: seq<Fragment>) {
    && toolOrder == CallKeys(Opened(fs))
    && (forall key :: key in tools <==> CallSlot(key) in Opened(fs))
    && (forall key :: key in tools ==> CallSlot(key) in Opened(fs) && tools[key] == CallState(fs, key))
  }

  ghost predicate TextAgrees(textOpen: bool, textId: ItemId, textIdx: nat, text: string, fs: seq<Fragment>) {
    && (textOpen <==> TextSlot in Opened(fs))
    && text == Content(fs, TextSlot)
    && (textOpen ==> textIdx == Place(Opened(fs), TextSlot) && textId == ItemId("msg_", textIdx))
  }

  lemma PlaceLater(slots: seq<Slot>, slot: Slot, extra: Slot)
    requires extra !in slots
    ensures slot in slots ==> Place(slots + [extra], slot) == Place(slots, slot)
    ensures Place(slots + [extra], extra) == |slots|
    ensures CallKeys(slots + [extra]) == CallKeys(slots) + (match extra case CallSlot(key) => [key] case TextSlot => [])
  {
    SnocParts(slots, extra);
  }

  /** What one more fragment does to the places and the call order. */
  lemma PlacesSnoc(fs: seq<Fragment>, f: Fragment, slot: Slot)
    requires slot in Opened(fs)
    ensures slot in Opened(fs + [f]) && Place(Opened(fs + [f]), slot) == Place(Opened(fs), slot)
  {
    FragmentSnoc(fs, f);
    if SlotOf(f) !in Opened(fs) {
      PlaceLater(Opened(fs), slot, SlotOf(f));
    }
  }

  lemma OrderSnoc(fs: seq<Fragment>, f: Fragment)
    ensures CallKeys(Opened(fs + [f])) ==
      CallKeys(Opened(fs)) + (if f.CallPiece? && CallSlot(f.key) !in Opened(fs) then [f.key] else [])
  {
    FragmentSnoc(fs, f);
    if SlotOf(f) !in Opened(fs) {
      PlaceLater(Opened(fs), SlotOf(f), SlotOf(f));
    }
  }

  lemma ContentSnoc(fs: seq<Fragment>, f: Fragment, slot: Slot)
    ensures SlotOf(f) != slot ==> Content(fs + [f], slot) == Content(fs, slot)
    ensures f.TextPiece? && slot == TextSlot ==> Content(fs + [f], slot) == Content(fs, slot) + f.text
    ensures f.CallPiece? && slot == CallSlot(f.key) ==> Content(fs + [f], slot) == Content(fs, slot) + f.arguments
  {
    FragmentSnoc(fs, f);
    var d := DeltaFor(f, slot);
    if d == [] {
      assert Deltas(fs, slot) + d == Deltas(fs, slot);
    } else {
      FlatSnoc(Deltas(fs, slot), d[0]);
      assert [d[0]] == d;
    }
  }

  lemma TextAfterCall(textOpen: bool, textId: ItemId, textIdx: nat, text: string, fs: seq<Fragment>, f: Fragment)
    requires TextAgrees(textOpen, textId, textIdx, text, fs) && f.CallPiece?
    ensures TextAgrees(textOpen, textId, textIdx, text, fs + [f])
  {
    FragmentSnoc(fs, f);
    ContentSnoc(fs, f, TextSlot);
    if TextSlot in Opened(fs) {
      PlacesSnoc(fs, f, TextSlot);
    }
  }

  /** What appendToolCall leaves in the table for the call a fragment belongs to. */
  function Updated(call: ToolStream, id: string, name: string, arguments: string): ToolStream {
    call.(callId := if id != "" then Given(id) else call.callId,
          name := if name != "" then name else call.name,
          arguments := call.arguments + arguments)
  }

  function Started(index: nat, id: string, name: string): ToolStream {
    ToolStream(ItemId("fc_", index), CallIdFor(id, index), name, "", index)
  }

  lemma CallStateSnoc(fs: seq<Fragment>, f: Fragment, key: int)
    requires CallSlot(key) in Opened(fs) && SlotOf(f) != CallSlot(key)
    ensures CallSlot(key) in Opened(fs + [f]) && CallState(fs + [f], key) == CallState(fs, key)
  {
    PlacesSnoc(fs, f, CallSlot(key));
    ContentSnoc(fs, f, CallSlot(key));
    SnocParts(fs, f);
  }

  lemma CallStateUpdated(fs: seq<Fragment>, f: Fragment)
    requires f.CallPiece? && CallSlot(f.key) in Opened(fs)
    ensures CallSlot(f.key) in Opened(fs + [f])
    ensures CallState(fs + [f], f.key) == Updated(CallState(fs, f.key), f.id, f.name, f.arguments)
  {
    PlacesSnoc(fs, f, CallSlot(f.key));
    ContentSnoc(fs, f, CallSlot(f.key));
    SnocParts(fs, f);
  }

  lemma CallStateStarted(fs: seq<Fragment>, f: Fragment)
    requires f.CallPiece? && CallSlot(f.key) !in Opened(fs)
    ensures CallSlot(f.key) in Opened(fs + [f])
    ensures CallState(fs + [f], f.key) == Updated(Started(|Opened(fs)|, f.id, f.name), f.id, f.name, f.arguments)
  {
    var slot := CallSlot(f.key);
    assert Opened(fs + [f]) == Opened(fs) + [slot] by { FragmentSnoc(fs, f); }
    PlaceLater(Opened(fs), slot, slot);
    NamesStarted(fs, f);
    assert Content(fs + [f], slot) == f.arguments by {
      ContentSnoc(fs, f, slot);
      ClosedSlotsSilent(fs, slot);
    }
  }

  lemma NamesStarted(fs: seq<Fragment>, f: Fragment)
    requires f.CallPiece? && CallSlot(f.key) !in Opened(fs)
    ensures IdOf(fs + [f], f.key) == f.id && NameOf(fs + [f], f.key) == f.name
  {
    NeverNamed(fs, f.key);
    SnocParts(fs, f);
  }

  lemma {:induction false} NeverNamed(fs: seq<Fragment>, key: int)
    requires CallSlot(key) !in Opened(fs)
    ensures IdOf(fs, key) == "" && NameOf(fs, key) == ""
  {
    if fs != [] {
      NeverNamed(fs[..|fs| - 1], key);
    }
  }

  lemma ToolsAfterText(tools: map<int, ToolStream>, toolOrder: seq<int>, fs: seq<Fragment>, text: string)
    requires ToolsAgree(tools, toolOrder, fs)
    ensures ToolsAgree(tools, toolOrder, fs + [TextPiece(text)])
  {
    var f := TextPiece(text);
    FragmentSnoc(fs, f);
    OrderSnoc(fs, f);
    forall key | key in tools ensures CallSlot(key) in Opened(fs + [f]) && tools[key] == CallState(fs + [f], key) {
      CallStateSnoc(fs, f, key);
    }
  }

  /** What the table holds for a call before its next fragment: its entry, or the one just started. */
  function EntryFor(tools: map<int, ToolStream>, fs: seq<Fragment>, f: Fragment): ToolStream
    requires f.CallPiece?
  {
    if f.key in tools then tools[f.key] else Started(|Opened(fs)|, f.id, f.name)
  }

  lemma ToolsAfterCall(tools: map<int, ToolStream>, toolOrder: seq<int>, fs: seq<Fragment>, f: Fragment)
    requires ToolsAgree(tools, toolOrder, fs) && f.CallPiece?
    ensures ToolsAgree(tools[f.key := Updated(EntryFor(tools, fs, f), f.id, f.name, f.arguments)],
                       if f.key in tools then toolOrder else toolOrder + [f.key], fs + [f])
  {
    FragmentSnoc(fs, f);
    OrderSnoc(fs, f);
    var after := tools[f.key := Updated(EntryFor(tools, fs, f), f.id, f.name, f.arguments)];
    forall key | key in after ensures CallSlot(key) in Opened(fs + [f]) && after[key] == CallState(fs + [f], key) {
      if key != f.key {
        CallStateSnoc(fs, f, key);
      } else if f.key in tools {
        CallStateUpdated(fs, f);
      } else {
        CallStateStarted(fs, f);
      }
    }
  }

  lemma TextAfterText(textOpen: bool, textId: ItemId, textIdx: nat, text: string, fs: seq<Fragment>, piece: string)
    requires TextAgrees(textOpen, textId, textIdx, text, fs)
    ensures
      var idx := if textOpen then textIdx else |Opened(fs)|;
      TextAgrees(true, ItemId("msg_", idx), idx, text + piece, fs + [TextPiece(piece)])
  {
    var f := TextPiece(piece);
    FragmentSnoc(fs, f);
    ContentSnoc(fs, f, TextSlot);
    if textOpen {
      PlacesSnoc(fs, f, TextSlot);
    } else {
      PlaceLater(Opened(fs), TextSlot, TextSlot);
    }
  }

  lemma OpenedSnoc(fs: seq<Fragment>, f: Fragment)
    ensures |Opened(fs + [f])| == |Opened(fs)| + (if SlotOf(f) in Opened(fs) then 0 else 1)
  {
    FragmentSnoc(fs, f);
  }

  /** A log that holds what the fragments call for. */
  ghost predicate LogAgrees(es: seq<Event>, started: bool, opening: Body, fs: seq<Fragment>) {
    if started then es == Opening(opening) + Frames(fs) else es == [] && fs == []
  }

  lemma LogAfter(es: seq<Event>, more: seq<Event>, opening: Body, fs: seq<Fragment>, f: Fragment)
    requires LogAgrees(es, true, opening, fs) && more == Frame(fs, f)
    ensures LogAgrees(es + more, true, opening, fs + [f])
  {
    FragmentSnoc(fs, f);
    AppendAssociates(Opening(opening), Frames(fs), Frame(fs, f));
  }

  /** The frame of a text piece, in terms of the stream's own fields. */
  lemma TextFrame(fs: seq<Fragment>, piece: string, idx: nat)
    requires idx == if TextSlot in Opened(fs) then Place(Opened(fs), TextSlot) else |Opened(fs)|
    ensures Frame(fs, TextPiece(piece)) == (if TextSlot in Opened(fs) then [] else TextOpening(idx)) + [TextDelta(idx, ItemId("msg_", idx), piece)]
  {}

  function TextOpening(idx: nat): seq<Event> {
    [ItemAdded(idx, MessageItem(ItemId("msg_", idx), "in_progress", "")), PartAdded(idx, ItemId("msg_", idx))]
  }

  lemma CallFrame(fs: seq<Fragment>, f: Fragment, call: ToolStream)
    requires f.CallPiece? && call.itemId == ItemId("fc_", call.index)
    requires if CallSlot(f.key) in Opened(fs) then call.index == Place(Opened(fs), CallSlot(f.key)) else call == Started(|Opened(fs)|, f.id, f.name)
    ensures Frame(fs, f) == (if CallSlot(f.key) in Opened(fs) then [] else [CallOpening(call)]) + ArgumentEvents(call, f.arguments)
  {}

  function CallOpening(call: ToolStream): Event {
    ItemAdded(call.index, CallItem(call.itemId, "in_progress", call.callId, call.name, ""))
  }

  function ArgumentEvents(call: ToolStream, arguments: string): seq<Event> {
    if arguments != "" then [ArgumentsDelta(call.index, call.itemId, arguments)] else []
  }

  /** The closing events of a call already in the table. */
  function CallClosing(call: ToolStream): seq<Event> {
    [ArgumentsDone(call.index, call.itemId, call.arguments), ItemDone(call.index, CallDone(call))]
  }

  function CallDone(call: ToolStream): Item {
    CallItem(call.itemId, "completed", call.callId, call.name, call.arguments)
  }

  /** The fields that grow with the stream. */
  datatype Transcript = Transcript(
    textId: ItemId, textIdx: nat, textOpen: bool, text: string,
    tools: map<int, ToolStream>, toolOrder: seq<int>, nextIdx: nat)

  /** The fields and the log are what the fragments received so far determine. */
  ghost predicate Agrees(t: Transcript, es: seq<Event>, started: bool, opening: Body, fs: seq<Fragment>) {
    match t
    case Transcript(textId, textIdx, textOpen, text, tools, toolOrder, nextIdx) =>
      && LogAgrees(es, started, opening, fs)
      && TextAgrees(textOpen, textId, textIdx, text, fs)
      && ToolsAgree(tools, toolOrder, fs)
      && nextIdx == |Opened(fs)|
  }

  function TextAdded(t: Transcript, piece: string): Transcript {
    var idx := if t.textOpen then t.textIdx else t.nextIdx;
    t.(textId := if t.textOpen then t.textId else ItemId("msg_", idx), textIdx := idx, textOpen := true, text := t.text + piece,
       nextIdx := if t.textOpen then t.nextIdx else t.nextIdx + 1)
  }

  function TextEvents(t: Transcript, piece: string): seq<Event> {
    var idx := TextAdded(t, piece).textIdx;
    (if t.textOpen then [] else TextOpening(idx)) + [TextDelta(idx, TextAdded(t, piece).textId, piece)]
  }

  lemma TextStep(t: Transcript, es: seq<Event>, opening: Body, fs: seq<Fragment>, piece: string)
    requires Agrees(t, es, true, opening, fs)
    ensures Agrees(TextAdded(t, piece), es + TextEvents(t, piece), true, opening, fs + [TextPiece(piece)])
  {
    var f := TextPiece(piece);
    OpenedSnoc(fs, f);
    TextAfterText(t.textOpen, t.textId, t.textIdx, t.text, fs, piece);
    ToolsAfterText(t.tools, t.toolOrder, fs, piece);
    TextFrame(fs, piece, TextAdded(t, piece).textIdx);
    LogAfter(es, TextEvents(t, piece), opening, fs, f);
  }

  function CallFor(t: Transcript, key: int, id: string, name: string): ToolStream {
    if key in t.tools then t.tools[key] else Started(t.nextIdx, id, name)
  }

  function CallAdded(t: Transcript, key: int, id: string, name: string, arguments: string): Transcript {
    var known := key in t.tools;
    t.(tools := t.tools[key := Updated(CallFor(t, key, id, name), id, name, arguments)],
       toolOrder := if known then t.toolOrder else t.toolOrder + [key],
       nextIdx := if known then t.nextIdx else t.nextIdx + 1)
  }

  function CallEvents(t: Transcript, key: int, id: string, name: string, arguments: string): seq<Event> {
    var call := CallFor(t, key, id, name);
    (if key in t.tools then [] else [CallOpening(call)]) + ArgumentEvents(call, arguments)
  }

  lemma CallStep(t: Transcript, es: seq<Event>, opening: Body, fs: seq<Fragment>, key: int, id: string, name: string, arguments: string)
    requires Agrees(t, es, true, opening, fs)
    ensures Agrees(CallAdded(t, key, id, name, arguments), es + CallEvents(t, key, id, name, arguments), true, opening,
                   fs + [CallPiece(key, id, name, arguments)])
  {
    var f := CallPiece(key, id, name, arguments);
    OpenedSnoc(fs, f);
    TextAfterCall(t.textOpen, t.textId, t.textIdx, t.text, fs, f);
    ToolsAfterCall(t.tools, t.toolOrder, fs, f);
    CallFrame(fs, f, CallFor(t, key, id, name));
    LogAfter(es, CallEvents(t, key, id, name, arguments), opening, fs, f);
  }

  // ---- the stream as a fold over its fragments ----

  function Blank(): Transcript {
    Transcript(ItemId("", 0), 0, false, "", map[], [], 0)
  }

  function Absorb(t: Transcript, f: Fragment): Transcript {
    match f
    case TextPiece(text) => TextAdded(t, text)
    case CallPiece(key, id, name, arguments) => CallAdded(t, key, id, name, arguments)
  }

  function EventsFor(t: Transcript, f: Fragment): seq<Event> {
    match f
    case TextPiece(text) => TextEvents(t, text)
    case CallPiece(key, id, name, arguments) => CallEvents(t, key, id, name, arguments)
  }

  function TranscriptOf(fs: seq<Fragment>): Transcript {
    if fs == [] then Blank() else Absorb(TranscriptOf(fs[..|fs| - 1]), fs[|fs| - 1])
  }

  function LogOf(opening: Body, fs: seq<Fragment>): seq<Event> {
    if fs == [] then Opening(opening)
    else LogOf(opening, fs[..|fs| - 1]) + EventsFor(TranscriptOf(fs[..|fs| - 1]), fs[|fs| - 1])
  }

  lemma FoldSnoc(opening: Body, fs: seq<Fragment>, f: Fragment)
    ensures TranscriptOf(fs + [f]) == Absorb(TranscriptOf(fs), f)
    ensures LogOf(opening, fs + [f]) == LogOf(opening, fs) + EventsFor(TranscriptOf(fs), f)
  {
    SnocParts(fs, f);
  }

  lemma FoldStep(t: Transcript, es: seq<Event>, opening: Body, fs: seq<Fragment>, f: Fragment)
    requires Agrees(t, es, true, opening, fs)
    ensures Agrees(Absorb(t, f), es + EventsFor(t, f), true, opening, fs + [f])
  {
    match f
    case TextPiece(text) => TextStep(t, es, opening, fs, text);
    case CallPiece(key, id, name, arguments) => CallStep(t, es, opening, fs, key, id, name, arguments);
  }

  /** The running fields and the log, folded fragment by fragment, are what the whole list determines. */
  lemma {:induction false} FoldAgrees(opening: Body, fs: seq<Fragment>)
    ensures Agrees(TranscriptOf(fs), LogOf(opening, fs), true, opening, fs)
  {
    if fs == [] {
      assert Opening(opening) + Frames([]) == Opening(opening);
    } else {
      var before, f := fs[..|fs| - 1], fs[|fs| - 1];
      assert fs == before + [f];
      FoldAgrees(opening, before);
      FoldStep(TranscriptOf(before), LogOf(opening, before), opening, before, f);
    }
  }

  /** What finish sends for the transcript: the message closed first, then the calls in opening order. */
  function ClosingEvents(t: Transcript): seq<Event>
    requires forall key :: key in t.toolOrder ==> key in t.tools
  {
    MessageClosing(t) + CallsClosing(t.tools, t.toolOrder)
  }

  function MessageClosing(t: Transcript): seq<Event> {
    if t.textOpen then
      [TextDone(t.textIdx, t.textId, t.text), PartDone(t.textIdx, t.textId, t.text), ItemDone(t.textIdx, MessageItem(t.textId, "completed", t.text))]
    else []
  }

  function CallsClosing(tools: map<int, ToolStream>, keys: seq<int>): seq<Event>
    requires forall key :: key in keys ==> key in tools
  {
    if keys == [] then []
    else
      var last := keys[|keys| - 1];
      assert last in keys && last in tools;
      CallsClosing(tools, keys[..|keys| - 1]) + CallClosing(tools[last])
  }

  function MessageOutput(t: Transcript): seq<Item> {
    if t.textOpen then [MessageItem(t.textId, "completed", t.text)] else []
  }

  function CallsOutput(tools: map<int, ToolStream>, keys: seq<int>): seq<Item>
    requires forall key :: key in keys ==> key in tools
  {
    if keys == [] then []
    else
      var last := keys[|keys| - 1];
      assert last in keys && last in tools;
      CallsOutput(tools, keys[..|keys| - 1]) + [CallDone(tools[last])]
  }

  lemma {:induction false} CallsClose(tools: map<int, ToolStream>, fs: seq<Fragment>, keys: seq<int>)
    requires forall key :: key in keys ==> key in tools && CallSlot(key) in Opened(fs) && tools[key] == CallState(fs, key)
    ensures CallsClosing(tools, keys) == CloseCalls(fs, keys)
    ensures CallsOutput(tools, keys) == FinalCalls(fs, keys)
  {
    if keys != [] {
      CallsClose(tools, fs, keys[..|keys| - 1]);
      var key := keys[|keys| - 1];
      assert tools[key] == CallState(fs, key);
      assert CallClosing(tools[key]) == CloseCall(fs, key);
    }
  }

  /** What finish sends and collects is what the fragments call for. */
  lemma Closes(t: Transcript, es: seq<Event>, started: bool, opening: Body, fs: seq<Fragment>)
    requires Agrees(t, es, started, opening, fs)
    ensures forall key :: key in t.toolOrder ==> key in t.tools
    ensures ClosingEvents(t) == Closing(fs)
    ensures MessageOutput(t) + CallsOutput(t.tools, t.toolOrder) == Output(fs)
  {
    CallKeysIn(Opened(fs));
    CallsClose(t.tools, fs, t.toolOrder);
  }

  lemma FinishedParts(es: seq<Event>, opening: Body, fs: seq<Fragment>, text: seq<Event>, calls: seq<Event>, final: Body)
    requires LogAgrees(es, true, opening, fs) && text + calls == Closing(fs)
    ensures es + text + calls + [Completed(final)] == FinishedLog(opening, fs, final)
  {
    AppendAssociates(es, text, calls);
    AppendAssociates(Opening(opening), Frames(fs), Closing(fs));
  }

  /** Closing everything a fold has left open completes the log the fragments call for. */
  lemma FinishedFold(opening: Body, fs: seq<Fragment>, final: Body)
    ensures var t := TranscriptOf(fs);
      && (forall key :: key in t.toolOrder ==> key in t.tools)
      && LogOf(opening, fs) + MessageClosing(t) + CallsClosing(t.tools, t.toolOrder) + [Completed(final)] == FinishedLog(opening, fs, final)
      && MessageOutput(t) + CallsOutput(t.tools, t.toolOrder) == Output(fs)
  {
    var t := TranscriptOf(fs);
    FoldAgrees(opening, fs);
    Closes(t, LogOf(opening, fs), true, opening, fs);
    FinishedParts(LogOf(opening, fs), opening, fs, MessageClosing(t), CallsClosing(t.tools, t.toolOrder), final);
  }

  lemma FailedFold(opening: Body, fs: seq<Fragment>, final: Body)
    ensures LogOf(opening, fs) + [Failed(final)] == FailedLog(opening, fs, final)
  {
    FoldAgrees(opening, fs);
  }

  /** The fragments after the first i calls of a delta. */
  function WithCalls(fs: seq<Fragment>, calls: seq<ToolCall>, i: nat): seq<Fragment>
    requires i <= |calls|
  {
    fs + CallFragments(calls[..i])
  }

  lemma WithCallsSnoc(fs: seq<Fragment>, calls: seq<ToolCall>, i: nat)
    requires i < |calls|
    ensures WithCalls(fs, calls, i + 1) == WithCalls(fs, calls, i) + [CallFragment(i, calls[i])]
  {
    assert calls[..i + 1][..i] == calls[..i];
  }

  lemma WithCallsEnds(fs: seq<Fragment>, calls: seq<ToolCall>)
    ensures WithCalls(fs, calls, 0) == fs && WithCalls(fs, calls, |calls|) == fs + CallFragments(calls)
  {
    assert calls[..|calls|] == calls;
  }

  /** The fragments after the first i choices of a chunk. */
  function WithChoices(fs: seq<Fragment>, choices: seq<Option<Delta>>, i: nat): seq<Fragment>
    requires i <= |choices|
  {
    fs + ChoiceFragments(choices[..i])
  }

  lemma WithChoicesSnoc(fs: seq<Fragment>, choices: seq<Option<Delta>>, i: nat)
    requires i < |choices|
    ensures WithChoices(fs, choices, i + 1) == WithChoices(fs, choices, i) + DeltaFragments(choices[i])
  {
    assert choices[..i + 1][..i] == choices[..i];
  }

  lemma WithChoicesEnds(fs: seq<Fragment>, choices: seq<Option<Delta>>)
    ensures WithChoices(fs, choices, 0) == fs && WithChoices(fs, choices, |choices|) == fs + ChoiceFragments(choices)
  {
    assert choices[..|choices|] == choices;
  }

  /** A stream in progress: every field is the fold of the fragments seen, and the body is still open. */
  ghost predicate Faithful(seqNo: nat, log: seq<Sent>, events: seq<Event>, t: Transcript, started: bool,
                           opening: Body, seen: seq<Fragment>, body: Body)
  {
    match body
    case Body(status, _, output, _, error) =>
      && seqNo == |log| && Records(log, events)
      && t == TranscriptOf(seen)
      && (if started then events == LogOf(opening, seen) else events == [] && seen == [])
      && status == "in_progress" && output == [] && error == None
  }

  class ResponsesStream {
    var seqNo: nat
    var started: bool
    var body: Body
    var textId: ItemId
    var textIdx: nat
    var textOpen: bool
    var text: string
    var tools: map<int, ToolStream>
    var toolOrder: seq<int>
    var nextIdx: nat
    var log: seq<Sent>
    ghost var events: seq<Event>
    ghost var opening: Body
    ghost var seen: seq<Fragment>

    function Snapshot(): Transcript
      reads this
    {
      Transcript(textId, textIdx, textOpen, text, tools, toolOrder, nextIdx)
    }

    ghost predicate Valid()
      reads this
    {
      Faithful(seqNo, log, events, Snapshot(), started, opening, seen, body)
    }

    constructor (model: string)
      ensures Valid() && !started && seen == [] && body == Body("in_progress", model, [], None, None)
    {
      seqNo, started, body := 0, false, Body("in_progress", model, [], None, None);
      textId, textIdx, textOpen, text := ItemId("", 0), 0, false, "";
      tools, toolOrder, nextIdx, log := map[], [], 0, [];
      events, opening, seen := [], Body("in_progress", model, [], None, None), [];
    }

    /** Writes one event under the next sequence number. */
    method Send(event: Event)
      requires seqNo == |log| && Records(log, events)
      modifies this`seqNo, this`log, this`events
      ensures seqNo == |log| && Records(log, events)
      ensures events == old(events) + [event]
    {
      log := log + [Sent(seqNo, event)];
      events := events + [event];
      seqNo := seqNo + 1;
    }

    /** The opening pair goes out once, with the body as it stands at that moment. */
    method Begin(model: string)
      requires Valid()
      modifies this`started, this`body, this`opening, this`seqNo, this`log, this`events
      ensures Valid() && started
      ensures old(started) ==> body == old(body) && opening == old(opening)
      ensures !old(started) ==> body == old(body).(model := if model != "" then model else old(body).model) && opening == body
    {
      if started {
        return;
      }
      started := true;
      if model != "" {
        body := body.(model := model);
      }
      opening := body;
      Send(Created(body));
      Send(InProgress(body));
    }

    /** Announces the message item under the next free index. */
    method OpenText()
      requires seqNo == |log| && Records(log, events)
      modifies this`textOpen, this`textId, this`textIdx, this`nextIdx, this`seqNo, this`log, this`events
      ensures textOpen && textIdx == old(nextIdx) && textId == ItemId("msg_", textIdx) && nextIdx == old(nextIdx) + 1
      ensures seqNo == |log| && Records(log, events)
      ensures events == old(events) + TextOpening(textIdx)
    {
      textOpen := true;
      textId := ItemId("msg_", nextIdx);
      textIdx := nextIdx;
      nextIdx := nextIdx + 1;
      Send(ItemAdded(textIdx, MessageItem(textId, "in_progress", "")));
      Send(PartAdded(textIdx, textId));
    }

    method AppendText(piece: string)
      requires seqNo == |log| && Records(log, events)
      modifies this`textOpen, this`textId, this`textIdx, this`nextIdx, this`text, this`seqNo, this`log, this`events
      ensures seqNo == |log| && Records(log, events)
      ensures Snapshot() == TextAdded(old(Snapshot()), piece)
      ensures events == old(events) + TextEvents(old(Snapshot()), piece)
    {
      if !textOpen {
        OpenText();
      }
      text := text + piece;
      Send(TextDelta(textIdx, textId, piece));
    }

    /** One text piece, seen from the fragments: the stream still is what they determine. */
    method TakeText(piece: string)
      requires Valid() && started
      modifies this`textOpen, this`textId, this`textIdx, this`nextIdx, this`text, this`seqNo, this`log, this`events, this`seen
      ensures Valid() && seen == old(seen) + [TextPiece(piece)]
    {
      FoldSnoc(opening, seen, TextPiece(piece));
      AppendText(piece);
      seen := seen + [TextPiece(piece)];
    }

    /** Announces a call under the next free index; a call without an id gets a minted one. */
    method OpenCall(idx: int, tc: ToolCall) returns (call: ToolStream)
      requires seqNo == |log| && Records(log, events)
      modifies this`toolOrder, this`nextIdx, this`seqNo, this`log, this`events
      ensures call == Started(old(nextIdx), tc.id, tc.name) && nextIdx == old(nextIdx) + 1
      ensures toolOrder == old(toolOrder) + [idx]
      ensures seqNo == |log| && Records(log, events)
      ensures events == old(events) + [CallOpening(call)]
    {
      call := ToolStream(ItemId("fc_", nextIdx), Given(tc.id), tc.name, "", nextIdx);
      if tc.id == "" {
        call := call.(callId := Minted(nextIdx));
      }
      nextIdx := nextIdx + 1;
      toolOrder := toolOrder + [idx];
      Send(ItemAdded(call.index, CallItem(call.itemId, "in_progress", call.callId, call.name, "")));
    }

    /** Folds a fragment into its call: a later id or name replaces an earlier one, arguments add up. */
    method ExtendCall(call: ToolStream, tc: ToolCall) returns (extended: ToolStream)
      requires seqNo == |log| && Records(log, events)
      modifies this`seqNo, this`log, this`events
      ensures extended == Updated(call, tc.id, tc.name, tc.arguments)
      ensures seqNo == |log| && Records(log, events)
      ensures events == old(events) + ArgumentEvents(call, tc.arguments)
    {
      extended := call;
      if tc.id != "" {
        extended := extended.(callId := Given(tc.id));
      }
      if tc.name != "" {
        extended := extended.(name := tc.name);
      }
      if tc.arguments != "" {
        extended := extended.(arguments := extended.arguments + tc.arguments);
        Send(ArgumentsDelta(call.index, call.itemId, tc.arguments));
      }
    }

    method AppendToolCall(position: nat, tc: ToolCall)
      requires seqNo == |log| && Records(log, events)
      modifies this`tools, this`toolOrder, this`nextIdx, this`seqNo, this`log, this`events
      ensures seqNo == |log| && Records(log, events)
      ensures Snapshot() == CallAdded(old(Snapshot()), KeyOf(position, tc), tc.id, tc.name, tc.arguments)
      ensures events == old(events) + CallEvents(old(Snapshot()), KeyOf(position, tc), tc.id, tc.name, tc.arguments)
    {
      var idx := position;
      if tc.index.Some? {
        idx := tc.index.value;
      }
      var call;
      if idx in tools {
        call := tools[idx];
      } else {
        call := OpenCall(idx, tc);
      }
      call := ExtendCall(call, tc);
      tools := tools[idx := call];
    }

    method TakeToolCall(position: nat, tc: ToolCall)
      requires Valid() && started
      modifies this`tools, this`toolOrder, this`nextIdx, this`seqNo, this`log, this`events, this`seen
      ensures Valid() && seen == old(seen) + [CallFragment(position, tc)]
    {
      FoldSnoc(opening, seen, CallFragment(position, tc));
      AppendToolCall(position, tc);
      seen := seen + [CallFragment(position, tc)];
    }

    method TakeToolCalls(calls: seq<ToolCall>)
      requires Valid() && started
      modifies this`tools, this`toolOrder, this`nextIdx, this`seqNo, this`log, this`events, this`seen
      ensures Valid() && seen == old(seen) + CallFragments(calls)
    {
      WithCallsEnds(seen, calls);
      for i := 0 to |calls|
        invariant Valid() && started && seen == WithCalls(old(seen), calls, i)
      {
        WithCallsSnoc(old(seen), calls, i);
        TakeToolCall(i, calls[i]);
      }
    }

    /** All of one choice: its text first, then its tool calls, numbered by position where they lack an index. */
    method TakeDelta(delta: Delta)
      requires Valid() && started
      modifies this`textOpen, this`textId, this`textIdx, this`text, this`tools, this`toolOrder, this`nextIdx
      modifies this`seqNo, this`log, this`events, this`seen
      ensures Valid() && seen == old(seen) + DeltaFragments(Some(delta))
    {
      DeltaParts(seen, delta);
      if delta.content != "" {
        TakeText(delta.content);
      }
      TakeToolCalls(delta.toolCalls);
    }

    method TakeChoice(choice: Option<Delta>)
      requires Valid() && started
      modifies this`textOpen, this`textId, this`textIdx, this`text, this`tools, this`toolOrder, this`nextIdx
      modifies this`seqNo, this`log, this`events, this`seen
      ensures Valid() && seen == old(seen) + DeltaFragments(choice)
    {
      if choice.Some? {
        TakeDelta(choice.value);
      } else {
        assert seen + [] == seen;
      }
    }

    /** The choices of a chunk in order; one without a delta is skipped. */
    method TakeChoices(choices: seq<Option<Delta>>)
      requires Valid() && started
      modifies this`textOpen, this`textId, this`textIdx, this`text, this`tools, this`toolOrder, this`nextIdx
      modifies this`seqNo, this`log, this`events, this`seen
      ensures Valid() && seen == old(seen) + ChoiceFragments(choices)
    {
      WithChoicesEnds(seen, choices);
      for i := 0 to |choices|
        invariant Valid() && started && seen == WithChoices(old(seen), choices, i)
      {
        WithChoicesSnoc(old(seen), choices, i);
        TakeChoice(choices[i]);
      }
    }

    /** Folds one chat chunk in. */
    method Consume(chunk: Chunk)
      requires Valid()
      modifies this
      ensures Valid() && started
      ensures seen == old(seen) + ChoiceFragments(chunk.choices)
      ensures body.model == if old(started) || chunk.model == "" then old(body).model else chunk.model
      ensures body.usage == if chunk.usage.Some? then chunk.usage else old(body).usage
      ensures opening == if old(started) then old(opening) else old(body).(model := body.model)
    {
      Begin(chunk.model);
      if chunk.usage.Some? {
        body := body.(usage := chunk.usage);
      }
      TakeChoices(chunk.choices);
    }

    /** Closes the message item, if there is one, and puts it in the output. */
    method CloseMessage()
      requires seqNo == |log| && Records(log, events)
      modifies this`body, this`seqNo, this`log, this`events
      ensures seqNo == |log| && Records(log, events)
      ensures events == old(events) + MessageClosing(Snapshot())
      ensures body == old(body).(output := old(body).output + MessageOutput(Snapshot()))
    {
      if textOpen {
        Send(TextDone(textIdx, textId, text));
        Send(PartDone(textIdx, textId, text));
        var item := MessageItem(textId, "completed", text);
        body := body.(output := body.output + [item]);
        Send(ItemDone(textIdx, item));
      }
    }

    /** Closes the calls in the order they opened. */
    method CloseCallItems()
      requires seqNo == |log| && Records(log, events)
      requires forall key :: key in toolOrder ==> key in tools
      modifies this`body, this`seqNo, this`log, this`events
      ensures seqNo == |log| && Records(log, events)
      ensures events == old(events) + CallsClosing(tools, toolOrder)
      ensures body == old(body).(output := old(body).output + CallsOutput(tools, toolOrder))
    {
      for i := 0 to |toolOrder|
        invariant seqNo == |log| && Records(log, events)
        invariant events == old(events) + CallsClosing(tools, toolOrder[..i])
        invariant body == old(body).(output := old(body).output + CallsOutput(tools, toolOrder[..i]))
      {
        CallsClosingSnoc(tools, toolOrder, i);
        var call := tools[toolOrder[i]];
        Send(ArgumentsDone(call.index, call.itemId, call.arguments));
        var item := CallItem(call.itemId, "completed", call.callId, call.name, call.arguments);
        body := body.(output := body.output + [item]);
        Send(ItemDone(call.index, item));
      }
      assert toolOrder[..|toolOrder|] == toolOrder;
    }

    method CloseAll()
      requires seqNo == |log| && Records(log, events) && body.output == []
      requires forall key :: key in toolOrder ==> key in tools
      modifies this`body, this`seqNo, this`log, this`events
      ensures seqNo == |log| && Records(log, events)
      ensures body == old(body).(status := "completed", output := MessageOutput(Snapshot()) + CallsOutput(tools, toolOrder))
      ensures events == old(events) + MessageClosing(Snapshot()) + CallsClosing(tools, toolOrder) + [Completed(body)]
    {
      CloseMessage();
      CloseCallItems();
      body := body.(status := "completed");
      Send(Completed(body));
    }

    /** Closes everything open and reports the whole output. */
    method Complete()
      requires Valid() && started
      modifies this`body, this`seqNo, this`log, this`events
      ensures seqNo == |log| && Records(log, events)
      ensures body == old(body).(status := "completed", output := Output(seen))
      ensures events == FinishedLog(opening, seen, body)
    {
      FinishedFold(opening, seen, body.(status := "completed", output := Output(seen)));
      CloseAll();
    }

    /** The end of a run that succeeded; one that produced nothing still gets its opening pair. */
    method Finish()
      requires Valid()
      modifies this
      ensures seqNo == |log| && Records(log, events)
      ensures opening == if old(started) then old(opening) else old(body)
      ensures body == old(body).(status := "completed", output := Output(old(seen)))
      ensures events == FinishedLog(opening, old(seen), body)
    {
      Begin(body.model);
      Complete();
    }

    /** The end of a run whose upstream broke after the response had begun. */
    method Fail(message: string)
      requires Valid() && started
      modifies this
      ensures seqNo == |log| && Records(log, events)
      ensures opening == old(opening)
      ensures body == old(body).(status := "failed", error := Some(message))
      ensures events == FailedLog(opening, old(seen), body)
    {
      body := body.(status := "failed", error := Some(message));
      FailedFold(opening, seen, body);
      Send(Failed(body));
    }
  }

  lemma DeltaParts(fs: seq<Fragment>, delta: Delta)
    ensures fs + DeltaFragments(Some(delta)) ==
      (if delta.content != "" then fs + [TextPiece(delta.content)] else fs) + CallFragments(delta.toolCalls)
  {}

  lemma CallsClosingSnoc(tools: map<int, ToolStream>, keys: seq<int>, i: nat)
    requires i < |keys| && forall key :: key in keys ==> key in tools
    ensures keys[i] in tools
    ensures forall key :: key in keys[..i] || key in keys[..i + 1] ==> key in tools
    ensures CallsClosing(tools, keys[..i + 1]) == CallsClosing(tools, keys[..i]) + CallClosing(tools[keys[i]])
    ensures CallsOutput(tools, keys[..i + 1]) == CallsOutput(tools, keys[..i]) + [CallDone(tools[keys[i]])]
  {
    var key := keys[i];
    assert key in keys && key in tools;
    assert keys[..i + 1][..i] == keys[..i];
  }

  // ---- the whole of a streamed call ----

  /** What the client gets: a plain error response, or an event stream. */
  datatype Reply = HttpError(message: string) | Streamed(log: seq<Sent>)

  function OpeningBody(requested: string, chunks: seq<Chunk>): Body {
    Body("in_progress", ModelOf(requested, chunks), [], None, None)
  }

  /** A streamed call, start to end: every chunk the chain delivers, then its verdict. */
  method StreamResponses(requested: string, chunks: seq<Chunk>, err: Option<string>) returns (reply: Reply)
    ensures reply.HttpError? <==> err.Some? && chunks == []
    ensures reply.HttpError? ==> reply.message == err.value
    ensures reply.Streamed? ==> Numbered(reply.log)
    ensures reply.Streamed? && err.Some? ==>
      EventsOf(reply.log) == FailedLog(OpeningBody(requested, chunks), FragmentsOf(chunks),
                                       Body("failed", ModelOf(requested, chunks), [], UsageOf(chunks), err))
    ensures err.None? ==>
      EventsOf(reply.log) == FinishedLog(OpeningBody(requested, chunks), FragmentsOf(chunks),
                                         Body("completed", ModelOf(requested, chunks), Output(FragmentsOf(chunks)), UsageOf(chunks), None))
  {
    var s := new ResponsesStream(requested);
    for i := 0 to |chunks|
      invariant fresh(s) && s.Valid() && (s.started <==> i > 0)
      invariant s.seen == FragmentsOf(chunks[..i])
      invariant s.body == Body("in_progress", ModelOf(requested, chunks[..i]), [], UsageOf(chunks[..i]), None)
      invariant i > 0 ==> s.opening == OpeningBody(requested, chunks[..i])
    {
      ChunksSnoc(requested, chunks, i);
      s.Consume(chunks[i]);
    }
    assert chunks[..|chunks|] == chunks;
    if err.Some? {
      if !s.started {
        return HttpError(err.value);
      }
      s.Fail(err.value);
    } else {
      s.Finish();
    }
    RecordsMeans(s.log, s.events);
    reply := Streamed(s.log);
  }

  lemma ChunksSnoc(requested: string, chunks: seq<Chunk>, i: nat)
    requires i < |chunks|
    ensures FragmentsOf(chunks[..i + 1]) == FragmentsOf(chunks[..i]) + ChoiceFragments(chunks[i].choices)
    ensures UsageOf(chunks[..i + 1]) == if chunks[i].usage.Some? then chunks[i].usage else UsageOf(chunks[..i])
    ensures ModelOf(requested, chunks[..i + 1]) ==
      if i > 0 || chunks[i].model == "" then ModelOf(requested, chunks[..i]) else chunks[i].model
  {
    assert chunks[..i + 1][..i] == chunks[..i];
  }

  /** Whatever the chunks and however the call ends, the client reads a well-formed event log. */
  lemma StreamedIsWellFormed(requested: string, chunks: seq<Chunk>, final: Body)
    ensures var fs := FragmentsOf(chunks);
      && WellFormed(FinishedLog(OpeningBody(requested, chunks), fs, final), Opened(fs), fs)
      && WellFormedUntilFailure(FailedLog(OpeningBody(requested, chunks), fs, final), Opened(fs), fs)
  {
    FinishedIsWellFormed(OpeningBody(requested, chunks), FragmentsOf(chunks), final);
    FailedIsWellFormed(OpeningBody(requested, chunks), FragmentsOf(chunks), final);
  }
}

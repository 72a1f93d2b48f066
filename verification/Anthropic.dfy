/**
 Anthropic answers, whole and streamed. A stream numbers every content block; chat numbers tool
 calls alone, so the decoder renumbers. Both forms must finish as the same output items.
 */
module Anthropic {
  import opened Sequences
  import opened Responses
  import opened Streaming
  import opened Tallies

  /** A content block of a whole answer; thinking and other kinds carry nothing chat can show. */
  datatype Block = TextBlock(text: string) | ToolBlock(id: string, name: string, input: string) | OtherBlock

  datatype StreamEvent =
    | MessageStart
    | BlockStart(index: int, kind: string, id: string, name: string)
    | BlockDelta(index: int, kind: string, text: string, partialJson: string)
    | MessageDelta
    | ErrorEvent(message: string)
    | Malformed
    | Other

  // ---- the whole answer ----

  function BlockText(blocks: seq<Block>): string {
    if blocks == [] then ""
    else
      var b := blocks[|blocks| - 1];
      BlockText(blocks[..|blocks| - 1]) + (if b.TextBlock? then b.text else "")
  }

  function BlockCall(b: Block): Call
    requires b.ToolBlock?
  {
    Call(b.id, b.name, if b.input == "" then "{}" else b.input)
  }

  function BlockCalls(blocks: seq<Block>): seq<Call> {
    if blocks == [] then []
    else
      var b := blocks[|blocks| - 1];
      BlockCalls(blocks[..|blocks| - 1]) + (if b.ToolBlock? then [BlockCall(b)] else [])
  }

  method DecodeResponse(blocks: seq<Block>) returns (answer: Answer)
    ensures answer == Answer(BlockText(blocks), BlockCalls(blocks))
  {
    var text, calls := "", [];
    for i := 0 to |blocks|
      invariant text == BlockText(blocks[..i]) && calls == BlockCalls(blocks[..i])
    {
      assert blocks[..i + 1][..i] == blocks[..i];
      match blocks[i] {
        case TextBlock(piece) =>
          text := text + piece;
        case ToolBlock(id, name, input) =>
          var args := input;
          if args == "" {
            args := "{}";
          }
          calls := calls + [Call(id, name, args)];
        case OtherBlock =>
      }
    }
    assert blocks[..|blocks|] == blocks;
    answer := Answer(text, calls);
  }

  // ---- the stream ----

  predicate Breaks(e: StreamEvent) {
    e.ErrorEvent? || e.Malformed?
  }

  predicate StartsTool(e: StreamEvent) {
    e.BlockStart? && e.kind == "tool_use"
  }

  predicate CarriesText(e: StreamEvent) {
    e.BlockDelta? && (e.kind == "text_delta" || e.kind == "") && e.text != ""
  }

  predicate CarriesJson(e: StreamEvent) {
    e.BlockDelta? && e.kind == "input_json_delta" && e.partialJson != ""
  }

  /** The table from block numbers to call numbers, as the stream builds it. */
  function ToolIndex(es: seq<StreamEvent>): map<int, int> {
    if es == [] then map[]
    else Enter(ToolIndex(es[..|es| - 1]), es[|es| - 1])
  }

  function Enter(table: map<int, int>, e: StreamEvent): map<int, int> {
    if StartsTool(e) then table[e.index := |table|] else table
  }

  function EventFragments(table: map<int, int>, e: StreamEvent): seq<Fragment> {
    if StartsTool(e) then [CallPiece(|table|, e.id, e.name, "")]
    else if CarriesJson(e) && e.index in table then [CallPiece(table[e.index], "", "", e.partialJson)]
    else if CarriesText(e) then [TextPiece(e.text)]
    else []
  }

  function StreamFragments(es: seq<StreamEvent>): seq<Fragment> {
    if es == [] then []
    else StreamFragments(es[..|es| - 1]) + EventFragments(ToolIndex(es[..|es| - 1]), es[|es| - 1])
  }

  /** The events before the first one that ends the stream. */
  function UntilBreak(es: seq<StreamEvent>): seq<StreamEvent> {
    if es == [] then []
    else
      var before := UntilBreak(es[..|es| - 1]);
      if |before| < |es| - 1 || Breaks(es[|es| - 1]) then before else es
  }

  function Emitted(model: string, delta: Delta): Chunk {
    Chunk(model, None, [Some(delta)])
  }

  lemma EmittedFragments(chunks: seq<Chunk>, model: string, delta: Delta)
    ensures FragmentsOf(chunks + [Emitted(model, delta)]) == FragmentsOf(chunks) + DeltaFragments(Some(delta))
    ensures RolesOf(chunks + [Emitted(model, delta)]) == RolesOf(chunks) + (if delta.role != "" then [delta.role] else [])
  {
    SnocParts(chunks, Emitted(model, delta));
    assert ChoiceFragments([Some(delta)]) == DeltaFragments(Some(delta));
    assert ChoiceRoles([Some(delta)]) == if delta.role != "" then [delta.role] else [];
  }

  /** Emits one delta; the role goes out on a chunk of its own before the first. */
  method EmitDelta(chunks: seq<Chunk>, first: bool, model: string, delta: Delta) returns (out: seq<Chunk>)
    requires delta.role == ""
    ensures FragmentsOf(out) == FragmentsOf(chunks) + DeltaFragments(Some(delta))
    ensures RolesOf(out) == RolesOf(chunks) + (if first then ["assistant"] else [])
    ensures out == chunks + (if first then [Emitted(model, Delta("assistant", "", []))] else []) + [Emitted(model, delta)]
  {
    out := chunks;
    if first {
      EmittedFragments(out, model, Delta("assistant", "", []));
      assert FragmentsOf(out) + [] == FragmentsOf(out);
      out := out + [Emitted(model, Delta("assistant", "", []))];
    }
    EmittedFragments(out, model, delta);
    assert RolesOf(out) + [] == RolesOf(out);
    out := out + [Emitted(model, delta)];
  }

  /** The stream callback: what one event does to the table and what it emits. */
  method HandleEvent(chunks: seq<Chunk>, first: bool, table: map<int, int>, model: string, e: StreamEvent)
    returns (chunks': seq<Chunk>, first': bool, table': map<int, int>, err: Option<string>)
    ensures err.Some? <==> Breaks(e)
    ensures err.None? ==> table' == Enter(table, e)
    ensures EmittedFor(chunks, first, EventFragments(table, e), chunks', first')
  {
    chunks', first', table', err := chunks, first, table, None;
    match e {
      case BlockStart(index, kind, id, name) =>
        if kind == "tool_use" {
          var idx := |table|;
          table' := table[index := idx];
          chunks' := EmitCall(chunks, first, model, ToolCall(Some(idx), id, name, ""));
          first' := false;
        } else {
          NothingEmitted(chunks, first);
        }
      case BlockDelta(index, kind, text, partialJson) =>
        chunks', first' := HandleDelta(chunks, first, table, model, e);
      case MessageDelta =>
        EmittedFragments(chunks, model, Delta("", "", []));
        chunks' := chunks + [Emitted(model, Delta("", "", []))];
      case ErrorEvent(message) =>
        NothingEmitted(chunks, first);
        err := Some(message);
      case Malformed =>
        NothingEmitted(chunks, first);
        err := Some("malformed stream event");
      case MessageStart =>
        NothingEmitted(chunks, first);
      case Other =>
        NothingEmitted(chunks, first);
    }
  }

  /** The chunks grew by these fragments; the role went out with the first of all. */
  ghost predicate EmittedFor(chunks: seq<Chunk>, first: bool, fs: seq<Fragment>, chunks': seq<Chunk>, first': bool) {
    && FragmentsOf(chunks') == FragmentsOf(chunks) + fs
    && (first' <==> first && fs == [])
    && RolesOf(chunks') == RolesOf(chunks) + (if first && !first' then ["assistant"] else [])
  }

  lemma NothingEmitted(chunks: seq<Chunk>, first: bool)
    ensures EmittedFor(chunks, first, [], chunks, first)
  {
    assert FragmentsOf(chunks) + [] == FragmentsOf(chunks) && RolesOf(chunks) + [] == RolesOf(chunks);
  }

  method EmitCall(chunks: seq<Chunk>, first: bool, model: string, tc: ToolCall) returns (out: seq<Chunk>)
    ensures EmittedFor(chunks, first, [CallFragment(0, tc)], out, false)
  {
    OneCall(Delta("", "", [tc]));
    out := EmitDelta(chunks, first, model, Delta("", "", [tc]));
  }

  method HandleDelta(chunks: seq<Chunk>, first: bool, table: map<int, int>, model: string, e: StreamEvent)
    returns (chunks': seq<Chunk>, first': bool)
    requires e.BlockDelta?
    ensures EmittedFor(chunks, first, EventFragments(table, e), chunks', first')
  {
    NothingEmitted(chunks, first);
    chunks', first' := chunks, first;
    if e.kind == "input_json_delta" {
      if e.index in table && e.partialJson != "" {
        chunks' := EmitCall(chunks, first, model, ToolCall(Some(table[e.index]), "", "", e.partialJson));
        first' := false;
      }
    } else if e.kind == "text_delta" || e.kind == "" {
      if e.text != "" {
        assert DeltaFragments(Some(Delta("", e.text, []))) == [TextPiece(e.text)];
        chunks' := EmitDelta(chunks, first, model, Delta("", e.text, []));
        first' := false;
      }
    }
  }

  lemma OneCall(delta: Delta)
    requires delta.content == "" && |delta.toolCalls| == 1
    ensures DeltaFragments(Some(delta)) == [CallFragment(0, delta.toolCalls[0])]
  {
    assert CallFragments(delta.toolCalls) == CallFragments([]) + [CallFragment(0, delta.toolCalls[0])];
  }

  method DecodeStream(model: string, events: seq<StreamEvent>) returns (chunks: seq<Chunk>, err: Option<string>)
    ensures FragmentsOf(chunks) == StreamFragments(UntilBreak(events))
    ensures RolesOf(chunks) == if StreamFragments(UntilBreak(events)) == [] then [] else ["assistant"]
    ensures err.None? <==> UntilBreak(events) == events
  {
    chunks, err := [], None;
    var first, table := true, map[];
    for i := 0 to |events|
      invariant err.None? && DecodedSoFar(chunks, first, table, events[..i])
    {
      ghost var chunks0, first0, table0 := chunks, first, table;
      chunks, first, table, err := HandleEvent(chunks, first, table, model, events[i]);
      if err.Some? {
        DecodedBreak(chunks0, first0, table0, events, i, chunks, first);
        return;
      }
      DecodedOn(chunks0, first0, table0, events, i, chunks, first);
    }
    assert events[..|events|] == events;
  }

  ghost predicate DecodedSoFar(chunks: seq<Chunk>, first: bool, table: map<int, int>, es: seq<StreamEvent>) {
    && UntilBreak(es) == es && table == ToolIndex(es)
    && FragmentsOf(chunks) == StreamFragments(es)
    && (first <==> StreamFragments(es) == [])
    && RolesOf(chunks) == if first then [] else ["assistant"]
  }

  lemma DecodedOn(chunks: seq<Chunk>, first: bool, table: map<int, int>, es: seq<StreamEvent>, i: nat, chunks': seq<Chunk>, first': bool)
    requires i < |es| && DecodedSoFar(chunks, first, table, es[..i]) && !Breaks(es[i])
    requires EmittedFor(chunks, first, EventFragments(table, es[i]), chunks', first')
    ensures DecodedSoFar(chunks', first', Enter(table, es[i]), es[..i + 1])
  {
    OneMoreEvent(es, i);
  }

  lemma DecodedBreak(chunks: seq<Chunk>, first: bool, table: map<int, int>, es: seq<StreamEvent>, i: nat, chunks': seq<Chunk>, first': bool)
    requires i < |es| && DecodedSoFar(chunks, first, table, es[..i]) && Breaks(es[i])
    requires EmittedFor(chunks, first, EventFragments(table, es[i]), chunks', first')
    ensures UntilBreak(es) == es[..i] && UntilBreak(es) != es
    ensures FragmentsOf(chunks') == StreamFragments(es[..i])
    ensures RolesOf(chunks') == if StreamFragments(es[..i]) == [] then [] else ["assistant"]
  {
    BreakStays(es, i);
  }

  lemma OneMoreEvent(es: seq<StreamEvent>, i: nat)
    requires i < |es|
    ensures ToolIndex(es[..i + 1]) == Enter(ToolIndex(es[..i]), es[i])
    ensures StreamFragments(es[..i + 1]) == StreamFragments(es[..i]) + EventFragments(ToolIndex(es[..i]), es[i])
    ensures UntilBreak(es[..i]) == es[..i] && !Breaks(es[i]) ==> UntilBreak(es[..i + 1]) == es[..i + 1]
  {
    assert es[..i + 1][..i] == es[..i];
  }

  /** What comes after the break does not matter. */
  lemma {:induction false} BreakStays(es: seq<StreamEvent>, i: nat)
    requires i < |es| && Breaks(es[i]) && UntilBreak(es[..i]) == es[..i]
    ensures UntilBreak(es) == es[..i] && UntilBreak(es) != es
  {
    if i < |es| - 1 {
      assert es[..|es| - 1][..i] == es[..i];
      BreakStays(es[..|es| - 1], i);
    }
  }

  // ---- what a stream spells ----

  datatype Head = Head(index: int, id: string, name: string)

  /** The tool blocks a stream opens, in order. */
  function Heads(es: seq<StreamEvent>): seq<Head> {
    if es == [] then []
    else
      var e := es[|es| - 1];
      Heads(es[..|es| - 1]) + (if StartsTool(e) then [Head(e.index, e.id, e.name)] else [])
  }

  /** The argument fragments of one block, joined: those that come after its start. */
  function JsonOf(es: seq<StreamEvent>, index: int): string {
    if es == [] then ""
    else
      var before, e := es[..|es| - 1], es[|es| - 1];
      JsonOf(before, index) + JsonFor(before, e, index)
  }

  function JsonFor(before: seq<StreamEvent>, e: StreamEvent, index: int): string {
    if CarriesJson(e) && e.index == index && index in ToolIndex(before) then e.partialJson else ""
  }

  function AllText(es: seq<StreamEvent>): string {
    if es == [] then ""
    else AllText(es[..|es| - 1]) + (if CarriesText(es[|es| - 1]) then es[|es| - 1].text else "")
  }

  function TextOf(es: seq<StreamEvent>, index: int): string {
    if es == [] then ""
    else
      var e := es[|es| - 1];
      TextOf(es[..|es| - 1], index) + (if CarriesText(e) && e.index == index then e.text else "")
  }

  function HeadsOf(blocks: seq<Block>, numbers: seq<int>): seq<Head>
    requires |blocks| == |numbers|
  {
    if blocks == [] then []
    else
      var n := |blocks| - 1;
      HeadsOf(blocks[..n], numbers[..n]) +
      (if blocks[n].ToolBlock? then [Head(numbers[n], blocks[n].id, blocks[n].name)] else [])
  }

  /** Some argument fragment of the block was not empty. */
  predicate Argued(es: seq<StreamEvent>, blocks: seq<Block>, numbers: seq<int>)
    requires |blocks| == |numbers|
  {
    forall k :: 0 <= k < |blocks| && blocks[k].ToolBlock? ==> JsonOf(es, numbers[k]) != ""
  }

  /** Fragments spell an input when they join to it; an empty object may also be left unspoken. */
  predicate SpellsInput(json: string, input: string) {
    json == input || (json == "" && input == "{}")
  }

  /**
   The stream is a telling of these blocks: block k is numbered numbers[k], tool blocks open in
   order, each block's argument fragments spell its input, and each block's text fragments are its
   text. Blocks may interleave freely.
   */
  ghost predicate Tells(es: seq<StreamEvent>, blocks: seq<Block>, numbers: seq<int>) {
    && |blocks| == |numbers|
    && Distinct(numbers)
    && (forall e :: e in es ==> !Breaks(e))
    && Heads(es) == HeadsOf(blocks, numbers)
    && (forall k :: 0 <= k < |blocks| && blocks[k].ToolBlock? ==> SpellsInput(JsonOf(es, numbers[k]), blocks[k].input))
    && TellsText(es, blocks, numbers)
  }

  /** All text belongs to the text blocks, and adds up to what they say. */
  ghost predicate TellsText(es: seq<StreamEvent>, blocks: seq<Block>, numbers: seq<int>)
    requires |blocks| == |numbers|
  {
    && (forall p :: 0 <= p < |es| && CarriesText(es[p]) ==> TextBlockAt(es[p].index, blocks, numbers))
    && forall k :: 0 <= k < |blocks| && blocks[k].TextBlock? ==> TextOf(es, numbers[k]) == blocks[k].text
  }

  /** Event p carries text of block a. */
  predicate TextAt(es: seq<StreamEvent>, p: int, numbers: seq<int>, a: int) {
    0 <= p < |es| && CarriesText(es[p]) && 0 <= a < |numbers| && es[p].index == numbers[a]
  }

  /** Text blocks are told one after the other, as the Messages API sends them. */
  ghost predicate BlocksForward(es: seq<StreamEvent>, numbers: seq<int>) {
    forall p, q, a, b :: p <= q && TextAt(es, p, numbers, a) && TextAt(es, q, numbers, b) ==> a <= b
  }

  ghost predicate TextBlockAt(index: int, blocks: seq<Block>, numbers: seq<int>)
    requires |blocks| == |numbers|
  {
    exists k :: 0 <= k < |blocks| && numbers[k] == index && blocks[k].TextBlock?
  }

  // ---- the tally of a stream ----

  function CallOf(es: seq<StreamEvent>, h: Head): Call {
    Call(h.id, h.name, JsonOf(es, h.index))
  }

  function CallsOf(es: seq<StreamEvent>, heads: seq<Head>): seq<Call> {
    Map(h => CallOf(es, h), heads)
  }

  ghost predicate DistinctHeads(heads: seq<Head>) {
    forall i, j :: 0 <= i < j < |heads| ==> heads[i].index != heads[j].index
  }

  /** With distinct block numbers the table counts calls in opening order. */
  lemma {:induction false} TableCounts(es: seq<StreamEvent>)
    requires DistinctHeads(Heads(es))
    ensures |ToolIndex(es)| == |Heads(es)|
    ensures forall k :: 0 <= k < |Heads(es)| ==> Heads(es)[k].index in ToolIndex(es) && ToolIndex(es)[Heads(es)[k].index] == k
    ensures forall i :: i in ToolIndex(es) ==> 0 <= ToolIndex(es)[i] < |Heads(es)| && Heads(es)[ToolIndex(es)[i]].index == i
  {
    if es != [] {
      var before, e := es[..|es| - 1], es[|es| - 1];
      assert forall k :: 0 <= k < |Heads(before)| ==> Heads(es)[k] == Heads(before)[k];
      TableCounts(before);
      if StartsTool(e) {
        assert Heads(es)[|Heads(before)|].index == e.index;
        assert e.index !in ToolIndex(before);
      }
    }
  }

  lemma {:induction false} UnstartedSilent(es: seq<StreamEvent>, index: int)
    requires index !in ToolIndex(es)
    ensures JsonOf(es, index) == ""
  {
    if es != [] {
      UnstartedSilent(es[..|es| - 1], index);
    }
  }

  /** However a stream is cut into fragments and its blocks interleave, this is what it adds up to. */
  lemma {:induction false} StreamTallies(es: seq<StreamEvent>)
    requires DistinctHeads(Heads(es))
    ensures AddsUp(StreamFragments(es), Answer(AllText(es), CallsOf(es, Heads(es))))
  {
    if es != [] {
      var before, e := es[..|es| - 1], es[|es| - 1];
      assert es == before + [e];
      HeadsGrow(before, e);
      assert forall k :: 0 <= k < |Heads(before)| ==> Heads(es)[k] == Heads(before)[k];
      StreamTallies(before);
      TallyOneEvent(before, e);
    }
  }

  lemma HeadsGrow(before: seq<StreamEvent>, e: StreamEvent)
    ensures Heads(before + [e]) == Heads(before) + (if StartsTool(e) then [Head(e.index, e.id, e.name)] else [])
    ensures StreamFragments(before + [e]) == StreamFragments(before) + EventFragments(ToolIndex(before), e)
    ensures AllText(before + [e]) == AllText(before) + (if CarriesText(e) then e.text else "")
    ensures ToolIndex(before + [e]) == Enter(ToolIndex(before), e)
    ensures forall index :: JsonOf(before + [e], index) == JsonOf(before, index) + JsonFor(before, e, index)
  {
    SnocParts(before, e);
  }

  /** An event that adds no arguments leaves the calls already open as they are. */
  lemma CallsSame(before: seq<StreamEvent>, e: StreamEvent, heads: seq<Head>)
    requires !(CarriesJson(e) && e.index in ToolIndex(before))
    ensures CallsOf(before + [e], heads) == CallsOf(before, heads)
  {
    HeadsGrow(before, e);
    forall h: Head ensures CallOf(before + [e], h) == CallOf(before, h) {
      assert JsonFor(before, e, h.index) == "";
      assert JsonOf(before, h.index) + "" == JsonOf(before, h.index);
    }
    MapSame(h => CallOf(before + [e], h), h => CallOf(before, h), heads);
  }

  lemma NewCall(before: seq<StreamEvent>, e: StreamEvent)
    requires StartsTool(e) && e.index !in ToolIndex(before)
    ensures CallsOf(before + [e], Heads(before) + [Head(e.index, e.id, e.name)]) == CallsOf(before, Heads(before)) + [Call(e.id, e.name, "")]
  {
    var h := Head(e.index, e.id, e.name);
    CallsSame(before, e, Heads(before));
    MapSnoc(x => CallOf(before + [e], x), Heads(before), h);
    UnstartedSilent(before, e.index);
    assert CallOf(before + [e], h) == Call(e.id, e.name, "") by { HeadsGrow(before, e); }
  }

  lemma StartTallied(before: seq<StreamEvent>, e: StreamEvent)
    requires DistinctHeads(Heads(before + [e])) && DistinctHeads(Heads(before)) && StartsTool(e)
    requires AddsUp(StreamFragments(before), Answer(AllText(before), CallsOf(before, Heads(before))))
    ensures AddsUp(StreamFragments(before + [e]), Answer(AllText(before + [e]), CallsOf(before + [e], Heads(before + [e]))))
  {
    HeadsGrow(before, e);
    TableCounts(before);
    assert e.index !in ToolIndex(before) by {
      assert Heads(before + [e])[|Heads(before)|].index == e.index;
      assert forall k :: 0 <= k < |Heads(before)| ==> Heads(before + [e])[k] == Heads(before)[k];
    }
    NewCall(before, e);
    TallyStart(StreamFragments(before), AllText(before), CallsOf(before, Heads(before)), Call(e.id, e.name, ""));
  }

  lemma JsonTallied(before: seq<StreamEvent>, e: StreamEvent)
    requires DistinctHeads(Heads(before)) && CarriesJson(e) && e.index in ToolIndex(before)
    requires AddsUp(StreamFragments(before), Answer(AllText(before), CallsOf(before, Heads(before))))
    ensures AddsUp(StreamFragments(before + [e]), Answer(AllText(before + [e]), CallsOf(before + [e], Heads(before + [e]))))
  {
    HeadsGrow(before, e);
    TableCounts(before);
    var k := ToolIndex(before)[e.index];
    GrownCall(before, e, k);
    TallyArguments(StreamFragments(before), AllText(before), CallsOf(before, Heads(before)), k, e.partialJson);
  }

  lemma TallyOneEvent(before: seq<StreamEvent>, e: StreamEvent)
    requires DistinctHeads(Heads(before + [e])) && DistinctHeads(Heads(before))
    requires AddsUp(StreamFragments(before), Answer(AllText(before), CallsOf(before, Heads(before))))
    ensures AddsUp(StreamFragments(before + [e]), Answer(AllText(before + [e]), CallsOf(before + [e], Heads(before + [e]))))
  {
    if StartsTool(e) {
      StartTallied(before, e);
    } else if CarriesJson(e) && e.index in ToolIndex(before) {
      JsonTallied(before, e);
    } else {
      HeadsGrow(before, e);
      CallsSame(before, e, Heads(before));
      if CarriesText(e) {
        TallyText(StreamFragments(before), AllText(before), CallsOf(before, Heads(before)), e.text);
      } else {
        assert StreamFragments(before) + [] == StreamFragments(before);
      }
    }
  }

  lemma GrownCall(before: seq<StreamEvent>, e: StreamEvent, k: nat)
    requires CarriesJson(e) && e.index in ToolIndex(before) && k < |Heads(before)| && Heads(before)[k].index == e.index
    requires DistinctHeads(Heads(before))
    ensures var calls := CallsOf(before, Heads(before));
      CallsOf(before + [e], Heads(before + [e])) == calls[k := calls[k].(arguments := calls[k].arguments + e.partialJson)]
    ensures AllText(before + [e]) == AllText(before)
  {
    HeadsGrow(before, e);
    var after, calls := CallsOf(before + [e], Heads(before + [e])), CallsOf(before, Heads(before));
    forall j | 0 <= j < |after| ensures after[j] == if j == k then calls[j].(arguments := calls[j].arguments + e.partialJson) else calls[j] {
      assert after[j] == CallOf(before + [e], Heads(before)[j]);
    }
  }

  // ---- streaming and batch agree ----

  lemma {:induction false} HeadsDistinct(blocks: seq<Block>, numbers: seq<int>)
    requires |blocks| == |numbers| && Distinct(numbers)
    ensures DistinctHeads(HeadsOf(blocks, numbers))
    ensures forall h :: h in HeadsOf(blocks, numbers) ==> h.index in numbers
  {
    if blocks != [] {
      var n := |blocks| - 1;
      HeadsDistinct(blocks[..n], numbers[..n]);
      assert numbers == numbers[..n] + [numbers[n]];
    }
  }

  /** Calls agree exactly when every tool block said something of its arguments. */
  lemma {:induction false} CallsAgree(es: seq<StreamEvent>, blocks: seq<Block>, numbers: seq<int>)
    requires |blocks| == |numbers|
    requires forall k :: 0 <= k < |blocks| && blocks[k].ToolBlock? ==> SpellsInput(JsonOf(es, numbers[k]), blocks[k].input)
    ensures |CallsOf(es, HeadsOf(blocks, numbers))| == |BlockCalls(blocks)|
    ensures CallsOf(es, HeadsOf(blocks, numbers)) == BlockCalls(blocks) <==> Argued(es, blocks, numbers)
  {
    if blocks != [] {
      var n := |blocks| - 1;
      var told, whole := CallsOf(es, HeadsOf(blocks[..n], numbers[..n])), BlockCalls(blocks[..n]);
      CallsAgree(es, blocks[..n], numbers[..n]);
      assert Argued(es, blocks, numbers) <==>
          Argued(es, blocks[..n], numbers[..n]) && (blocks[n].ToolBlock? ==> JsonOf(es, numbers[n]) != "");
      if blocks[n].ToolBlock? {
        var c := CallOf(es, Head(numbers[n], blocks[n].id, blocks[n].name));
        MapSnoc(h => CallOf(es, h), HeadsOf(blocks[..n], numbers[..n]), Head(numbers[n], blocks[n].id, blocks[n].name));
        assert c == BlockCall(blocks[n]) <==> JsonOf(es, numbers[n]) != "";
        SnocEqual(told, c, whole, BlockCall(blocks[n]));
      } else {
        assert HeadsOf(blocks, numbers) == HeadsOf(blocks[..n], numbers[..n]);
        assert BlockCalls(blocks) == whole;
      }
    }
  }

  lemma SnocEqual<T>(s: seq<T>, x: T, t: seq<T>, y: T)
    requires |s| == |t|
    ensures s + [x] == t + [y] <==> s == t && x == y
  {
    SnocParts(s, x);
    SnocParts(t, y);
  }

  /** The stream finishes as the items the whole answer gives, up to minted ids. */
  ghost predicate Agree(es: seq<StreamEvent>, blocks: seq<Block>) {
    ShapesOf(Output(StreamFragments(es))) == Shapes(BlockText(blocks), BlockCalls(blocks))
  }

  /**
   What a telling's own words decide: its text must read as the whole answer's, and no tool block
   may stay silent, for that ends with empty arguments where the whole answer says {}.
   */
  lemma StreamMatchesBatch(es: seq<StreamEvent>, blocks: seq<Block>, numbers: seq<int>)
    requires Tells(es, blocks, numbers)
    ensures Agree(es, blocks) <==> AllText(es) == BlockText(blocks) && Argued(es, blocks, numbers)
  {
    HeadsDistinct(blocks, numbers);
    StreamTallies(es);
    var calls := CallsOf(es, Heads(es));
    TallyIsOutput(StreamFragments(es), AllText(es), calls);
    CallsAgree(es, blocks, numbers);
    if Shapes(AllText(es), calls) == Shapes(BlockText(blocks), BlockCalls(blocks)) {
      ShapesDiffer(AllText(es), calls, BlockText(blocks), BlockCalls(blocks));
    }
  }

  /** The texts told so far, joined in block order. */
  function JoinedByBlock(es: seq<StreamEvent>, blocks: seq<Block>, numbers: seq<int>): string
    requires |blocks| == |numbers|
  {
    if blocks == [] then ""
    else
      var n := |blocks| - 1;
      JoinedByBlock(es, blocks[..n], numbers[..n]) + (if blocks[n].TextBlock? then TextOf(es, numbers[n]) else "")
  }

  lemma OtherText(before: seq<StreamEvent>, e: StreamEvent, index: int)
    requires CarriesText(e) && e.index != index
    ensures TextOf(before + [e], index) == TextOf(before, index)
  {
    TextGrows(before, e);
  }

  /** Text of a block that is not among these changes nothing here. */
  lemma {:induction false} JoinedElsewhere(before: seq<StreamEvent>, e: StreamEvent, blocks: seq<Block>, numbers: seq<int>)
    requires |blocks| == |numbers| && CarriesText(e) && forall i :: 0 <= i < |numbers| ==> numbers[i] != e.index
    ensures JoinedByBlock(before + [e], blocks, numbers) == JoinedByBlock(before, blocks, numbers)
  {
    if blocks != [] {
      var n := |blocks| - 1;
      OtherText(before, e, numbers[n]);
      JoinedElsewhere(before, e, blocks[..n], numbers[..n]);
    }
  }

  lemma {:induction false} JoinedGrows(before: seq<StreamEvent>, e: StreamEvent, blocks: seq<Block>, numbers: seq<int>, a: nat)
    requires |blocks| == |numbers| && Distinct(numbers) && CarriesText(e)
    requires a < |blocks| && e.index == numbers[a] && blocks[a].TextBlock?
    requires forall b :: a < b < |blocks| ==> TextOf(before, numbers[b]) == ""
    ensures JoinedByBlock(before + [e], blocks, numbers) == JoinedByBlock(before, blocks, numbers) + e.text
  {
    var n := |blocks| - 1;
    var head, head' := JoinedByBlock(before, blocks[..n], numbers[..n]), JoinedByBlock(before + [e], blocks[..n], numbers[..n]);
    TextGrows(before, e);
    if a == n {
      JoinedElsewhere(before, e, blocks[..n], numbers[..n]);
      AppendAssociates(head, TextOf(before, numbers[n]), e.text);
    } else {
      JoinedGrows(before, e, blocks[..n], numbers[..n], a);
      assert e.index != numbers[n];
      assert TextOf(before + [e], numbers[n]) == TextOf(before, numbers[n]) == "";
      assert head' + "" == head' && head + "" == head;
    }
  }

  lemma {:induction false} SilentSoFar(es: seq<StreamEvent>, numbers: seq<int>, b: nat)
    requires b < |numbers| && forall p :: !TextAt(es, p, numbers, b)
    ensures TextOf(es, numbers[b]) == ""
  {
    if es != [] {
      var before := es[..|es| - 1];
      assert forall p :: TextAt(before, p, numbers, b) ==> TextAt(es, p, numbers, b);
      assert !TextAt(es, |es| - 1, numbers, b);
      SilentSoFar(before, numbers, b);
    }
  }

  lemma {:induction false} TextJoined(es: seq<StreamEvent>, blocks: seq<Block>, numbers: seq<int>)
    requires |blocks| == |numbers| && Distinct(numbers)
    requires forall p :: 0 <= p < |es| && CarriesText(es[p]) ==> TextBlockAt(es[p].index, blocks, numbers)
    requires BlocksForward(es, numbers)
    ensures AllText(es) == JoinedByBlock(es, blocks, numbers)
  {
    if es == [] {
      NothingJoined(blocks, numbers);
    } else {
      var before, e := es[..|es| - 1], es[|es| - 1];
      assert es == before + [e];
      assert forall p, a :: TextAt(before, p, numbers, a) ==> TextAt(es, p, numbers, a);
      TextJoined(before, blocks, numbers);
      if CarriesText(e) {
        assert TextBlockAt(es[|es| - 1].index, blocks, numbers);
        var a :| 0 <= a < |blocks| && numbers[a] == e.index && blocks[a].TextBlock?;
        assert TextAt(es, |es| - 1, numbers, a);
        forall b | a < b < |blocks| ensures TextOf(before, numbers[b]) == "" {
          assert forall p :: TextAt(before, p, numbers, b) ==> TextAt(es, p, numbers, b);
          SilentSoFar(before, numbers, b);
        }
        JoinedGrows(before, e, blocks, numbers, a);
      } else {
        JoinedStays(before, e, blocks, numbers);
      }
    }
  }

  lemma {:induction false} NothingJoined(blocks: seq<Block>, numbers: seq<int>)
    requires |blocks| == |numbers|
    ensures JoinedByBlock([], blocks, numbers) == ""
  {
    if blocks != [] {
      NothingJoined(blocks[..|blocks| - 1], numbers[..|blocks| - 1]);
    }
  }

  lemma {:induction false} JoinedStays(before: seq<StreamEvent>, e: StreamEvent, blocks: seq<Block>, numbers: seq<int>)
    requires |blocks| == |numbers| && !CarriesText(e)
    ensures JoinedByBlock(before + [e], blocks, numbers) == JoinedByBlock(before, blocks, numbers)
  {
    SnocParts(before, e);
    if blocks != [] {
      JoinedStays(before, e, blocks[..|blocks| - 1], numbers[..|blocks| - 1]);
    }
  }

  lemma {:induction false} JoinedWhole(es: seq<StreamEvent>, blocks: seq<Block>, numbers: seq<int>)
    requires |blocks| == |numbers|
    requires forall k :: 0 <= k < |blocks| && blocks[k].TextBlock? ==> TextOf(es, numbers[k]) == blocks[k].text
    ensures JoinedByBlock(es, blocks, numbers) == BlockText(blocks)
  {
    if blocks != [] {
      JoinedWhole(es, blocks[..|blocks| - 1], numbers[..|blocks| - 1]);
    }
  }

  /** Text told block by block reads as the whole answer's text, however it is cut up. */
  lemma OrderedTextAgrees(es: seq<StreamEvent>, blocks: seq<Block>, numbers: seq<int>)
    requires |blocks| == |numbers| && Distinct(numbers) && TellsText(es, blocks, numbers) && BlocksForward(es, numbers)
    ensures AllText(es) == BlockText(blocks)
  {
    TextJoined(es, blocks, numbers);
    JoinedWhole(es, blocks, numbers);
  }

  /** For streams as the Messages API sends them, only a silent tool block can tell the two paths apart. */
  lemma OrderedStreamMatchesBatch(es: seq<StreamEvent>, blocks: seq<Block>, numbers: seq<int>)
    requires Tells(es, blocks, numbers) && BlocksForward(es, numbers)
    ensures Agree(es, blocks) <==> Argued(es, blocks, numbers)
  {
    OrderedTextAgrees(es, blocks, numbers);
    StreamMatchesBatch(es, blocks, numbers);
  }

  // ---- which orders of telling are safe, whatever the words ----

  /** The same event, text fragments perhaps with other words. */
  predicate SameButWords(e: StreamEvent, e': StreamEvent) {
    if CarriesText(e) then CarriesText(e') && e'.index == e.index else e' == e
  }

  /** The same events in the same order, only the words differ. */
  ghost predicate Reworded(es: seq<StreamEvent>, es': seq<StreamEvent>) {
    |es'| == |es| && forall p :: 0 <= p < |es| ==> SameButWords(es[p], es'[p])
  }

  /** The blocks a reworded telling tells. */
  function BlocksOf(es: seq<StreamEvent>, blocks: seq<Block>, numbers: seq<int>): (r: seq<Block>)
    requires |blocks| == |numbers|
    ensures |r| == |blocks|
  {
    if blocks == [] then []
    else
      var n := |blocks| - 1;
      BlocksOf(es, blocks[..n], numbers[..n]) + [if blocks[n].TextBlock? then TextBlock(TextOf(es, numbers[n])) else blocks[n]]
  }

  lemma {:induction false} BlocksOfAt(es: seq<StreamEvent>, blocks: seq<Block>, numbers: seq<int>)
    requires |blocks| == |numbers|
    ensures |BlocksOf(es, blocks, numbers)| == |blocks|
    ensures forall k :: 0 <= k < |blocks| ==>
      BlocksOf(es, blocks, numbers)[k] == if blocks[k].TextBlock? then TextBlock(TextOf(es, numbers[k])) else blocks[k]
  {
    if blocks != [] {
      BlocksOfAt(es, blocks[..|blocks| - 1], numbers[..|blocks| - 1]);
    }
  }

  /** Rewording touches neither the tool blocks opened nor their arguments. */
  lemma {:induction false} WordsOnly(es: seq<StreamEvent>, es': seq<StreamEvent>)
    requires Reworded(es, es')
    ensures Heads(es') == Heads(es) && ToolIndex(es') == ToolIndex(es)
    ensures forall index :: JsonOf(es', index) == JsonOf(es, index)
  {
    if es != [] {
      var n := |es| - 1;
      assert SameButWords(es[n], es'[n]);
      WordsOnly(es[..n], es'[..n]);
    }
  }

  lemma HeadsSame(blocks: seq<Block>, blocks': seq<Block>, numbers: seq<int>)
    requires |blocks'| == |blocks| == |numbers|
    requires forall k :: 0 <= k < |blocks| && (blocks[k].ToolBlock? || blocks'[k].ToolBlock?) ==> blocks'[k] == blocks[k]
    ensures HeadsOf(blocks', numbers) == HeadsOf(blocks, numbers)
  {
    if blocks != [] {
      HeadsSame(blocks[..|blocks| - 1], blocks'[..|blocks| - 1], numbers[..|blocks| - 1]);
    }
  }

  lemma RewordedEvent(es: seq<StreamEvent>, es': seq<StreamEvent>, p: nat)
    requires Reworded(es, es') && p < |es'|
    ensures SameButWords(es[p], es'[p]) && es[p] in es
  {}

  lemma RewordedText(es: seq<StreamEvent>, es': seq<StreamEvent>, blocks: seq<Block>, numbers: seq<int>)
    requires Tells(es, blocks, numbers) && Reworded(es, es')
    ensures TellsText(es', BlocksOf(es', blocks, numbers), numbers)
  {
    var blocks' := BlocksOf(es', blocks, numbers);
    BlocksOfAt(es', blocks, numbers);
    forall p | 0 <= p < |es'| && CarriesText(es'[p]) ensures TextBlockAt(es'[p].index, blocks', numbers) {
      RewordedEvent(es, es', p);
      assert TextBlockAt(es[p].index, blocks, numbers);
      var k :| 0 <= k < |blocks| && numbers[k] == es[p].index && blocks[k].TextBlock?;
      assert blocks'[k].TextBlock?;
    }
  }

  lemma RewordedTools(es: seq<StreamEvent>, es': seq<StreamEvent>, blocks: seq<Block>, numbers: seq<int>)
    requires Tells(es, blocks, numbers) && Reworded(es, es')
    ensures var blocks' := BlocksOf(es', blocks, numbers);
      && Heads(es') == HeadsOf(blocks', numbers)
      && (forall k :: 0 <= k < |blocks'| && blocks'[k].ToolBlock? ==> SpellsInput(JsonOf(es', numbers[k]), blocks'[k].input))
      && (Argued(es', blocks', numbers) <==> Argued(es, blocks, numbers))
  {
    WordsOnly(es, es');
    BlocksOfAt(es', blocks, numbers);
    HeadsSame(blocks, BlocksOf(es', blocks, numbers), numbers);
  }

  lemma RewordedOrder(es: seq<StreamEvent>, es': seq<StreamEvent>, numbers: seq<int>)
    requires Reworded(es, es') && BlocksForward(es, numbers)
    ensures BlocksForward(es', numbers)
  {
    forall p, a | TextAt(es', p, numbers, a) ensures TextAt(es, p, numbers, a) {
      RewordedEvent(es, es', p);
    }
  }

  lemma RewordedTells(es: seq<StreamEvent>, es': seq<StreamEvent>, blocks: seq<Block>, numbers: seq<int>)
    requires Tells(es, blocks, numbers) && Reworded(es, es')
    ensures Tells(es', BlocksOf(es', blocks, numbers), numbers)
    ensures Argued(es', BlocksOf(es', blocks, numbers), numbers) <==> Argued(es, blocks, numbers)
    ensures BlocksForward(es, numbers) ==> BlocksForward(es', numbers)
  {
    RewordedTools(es, es', blocks, numbers);
    RewordedText(es, es', blocks, numbers);
    BlocksOfAt(es', blocks, numbers);
    forall p | 0 <= p < |es'| ensures !Breaks(es'[p]) {
      RewordedEvent(es, es', p);
    }
    if BlocksForward(es, numbers) {
      RewordedOrder(es, es', numbers);
    }
  }

  /** Words that show where each fragment comes from: "1" from the blocks numbered in `late`, "0" from the others. */
  function Mark(e: StreamEvent, late: set<int>): StreamEvent {
    if CarriesText(e) then e.(text := if e.index in late then "1" else "0") else e
  }

  function Marked(es: seq<StreamEvent>, late: set<int>): seq<StreamEvent> {
    Map(e => Mark(e, late), es)
  }

  predicate Only(s: string, c: char) {
    forall i :: 0 <= i < |s| ==> s[i] == c
  }

  /** No "1" comes before a "0". */
  predicate Ascending(s: string) {
    forall i, j :: 0 <= i < j < |s| && s[i] == '1' ==> s[j] == '1'
  }

  lemma {:induction false} MarkedBlock(es: seq<StreamEvent>, late: set<int>, index: int)
    ensures Only(TextOf(Marked(es, late), index), if index in late then '1' else '0')
  {
    if es != [] {
      var before, e := es[..|es| - 1], es[|es| - 1];
      MapSnoc(x => Mark(x, late), before, e);
      assert es == before + [e];
      SnocParts(Marked(before, late), Mark(e, late));
      MarkedBlock(before, late, index);
    }
  }

  lemma {:induction false} MarkedJoined(es: seq<StreamEvent>, late: set<int>, blocks: seq<Block>, numbers: seq<int>, a: nat)
    requires |blocks| == |numbers| && forall k :: 0 <= k < |numbers| ==> (numbers[k] in late <==> k >= a)
    ensures Ascending(JoinedByBlock(Marked(es, late), blocks, numbers))
    ensures |blocks| <= a ==> Only(JoinedByBlock(Marked(es, late), blocks, numbers), '0')
  {
    if blocks != [] {
      var n := |blocks| - 1;
      MarkedJoined(es, late, blocks[..n], numbers[..n], a);
      MarkedBlock(es, late, numbers[n]);
    }
  }

  /** Where a text fragment lands in the text as it arrives. */
  lemma {:induction false} TextLands(es: seq<StreamEvent>, p: nat)
    requires p < |es| && CarriesText(es[p])
    ensures |AllText(es[..p])| + |es[p].text| <= |AllText(es)|
    ensures AllText(es)[|AllText(es[..p])|] == es[p].text[0]
  {
    var n := |es| - 1;
    if p < n {
      assert es[..n][..p] == es[..p];
      TextLands(es[..n], p);
    }
  }

  /** Told out of block order, the marks do not read in block order. */
  lemma MarksTell(es: seq<StreamEvent>, late: set<int>, p: nat, q: nat)
    requires p < q < |es| && CarriesText(es[p]) && CarriesText(es[q]) && es[p].index in late && es[q].index !in late
    ensures !Ascending(AllText(Marked(es, late)))
  {
    var es' := Marked(es, late);
    assert es'[..q][..p] == es'[..p];
    TextLands(es'[..q], p);
    TextLands(es', p);
    TextLands(es', q);
  }

  lemma MarkedReworded(es: seq<StreamEvent>, late: set<int>)
    ensures Reworded(es, Marked(es, late))
  {}

  /** A backward step of the telling: text of a block numbered `late`, then text of one that is not. */
  lemma BackwardStep(es: seq<StreamEvent>, numbers: seq<int>) returns (late: set<int>, a: nat)
    requires Distinct(numbers) && !BlocksForward(es, numbers)
    ensures forall k :: 0 <= k < |numbers| ==> (numbers[k] in late <==> k >= a)
    ensures !Ascending(AllText(Marked(es, late)))
  {
    var p, q, b;
    p, q, a, b :| p <= q && TextAt(es, p, numbers, a) && TextAt(es, q, numbers, b) && a > b;
    late := set k | a <= k < |numbers| :: numbers[k];
    assert numbers[a] in late && numbers[b] !in late;
    MarksTell(es, late, p, q);
  }

  lemma BackwardFails(es: seq<StreamEvent>, blocks: seq<Block>, numbers: seq<int>) returns (es': seq<StreamEvent>)
    requires Tells(es, blocks, numbers) && !BlocksForward(es, numbers)
    ensures Reworded(es, es') && !Agree(es', BlocksOf(es', blocks, numbers))
  {
    var late, a := BackwardStep(es, numbers);
    es' := Marked(es, late);
    MarkedReworded(es, late);
    RewordedTells(es, es', blocks, numbers);
    MarksDisagree(es, late, BlocksOf(es', blocks, numbers), numbers, a);
  }

  lemma MarksDisagree(es: seq<StreamEvent>, late: set<int>, blocks: seq<Block>, numbers: seq<int>, a: nat)
    requires Tells(Marked(es, late), blocks, numbers) && !Ascending(AllText(Marked(es, late)))
    requires forall k :: 0 <= k < |numbers| ==> (numbers[k] in late <==> k >= a)
    ensures !Agree(Marked(es, late), blocks)
  {
    MarkedJoined(es, late, blocks, numbers, a);
    JoinedWhole(Marked(es, late), blocks, numbers);
    StreamMatchesBatch(Marked(es, late), blocks, numbers);
  }

  /** A telling tells the blocks it adds up to. */
  lemma OwnBlocks(es: seq<StreamEvent>, blocks: seq<Block>, numbers: seq<int>)
    requires Tells(es, blocks, numbers)
    ensures Reworded(es, es) && BlocksOf(es, blocks, numbers) == blocks
  {
    BlocksOfAt(es, blocks, numbers);
  }

  /**
   The commuting diagram. An order of telling gives the items of the whole answer, whatever the
   words, exactly when it takes the text blocks one after the other and no tool block stays silent.
   */
  lemma OrderDecides(es: seq<StreamEvent>, blocks: seq<Block>, numbers: seq<int>)
    requires Tells(es, blocks, numbers)
    ensures (forall es' :: Reworded(es, es') ==> Agree(es', BlocksOf(es', blocks, numbers)))
      <==> BlocksForward(es, numbers) && Argued(es, blocks, numbers)
  {
    if BlocksForward(es, numbers) && Argued(es, blocks, numbers) {
      forall es' | Reworded(es, es') ensures Agree(es', BlocksOf(es', blocks, numbers)) {
        RewordedTells(es, es', blocks, numbers);
        OrderedStreamMatchesBatch(es', BlocksOf(es', blocks, numbers), numbers);
      }
    } else if BlocksForward(es, numbers) {
      OwnBlocks(es, blocks, numbers);
      OrderedStreamMatchesBatch(es, blocks, numbers);
    } else {
      var es' := BackwardFails(es, blocks, numbers);
    }
  }

  function SilentTool(): seq<StreamEvent> {
    [BlockStart(0, "tool_use", "t", "f")]
  }

  lemma SilentToolReads()
    ensures Heads(SilentTool()) == [Head(0, "t", "f")] == HeadsOf([ToolBlock("t", "f", "{}")], [0])
    ensures JsonOf(SilentTool(), 0) == "" && AllText(SilentTool()) == ""
    ensures BlockCalls([ToolBlock("t", "f", "{}")]) == [Call("t", "f", "{}")] && BlockText([ToolBlock("t", "f", "{}")]) == ""
  {
    var e := SilentTool()[0];
    assert SilentTool() == [] + [e];
    HeadsGrow([], e);
    assert [0][..0] == [] && [ToolBlock("t", "f", "{}")][..0] == [];
  }

  lemma SilentToolCalls(es: seq<StreamEvent>)
    requires es == SilentTool()
    ensures CallsOf(es, Heads(es)) == [Call("t", "f", "")]
  {
    SilentToolReads();
    var calls := CallsOf(es, Heads(es));
    assert |calls| == 1 && calls[0] == CallOf(es, Head(0, "t", "f"));
  }

  lemma SilentToolTallies(es: seq<StreamEvent>)
    requires es == SilentTool()
    ensures AddsUp(StreamFragments(es), Answer("", [Call("t", "f", "")]))
  {
    SilentToolReads();
    SilentToolCalls(es);
    StreamTallies(es);
  }

  lemma SilentToolEnds(es: seq<StreamEvent>)
    requires es == SilentTool()
    ensures ShapesOf(Output(StreamFragments(es))) == [CallShape(Some("t"), "f", "")]
  {
    SilentToolTallies(es);
    TallyIsOutput(StreamFragments(es), "", [Call("t", "f", "")]);
    assert Shapes("", [Call("t", "f", "")]) == [CallShape(Some("t"), "f", "")];
  }

  lemma SilentToolTells(es: seq<StreamEvent>, blocks: seq<Block>)
    requires es == SilentTool() && blocks == [ToolBlock("t", "f", "{}")]
    ensures Tells(es, blocks, [0])
  {
    SilentToolReads();
    var numbers := [0];
    assert numbers[0] == 0;
  }

  /** A tool called with an empty object, told without fragments, ends differently on the two paths. */
  lemma SilentToolDiffers()
    ensures var blocks := [ToolBlock("t", "f", "{}")];
      && Tells(SilentTool(), blocks, [0])
      && ShapesOf(Output(StreamFragments(SilentTool()))) == [CallShape(Some("t"), "f", "")]
      && Shapes(BlockText(blocks), BlockCalls(blocks)) == [CallShape(Some("t"), "f", "{}")]
  {
    SilentToolReads();
    SilentToolTells(SilentTool(), [ToolBlock("t", "f", "{}")]);
    SilentToolEnds(SilentTool());
    assert Shapes("", [Call("t", "f", "{}")]) == [CallShape(Some("t"), "f", "{}")];
  }

  function Alternating(): seq<StreamEvent> {
    [BlockDelta(0, "text_delta", "a", ""), BlockDelta(1, "text_delta", "c", ""), BlockDelta(0, "text_delta", "b", "")]
  }

  lemma AlternatingReads()
    ensures AllText(Alternating()) == "acb" && TextOf(Alternating(), 0) == "ab" && TextOf(Alternating(), 1) == "c"
    ensures Heads(Alternating()) == []
  {
    var es := Alternating();
    var one, two := [es[0]], [es[0]] + [es[1]];
    assert [] + [es[0]] == one && two + [es[2]] == es;
    TextGrows([], es[0]);
    TextGrows(one, es[1]);
    TextGrows(two, es[2]);
  }

  lemma AlternatingTells(es: seq<StreamEvent>, blocks: seq<Block>)
    requires es == Alternating() && blocks == [TextBlock("ab"), TextBlock("c")]
    ensures Tells(es, blocks, [0, 1])
  {
    AlternatingReads();
    NoHeads(blocks, [0, 1]);
    var numbers := [0, 1];
    assert numbers[0] == 0 && blocks[0].TextBlock? && TextBlockAt(0, blocks, numbers);
    assert numbers[1] == 1 && blocks[1].TextBlock? && TextBlockAt(1, blocks, numbers);
  }

  /** Two text blocks whose fragments alternate: the stream cannot be put back in block order. */
  lemma InterleavedTextDiffers()
    ensures
      var es, blocks := Alternating(), [TextBlock("ab"), TextBlock("c")];
      && Tells(es, blocks, [0, 1])
      && !Agree(es, blocks)
  {
    var es, blocks := Alternating(), [TextBlock("ab"), TextBlock("c")];
    AlternatingReads();
    AlternatingTells(es, blocks);
    assert BlockText(blocks) == "abc" by {
      assert blocks[..1] == [TextBlock("ab")] && BlockText([TextBlock("ab")]) == "ab";
    }
    assert "acb"[1] != "abc"[1];
    StreamMatchesBatch(es, blocks, [0, 1]);
  }

  lemma TextGrows(before: seq<StreamEvent>, e: StreamEvent)
    requires CarriesText(e)
    ensures AllText(before + [e]) == AllText(before) + e.text && Heads(before + [e]) == Heads(before)
    ensures forall index :: TextOf(before + [e], index) == if e.index == index then TextOf(before, index) + e.text else TextOf(before, index)
  {
    SnocParts(before, e);
    forall index ensures TextOf(before + [e], index) == if e.index == index then TextOf(before, index) + e.text else TextOf(before, index) {
      assert TextOf(before, index) + "" == TextOf(before, index);
    }
  }

  lemma {:induction false} NoHeads(blocks: seq<Block>, numbers: seq<int>)
    requires |blocks| == |numbers| && forall b :: b in blocks ==> !b.ToolBlock?
    ensures HeadsOf(blocks, numbers) == []
  {
    if blocks != [] {
      NoHeads(blocks[..|blocks| - 1], numbers[..|blocks| - 1]);
    }
  }

  /** The same for what actually reaches the client: the chunks the decoder emits. */
  lemma DecodedMatchesBatch(chunks: seq<Chunk>, es: seq<StreamEvent>, blocks: seq<Block>, numbers: seq<int>)
    requires FragmentsOf(chunks) == StreamFragments(UntilBreak(es))
    requires Tells(es, blocks, numbers) && BlocksForward(es, numbers)
    ensures UntilBreak(es) == es
    ensures ShapesOf(Output(FragmentsOf(chunks))) == Shapes(BlockText(blocks), BlockCalls(blocks)) <==> Argued(es, blocks, numbers)
  {
    NothingBreaks(es);
    OrderedStreamMatchesBatch(es, blocks, numbers);
  }

  lemma {:induction false} NothingBreaks(es: seq<StreamEvent>)
    requires forall e :: e in es ==> !Breaks(e)
    ensures UntilBreak(es) == es
  {
    if es != [] {
      NothingBreaks(es[..|es| - 1]);
    }
  }
}

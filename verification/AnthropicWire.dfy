/**
 The Anthropic stream as it is on the wire: what each kind of event says, written out kind by kind,
 and what the client is left with. Nothing here goes through the decoder's own reading of an event.
 */
module AnthropicWire {
  import opened Sequences
  import opened Responses
  import opened Streaming
  import opened Tallies
  import opened Anthropic

  /** A tool block opens. */
  predicate Opens(e: StreamEvent) {
    e.BlockStart? && e.kind == "tool_use"
  }

  /** The JSON pieces told of one block, in order. */
  function Pieces(es: seq<StreamEvent>, index: int): seq<string> {
    if es == [] then []
    else if es[0].BlockDelta? && es[0].kind == "input_json_delta" && es[0].index == index then [es[0].partialJson] + Pieces(es[1..], index)
    else Pieces(es[1..], index)
  }

  /** The text pieces, in order; a delta of no stated kind is text. */
  function TextPieces(es: seq<StreamEvent>): seq<string> {
    if es == [] then []
    else if es[0].BlockDelta? && (es[0].kind == "text_delta" || es[0].kind == "") then [es[0].text] + TextPieces(es[1..])
    else TextPieces(es[1..])
  }

  /** The calls a stream tells: for each tool block that opens, the pieces told of it from then on, joined. */
  function CallsTold(es: seq<StreamEvent>): seq<Call> {
    if es == [] then []
    else if Opens(es[0]) then [Call(es[0].id, es[0].name, Concat(Pieces(es[1..], es[0].index)))] + CallsTold(es[1..])
    else CallsTold(es[1..])
  }

  /** No block number is used for two tool blocks. */
  ghost predicate OpensOnce(es: seq<StreamEvent>) {
    forall i, j :: 0 <= i < j < |es| && Opens(es[i]) && Opens(es[j]) ==> es[i].index != es[j].index
  }

  // ---- the same, read from the other end ----

  lemma {:induction false} PiecesSnoc(es: seq<StreamEvent>, e: StreamEvent, index: int)
    ensures Pieces(es + [e], index) ==
      Pieces(es, index) + (if e.BlockDelta? && e.kind == "input_json_delta" && e.index == index then [e.partialJson] else [])
  {
    if es == [] {
      assert [] + [e] == [e] && [e][1..] == [];
    } else {
      assert (es + [e])[1..] == es[1..] + [e];
      PiecesSnoc(es[1..], e, index);
    }
  }

  lemma {:induction false} TextPiecesSnoc(es: seq<StreamEvent>, e: StreamEvent)
    ensures TextPieces(es + [e]) ==
      TextPieces(es) + (if e.BlockDelta? && (e.kind == "text_delta" || e.kind == "") then [e.text] else [])
  {
    if es == [] {
      assert [] + [e] == [e] && [e][1..] == [];
    } else {
      assert (es + [e])[1..] == es[1..] + [e];
      TextPiecesSnoc(es[1..], e);
    }
  }

  lemma ConcatSnoc(ss: seq<string>, s: string)
    ensures Concat(ss + [s]) == Concat(ss) + s
  {
    SnocParts(ss, s);
  }

  /** The text the decoder passes on is the join of the text pieces. */
  lemma {:induction false} TextOnTheWire(es: seq<StreamEvent>)
    ensures AllText(es) == Concat(TextPieces(es))
  {
    if es != [] {
      var before, e := es[..|es| - 1], es[|es| - 1];
      TextOnTheWire(before);
      assert es == before + [e];
      TextPiecesSnoc(before, e);
      assert AllText(before) + "" == AllText(before);
      if e.BlockDelta? && (e.kind == "text_delta" || e.kind == "") {
        ConcatSnoc(TextPieces(before), e.text);
      } else {
        assert TextPieces(before) + [] == TextPieces(before);
      }
    }
  }

  /** What one event adds to a block's arguments. */
  function PieceOf(e: StreamEvent, index: int): string {
    if e.BlockDelta? && e.kind == "input_json_delta" && e.index == index then e.partialJson else ""
  }

  lemma PieceDecoded(es: seq<StreamEvent>, e: StreamEvent, index: int)
    requires index in ToolIndex(es)
    ensures JsonOf(es + [e], index) == JsonOf(es, index) + PieceOf(e, index)
    ensures index in ToolIndex(es + [e])
  {
    HeadsGrow(es, e);
  }

  lemma PieceJoined(es: seq<StreamEvent>, e: StreamEvent, index: int)
    ensures Concat(Pieces(es + [e], index)) == Concat(Pieces(es, index)) + PieceOf(e, index)
  {
    PiecesSnoc(es, e, index);
    if e.BlockDelta? && e.kind == "input_json_delta" && e.index == index {
      ConcatSnoc(Pieces(es, index), e.partialJson);
    } else {
      assert Pieces(es, index) + [] == Pieces(es, index);
    }
  }

  lemma NothingYet(before: seq<StreamEvent>, start: StreamEvent)
    requires Opens(start) && start.index !in ToolIndex(before)
    ensures JsonOf(before + [start], start.index) == "" && start.index in ToolIndex(before + [start])
  {
    HeadsGrow(before, start);
    UnstartedSilent(before, start.index);
    assert JsonFor(before, start, start.index) == "";
  }

  /** The arguments the decoder joins for a block are the pieces told after its start. */
  lemma {:induction false} ArgumentsOnTheWire(before: seq<StreamEvent>, start: StreamEvent, after: seq<StreamEvent>)
    requires Opens(start) && start.index !in ToolIndex(before)
    ensures JsonOf(before + [start] + after, start.index) == Concat(Pieces(after, start.index))
    ensures start.index in ToolIndex(before + [start] + after)
  {
    if after == [] {
      assert before + [start] + [] == before + [start];
      NothingYet(before, start);
    } else {
      var n := |after| - 1;
      ArgumentsOnTheWire(before, start, after[..n]);
      assert before + [start] + after == (before + [start] + after[..n]) + [after[n]] && after == after[..n] + [after[n]];
      PieceDecoded(before + [start] + after[..n], after[n], start.index);
      PieceJoined(after[..n], after[n], start.index);
    }
  }

  lemma {:induction false} OpenedBefore(es: seq<StreamEvent>, index: int)
    ensures index in ToolIndex(es) <==> exists i :: 0 <= i < |es| && Opens(es[i]) && es[i].index == index
  {
    if es != [] {
      OpenedBefore(es[..|es| - 1], index);
    }
  }

  /** The calls told by what follows a stretch of the stream are the stream's calls from there on. */
  lemma {:induction false} CallsFrom(before: seq<StreamEvent>, after: seq<StreamEvent>)
    requires OpensOnce(before + after)
    ensures CallsOf(before + after, Heads(before + after)) == CallsOf(before + after, Heads(before)) + CallsTold(after)
    decreases |after|
  {
    var es := before + after;
    if after == [] {
      assert es == before;
    } else {
      var e, rest := after[0], after[1..];
      assert es == (before + [e]) + rest;
      CallsFrom(before + [e], rest);
      HeadsGrow(before, e);
      if Opens(e) {
        var h := Head(e.index, e.id, e.name);
        MapSnoc(x => CallOf(es, x), Heads(before), h);
        NotOpenedYet(before, e, rest);
        ArgumentsOnTheWire(before, e, rest);
        AppendAssociates(CallsOf(es, Heads(before)), [CallOf(es, h)], CallsTold(rest));
      } else {
        assert Heads(before) + [] == Heads(before);
      }
    }
  }

  lemma NotOpenedYet(before: seq<StreamEvent>, e: StreamEvent, rest: seq<StreamEvent>)
    requires OpensOnce(before + [e] + rest) && Opens(e)
    ensures e.index !in ToolIndex(before)
  {
    var es := before + [e] + rest;
    OpenedBefore(before, e.index);
    assert es[|before|] == e;
    forall i | 0 <= i < |before| && Opens(before[i]) ensures before[i].index != e.index {
      assert es[i] == before[i];
    }
  }

  lemma {:induction false} HeadsOpenOnce(es: seq<StreamEvent>)
    requires OpensOnce(es)
    ensures DistinctHeads(Heads(es))
    ensures forall k :: 0 <= k < |Heads(es)| ==> Heads(es)[k].index in ToolIndex(es)
  {
    if es != [] {
      var before, e := es[..|es| - 1], es[|es| - 1];
      HeadsOpenOnce(before);
      assert es == before + [e] + [];
      assert es == before + [e];
      HeadsGrow(before, e);
      if Opens(e) {
        NotOpenedYet(before, e, []);
      }
    }
  }

  /** The text pieces joined, if they are not all empty, then the calls told. */
  function ShapesTold(es: seq<StreamEvent>): seq<Shape> {
    (if Concat(TextPieces(es)) != "" then [TextShape(Concat(TextPieces(es)))] else []) + Map(ShapeOfCall, CallsTold(es))
  }

  /**
   What the client is left with: the text pieces joined, if they are not all empty, then a call for
   every tool block in the order they opened, its arguments the pieces told of it since, joined,
   however the events of different blocks interleave.
   */
  lemma StreamOnTheWire(es: seq<StreamEvent>)
    requires OpensOnce(es)
    ensures ShapesOf(Output(StreamFragments(es))) == ShapesTold(es)
  {
    HeadsOpenOnce(es);
    StreamTallies(es);
    TallyIsOutput(StreamFragments(es), AllText(es), CallsOf(es, Heads(es)));
    TextOnTheWire(es);
    CallsFrom([], es);
    assert [] + es == es && CallsOf(es, []) + CallsTold(es) == CallsTold(es);
  }

  /** One tool block told in any pieces among any other events: its call ends with the pieces joined. */
  lemma CallOnTheWire(before: seq<StreamEvent>, id: string, name: string, index: int, after: seq<StreamEvent>) returns (k: nat)
    requires OpensOnce(before + [BlockStart(index, "tool_use", id, name)] + after)
    ensures var told := CallsTold(before + [BlockStart(index, "tool_use", id, name)] + after);
      k < |told| && told[k] == Call(id, name, Concat(Pieces(after, index)))
  {
    var start := BlockStart(index, "tool_use", id, name);
    if before == [] {
      assert [] + [start] + after == [start] + after && ([start] + after)[1..] == after;
      k := 0;
    } else {
      var es := before + [start] + after;
      assert es[1..] == before[1..] + [start] + after;
      forall i, j | 0 <= i < j < |es[1..]| && Opens(es[1..][i]) && Opens(es[1..][j]) ensures es[1..][i].index != es[1..][j].index {
        assert es[1..][i] == es[i + 1] && es[1..][j] == es[j + 1];
      }
      k := CallOnTheWire(before[1..], id, name, index, after);
      if Opens(es[0]) {
        k := k + 1;
      }
    }
  }

  // ---- a telling, on the wire ----

  /** The tool blocks a stream opens, in order. */
  function Openings(es: seq<StreamEvent>): seq<Head> {
    if es == [] then []
    else if Opens(es[0]) then [Head(es[0].index, es[0].id, es[0].name)] + Openings(es[1..])
    else Openings(es[1..])
  }

  /** What is told of a tool block once it is open. */
  function ArgumentsTold(es: seq<StreamEvent>, index: int): string {
    if es == [] then ""
    else if Opens(es[0]) && es[0].index == index then Concat(Pieces(es[1..], index))
    else ArgumentsTold(es[1..], index)
  }

  predicate SaysText(e: StreamEvent) {
    e.BlockDelta? && (e.kind == "text_delta" || e.kind == "") && e.text != ""
  }

  /** What is told of a text block. */
  function TextTold(es: seq<StreamEvent>, index: int): string {
    if es == [] then ""
    else (if SaysText(es[0]) && es[0].index == index then es[0].text else "") + TextTold(es[1..], index)
  }

  /** The stream tells these blocks, block k under number numbers[k]: its own events say so. */
  ghost predicate TellsOnTheWire(es: seq<StreamEvent>, blocks: seq<Block>, numbers: seq<int>) {
    && |blocks| == |numbers| && Distinct(numbers)
    && (forall i :: 0 <= i < |es| ==> !es[i].ErrorEvent? && !es[i].Malformed?)
    && Openings(es) == HeadsOf(blocks, numbers)
    && (forall k :: 0 <= k < |blocks| && blocks[k].ToolBlock? ==> SpellsInput(ArgumentsTold(es, numbers[k]), blocks[k].input))
    && (forall p :: 0 <= p < |es| && SaysText(es[p]) ==> TextBlockAt(es[p].index, blocks, numbers))
    && forall k :: 0 <= k < |blocks| && blocks[k].TextBlock? ==> TextTold(es, numbers[k]) == blocks[k].text
  }

  lemma {:induction false} OpeningsAre(es: seq<StreamEvent>)
    ensures Openings(es) == Heads(es)
  {
    if es != [] {
      OpeningsAre(es[..|es| - 1]);
      OpeningsSnoc(es[..|es| - 1], es[|es| - 1]);
      assert es == es[..|es| - 1] + [es[|es| - 1]];
    }
  }

  lemma {:induction false} OpeningsSnoc(es: seq<StreamEvent>, e: StreamEvent)
    ensures Openings(es + [e]) == Openings(es) + (if Opens(e) then [Head(e.index, e.id, e.name)] else [])
  {
    if es == [] {
      assert [] + [e] == [e] && [e][1..] == [];
    } else {
      assert (es + [e])[1..] == es[1..] + [e];
      OpeningsSnoc(es[1..], e);
    }
  }

  lemma {:induction false} TextToldSnoc(es: seq<StreamEvent>, e: StreamEvent, index: int)
    ensures TextTold(es + [e], index) == TextTold(es, index) + (if SaysText(e) && e.index == index then e.text else "")
  {
    if es == [] {
      assert [] + [e] == [e] && [e][1..] == [];
    } else {
      var first := if SaysText(es[0]) && es[0].index == index then es[0].text else "";
      assert (es + [e])[1..] == es[1..] + [e];
      TextToldSnoc(es[1..], e, index);
      AppendAssociates(first, TextTold(es[1..], index), if SaysText(e) && e.index == index then e.text else "");
    }
  }

  lemma {:induction false} TextToldIs(es: seq<StreamEvent>, index: int)
    ensures TextTold(es, index) == TextOf(es, index)
  {
    if es != [] {
      TextToldIs(es[..|es| - 1], index);
      TextToldSnoc(es[..|es| - 1], es[|es| - 1], index);
      assert es == es[..|es| - 1] + [es[|es| - 1]];
    }
  }

  /** Where a block opens: nothing before, then its start, then the rest. */
  lemma {:induction false} OpeningOf(before: seq<StreamEvent>, after: seq<StreamEvent>, index: int)
    requires OpensOnce(before + after) && index !in ToolIndex(before)
    ensures index in ToolIndex(before + after) ==> JsonOf(before + after, index) == ArgumentsTold(after, index)
    decreases |after|
  {
    if after == [] {
      assert before + after == before;
    } else {
      var e, rest := after[0], after[1..];
      assert before + after == (before + [e]) + rest;
      if Opens(e) && e.index == index {
        ArgumentsOnTheWire(before, e, rest);
      } else {
        HeadsGrow(before, e);
        OpeningOf(before + [e], rest, index);
      }
    }
  }

  /** Distinct block numbers are distinct openings. */
  lemma {:induction false} DistinctOpenings(es: seq<StreamEvent>)
    requires DistinctHeads(Openings(es))
    ensures OpensOnce(es)
  {
    if es != [] {
      var rest := es[1..];
      var hs, more := Openings(es), Openings(rest);
      if Opens(es[0]) {
        assert forall k :: 0 <= k < |more| ==> more[k] == hs[k + 1];
      }
      DistinctOpenings(rest);
      forall i, j | 0 <= i < j < |es| && Opens(es[i]) && Opens(es[j]) ensures es[i].index != es[j].index {
        assert es[j] == rest[j - 1];
        if i == 0 {
          var k := OpeningAt(rest, j - 1);
          assert hs[0].index == es[0].index && hs[k + 1] == more[k];
        } else {
          assert es[i] == rest[i - 1];
        }
      }
    }
  }

  lemma {:induction false} OpeningAt(es: seq<StreamEvent>, i: nat) returns (k: nat)
    requires i < |es| && Opens(es[i])
    ensures k < |Openings(es)| && Openings(es)[k].index == es[i].index
  {
    if i == 0 {
      k := 0;
    } else {
      k := OpeningAt(es[1..], i - 1);
      if Opens(es[0]) {
        k := k + 1;
      }
    }
  }

  lemma HeadOpened(es: seq<StreamEvent>, blocks: seq<Block>, numbers: seq<int>, k: nat)
    requires |blocks| == |numbers| && k < |blocks| && blocks[k].ToolBlock? && Heads(es) == HeadsOf(blocks, numbers)
    requires DistinctHeads(Heads(es))
    ensures numbers[k] in ToolIndex(es)
  {
    TableCounts(es);
    var j := HeadOfBlock(blocks, numbers, k);
    assert Heads(es)[j].index == numbers[k];
  }

  lemma {:induction false} HeadOfBlock(blocks: seq<Block>, numbers: seq<int>, k: nat) returns (j: nat)
    requires |blocks| == |numbers| && k < |blocks| && blocks[k].ToolBlock?
    ensures j < |HeadsOf(blocks, numbers)| && HeadsOf(blocks, numbers)[j].index == numbers[k]
  {
    var n := |blocks| - 1;
    if k == n {
      j := |HeadsOf(blocks[..n], numbers[..n])|;
    } else {
      j := HeadOfBlock(blocks[..n], numbers[..n], k);
    }
  }

  lemma ToolsTold(es: seq<StreamEvent>, blocks: seq<Block>, numbers: seq<int>)
    requires |blocks| == |numbers| && Distinct(numbers) && Heads(es) == HeadsOf(blocks, numbers)
    ensures OpensOnce(es)
    ensures forall k :: 0 <= k < |blocks| && blocks[k].ToolBlock? ==> JsonOf(es, numbers[k]) == ArgumentsTold(es, numbers[k])
  {
    HeadsDistinct(blocks, numbers);
    OpeningsAre(es);
    DistinctOpenings(es);
    assert [] + es == es;
    forall k | 0 <= k < |blocks| && blocks[k].ToolBlock? ensures JsonOf(es, numbers[k]) == ArgumentsTold(es, numbers[k]) {
      HeadOpened(es, blocks, numbers, k);
      OpeningOf([], es, numbers[k]);
    }
  }

  lemma BreaksTold(es: seq<StreamEvent>)
    ensures (forall e :: e in es ==> !Breaks(e)) <==> (forall i :: 0 <= i < |es| ==> !es[i].ErrorEvent? && !es[i].Malformed?)
  {
    forall i | 0 <= i < |es| ensures es[i] in es && Breaks(es[i]) == (es[i].ErrorEvent? || es[i].Malformed?) {}
  }

  lemma TextsTold(es: seq<StreamEvent>, blocks: seq<Block>, numbers: seq<int>)
    requires |blocks| == |numbers|
    ensures TellsText(es, blocks, numbers) <==>
      (forall p :: 0 <= p < |es| && SaysText(es[p]) ==> TextBlockAt(es[p].index, blocks, numbers))
      && (forall k :: 0 <= k < |blocks| && blocks[k].TextBlock? ==> TextTold(es, numbers[k]) == blocks[k].text)
  {
    forall k | 0 <= k < |blocks| ensures TextTold(es, numbers[k]) == TextOf(es, numbers[k]) {
      TextToldIs(es, numbers[k]);
    }
    forall p | 0 <= p < |es| ensures SaysText(es[p]) == CarriesText(es[p]) {}
  }

  /** What the decoder's reading makes a telling is exactly what the events themselves tell. */
  lemma TellsIsOnTheWire(es: seq<StreamEvent>, blocks: seq<Block>, numbers: seq<int>)
    ensures Tells(es, blocks, numbers) <==> TellsOnTheWire(es, blocks, numbers)
    ensures Tells(es, blocks, numbers) ==> OpensOnce(es)
  {
    OpeningsAre(es);
    if |blocks| == |numbers| && Distinct(numbers) && Heads(es) == HeadsOf(blocks, numbers) {
      ToolsTold(es, blocks, numbers);
      BreaksTold(es);
      TextsTold(es, blocks, numbers);
    }
  }

  /** The stream is read up to the first error or malformed event, and not beyond. */
  lemma {:induction false} ReadUntilBroken(es: seq<StreamEvent>)
    ensures UntilBreak(es) <= es
    ensures forall i :: 0 <= i < |UntilBreak(es)| ==> !es[i].ErrorEvent? && !es[i].Malformed?
    ensures |UntilBreak(es)| < |es| ==> es[|UntilBreak(es)|].ErrorEvent? || es[|UntilBreak(es)|].Malformed?
  {
    if es != [] {
      ReadUntilBroken(es[..|es| - 1]);
    }
  }
}

/**
 What a list of fragments amounts to: one text and an ordered list of calls. A decoder that numbers
 its calls by a running count keeps such a tally, and the tally alone decides the finished output.
 */
module Tallies {
  import opened Sequences
  import opened Responses
  import opened Streaming

  datatype Call = Call(id: string, name: string, arguments: string)

  /** A completed answer as the provider clients return it. */
  datatype Answer = Answer(text: string, calls: seq<Call>)

  /** An output item without its minted ids. */
  datatype Shape = TextShape(text: string) | CallShape(id: Option<string>, name: string, arguments: string)

  function ShapeOf(item: Item): Shape {
    match item
    case MessageItem(_, _, text) => TextShape(text)
    case CallItem(_, _, callId, name, arguments) => CallShape(if callId.Given? then Some(callId.id) else None, name, arguments)
  }

  function ShapesOf(items: seq<Item>): seq<Shape> {
    Map(ShapeOf, items)
  }

  function ShapeOfCall(c: Call): Shape {
    CallShape(if c.id == "" then None else Some(c.id), c.name, c.arguments)
  }

  /** The output a text and its calls deserve: no message for an empty text. */
  function Shapes(text: string, calls: seq<Call>): seq<Shape> {
    (if text != "" then [TextShape(text)] else []) + Map(ShapeOfCall, calls)
  }

  /** The fragments spell the answer's text and calls, call k numbered k. */
  ghost predicate AddsUp(fs: seq<Fragment>, whole: Answer) {
    match whole
    case Answer(text, calls) =>
      && Content(fs, TextSlot) == text
      && (TextSlot in Opened(fs) <==> text != "")
      && CallKeys(Opened(fs)) == Keys(|calls|)
      && forall k :: 0 <= k < |calls| ==> Spelled(fs, k, calls[k])
  }

  function Keys(n: nat): seq<int> {
    seq(n, i => i)
  }

  ghost predicate Spelled(fs: seq<Fragment>, key: int, c: Call) {
    IdOf(fs, key) == c.id && NameOf(fs, key) == c.name && Content(fs, CallSlot(key)) == c.arguments
  }

  lemma NothingTallied()
    ensures AddsUp([], Answer("", []))
  {}

  /** A fragment of something else leaves a call as it was. */
  lemma SpelledOn(fs: seq<Fragment>, f: Fragment, key: int, c: Call)
    requires Spelled(fs, key, c) && SlotOf(f) != CallSlot(key)
    ensures Spelled(fs + [f], key, c)
  {
    SnocParts(fs, f);
    ContentSnoc(fs, f, CallSlot(key));
  }

  lemma TallyText(fs: seq<Fragment>, text: string, calls: seq<Call>, piece: string)
    requires AddsUp(fs, Answer(text, calls)) && piece != ""
    ensures AddsUp(fs + [TextPiece(piece)], Answer(text + piece, calls))
  {
    var f := TextPiece(piece);
    FragmentSnoc(fs, f);
    ContentSnoc(fs, f, TextSlot);
    OrderSnoc(fs, f);
    forall k | 0 <= k < |calls| ensures Spelled(fs + [f], k, calls[k]) {
      SpelledOn(fs, f, k, calls[k]);
    }
  }

  lemma TextUntouched(fs: seq<Fragment>, text: string, f: Fragment)
    requires Content(fs, TextSlot) == text && (TextSlot in Opened(fs) <==> text != "") && f.CallPiece?
    ensures Content(fs + [f], TextSlot) == text && (TextSlot in Opened(fs + [f]) <==> text != "")
  {
    FragmentSnoc(fs, f);
    ContentSnoc(fs, f, TextSlot);
  }

  lemma FirstPiece(fs: seq<Fragment>, key: int, c: Call)
    requires CallSlot(key) !in Opened(fs)
    ensures Spelled(fs + [CallPiece(key, c.id, c.name, c.arguments)], key, c)
  {
    var f := CallPiece(key, c.id, c.name, c.arguments);
    NeverNamed(fs, key);
    ClosedSlotsSilent(fs, CallSlot(key));
    ContentSnoc(fs, f, CallSlot(key));
    SnocParts(fs, f);
  }

  /** A call numbered by the running count is new. */
  lemma NextKey(fs: seq<Fragment>, n: nat)
    requires CallKeys(Opened(fs)) == Keys(n)
    ensures CallSlot(n) !in Opened(fs)
    ensures forall k :: 0 <= k < n ==> CallSlot(k) in Opened(fs)
    ensures Keys(n) + [n] == Keys(n + 1)
  {
    CallKeysIn(Opened(fs));
    assert n !in Keys(n);
    forall k | 0 <= k < n ensures CallSlot(k) in Opened(fs) {
      assert Keys(n)[k] == k;
    }
  }

  lemma TallyStart(fs: seq<Fragment>, text: string, calls: seq<Call>, c: Call)
    requires AddsUp(fs, Answer(text, calls))
    ensures AddsUp(fs + [CallPiece(|calls|, c.id, c.name, c.arguments)], Answer(text, calls + [c]))
  {
    var n := |calls|;
    var f := CallPiece(n, c.id, c.name, c.arguments);
    TextUntouched(fs, text, f);
    NextKey(fs, n);
    OrderSnoc(fs, f);
    FirstPiece(fs, n, c);
    forall k | 0 <= k < n + 1 ensures Spelled(fs + [f], k, (calls + [c])[k]) {
      if k < n {
        SpelledOn(fs, f, k, calls[k]);
      }
    }
  }

  lemma TallyArguments(fs: seq<Fragment>, text: string, calls: seq<Call>, k: nat, piece: string)
    requires AddsUp(fs, Answer(text, calls)) && k < |calls|
    ensures AddsUp(fs + [CallPiece(k, "", "", piece)], Answer(text, calls[k := calls[k].(arguments := calls[k].arguments + piece)]))
  {
    var f := CallPiece(k, "", "", piece);
    var after := calls[k := calls[k].(arguments := calls[k].arguments + piece)];
    TextUntouched(fs, text, f);
    OrderSnoc(fs, f);
    NextKey(fs, |calls|);
    forall j | 0 <= j < |after| ensures Spelled(fs + [f], j, after[j]) {
      if j != k {
        SpelledOn(fs, f, j, calls[j]);
      } else {
        ContentSnoc(fs, f, CallSlot(k));
        SnocParts(fs, f);
      }
    }
  }

  lemma FinalShape(fs: seq<Fragment>, key: int, c: Call)
    requires CallSlot(key) in Opened(fs) && Spelled(fs, key, c)
    ensures ShapeOf(FinalCall(fs, key)) == ShapeOfCall(c)
  {}

  lemma {:induction false} CallsInOrder(fs: seq<Fragment>, keys: seq<int>, calls: seq<Call>)
    requires |keys| == |calls| && forall key :: key in keys ==> CallSlot(key) in Opened(fs)
    requires forall k :: 0 <= k < |keys| ==> Spelled(fs, keys[k], calls[k])
    ensures ShapesOf(FinalCalls(fs, keys)) == Map(ShapeOfCall, calls)
  {
    if keys != [] {
      var n := |keys| - 1;
      CallsInOrder(fs, keys[..n], calls[..n]);
      LastShape(fs, keys, calls);
    }
  }

  lemma LastFinal(fs: seq<Fragment>, keys: seq<int>)
    requires keys != [] && forall key :: key in keys ==> CallSlot(key) in Opened(fs)
    ensures var n := |keys| - 1;
      ShapesOf(FinalCalls(fs, keys)) == ShapesOf(FinalCalls(fs, keys[..n])) + [ShapeOf(FinalCall(fs, keys[n]))]
  {
    var n := |keys| - 1;
    MapSnoc(ShapeOf, FinalCalls(fs, keys[..n]), FinalCall(fs, keys[n]));
  }

  lemma LastCallShape(calls: seq<Call>)
    requires calls != []
    ensures Map(ShapeOfCall, calls) == Map(ShapeOfCall, calls[..|calls| - 1]) + [ShapeOfCall(calls[|calls| - 1])]
  {
    var n := |calls| - 1;
    MapSnoc(ShapeOfCall, calls[..n], calls[n]);
    assert calls == calls[..n] + [calls[n]];
  }

  lemma LastShape(fs: seq<Fragment>, keys: seq<int>, calls: seq<Call>)
    requires |keys| == |calls| > 0 && forall key :: key in keys ==> CallSlot(key) in Opened(fs)
    requires Spelled(fs, keys[|keys| - 1], calls[|keys| - 1])
    ensures ShapesOf(FinalCalls(fs, keys)) == ShapesOf(FinalCalls(fs, keys[..|keys| - 1])) + [ShapeOfCall(calls[|keys| - 1])]
    ensures Map(ShapeOfCall, calls) == Map(ShapeOfCall, calls[..|keys| - 1]) + [ShapeOfCall(calls[|keys| - 1])]
  {
    FinalShape(fs, keys[|keys| - 1], calls[|keys| - 1]);
    LastFinal(fs, keys);
    LastCallShape(calls);
  }

  /** The finished output of a run is the tally of its fragments. */
  lemma TallyIsOutput(fs: seq<Fragment>, text: string, calls: seq<Call>)
    requires AddsUp(fs, Answer(text, calls))
    ensures ShapesOf(Output(fs)) == Shapes(text, calls)
  {
    var keys := CallKeys(Opened(fs));
    CallKeysIn(Opened(fs));
    assert forall k :: 0 <= k < |keys| ==> keys[k] == k;
    CallsInOrder(fs, keys, calls);
    TextThenCalls(fs, text, FinalCalls(fs, keys));
  }

  lemma TextThenCalls(fs: seq<Fragment>, text: string, items: seq<Item>)
    requires Content(fs, TextSlot) == text && (TextSlot in Opened(fs) <==> text != "")
    ensures ShapesOf((if TextSlot in Opened(fs) then [FinalText(fs)] else []) + items) ==
      (if text != "" then [TextShape(text)] else []) + ShapesOf(items)
  {}

  // ---- the batch form ----

  /** The body of a call that was not streamed: text if there is any, then the calls; ids are minted by place. */
  method ResponsesFromChat(answer: Answer) returns (output: seq<Item>)
    ensures ShapesOf(output) == Shapes(answer.text, answer.calls)
    ensures forall i :: 0 <= i < |output| ==> output[i].id.index == i && output[i].status == "completed"
  {
    output := [];
    if answer.text != "" {
      output := output + [MessageItem(ItemId("msg_", 0), "completed", answer.text)];
    }
    ghost var text := ShapesOf(output);
    for i := 0 to |answer.calls|
      invariant ShapesOf(output) == text + Map(ShapeOfCall, answer.calls[..i])
      invariant forall j :: 0 <= j < |output| ==> output[j].id.index == j && output[j].status == "completed"
    {
      var c := answer.calls[i];
      var callId := Given(c.id);
      if c.id == "" {
        callId := Minted(|output|);
      }
      var item := CallItem(ItemId("fc_", |output|), "completed", callId, c.name, c.arguments);
      MapSnoc(ShapeOf, output, item);
      MapSnoc(ShapeOfCall, answer.calls[..i], c);
      assert answer.calls[..i + 1] == answer.calls[..i] + [c];
      output := output + [item];
    }
    assert answer.calls[..|answer.calls|] == answer.calls;
  }

  /** Equal shapes come only from equal texts and equal calls. */
  lemma ShapesDiffer(text: string, calls: seq<Call>, text': string, calls': seq<Call>)
    requires Shapes(text, calls) == Shapes(text', calls')
    ensures text == text' && calls == calls'
  {
    var a, b := Shapes(text, calls), Shapes(text', calls');
    var da, db := if text == "" then 0 else 1, if text' == "" then 0 else 1;
    if text != "" {
      assert a[0] == TextShape(text);
    }
    if text' != "" {
      assert b[0] == TextShape(text');
    }
    if text == "" && a != [] {
      assert a[0] == ShapeOfCall(calls[0]);
    }
    if text' == "" && b != [] {
      assert b[0] == ShapeOfCall(calls'[0]);
    }
    assert da == db;
    assert |calls| == |a| - da && |calls'| == |b| - db;
    forall k | 0 <= k < |calls| ensures calls[k] == calls'[k] {
      assert a[k + da] == ShapeOfCall(calls[k]) && b[k + da] == ShapeOfCall(calls'[k]);
    }
  }
}

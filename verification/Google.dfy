/**
 Google answers, whole and streamed. Each streamed chunk is a small answer of its own; calls come
 whole and are numbered by a running count across chunks.
 */
module Google {
  import opened Sequences
  import opened Responses
  import opened Streaming
  import opened Tallies

  datatype FunctionCall = FunctionCall(id: string, name: string, args: string)

  datatype Part = Part(text: string, call: Option<FunctionCall>)

  /** A response carries the parts of its first candidate, if it has one. */
  datatype GoogleChunk = GoogleChunk(parts: Option<seq<Part>>) | MalformedChunk

  /** The id minted for the n-th call that came without one. */
  type Minter = nat -> string

  function TextIn(parts: seq<Part>): string {
    if parts == [] then "" else TextIn(parts[..|parts| - 1]) + parts[|parts| - 1].text
  }

  function CallIn(call: FunctionCall, mint: Minter, n: nat): Call {
    Call(if call.id == "" then mint(n) else call.id, call.name, if call.args == "" then "{}" else call.args)
  }

  /** The calls among the parts, numbered from `base`. */
  function CallsIn(parts: seq<Part>, mint: Minter, base: nat): seq<Call> {
    if parts == [] then []
    else
      var before, last := CallsIn(parts[..|parts| - 1], mint, base), parts[|parts| - 1];
      if last.call.Some? then before + [CallIn(last.call.value, mint, base + |before|)] else before
  }

  /** A call's arguments are never empty, and it never comes without an id. */
  method ToolCalls(parts: seq<Part>, mint: Minter, base: nat) returns (calls: seq<Call>)
    requires forall n :: mint(n) != ""
    ensures calls == CallsIn(parts, mint, base)
    ensures forall c :: c in calls ==> c.id != "" && c.arguments != ""
  {
    calls := [];
    for i := 0 to |parts|
      invariant calls == CallsIn(parts[..i], mint, base)
      invariant forall c :: c in calls ==> c.id != "" && c.arguments != ""
    {
      assert parts[..i + 1][..i] == parts[..i];
      if parts[i].call.Some? {
        var call := parts[i].call.value;
        var id := call.id;
        if id == "" {
          id := mint(base + |calls|);
        }
        var args := call.args;
        if args == "" {
          args := "{}";
        }
        calls := calls + [Call(id, call.name, args)];
      }
    }
    assert parts[..|parts|] == parts;
  }

  /** A whole answer; a response without candidates is an error. */
  method DecodeResponse(response: GoogleChunk, mint: Minter) returns (answer: Option<Answer>)
    requires forall n :: mint(n) != ""
    ensures answer == if response.GoogleChunk? && response.parts.Some? then
      Some(Answer(TextIn(response.parts.value), CallsIn(response.parts.value, mint, 0))) else None
  {
    if response.MalformedChunk? || response.parts.None? {
      return None;
    }
    var parts, text := response.parts.value, "";
    for i := 0 to |parts|
      invariant text == TextIn(parts[..i])
    {
      assert parts[..i + 1][..i] == parts[..i];
      text := text + parts[i].text;
    }
    assert parts[..|parts|] == parts;
    var calls := ToolCalls(parts, mint, 0);
    answer := Some(Answer(text, calls));
  }

  // ---- the stream ----

  function CallTotal(chunks: seq<GoogleChunk>, mint: Minter): nat {
    |StreamCalls(chunks, mint)|
  }

  function PartsOf(c: GoogleChunk): seq<Part> {
    if c.GoogleChunk? && c.parts.Some? then c.parts.value else []
  }

  /** Some chunk brought a candidate. */
  predicate Answered(chunks: seq<GoogleChunk>) {
    chunks != [] && (Answered(chunks[..|chunks| - 1]) || (chunks[|chunks| - 1].GoogleChunk? && chunks[|chunks| - 1].parts.Some?))
  }

  lemma AnsweredSnoc(chunks: seq<GoogleChunk>, i: nat)
    requires i < |chunks|
    ensures Answered(chunks[..i + 1]) <==> Answered(chunks[..i]) || (chunks[i].GoogleChunk? && chunks[i].parts.Some?)
  {
    assert chunks[..i + 1][..i] == chunks[..i];
  }

  /** Every part the stream brought, in order. */
  function AllParts(chunks: seq<GoogleChunk>): seq<Part> {
    if chunks == [] then [] else AllParts(chunks[..|chunks| - 1]) + PartsOf(chunks[|chunks| - 1])
  }

  function StreamCalls(chunks: seq<GoogleChunk>, mint: Minter): seq<Call> {
    CallsIn(AllParts(chunks), mint, 0)
  }

  function Indexed(calls: seq<Call>, base: nat): seq<ToolCall> {
    seq(|calls|, i requires 0 <= i < |calls| => ToolCall(Some(base + i), calls[i].id, calls[i].name, calls[i].arguments))
  }

  /** What a stream of these chunks must deliver: per chunk its text, then its calls under the next free numbers. */
  function StreamFragments(chunks: seq<GoogleChunk>, mint: Minter): seq<Fragment> {
    if chunks == [] then []
    else
      var before := chunks[..|chunks| - 1];
      StreamFragments(before, mint) + ChunkFragments(PartsOf(chunks[|chunks| - 1]), mint, CallTotal(before, mint))
  }

  function ChunkFragments(parts: seq<Part>, mint: Minter, base: nat): seq<Fragment> {
    DeltaFragments(Some(Delta("", TextIn(parts), Indexed(CallsIn(parts, mint, base), base))))
  }

  function UntilMalformed(chunks: seq<GoogleChunk>): seq<GoogleChunk> {
    if chunks == [] then []
    else
      var before := UntilMalformed(chunks[..|chunks| - 1]);
      if |before| < |chunks| - 1 || chunks[|chunks| - 1].MalformedChunk? then before else chunks
  }

  /** Puts the running index on each call of one chunk. */
  method NumberCalls(found: seq<Call>, base: nat) returns (numbered: seq<ToolCall>, calls: nat)
    ensures numbered == Indexed(found, base) && calls == base + |found|
  {
    numbered, calls := [], base;
    for i := 0 to |found|
      invariant calls == base + i && numbered == Indexed(found, base)[..i]
    {
      numbered := numbered + [ToolCall(Some(calls), found[i].id, found[i].name, found[i].arguments)];
      calls := calls + 1;
    }
  }

  /** One chunk of the stream: its text and its numbered calls in one delta, the role on the first. */
  method EmitChunk(out: seq<Chunk>, first: bool, model: string, parts: seq<Part>, mint: Minter, calls: nat)
    returns (out': seq<Chunk>, calls': nat)
    requires forall n :: mint(n) != ""
    ensures FragmentsOf(out') == FragmentsOf(out) + ChunkFragments(parts, mint, calls)
    ensures calls' == calls + |CallsIn(parts, mint, calls)|
    ensures RolesOf(out') == RolesOf(out) + (if first then ["assistant"] else [])
  {
    var found := ToolCalls(parts, mint, calls);
    var numbered;
    numbered, calls' := NumberCalls(found, calls);
    var text := JoinText(parts);
    var delta := Delta(if first then "assistant" else "", text, numbered);
    SnocParts(out, Chunk(model, None, [Some(delta)]));
    assert ChoiceFragments([Some(delta)]) == DeltaFragments(Some(delta));
    assert ChoiceRoles([Some(delta)]) == if first then ["assistant"] else [];
    out' := out + [Chunk(model, None, [Some(delta)])];
  }

  method DecodeStream(model: string, chunks: seq<GoogleChunk>, mint: Minter) returns (out: seq<Chunk>, err: Option<string>)
    requires forall n :: mint(n) != ""
    ensures FragmentsOf(out) == StreamFragments(UntilMalformed(chunks), mint)
    ensures RolesOf(out) == if Answered(UntilMalformed(chunks)) then ["assistant"] else []
    ensures err.None? <==> UntilMalformed(chunks) == chunks
  {
    out, err := [], None;
    var first, calls := true, 0;
    for i := 0 to |chunks|
      invariant err.None? && UntilMalformed(chunks[..i]) == chunks[..i]
      invariant calls == CallTotal(chunks[..i], mint)
      invariant FragmentsOf(out) == StreamFragments(chunks[..i], mint)
      invariant first <==> !Answered(chunks[..i])
      invariant RolesOf(out) == if first then [] else ["assistant"]
    {
      OneMoreChunk(chunks, mint, i);
      AnsweredSnoc(chunks, i);
      if chunks[i].MalformedChunk? {
        MalformedStays(chunks, i);
        err := Some("malformed stream chunk");
        return;
      }
      if chunks[i].parts.Some? {
        out, calls := EmitChunk(out, first, model, chunks[i].parts.value, mint, calls);
        first := false;
      } else {
        NoParts(mint, calls);
      }
    }
    assert chunks[..|chunks|] == chunks;
  }

  method JoinText(parts: seq<Part>) returns (text: string)
    ensures text == TextIn(parts)
  {
    text := "";
    for i := 0 to |parts|
      invariant text == TextIn(parts[..i])
    {
      assert parts[..i + 1][..i] == parts[..i];
      text := text + parts[i].text;
    }
    assert parts[..|parts|] == parts;
  }

  lemma NoParts(mint: Minter, base: nat)
    ensures ChunkFragments([], mint, base) == []
  {}

  lemma {:induction false} MalformedStays(chunks: seq<GoogleChunk>, i: nat)
    requires i < |chunks| && chunks[i].MalformedChunk? && UntilMalformed(chunks[..i]) == chunks[..i]
    ensures UntilMalformed(chunks) == chunks[..i] && UntilMalformed(chunks) != chunks
  {
    if i < |chunks| - 1 {
      assert chunks[..|chunks| - 1][..i] == chunks[..i];
      MalformedStays(chunks[..|chunks| - 1], i);
    }
  }

  lemma {:induction false} NothingMalformed(chunks: seq<GoogleChunk>)
    requires forall c :: c in chunks ==> c.GoogleChunk?
    ensures UntilMalformed(chunks) == chunks
  {
    if chunks != [] {
      NothingMalformed(chunks[..|chunks| - 1]);
      assert chunks[|chunks| - 1] in chunks;
    }
  }

  function CallOfPart(p: Part, mint: Minter, n: nat): seq<Call> {
    if p.call.Some? then [CallIn(p.call.value, mint, n)] else []
  }

  lemma PartsSnoc(parts: seq<Part>, p: Part, mint: Minter, base: nat)
    ensures CallsIn(parts + [p], mint, base) == CallsIn(parts, mint, base) + CallOfPart(p, mint, base + |CallsIn(parts, mint, base)|)
    ensures TextIn(parts + [p]) == TextIn(parts) + p.text
  {
    SnocParts(parts, p);
  }

  lemma {:induction false} TextAppend(a: seq<Part>, b: seq<Part>)
    ensures TextIn(a + b) == TextIn(a) + TextIn(b)
  {
    if b == [] {
      assert a + b == a;
    } else {
      var b', last := b[..|b| - 1], b[|b| - 1];
      TextAppend(a, b');
      assert a + b == (a + b') + [last];
      SnocParts(a + b', last);
      AppendAssociates(TextIn(a), TextIn(b'), last.text);
    }
  }

  lemma Rejoined(whole: seq<Call>, first: seq<Call>, more: seq<Call>, last: seq<Call>, tail: seq<Call>)
    requires whole == (first + more) + last && tail == more + last
    ensures whole == first + tail
  {
    AppendAssociates(first, more, last);
  }

  lemma CallsSnoc(parts: seq<Part>, p: Part, mint: Minter, base: nat, before: seq<Call>, n: nat) returns (last: seq<Call>)
    requires before == CallsIn(parts, mint, base) && n == base + |before|
    ensures last == CallOfPart(p, mint, n) && CallsIn(parts + [p], mint, base) == before + last
  {
    PartsSnoc(parts, p, mint, base);
    last := CallOfPart(p, mint, n);
  }

  lemma CallsAppendOne(first: seq<Call>, base: nat, more: seq<Call>, a: seq<Part>, b: seq<Part>, p: Part, mint: Minter)
    requires base == |first| && more == CallsIn(b, mint, base) && CallsIn(a + b, mint, 0) == first + more
    ensures CallsIn(a + b + [p], mint, 0) == first + CallsIn(b + [p], mint, base)
  {
    var n := base + |more|;
    var last := CallsSnoc(a + b, p, mint, 0, first + more, n);
    var last' := CallsSnoc(b, p, mint, base, more, n);
    Rejoined(CallsIn(a + b + [p], mint, 0), first, more, last, CallsIn(b + [p], mint, base));
  }

  lemma {:induction false} CallsAppend(a: seq<Part>, b: seq<Part>, mint: Minter)
    ensures CallsIn(a + b, mint, 0) == CallsIn(a, mint, 0) + CallsIn(b, mint, |CallsIn(a, mint, 0)|)
  {
    if b == [] {
      assert a + b == a;
    } else {
      var n := |b| - 1;
      CallsAppend(a, b[..n], mint);
      var first := CallsIn(a, mint, 0);
      CallsAppendOne(first, |first|, CallsIn(b[..n], mint, |first|), a, b[..n], b[n], mint);
      assert b == b[..n] + [b[n]] && a + b == a + b[..n] + [b[n]];
    }
  }

  lemma OneMoreChunk(chunks: seq<GoogleChunk>, mint: Minter, i: nat)
    requires i < |chunks|
    ensures StreamFragments(chunks[..i + 1], mint) ==
      StreamFragments(chunks[..i], mint) + ChunkFragments(PartsOf(chunks[i]), mint, CallTotal(chunks[..i], mint))
    ensures CallTotal(chunks[..i + 1], mint) ==
      CallTotal(chunks[..i], mint) + |CallsIn(PartsOf(chunks[i]), mint, CallTotal(chunks[..i], mint))|
    ensures UntilMalformed(chunks[..i]) == chunks[..i] && !chunks[i].MalformedChunk? ==> UntilMalformed(chunks[..i + 1]) == chunks[..i + 1]
  {
    assert chunks[..i + 1][..i] == chunks[..i];
    CallsAppend(AllParts(chunks[..i]), PartsOf(chunks[i]), mint);
  }

  /** The whole calls of one chunk as fragments, numbered from `base`. */
  function CallPieces(calls: seq<Call>, base: nat): seq<Fragment> {
    if calls == [] then []
    else
      var n, last := |calls| - 1, calls[|calls| - 1];
      CallPieces(calls[..n], base) + [CallPiece(base + n, last.id, last.name, last.arguments)]
  }

  lemma {:induction false} IndexedPieces(calls: seq<Call>, base: nat)
    ensures CallFragments(Indexed(calls, base)) == CallPieces(calls, base)
  {
    if calls != [] {
      var n := |calls| - 1;
      IndexedPieces(calls[..n], base);
      assert Indexed(calls, base)[..n] == Indexed(calls[..n], base);
    }
  }

  /** Calls that arrive whole, numbered from the running count, join the tally in order. */
  lemma {:induction false} CallsTallied(fs: seq<Fragment>, text: string, calls: seq<Call>, more: seq<Call>)
    returns (fs': seq<Fragment>, calls': seq<Call>)
    requires AddsUp(fs, Answer(text, calls))
    ensures AddsUp(fs', Answer(text, calls'))
    ensures fs' == fs + CallPieces(more, |calls|) && calls' == calls + more
  {
    if more == [] {
      fs', calls' := fs, calls;
    } else {
      var n, last := |more| - 1, more[|more| - 1];
      fs', calls' := CallsTallied(fs, text, calls, more[..n]);
      LastOf(calls, more);
      LastPiece(fs, more, |calls|);
      TallyStart(fs', text, calls', last);
      fs', calls' := fs' + [CallPiece(|calls'|, last.id, last.name, last.arguments)], calls' + [last];
    }
  }

  lemma LastOf<T>(a: seq<T>, b: seq<T>)
    requires b != []
    ensures (a + b[..|b| - 1]) + [b[|b| - 1]] == a + b
    ensures |a + b[..|b| - 1]| == |a| + |b| - 1
  {}

  lemma LastPiece(fs: seq<Fragment>, more: seq<Call>, base: nat)
    requires more != []
    ensures
      var n, last := |more| - 1, more[|more| - 1];
      (fs + CallPieces(more[..n], base)) + [CallPiece(base + n, last.id, last.name, last.arguments)] == fs + CallPieces(more, base)
  {
    var n, last := |more| - 1, more[|more| - 1];
    AppendAssociates(fs, CallPieces(more[..n], base), [CallPiece(base + n, last.id, last.name, last.arguments)]);
  }

  lemma ChunkTallied(fs: seq<Fragment>, text: string, calls: seq<Call>, parts: seq<Part>, mint: Minter)
    returns (fs': seq<Fragment>, whole: Answer)
    requires AddsUp(fs, Answer(text, calls))
    ensures AddsUp(fs', whole)
    ensures fs' == fs + ChunkFragments(parts, mint, |calls|) && whole == Answer(text + TextIn(parts), calls + CallsIn(parts, mint, |calls|))
  {
    var more := CallsIn(parts, mint, |calls|);
    DeltaParts(fs, Delta("", TextIn(parts), Indexed(more, |calls|)));
    IndexedPieces(more, |calls|);
    var fs0 := fs;
    if TextIn(parts) != "" {
      TallyText(fs, text, calls, TextIn(parts));
      fs0 := fs + [TextPiece(TextIn(parts))];
    }
    var calls';
    fs', calls' := CallsTallied(fs0, text + TextIn(parts), calls, more);
    whole := Answer(text + TextIn(parts), calls');
  }

  lemma {:induction false} StreamTallies(chunks: seq<GoogleChunk>, mint: Minter)
    ensures AddsUp(StreamFragments(chunks, mint), Answer(TextIn(AllParts(chunks)), StreamCalls(chunks, mint)))
  {
    if chunks == [] {
      NothingTallied();
    } else {
      var before, parts := chunks[..|chunks| - 1], PartsOf(chunks[|chunks| - 1]);
      StreamTallies(before, mint);
      var fs, whole := ChunkTallied(StreamFragments(before, mint), TextIn(AllParts(before)), StreamCalls(before, mint), parts, mint);
      CallsAppend(AllParts(before), parts, mint);
      TextAppend(AllParts(before), parts);
    }
  }

  // ---- streaming and batch agree ----

  /** The stream finishes as the items the whole answer gives, minted ids included. */
  ghost predicate Agree(chunks: seq<GoogleChunk>, parts: seq<Part>, mint: Minter) {
    ShapesOf(Output(StreamFragments(chunks, mint))) == Shapes(TextIn(parts), CallsIn(parts, mint, 0))
  }

  /** For given minted ids only the joined text and the calls count, however they are cut up and spread. */
  lemma StreamMatchesBatch(chunks: seq<GoogleChunk>, parts: seq<Part>, mint: Minter)
    ensures Agree(chunks, parts, mint) <==>
      TextIn(AllParts(chunks)) == TextIn(parts) && CallsIn(AllParts(chunks), mint, 0) == CallsIn(parts, mint, 0)
  {
    var text, calls := TextIn(AllParts(chunks)), CallsIn(AllParts(chunks), mint, 0);
    StreamTallies(chunks, mint);
    TallyIsOutput(StreamFragments(chunks, mint), text, calls);
    if Shapes(text, calls) == Shapes(TextIn(parts), CallsIn(parts, mint, 0)) {
      ShapesDiffer(text, calls, TextIn(parts), CallsIn(parts, mint, 0));
    }
  }

  /** A call as the vendor states it: missing arguments are an empty object. */
  function Stated(call: FunctionCall): FunctionCall {
    call.(args := if call.args == "" then "{}" else call.args)
  }

  function StatedCalls(parts: seq<Part>): seq<FunctionCall> {
    if parts == [] then []
    else
      var before, last := StatedCalls(parts[..|parts| - 1]), parts[|parts| - 1];
      if last.call.Some? then before + [Stated(last.call.value)] else before
  }

  lemma {:induction false} CallsByPlace(parts: seq<Part>, mint: Minter)
    ensures |CallsIn(parts, mint, 0)| == |StatedCalls(parts)|
    ensures forall k :: 0 <= k < |StatedCalls(parts)| ==> CallsIn(parts, mint, 0)[k] == CallIn(StatedCalls(parts)[k], mint, k)
  {
    if parts != [] {
      CallsByPlace(parts[..|parts| - 1], mint);
    }
  }

  ghost predicate Mints(mint: Minter) {
    forall n :: mint(n) != ""
  }

  /** An id that was minted can be told from one that was given, for some way of minting. */
  lemma MintTells(a: FunctionCall, b: FunctionCall) returns (mint: Minter)
    ensures Mints(mint)
    ensures forall n :: CallIn(a, mint, n) == CallIn(b, mint, n) ==> Stated(a) == Stated(b)
  {
    mint := n => a.id + b.id + "+";
    assert |mint(0)| == |a.id| + |b.id| + 1;
  }

  lemma CallsTell(a: seq<Part>, b: seq<Part>)
    requires forall mint :: Mints(mint) ==> CallsIn(a, mint, 0) == CallsIn(b, mint, 0)
    ensures StatedCalls(a) == StatedCalls(b)
  {
    var x, y := StatedCalls(a), StatedCalls(b);
    var any: Minter := n => "+";
    CallsByPlace(a, any);
    CallsByPlace(b, any);
    assert Mints(any);
    forall k | 0 <= k < |x| ensures x[k] == y[k] {
      var mint := MintTells(x[k], y[k]);
      CallsByPlace(a, mint);
      CallsByPlace(b, mint);
      StatedOnce(a, k);
      StatedOnce(b, k);
    }
  }

  lemma {:induction false} StatedOnce(parts: seq<Part>, k: nat)
    requires k < |StatedCalls(parts)|
    ensures Stated(StatedCalls(parts)[k]) == StatedCalls(parts)[k]
  {
    if k < |StatedCalls(parts[..|parts| - 1])| {
      StatedOnce(parts[..|parts| - 1], k);
    }
  }

  predicate SameContent(a: seq<Part>, b: seq<Part>) {
    TextIn(a) == TextIn(b) && StatedCalls(a) == StatedCalls(b)
  }

  lemma SameContentAgrees(chunks: seq<GoogleChunk>, parts: seq<Part>, mint: Minter)
    requires SameContent(AllParts(chunks), parts)
    ensures Agree(chunks, parts, mint)
  {
    CallsByPlace(AllParts(chunks), mint);
    CallsByPlace(parts, mint);
    StreamMatchesBatch(chunks, parts, mint);
  }

  lemma AgreementTells(chunks: seq<GoogleChunk>, parts: seq<Part>)
    requires forall mint :: Mints(mint) ==> Agree(chunks, parts, mint)
    ensures SameContent(AllParts(chunks), parts)
  {
    var any: Minter := n => "+";
    assert Mints(any) && Agree(chunks, parts, any);
    StreamMatchesBatch(chunks, parts, any);
    forall mint | Mints(mint) ensures CallsIn(AllParts(chunks), mint, 0) == CallsIn(parts, mint, 0) {
      StreamMatchesBatch(chunks, parts, mint);
    }
    CallsTell(AllParts(chunks), parts);
  }

  /**
   The commuting diagram. Stream and whole answer give the same items, whatever ids are minted,
   exactly when they carry the same text and state the same calls: where text is cut, how parts fall
   into chunks, and how text and calls interleave does not matter.
   */
  lemma ContentDecides(chunks: seq<GoogleChunk>, parts: seq<Part>)
    ensures (forall mint :: Mints(mint) ==> Agree(chunks, parts, mint)) <==> SameContent(AllParts(chunks), parts)
  {
    if SameContent(AllParts(chunks), parts) {
      forall mint | Mints(mint) ensures Agree(chunks, parts, mint) {
        SameContentAgrees(chunks, parts, mint);
      }
    } else if forall mint :: Mints(mint) ==> Agree(chunks, parts, mint) {
      AgreementTells(chunks, parts);
    }
  }

  // ---- the stream, part by part ----

  function CallsMade(parts: seq<Part>): seq<FunctionCall> {
    if parts == [] then []
    else (if parts[0].call.Some? then [parts[0].call.value] else []) + CallsMade(parts[1..])
  }

  lemma {:induction false} CallsMadeSnoc(parts: seq<Part>, p: Part)
    ensures CallsMade(parts + [p]) == CallsMade(parts) + (if p.call.Some? then [p.call.value] else [])
  {
    if parts == [] {
      assert [] + [p] == [p] && [p][1..] == [];
    } else {
      var first := if parts[0].call.Some? then [parts[0].call.value] else [];
      assert (parts + [p])[1..] == parts[1..] + [p] && (parts + [p])[0] == parts[0];
      CallsMadeSnoc(parts[1..], p);
      AppendAssociates(first, CallsMade(parts[1..]), if p.call.Some? then [p.call.value] else []);
    }
  }

  /** The k-th call made is the k-th call decoded: its own id or the k-th minted one, its arguments or an empty object. */
  lemma {:induction false} CallsTold(parts: seq<Part>, mint: Minter)
    ensures |CallsIn(parts, mint, 0)| == |CallsMade(parts)|
    ensures forall k :: 0 <= k < |CallsMade(parts)| ==>
      var c := CallsMade(parts)[k];
      CallsIn(parts, mint, 0)[k] == Call(if c.id != "" then c.id else mint(k), c.name, if c.args != "" then c.args else "{}")
  {
    if parts != [] {
      var n := |parts| - 1;
      CallsTold(parts[..n], mint);
      CallsMadeSnoc(parts[..n], parts[n]);
      assert parts == parts[..n] + [parts[n]];
    }
  }

  lemma {:induction false} TextTold(parts: seq<Part>)
    ensures TextIn(parts) == Concat(Map((p: Part) => p.text, parts))
  {
    if parts != [] {
      var n := |parts| - 1;
      TextTold(parts[..n]);
      assert parts == parts[..n] + [parts[n]];
      MapSnoc((p: Part) => p.text, parts[..n], parts[n]);
      SnocParts(Map((p: Part) => p.text, parts[..n]), parts[n].text);
    }
  }

  lemma {:induction false} PartsTold(chunks: seq<GoogleChunk>)
    requires forall c :: c in chunks ==> c.GoogleChunk?
    ensures AllParts(chunks) == Concat(Map((c: GoogleChunk) => if c.GoogleChunk? && c.parts.Some? then c.parts.value else [], chunks))
  {
    if chunks != [] {
      var n := |chunks| - 1;
      var parts := (c: GoogleChunk) => if c.GoogleChunk? && c.parts.Some? then c.parts.value else [];
      PartsTold(chunks[..n]);
      assert chunks == chunks[..n] + [chunks[n]];
      MapSnoc(parts, chunks[..n], chunks[n]);
      SnocParts(Map(parts, chunks[..n]), parts(chunks[n]));
    }
  }

  /** What the client is left with: every part's text joined, unless that is empty, then every part's call. */
  lemma StreamTold(chunks: seq<GoogleChunk>, mint: Minter)
    ensures var parts := AllParts(chunks);
      var text, shapes := Concat(Map((p: Part) => p.text, parts)), ShapesOf(Output(StreamFragments(chunks, mint)));
      && shapes == (if text != "" then [TextShape(text)] else []) + Map(ShapeOfCall, CallsIn(parts, mint, 0))
  {
    StreamTallies(chunks, mint);
    TallyIsOutput(StreamFragments(chunks, mint), TextIn(AllParts(chunks)), CallsIn(AllParts(chunks), mint, 0));
    TextTold(AllParts(chunks));
  }

  /** The stream is read up to the first malformed chunk, and not beyond. */
  lemma {:induction false} ReadUntilMalformed(chunks: seq<GoogleChunk>)
    ensures UntilMalformed(chunks) <= chunks
    ensures forall i :: 0 <= i < |UntilMalformed(chunks)| ==> chunks[i].GoogleChunk?
    ensures |UntilMalformed(chunks)| < |chunks| ==> chunks[|UntilMalformed(chunks)|].MalformedChunk?
  {
    if chunks != [] {
      ReadUntilMalformed(chunks[..|chunks| - 1]);
    }
  }
}

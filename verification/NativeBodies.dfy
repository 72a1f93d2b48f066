/**
 What the two native request bodies say, read part by part: who says which text, who makes which
 call with which arguments, and which result goes out under which id or name. The readings look at
 the finished body only.
 */
module NativeBodies {
  import opened Sequences
  import opened Chat
  import opened NativeRequests

  // ---- reading a body ----

  /** What a reading of single blocks yields over a whole body, in order. */
  function Gleaned<B, X>(f: (string, B) -> seq<X>, ts: seq<Turn<B>>): seq<X> {
    Concat(Map((said: (string, B)) => f(said.0, said.1), Said(ts)))
  }

  lemma {:induction false} FromBlocks<B, X>(f: (string, B) -> seq<X>, role: string, blocks: seq<B>)
    ensures Concat(Map((said: (string, B)) => f(said.0, said.1), Attributed(role, blocks))) == Concat(Map(b => f(role, b), blocks))
  {
    if blocks != [] {
      var n := |blocks| - 1;
      FromBlocks(f, role, blocks[..n]);
      assert blocks == blocks[..n] + [blocks[n]];
      AttributedAppend(role, blocks[..n], [blocks[n]]);
      assert Attributed(role, [blocks[n]]) == [(role, blocks[n])];
      MapSnoc((said: (string, B)) => f(said.0, said.1), Attributed(role, blocks[..n]), (role, blocks[n]));
      MapSnoc(b => f(role, b), blocks[..n], blocks[n]);
      SnocParts(Map((said: (string, B)) => f(said.0, said.1), Attributed(role, blocks[..n])), f(role, blocks[n]));
      SnocParts(Map(b => f(role, b), blocks[..n]), f(role, blocks[n]));
    }
  }

  lemma GleanedSnoc<B, X>(f: (string, B) -> seq<X>, ts: seq<Turn<B>>, t: Turn<B>)
    ensures Gleaned(f, ts + [t]) == Gleaned(f, ts) + Concat(Map(b => f(t.role, b), t.blocks))
  {
    var g := (said: (string, B)) => f(said.0, said.1);
    SaidSnoc(ts, t);
    MapAppend(g, Said(ts), Attributed(t.role, t.blocks));
    ConcatAppend(Map(g, Said(ts)), Map(g, Attributed(t.role, t.blocks)));
    FromBlocks(f, t.role, t.blocks);
  }

  lemma {:induction false} ReadsOne<A, X>(f: A -> seq<X>, y: A -> X, s: seq<A>)
    requires forall x :: x in s ==> f(x) == [y(x)]
    ensures Concat(Map(f, s)) == Map(y, s)
  {
    if s != [] {
      var n := |s| - 1;
      ReadsOne(f, y, s[..n]);
      assert s[n] in s && s == s[..n] + [s[n]];
      MapSnoc(f, s[..n], s[n]);
      MapSnoc(y, s[..n], s[n]);
      SnocParts(Map(f, s[..n]), f(s[n]));
    }
  }

  lemma {:induction false} ReadsNothing<A, X>(f: A -> seq<X>, s: seq<A>)
    requires forall x :: x in s ==> f(x) == []
    ensures Concat(Map(f, s)) == []
  {
    if s != [] {
      var n := |s| - 1;
      ReadsNothing(f, s[..n]);
      assert s[n] in s && s == s[..n] + [s[n]];
      MapSnoc(f, s[..n], s[n]);
      SnocParts(Map(f, s[..n]), f(s[n]));
    }
  }

  lemma ReadsPair<A, X>(f: A -> seq<X>, a: seq<A>, b: seq<A>)
    ensures Concat(Map(f, a + b)) == Concat(Map(f, a)) + Concat(Map(f, b))
  {
    MapAppend(f, a, b);
    ConcatAppend(Map(f, a), Map(f, b));
  }

  lemma ReadsSingle<A, X>(f: A -> seq<X>, x: A)
    ensures Concat(Map(f, [x])) == f(x)
  {
    SnocParts([], f(x));
    assert Map(f, [x]) == [] + [f(x)];
  }

  /** What one rendered turn yields. */
  function FromTurn<B, X>(f: (string, B) -> seq<X>, t: Turn<B>): seq<X> {
    Concat(Map(b => f(t.role, b), t.blocks))
  }

  lemma YieldsNothing<B, X>(f: (string, B) -> seq<X>, t: Turn<B>)
    requires forall b :: b in t.blocks ==> f(t.role, b) == []
    ensures FromTurn(f, t) == []
  {
    ReadsNothing(b => f(t.role, b), t.blocks);
  }

  lemma YieldsOne<B, X>(f: (string, B) -> seq<X>, t: Turn<B>, y: B -> X)
    requires forall b :: b in t.blocks ==> f(t.role, b) == [y(b)]
    ensures FromTurn(f, t) == Map(y, t.blocks)
  {
    ReadsOne(b => f(t.role, b), y, t.blocks);
  }

  /** A text or nothing, then calls. */
  lemma YieldsTextAndCalls<B, X>(f: (string, B) -> seq<X>, role: string, text: seq<B>, calls: seq<B>)
    requires |text| <= 1
    ensures FromTurn(f, Turn(role, text + calls)) == (if text != [] then f(role, text[0]) else []) + FromTurn(f, Turn(role, calls))
  {
    ReadsPair(b => f(role, b), text, calls);
    if text != [] {
      ReadsSingle(b => f(role, b), text[0]);
      assert text == [text[0]];
    }
  }

  lemma YieldsSingle<B, X>(f: (string, B) -> seq<X>, role: string, b: B)
    ensures FromTurn(f, Turn(role, [b])) == f(role, b)
  {
    ReadsSingle(x => f(role, x), b);
  }

  /** If every turn yields what it should, so does the conversation, merged or not. */
  lemma {:induction false} TurnsYield<B, X>(f: (string, B) -> seq<X>, render: Message -> Turn<B>, due: Message -> seq<X>, turns: seq<Message>)
    requires forall m :: FromTurn(f, render(m)) == due(m)
    ensures Gleaned(f, Map(render, turns)) == Concat(Map(due, turns))
  {
    if turns == [] {
      assert Map(render, turns) == [];
    } else {
      var n := |turns| - 1;
      TurnsYield(f, render, due, turns[..n]);
      assert turns == turns[..n] + [turns[n]];
      MapSnoc(render, turns[..n], turns[n]);
      MapSnoc(due, turns[..n], turns[n]);
      SnocParts(Map(due, turns[..n]), due(turns[n]));
      GleanedSnoc(f, Map(render, turns[..n]), render(turns[n]));
    }
  }

  // ---- what a turn has to say ----

  /** Its text, unless it is a tool's; an empty one only where nothing is called. */
  function TextDue(m: Message, assistant: string): seq<(string, string)> {
    if m.role == "tool" || (m.content == "" && m.calls != []) then []
    else [(if m.role == "assistant" then assistant else "user", m.content)]
  }

  function TextsDue(turns: seq<Message>, assistant: string): seq<(string, string)> {
    Concat(Map(m => TextDue(m, assistant), turns))
  }

  // ---- Anthropic ----

  /** The assistant's calls: id, name and arguments, an empty object where those are none. */
  function UsesDue(m: Message, isObject: string -> bool): seq<(string, string, string, string)> {
    if m.role != "assistant" then []
    else Map((c: ChatCall) => ("assistant", c.id, c.name, if isObject(c.arguments) then c.arguments else "{}"), m.calls)
  }

  /** A tool's result under the id it answers. */
  function ResultDue(m: Message): seq<(string, string, string)> {
    if m.role == "tool" then [("user", m.answers, m.content)] else []
  }

  function BlockText(role: string, b: AnthropicBlock): seq<(string, string)> {
    if b.TextBlock? then [(role, b.text)] else []
  }

  function BlockUse(role: string, b: AnthropicBlock): seq<(string, string, string, string)> {
    if b.ToolUse? then [(role, b.id, b.name, b.input)] else []
  }

  function BlockResult(role: string, b: AnthropicBlock): seq<(string, string, string)> {
    if b.ToolResult? then [(role, b.toolUseId, b.content)] else []
  }

  function TextPartOf(m: Message): seq<AnthropicBlock> {
    if m.content != "" || m.calls == [] then [TextBlock(m.content)] else []
  }

  function UsePartOf(m: Message, isObject: string -> bool): seq<AnthropicBlock> {
    if m.role == "assistant" then Uses(m.calls, isObject) else []
  }

  lemma AnthropicText(m: Message, isObject: string -> bool)
    ensures FromTurn(BlockText, AnthropicTurn(m, isObject)) == TextDue(m, "assistant")
  {
    if m.role == "tool" {
      YieldsSingle(BlockText, "user", ToolResult(m.answers, m.content));
    } else {
      YieldsTextAndCalls(BlockText, AnthropicRole(m), TextPartOf(m), UsePartOf(m, isObject));
      YieldsNothing(BlockText, Turn(AnthropicRole(m), UsePartOf(m, isObject)));
    }
  }

  lemma AnthropicUses(m: Message, isObject: string -> bool)
    ensures FromTurn(BlockUse, AnthropicTurn(m, isObject)) == UsesDue(m, isObject)
  {
    if m.role == "tool" {
      YieldsSingle(BlockUse, "user", ToolResult(m.answers, m.content));
    } else {
      YieldsTextAndCalls(BlockUse, AnthropicRole(m), TextPartOf(m), UsePartOf(m, isObject));
      var y := (b: AnthropicBlock) => if b.ToolUse? then (AnthropicRole(m), b.id, b.name, b.input) else ("", "", "", "");
      YieldsOne(BlockUse, Turn(AnthropicRole(m), UsePartOf(m, isObject)), y);
    }
  }

  lemma AnthropicResults(m: Message, isObject: string -> bool)
    ensures FromTurn(BlockResult, AnthropicTurn(m, isObject)) == ResultDue(m)
  {
    if m.role == "tool" {
      YieldsSingle(BlockResult, "user", ToolResult(m.answers, m.content));
    } else {
      YieldsTextAndCalls(BlockResult, AnthropicRole(m), TextPartOf(m), UsePartOf(m, isObject));
      YieldsNothing(BlockResult, Turn(AnthropicRole(m), UsePartOf(m, isObject)));
    }
  }

  /** The opener adds its own text and nothing else. */
  lemma OpenerYields<X>(f: (string, AnthropicBlock) -> seq<X>, turns: seq<Message>, isObject: string -> bool)
    requires turns != []
    ensures Gleaned(f, WithOpener(Merged(AnthropicTurns(turns, isObject)))) ==
      (if turns[0].role == "assistant" then f("user", TextBlock("(continue)")) else []) + Gleaned(f, AnthropicTurns(turns, isObject))
  {
    var ts := AnthropicTurns(turns, isObject);
    var first := if turns[0].role == "assistant" then [("user", TextBlock("(continue)"))] else [];
    AnthropicBodyFaithful(turns, isObject);
    SaidAfter(f, WithOpener(Merged(ts)), first, ts);
    if first != [] {
      ReadsSingle((said: (string, AnthropicBlock)) => f(said.0, said.1), first[0]);
    }
  }

  lemma SaidAfter<B, X>(f: (string, B) -> seq<X>, body: seq<Turn<B>>, first: seq<(string, B)>, ts: seq<Turn<B>>)
    requires Said(body) == first + Said(ts)
    ensures Gleaned(f, body) == Concat(Map((said: (string, B)) => f(said.0, said.1), first)) + Gleaned(f, ts)
  {
    ReadsPair((said: (string, B)) => f(said.0, said.1), first, Said(ts));
  }

  /**
   The Anthropic body says every text of the conversation, makes every call of the assistant with its
   id, name and arguments, and returns every result under the id it answers: each from the right side,
   each in order, and nothing besides but the opener's text.
   */
  lemma AnthropicBodySays(turns: seq<Message>, isObject: string -> bool)
    requires turns != []
    ensures var body := WithOpener(Merged(AnthropicTurns(turns, isObject)));
      && Gleaned(BlockText, body) ==
           (if turns[0].role == "assistant" then [("user", "(continue)")] else []) + TextsDue(turns, "assistant")
      && Gleaned(BlockUse, body) == Concat(Map(m => UsesDue(m, isObject), turns))
      && Gleaned(BlockResult, body) == Concat(Map(ResultDue, turns))
  {
    var render := m => AnthropicTurn(m, isObject);
    forall m
      ensures FromTurn(BlockText, render(m)) == TextDue(m, "assistant")
      ensures FromTurn(BlockUse, render(m)) == UsesDue(m, isObject)
      ensures FromTurn(BlockResult, render(m)) == ResultDue(m)
    {
      AnthropicText(m, isObject);
      AnthropicUses(m, isObject);
      AnthropicResults(m, isObject);
    }
    TurnsYield(BlockText, render, m => TextDue(m, "assistant"), turns);
    TurnsYield(BlockUse, render, m => UsesDue(m, isObject), turns);
    TurnsYield(BlockResult, render, ResultDue, turns);
    OpenerYields(BlockText, turns, isObject);
    OpenerYields(BlockUse, turns, isObject);
    OpenerYields(BlockResult, turns, isObject);
  }

  // ---- Google ----

  /** The assistant's calls: name and arguments; Google has no place for their ids. */
  function CallsDue(m: Message, isObject: string -> bool): seq<(string, string, string)> {
    if m.role != "assistant" then []
    else Map((c: ChatCall) => ("model", c.name, if isObject(c.arguments) then c.arguments else "{}"), m.calls)
  }

  /** A tool's result under the name its id has, or none. */
  function ResponseDue(m: Message, names: map<string, string>): seq<(string, string, string)> {
    if m.role == "tool" then [("user", if m.answers in names then names[m.answers] else "", m.content)] else []
  }

  function PartText(role: string, p: GooglePart): seq<(string, string)> {
    if p.TextPart? then [(role, p.text)] else []
  }

  function PartCall(role: string, p: GooglePart): seq<(string, string, string)> {
    if p.CallPart? then [(role, p.name, p.args)] else []
  }

  function PartResponse(role: string, p: GooglePart): seq<(string, string, string)> {
    if p.ResponsePart? then [(role, p.name, p.content)] else []
  }

  function GoogleTextOf(m: Message): seq<GooglePart> {
    if m.content != "" || m.calls == [] then [TextPart(m.content)] else []
  }

  function GoogleCallsOf(m: Message, isObject: string -> bool): seq<GooglePart> {
    if m.role == "assistant" then CallParts(m.calls, isObject) else []
  }

  lemma GoogleText(m: Message, names: map<string, string>, isObject: string -> bool)
    ensures FromTurn(PartText, GoogleTurn(m, names, isObject)) == TextDue(m, "model")
  {
    if m.role == "tool" {
      YieldsSingle(PartText, "user", ResponsePart(NameFor(names, m.answers), m.content));
    } else {
      YieldsTextAndCalls(PartText, GoogleRole(m), GoogleTextOf(m), GoogleCallsOf(m, isObject));
      YieldsNothing(PartText, Turn(GoogleRole(m), GoogleCallsOf(m, isObject)));
    }
  }

  lemma GoogleCalls(m: Message, names: map<string, string>, isObject: string -> bool)
    ensures FromTurn(PartCall, GoogleTurn(m, names, isObject)) == CallsDue(m, isObject)
  {
    if m.role == "tool" {
      YieldsSingle(PartCall, "user", ResponsePart(NameFor(names, m.answers), m.content));
    } else {
      YieldsTextAndCalls(PartCall, GoogleRole(m), GoogleTextOf(m), GoogleCallsOf(m, isObject));
      var y := (p: GooglePart) => if p.CallPart? then (GoogleRole(m), p.name, p.args) else ("", "", "");
      YieldsOne(PartCall, Turn(GoogleRole(m), GoogleCallsOf(m, isObject)), y);
    }
  }

  lemma GoogleResponses(m: Message, names: map<string, string>, isObject: string -> bool)
    ensures FromTurn(PartResponse, GoogleTurn(m, names, isObject)) == ResponseDue(m, names)
  {
    if m.role == "tool" {
      YieldsSingle(PartResponse, "user", ResponsePart(NameFor(names, m.answers), m.content));
    } else {
      YieldsTextAndCalls(PartResponse, GoogleRole(m), GoogleTextOf(m), GoogleCallsOf(m, isObject));
      YieldsNothing(PartResponse, Turn(GoogleRole(m), GoogleCallsOf(m, isObject)));
    }
  }

  lemma MergedYields<B, X>(f: (string, B) -> seq<X>, ts: seq<Turn<B>>)
    ensures Gleaned(f, Merged(ts)) == Gleaned(f, ts)
  {
    MergedSays(ts);
  }

  /**
   The Google body says every text of the conversation, makes every call of the assistant with its
   name and arguments, and returns every result under the name its id has in the conversation; the
   assistant speaks as "model", everybody else as "user", everything in order and nothing besides.
   */
  lemma GoogleBodySays(turns: seq<Message>, isObject: string -> bool)
    ensures var names := CallNames(turns);
      var body := Merged(GoogleTurns(turns, names, isObject));
      && Gleaned(PartText, body) == TextsDue(turns, "model")
      && Gleaned(PartCall, body) == Concat(Map(m => CallsDue(m, isObject), turns))
      && Gleaned(PartResponse, body) == Concat(Map(m => ResponseDue(m, names), turns))
  {
    var names := CallNames(turns);
    var render := m => GoogleTurn(m, names, isObject);
    forall m
      ensures FromTurn(PartText, render(m)) == TextDue(m, "model")
      ensures FromTurn(PartCall, render(m)) == CallsDue(m, isObject)
      ensures FromTurn(PartResponse, render(m)) == ResponseDue(m, names)
    {
      GoogleText(m, names, isObject);
      GoogleCalls(m, names, isObject);
      GoogleResponses(m, names, isObject);
    }
    TurnsYield(PartText, render, m => TextDue(m, "model"), turns);
    TurnsYield(PartCall, render, m => CallsDue(m, isObject), turns);
    TurnsYield(PartResponse, render, m => ResponseDue(m, names), turns);
    MergedYields(PartText, GoogleTurns(turns, names, isObject));
    MergedYields(PartCall, GoogleTurns(turns, names, isObject));
    MergedYields(PartResponse, GoogleTurns(turns, names, isObject));
  }

  /** Inside a turn the text comes before the calls. */
  lemma GoogleTurnReads(m: Message, names: map<string, string>, isObject: string -> bool)
    ensures var parts := GoogleTurn(m, names, isObject).blocks;
      forall i, j :: 0 <= i < j < |parts| && parts[j].TextPart? ==> parts[i].TextPart?
  {}
}

/** Chat messages, and the split of a conversation into its system prompt and its turns. */
module Chat {
  import opened Sequences
  import opened Text

  datatype ChatCall = ChatCall(id: string, name: string, arguments: string)

  /** `answers` is the id of the call a tool message is the result of. */
  datatype Message = Message(role: string, content: string, calls: seq<ChatCall>, answers: string)

  predicate IsSystem(m: Message) {
    m.role == "system" || m.role == "developer"
  }

  /** Neither a tool call nor a tool result: nothing but text. */
  predicate Plain(m: Message) {
    m.calls == [] && m.answers == ""
  }

  predicate Mergeable(a: Message, b: Message) {
    a.role == b.role && Plain(a) && Plain(b)
  }

  function AddTurn(turns: seq<Message>, m: Message): seq<Message> {
    var n := |turns|;
    if IsSystem(m) then turns
    else if n > 0 && Mergeable(turns[n - 1], m) then
      turns[n - 1 := turns[n - 1].(content := turns[n - 1].content + "\n\n" + m.content)]
    else turns + [m]
  }

  function Turns(ms: seq<Message>): seq<Message> {
    if ms == [] then [] else AddTurn(Turns(ms[..|ms| - 1]), ms[|ms| - 1])
  }

  /** The trimmed system texts, empty ones left out. */
  function SystemTexts(ms: seq<Message>): seq<string> {
    if ms == [] then []
    else
      var m := ms[|ms| - 1];
      SystemTexts(ms[..|ms| - 1]) + (if IsSystem(m) && Trim(m.content) != "" then [Trim(m.content)] else [])
  }

  function Join(texts: seq<string>): string {
    if texts == [] then ""
    else if |texts| == 1 then texts[0]
    else Join(texts[..|texts| - 1]) + "\n\n" + texts[|texts| - 1]
  }

  method SystemAndTurns(ms: seq<Message>) returns (system: string, turns: seq<Message>)
    ensures system == Join(SystemTexts(ms)) && turns == Turns(ms)
  {
    var texts := [];
    turns := [];
    for i := 0 to |ms|
      invariant texts == SystemTexts(ms[..i]) && turns == Turns(ms[..i])
    {
      assert ms[..i + 1][..i] == ms[..i];
      var m := ms[i];
      if m.role == "system" || m.role == "developer" {
        var s := Trim(m.content);
        if s != "" {
          texts := texts + [s];
        }
      } else {
        var n := |turns|;
        if n > 0 && turns[n - 1].role == m.role && turns[n - 1].calls == [] && m.calls == []
           && turns[n - 1].answers == "" && m.answers == "" {
          turns := turns[n - 1 := turns[n - 1].(content := turns[n - 1].content + "\n\n" + m.content)];
        } else {
          turns := turns + [m];
        }
      }
    }
    assert ms[..|ms|] == ms;
    system := Join(texts);
  }

  // ---- what the split promises ----

  /** No two neighbouring turns could still be merged, and no turn is a system message. */
  ghost predicate Settled(turns: seq<Message>) {
    && (forall i :: 0 <= i < |turns| ==> !IsSystem(turns[i]))
    && forall i :: 0 < i < |turns| ==> !Mergeable(turns[i - 1], turns[i])
  }

  lemma {:induction false} TurnsSettled(ms: seq<Message>)
    ensures Settled(Turns(ms))
  {
    if ms != [] {
      TurnsSettled(ms[..|ms| - 1]);
    }
  }

  lemma {:induction false} SettledStays(turns: seq<Message>)
    requires Settled(turns)
    ensures Turns(turns) == turns && SystemTexts(turns) == []
  {
    if turns != [] {
      SettledStays(turns[..|turns| - 1]);
      AddsWhole(turns);
    }
  }

  /** The last of settled turns is added as it is. */
  lemma AddsWhole(turns: seq<Message>)
    requires Settled(turns) && turns != []
    ensures AddTurn(turns[..|turns| - 1], turns[|turns| - 1]) == turns
    ensures !IsSystem(turns[|turns| - 1])
  {
    var n := |turns| - 1;
    assert turns == turns[..n] + [turns[n]];
    assert n > 0 ==> !Mergeable(turns[n - 1], turns[n]);
  }

  /** Splitting the turns again finds the same turns and no system prompt. */
  lemma TurnsIdempotent(ms: seq<Message>)
    ensures Turns(Turns(ms)) == Turns(ms) && SystemTexts(Turns(ms)) == []
  {
    TurnsSettled(ms);
    SettledStays(Turns(ms));
  }

  function Contents(run: seq<Message>): seq<string> {
    Map((m: Message) => m.content, run)
  }

  /** A turn stands for a run of messages: one alone, or several plain ones of one role, their contents joined. */
  ghost predicate StandsFor(turn: Message, run: seq<Message>) {
    && run != []
    && turn == run[0].(content := Join(Contents(run)))
    && (|run| > 1 ==> forall m :: m in run ==> Plain(m) && m.role == turn.role)
  }

  ghost predicate StandFor(turns: seq<Message>, runs: seq<seq<Message>>) {
    |turns| == |runs| && forall i :: 0 <= i < |turns| ==> StandsFor(turns[i], runs[i])
  }

  predicate NotSystem(m: Message) { !IsSystem(m) }

  /** Nothing of the conversation is lost: cut into runs, it is what the turns stand for, in order. */
  lemma {:induction false} TurnsKeepAll(ms: seq<Message>) returns (runs: seq<seq<Message>>)
    ensures StandFor(Turns(ms), runs)
    ensures Concat(runs) == Filter(NotSystem, ms)
  {
    if ms == [] {
      runs := [];
    } else {
      var before, m := ms[..|ms| - 1], ms[|ms| - 1];
      runs := TurnsKeepAll(before);
      if !IsSystem(m) {
        var turns, n := Turns(before), |Turns(before)|;
        if n > 0 && Mergeable(turns[n - 1], m) {
          RunGrows(turns[n - 1], runs[n - 1], m);
          ConcatGrows(runs, m);
          runs := runs[n - 1 := runs[n - 1] + [m]];
        } else {
          RunOfOne(m);
          SnocParts(runs, [m]);
          runs := runs + [[m]];
        }
      } else {
        assert Concat(runs) + [] == Concat(runs);
      }
    }
  }

  lemma RunOfOne(m: Message)
    ensures StandsFor(m, [m])
  {
    assert Contents([m]) == [m.content];
  }

  lemma RunGrows(turn: Message, run: seq<Message>, m: Message)
    requires StandsFor(turn, run) && Mergeable(turn, m)
    ensures StandsFor(turn.(content := turn.content + "\n\n" + m.content), run + [m])
  {
    MapSnoc((x: Message) => x.content, run, m);
    SnocParts(Contents(run), m.content);
  }

  lemma ConcatGrows(runs: seq<seq<Message>>, m: Message)
    requires runs != []
    ensures Concat(runs[|runs| - 1 := runs[|runs| - 1] + [m]]) == Concat(runs) + [m]
  {
    var n := |runs| - 1;
    assert runs[n := runs[n] + [m]][..n] == runs[..n];
    AppendAssociates(Concat(runs[..n]), runs[n], [m]);
  }

  // ---- tool traffic ----

  function IdsOf(calls: seq<ChatCall>): seq<string> {
    Map((c: ChatCall) => c.id, calls)
  }

  /** What some reading of messages yields over a conversation, in order. */
  function Gathered(f: Message -> seq<string>, ms: seq<Message>): seq<string> {
    Concat(Map(f, ms))
  }

  lemma GatheredSnoc(f: Message -> seq<string>, ms: seq<Message>, m: Message)
    ensures Gathered(f, ms + [m]) == Gathered(f, ms) + f(m)
  {
    MapSnoc(f, ms, m);
    SnocParts(Map(f, ms), f(m));
  }

  function CallsOf(m: Message): seq<string> {
    IdsOf(m.calls)
  }

  /** The ids of all calls, in order. */
  function CallIds(ms: seq<Message>): seq<string> {
    Gathered(CallsOf, ms)
  }

  /** A tool message without an id answers nothing. */
  function ResultId(m: Message): seq<string> {
    if m.role == "tool" && m.answers != "" then [m.answers] else []
  }

  /** The ids the tool messages answer, in order. */
  function ResultIds(ms: seq<Message>): seq<string> {
    Gathered(ResultId, ms)
  }

  /** Calls sit on assistant messages only, which answer nothing. */
  ghost predicate CallsOnAssistants(ms: seq<Message>) {
    forall i :: 0 <= i < |ms| ==> CallsOnAssistant(ms[i])
  }

  predicate CallsOnAssistant(m: Message) {
    (m.calls != [] ==> m.role == "assistant") && (m.role == "assistant" ==> m.answers == "")
  }

  lemma TrafficSnoc(ms: seq<Message>, m: Message)
    ensures CallIds(ms + [m]) == CallIds(ms) + IdsOf(m.calls)
    ensures ResultIds(ms + [m]) == ResultIds(ms) + ResultId(m)
  {
    GatheredSnoc(CallsOf, ms, m);
    GatheredSnoc(ResultId, ms, m);
  }

  lemma GatheredAppend(f: Message -> seq<string>, a: seq<Message>, b: seq<Message>)
    ensures Gathered(f, a + b) == Gathered(f, a) + Gathered(f, b)
  {
    MapAppend(f, a, b);
    ConcatAppend(Map(f, a), Map(f, b));
  }

  lemma TrafficAppend(a: seq<Message>, b: seq<Message>)
    ensures CallIds(a + b) == CallIds(a) + CallIds(b)
    ensures ResultIds(a + b) == ResultIds(a) + ResultIds(b)
  {
    GatheredAppend(CallsOf, a, b);
    GatheredAppend(ResultId, a, b);
  }

  /** The reading finds nothing in system and plain messages, and does not look at contents. */
  ghost predicate ReadsTraffic(f: Message -> seq<string>) {
    && (forall m: Message :: IsSystem(m) || Plain(m) ==> f(m) == [])
    && forall m: Message, text :: f(m.(content := text)) == f(m)
  }

  lemma AddTurnKeeps(f: Message -> seq<string>, turns: seq<Message>, m: Message)
    requires ReadsTraffic(f)
    ensures Gathered(f, AddTurn(turns, m)) == Gathered(f, turns) + f(m)
  {
    var n := |turns|;
    if IsSystem(m) {
      assert Gathered(f, turns) + [] == Gathered(f, turns);
    } else if n > 0 && Mergeable(turns[n - 1], m) {
      var last := turns[n - 1].(content := turns[n - 1].content + "\n\n" + m.content);
      assert turns == turns[..n - 1] + [turns[n - 1]] && turns[n - 1 := last] == turns[..n - 1] + [last];
      GatheredSnoc(f, turns[..n - 1], turns[n - 1]);
      GatheredSnoc(f, turns[..n - 1], last);
      assert Gathered(f, turns) + [] == Gathered(f, turns);
    } else {
      GatheredSnoc(f, turns, m);
    }
  }

  lemma {:induction false} TurnsKeep(f: Message -> seq<string>, ms: seq<Message>)
    requires ReadsTraffic(f)
    ensures Gathered(f, Turns(ms)) == Gathered(f, ms)
  {
    if ms != [] {
      var before, m := ms[..|ms| - 1], ms[|ms| - 1];
      TurnsKeep(f, before);
      AddTurnKeeps(f, Turns(before), m);
      assert ms == before + [m];
      GatheredSnoc(f, before, m);
    }
  }

  /** A reading that skips some messages yields the same as the full one exactly when it skips nothing that counts. */
  lemma {:induction false} SkipsNothing(f: Message -> seq<string>, g: Message -> seq<string>, ms: seq<Message>)
    requires forall m: Message :: f(m) == g(m) || f(m) == []
    ensures |Gathered(f, ms)| <= |Gathered(g, ms)|
    ensures |Gathered(f, ms)| == |Gathered(g, ms)| <==> forall i :: 0 <= i < |ms| ==> f(ms[i]) == g(ms[i])
    ensures |Gathered(f, ms)| == |Gathered(g, ms)| ==> Gathered(f, ms) == Gathered(g, ms)
  {
    if ms != [] {
      var before, m := ms[..|ms| - 1], ms[|ms| - 1];
      SkipsNothing(f, g, before);
      assert ms == before + [m];
      GatheredSnoc(f, before, m);
      GatheredSnoc(g, before, m);
    }
  }

  function SpokenCalls(m: Message): seq<string> {
    if IsSystem(m) then [] else IdsOf(m.calls)
  }

  lemma SpokenTurns(ms: seq<Message>)
    ensures CallIds(Turns(ms)) == Gathered(SpokenCalls, ms)
  {
    TurnsKeep(SpokenCalls, ms);
    TurnsSettled(ms);
    MapSame(SpokenCalls, CallsOf, Turns(ms));
  }

  /** No system message carries a call. */
  ghost predicate SystemsCallNothing(ms: seq<Message>) {
    forall i :: 0 <= i < |ms| && IsSystem(ms[i]) ==> ms[i].calls == []
  }

  lemma NothingSkipped(ms: seq<Message>)
    ensures Gathered(SpokenCalls, ms) == CallIds(ms) <==> SystemsCallNothing(ms)
  {
    SkipsNothing(SpokenCalls, CallsOf, ms);
    forall i | 0 <= i < |ms| ensures SpokenCalls(ms[i]) == CallsOf(ms[i]) <==> (IsSystem(ms[i]) ==> ms[i].calls == []) {
      assert |CallsOf(ms[i])| == |ms[i].calls|;
    }
  }

  /**
   The split keeps every result, and every call a turn can carry, in order. No call at all is lost
   exactly when no system message carries one.
   */
  lemma TurnsKeepTraffic(ms: seq<Message>)
    ensures ResultIds(Turns(ms)) == ResultIds(ms)
    ensures CallIds(Turns(ms)) == Gathered(SpokenCalls, ms)
    ensures CallIds(Turns(ms)) == CallIds(ms) <==> SystemsCallNothing(ms)
  {
    TurnsKeep(ResultId, ms);
    SpokenTurns(ms);
    NothingSkipped(ms);
  }

  // ---- results without an id ----

  /** Every tool message is sent as a result, with or without an id. */
  function AnswerOf(m: Message): seq<string> {
    if m.role == "tool" then [m.answers] else []
  }

  function AnswerIds(ms: seq<Message>): seq<string> {
    Gathered(AnswerOf, ms)
  }

  predicate Present(id: string) { id != "" }

  predicate Unanchored(m: Message) {
    m.role == "tool" && m.answers == ""
  }

  predicate AnyUnanchored(ms: seq<Message>) {
    ms != [] && (AnyUnanchored(ms[..|ms| - 1]) || Unanchored(ms[|ms| - 1]))
  }

  lemma AnswersSnoc(ms: seq<Message>, m: Message)
    ensures AnswerIds(ms + [m]) == AnswerIds(ms) + AnswerOf(m)
    ensures AnyUnanchored(ms + [m]) == (AnyUnanchored(ms) || Unanchored(m))
  {
    GatheredSnoc(AnswerOf, ms, m);
    SnocParts(ms, m);
  }

  /** Beyond the real results there are only empty ids, one or more exactly if some tool message has none. */
  lemma {:induction false} AnswersRead(ms: seq<Message>)
    ensures Filter(Present, AnswerIds(ms)) == ResultIds(ms)
    ensures "" in AnswerIds(ms) <==> AnyUnanchored(ms)
  {
    if ms != [] {
      var before, m := ms[..|ms| - 1], ms[|ms| - 1];
      AnswersRead(before);
      assert ms == before + [m];
      AnswersSnoc(before, m);
      TrafficSnoc(before, m);
      if m.role == "tool" {
        FilterSnoc(Present, AnswerIds(before), m.answers);
      } else {
        assert AnswerIds(before) + [] == AnswerIds(before) && ResultIds(before) + [] == ResultIds(before);
      }
    }
  }

  lemma AddTurnAnchors(turns: seq<Message>, m: Message)
    ensures AnyUnanchored(AddTurn(turns, m)) == (AnyUnanchored(turns) || Unanchored(m))
  {
    var n := |turns|;
    if !IsSystem(m) && n > 0 && Mergeable(turns[n - 1], m) {
      var last := turns[n - 1].(content := turns[n - 1].content + "\n\n" + m.content);
      assert turns == turns[..n - 1] + [turns[n - 1]] && turns[n - 1 := last] == turns[..n - 1] + [last];
      AnswersSnoc(turns[..n - 1], turns[n - 1]);
      AnswersSnoc(turns[..n - 1], last);
    } else if !IsSystem(m) {
      AnswersSnoc(turns, m);
    }
  }

  /** Merging tool messages without an id leaves one without an id. */
  lemma {:induction false} TurnsAnchors(ms: seq<Message>)
    ensures AnyUnanchored(Turns(ms)) == AnyUnanchored(ms)
  {
    if ms != [] {
      TurnsAnchors(ms[..|ms| - 1]);
      AddTurnAnchors(Turns(ms[..|ms| - 1]), ms[|ms| - 1]);
    }
  }

  // ---- the split, in so many words ----

  predicate SpeaksForSystem(m: Message) {
    m.role == "system" || m.role == "developer"
  }

  function TrimmedContent(m: Message): string {
    Trim(m.content)
  }

  predicate Something(s: string) { s != "" }

  /** The system prompt is made of the trimmed contents of system and developer messages, in order, blank ones left out. */
  lemma {:induction false} SystemTextsAre(ms: seq<Message>)
    ensures SystemTexts(ms) == Filter(Something, Map(TrimmedContent, Filter(SpeaksForSystem, ms)))
  {
    if ms != [] {
      var before, m := ms[..|ms| - 1], ms[|ms| - 1];
      SystemTextsAre(before);
      if SpeaksForSystem(m) {
        MapSnoc(TrimmedContent, Filter(SpeaksForSystem, before), m);
        FilterSnoc(Something, Map(TrimmedContent, Filter(SpeaksForSystem, before)), Trim(m.content));
      } else {
        assert Filter(SpeaksForSystem, before) + [] == Filter(SpeaksForSystem, before);
      }
    }
  }

  /** Joined texts stand apart by a blank line, with nothing before the first or after the last. */
  lemma JoinedApart(texts: seq<string>, text: string)
    ensures Join([]) == "" && Join([text]) == text
    ensures texts != [] ==> Join(texts + [text]) == Join(texts) + "\n\n" + text
  {
    SnocParts(texts, text);
  }

  /** Neighbouring turns of one role stay apart only where one of them carries a call or a result. */
  lemma NeighboursDiffer(ms: seq<Message>, i: nat)
    requires 0 < i < |Turns(ms)|
    ensures var a, b := Turns(ms)[i - 1], Turns(ms)[i];
      a.role != b.role || a.calls != [] || b.calls != [] || a.answers != "" || b.answers != ""
    ensures Turns(ms)[i].role != "system" && Turns(ms)[i].role != "developer"
  {
    TurnsSettled(ms);
  }

  /** Every message but the system's is part of some turn. */
  lemma NobodyElseLeftOut(ms: seq<Message>)
    ensures Filter(NotSystem, ms) == Filter((m: Message) => m.role != "system" && m.role != "developer", ms)
  {
    FilterSame(NotSystem, (m: Message) => m.role != "system" && m.role != "developer", ms);
  }
}

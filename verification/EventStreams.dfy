/**
 Server-sent events: the reader every provider stream goes through, against the two writers of the
 gateway. The framing is that of section 9.2 of the WHATWG HTML Standard, lines ended by \n.
 */
module EventStreams {
  import opened Sequences
  import opened Text

  /** The lines of a body; a last line needs no newline. */
  function Lines(s: string): seq<string> {
    if s == "" then []
    else if s[0] == '\n' then [""] + Lines(s[1..])
    else
      var rest := Lines(s[1..]);
      if rest == [] then [[s[0]]] else [[s[0]] + rest[0]] + rest[1..]
  }

  predicate OneLine(s: string) {
    forall i :: 0 <= i < |s| ==> s[i] != '\n'
  }

  function StripReturns(s: string): string {
    if s != "" && s[|s| - 1] == '\r' then StripReturns(s[..|s| - 1]) else s
  }

  /** What a line carries, if anything: the trimmed rest of a data line that is neither empty nor [DONE]. */
  function PayloadOf(line: string): seq<string> {
    var l := StripReturns(line);
    if "data:" <= l && Deliverable(Trim(l[5..])) then [Trim(l[5..])] else []
  }

  predicate Deliverable(payload: string) {
    payload != "" && payload != "[DONE]"
  }

  function PayloadsOf(lines: seq<string>): seq<string> {
    Concat(Map(PayloadOf, lines))
  }

  function Payloads(body: string): seq<string> {
    PayloadsOf(Lines(body))
  }

  /** The payloads handed over before the consumer stops the scan, the refused one included. */
  function UntilRefused(payloads: seq<string>, accepts: string -> bool): seq<string> {
    if payloads == [] then []
    else
      var before := UntilRefused(payloads[..|payloads| - 1], accepts);
      if |before| < |payloads| - 1 || (before != [] && !accepts(before[|before| - 1])) then before else payloads
  }

  // ---- the reader ----

  method SplitLines(body: string) returns (lines: seq<string>)
    ensures lines == Lines(body)
  {
    lines := [];
    var line := "";
    assert "" + body[0..] == body && [] + Lines(body) == Lines(body);
    for i := 0 to |body|
      invariant OneLine(line)
      invariant lines + Lines(line + body[i..]) == Lines(body)
    {
      if body[i] == '\n' {
        assert line + body[i..] == line + "\n" + body[i + 1..];
        LineEnds(line, body[i + 1..]);
        AppendAssociates(lines, [line], Lines(body[i + 1..]));
        lines := lines + [line];
        line := "";
        assert "" + body[i + 1..] == body[i + 1..];
      } else {
        assert line + body[i..] == (line + [body[i]]) + body[i + 1..];
        line := line + [body[i]];
      }
    }
    assert body[|body|..] == "" && line + "" == line;
    LastLine(line);
    if line != "" {
      lines := lines + [line];
    }
  }

  /** What one line hands to the consumer. */
  method ReadLine(raw: string) returns (payload: Option<string>)
    ensures PayloadOf(raw) == if payload.Some? then [payload.value] else []
  {
    payload := None;
    var line := StripReturns(raw);
    if "data:" <= line {
      var rest := Trim(line[5..]);
      if rest != "" && rest != "[DONE]" {
        payload := Some(rest);
      }
    }
  }

  /** The lines of the body, one by one; the consumer's refusal ends the scan. */
  method ScanSSE(body: string, accepts: string -> bool) returns (delivered: seq<string>, err: bool)
    ensures delivered == UntilRefused(Payloads(body), accepts)
    ensures err <==> exists i :: 0 <= i < |Payloads(body)| && !accepts(Payloads(body)[i])
  {
    var lines := SplitLines(body);
    delivered, err := [], false;
    for i := 0 to |lines|
      invariant !err && delivered == PayloadsOf(lines[..i])
      invariant forall j :: 0 <= j < |delivered| ==> accepts(delivered[j])
    {
      PayloadsSnoc(lines, i);
      var payload := ReadLine(lines[i]);
      if payload.Some? {
        delivered := delivered + [payload.value];
        if !accepts(payload.value) {
          StopsAtRefusal(lines, i + 1, accepts, delivered);
          assert Payloads(body)[|delivered| - 1] == payload.value;
          return delivered, true;
        }
      }
    }
    assert lines[..|lines|] == lines;
    AllAccepted(Payloads(body), accepts);
  }

  lemma PayloadsSnoc(lines: seq<string>, i: nat)
    requires i < |lines|
    ensures PayloadsOf(lines[..i + 1]) == PayloadsOf(lines[..i]) + PayloadOf(lines[i])
    ensures PayloadOf(lines[i]) == [] ==> PayloadsOf(lines[..i + 1]) == PayloadsOf(lines[..i])
  {
    assert lines[..i + 1] == lines[..i] + [lines[i]];
    MapSnoc(PayloadOf, lines[..i], lines[i]);
    SnocParts(Map(PayloadOf, lines[..i]), PayloadOf(lines[i]));
  }

  /** The scan has stopped right after the first payload its consumer refused. */
  lemma StopsAtRefusal(lines: seq<string>, i: nat, accepts: string -> bool, got: seq<string>)
    requires i <= |lines| && got == PayloadsOf(lines[..i]) && got != []
    requires !accepts(got[|got| - 1]) && forall j :: 0 <= j < |got| - 1 ==> accepts(got[j])
    ensures UntilRefused(PayloadsOf(lines), accepts) == got
    ensures got <= PayloadsOf(lines)
  {
    PayloadsAppend(lines[..i], lines[i..]);
    assert lines == lines[..i] + lines[i..];
    var all := PayloadsOf(lines);
    assert all[..|got|] == got;
    RefusedStops(all, accepts, |got| - 1);
  }

  lemma PayloadsAppend(a: seq<string>, b: seq<string>)
    ensures PayloadsOf(a + b) == PayloadsOf(a) + PayloadsOf(b)
  {
    assert Map(PayloadOf, a + b) == Map(PayloadOf, a) + Map(PayloadOf, b);
    ConcatAppend(Map(PayloadOf, a), Map(PayloadOf, b));
  }

  lemma {:induction false} AllAccepted(payloads: seq<string>, accepts: string -> bool)
    requires forall i :: 0 <= i < |payloads| ==> accepts(payloads[i])
    ensures UntilRefused(payloads, accepts) == payloads
  {
    if payloads != [] {
      AllAccepted(payloads[..|payloads| - 1], accepts);
    }
  }

  lemma {:induction false} RefusedStops(payloads: seq<string>, accepts: string -> bool, i: nat)
    requires i < |payloads| && !accepts(payloads[i]) && forall j :: 0 <= j < i ==> accepts(payloads[j])
    ensures UntilRefused(payloads, accepts) == payloads[..i + 1]
  {
    var n := |payloads| - 1;
    if i < n {
      RefusedStops(payloads[..n], accepts, i);
      assert payloads[..n][..i + 1] == payloads[..i + 1];
    } else {
      AllAccepted(payloads[..n], accepts);
      assert payloads[..i + 1] == payloads;
    }
  }

  lemma {:induction false} LineEnds(line: string, rest: string)
    requires OneLine(line)
    ensures Lines(line + "\n" + rest) == [line] + Lines(rest)
  {
    var s := line + "\n" + rest;
    if line == "" {
      assert s == ['\n'] + rest && s[1..] == rest;
    } else {
      LineEnds(line[1..], rest);
      assert s[1..] == line[1..] + "\n" + rest;
      assert [line[0]] + line[1..] == line;
    }
  }

  lemma {:induction false} LastLine(line: string)
    requires OneLine(line)
    ensures Lines(line) == if line == "" then [] else [line]
  {
    if line != "" {
      LastLine(line[1..]);
      assert [line[0]] + line[1..] == line;
      assert |line| == 1 ==> line[1..] == "" && [line[0]] == line;
    }
  }

  // ---- the writers ----

  /** One event of a Responses stream. */
  function NamedEvent(kind: string, data: string): string {
    "event: " + kind + "\ndata: " + data + "\n\n"
  }

  /** One chunk of a chat stream. */
  function ChatEvent(data: string): string {
    "data: " + data + "\n\n"
  }

  datatype Written = Named(kind: string, data: string) | Chat(data: string)

  function WireText(w: Written): string {
    match w
    case Named(kind, data) => NamedEvent(kind, data)
    case Chat(data) => ChatEvent(data)
  }

  function Wire(ws: seq<Written>): string {
    if ws == [] then "" else WireText(ws[0]) + Wire(ws[1..])
  }

  ghost predicate Framed(ws: seq<Written>) {
    forall w :: w in ws ==> OneLine(w.data) && (w.Named? ==> OneLine(w.kind))
  }

  /** What a reader gets of each event: its trimmed data, unless that is empty or [DONE]. */
  function Received(ws: seq<Written>): seq<string> {
    if ws == [] then []
    else (if Deliverable(Trim(ws[0].data)) then [Trim(ws[0].data)] else []) + Received(ws[1..])
  }

  lemma OneLineRead(line: string)
    ensures PayloadsOf([line]) == PayloadOf(line)
  {
    assert Map(PayloadOf, [line]) == [PayloadOf(line)];
    assert Concat([PayloadOf(line)]) == Concat([]) + PayloadOf(line);
  }

  lemma ReadsLine(line: string, rest: string)
    requires OneLine(line)
    ensures Payloads(line + "\n" + rest) == PayloadOf(line) + Payloads(rest)
  {
    LineEnds(line, rest);
    PayloadsAppend([line], Lines(rest));
    OneLineRead(line);
  }

  lemma {:induction false} StripKeepsPrefix(prefix: string, s: string)
    requires prefix != "" && prefix[|prefix| - 1] != '\r'
    ensures StripReturns(prefix + s) == prefix + StripReturns(s)
  {
    var all := prefix + s;
    if s == "" {
      assert all == prefix;
    } else {
      var n := |s| - 1;
      assert all[|all| - 1] == s[n] && all[..|all| - 1] == prefix + s[..n];
      if s[n] == '\r' {
        StripKeepsPrefix(prefix, s[..n]);
      }
    }
  }

  lemma {:induction false} TrimIgnoresReturns(s: string)
    ensures Trim(StripReturns(s)) == Trim(s)
  {
    if s != "" && s[|s| - 1] == '\r' {
      TrimIgnoresReturns(s[..|s| - 1]);
      TrimDropsLast(s);
    }
  }

  /** A trailing space is trimmed whatever comes before it. */
  lemma {:induction false} TrimDropsLast(s: string)
    requires s != "" && IsSpace(s[|s| - 1])
    ensures Trim(s) == Trim(s[..|s| - 1])
  {
    if IsSpace(s[0]) && |s| > 1 {
      assert s[1..][..|s| - 2] == s[..|s| - 1][1..];
      TrimDropsLast(s[1..]);
    } else if |s| == 1 {
      assert s[1..] == "" && s[..0] == "";
    }
  }

  lemma DataLine(data: string)
    ensures PayloadOf("data: " + data) == if Deliverable(Trim(data)) then [Trim(data)] else []
  {
    var line := "data: " + data;
    StripKeepsPrefix("data: ", data);
    var l := StripReturns(line);
    assert l[..5] == "data:" && l[5..] == " " + StripReturns(data);
    assert (" " + StripReturns(data))[1..] == StripReturns(data);
    TrimIgnoresReturns(data);
  }

  lemma OtherLine(line: string)
    requires line == "" || line[0] != 'd'
    ensures PayloadOf(line) == []
  {
    StripFirst(line);
  }

  lemma {:induction false} StripFirst(s: string)
    ensures StripReturns(s) == "" || StripReturns(s)[0] == s[0]
  {
    if s != "" {
      StripFirst(s[..|s| - 1]);
    }
  }

  /** A data line and the blank line that ends its event. */
  lemma ReadsData(data: string, rest: string)
    requires OneLine(data)
    ensures Payloads("data: " + data + "\n\n" + rest) == (if Deliverable(Trim(data)) then [Trim(data)] else []) + Payloads(rest)
  {
    DataLine(data);
    OtherLine("");
    assert "data: " + data + "\n\n" + rest == ("data: " + data) + "\n" + ("" + "\n" + rest);
    ReadsLine("data: " + data, "" + "\n" + rest);
    ReadsLine("", rest);
    assert PayloadOf("") + Payloads(rest) == Payloads(rest);
  }

  lemma ReadsEvent(w: Written, rest: string)
    requires OneLine(w.data) && (w.Named? ==> OneLine(w.kind))
    ensures Payloads(WireText(w) + rest) == (if Deliverable(Trim(w.data)) then [Trim(w.data)] else []) + Payloads(rest)
  {
    ReadsData(w.data, rest);
    if w.Named? {
      var head, tail := "event: " + w.kind, "data: " + w.data + "\n\n" + rest;
      NamedText(w.kind, w.data, rest);
      OtherLine(head);
      ReadsLine(head, tail);
      assert PayloadOf(head) + Payloads(tail) == Payloads(tail);
    }
  }

  lemma NamedText(kind: string, data: string, rest: string)
    ensures NamedEvent(kind, data) + rest == ("event: " + kind) + "\n" + ("data: " + data + "\n\n" + rest)
  {
    assert "\ndata: " == "\n" + "data: ";
  }

  /** The reader undoes the writers: it gets every event's data in order, trimmed, save the empty ones and [DONE]. */
  lemma {:induction false} ReaderUndoesWriters(ws: seq<Written>)
    requires Framed(ws)
    ensures Payloads(Wire(ws)) == Received(ws)
  {
    if ws != [] {
      assert ws[0] in ws;
      ReaderUndoesWriters(ws[1..]);
      ReadsEvent(ws[0], Wire(ws[1..]));
    }
  }

  function DataOf(ws: seq<Written>): seq<string> {
    Map((w: Written) => w.data, ws)
  }

  lemma TrimmedStays(s: string)
    ensures Trim(s) == s <==> Trimmed(s)
  {
    TrimShrinks(s);
  }

  lemma {:induction false} TrimLeftShrinks(s: string)
    ensures |TrimLeft(s)| <= |s| && (|TrimLeft(s)| == |s| <==> s == "" || !IsSpace(s[0]))
  {
    if s != "" && IsSpace(s[0]) {
      TrimLeftShrinks(s[1..]);
    }
  }

  lemma {:induction false} TrimRightShrinks(s: string)
    ensures |TrimRight(s)| <= |s| && (|TrimRight(s)| == |s| <==> s == "" || !IsSpace(s[|s| - 1]))
  {
    if s != "" && IsSpace(s[|s| - 1]) {
      TrimRightShrinks(s[..|s| - 1]);
    }
  }

  lemma TrimShrinks(s: string)
    ensures |Trim(s)| <= |s| && (|Trim(s)| == |s| <==> Trimmed(s))
    ensures Trimmed(s) ==> Trim(s) == s
  {
    TrimLeftShrinks(s);
    TrimRightShrinks(TrimLeft(s));
  }

  lemma {:induction false} ReceivedLength(ws: seq<Written>)
    ensures |Received(ws)| <= |ws|
    ensures |Received(ws)| == |ws| ==> forall i :: 0 <= i < |ws| ==> Deliverable(Trim(ws[i].data)) && Received(ws)[i] == Trim(ws[i].data)
    ensures (forall i :: 0 <= i < |ws| ==> Deliverable(Trim(ws[i].data))) ==> |Received(ws)| == |ws|
  {
    if ws != [] {
      var rest := ws[1..];
      assert forall i :: 0 <= i < |rest| ==> rest[i] == ws[i + 1];
      ReceivedLength(rest);
    }
  }

  /** A data survives the trip unchanged when there is nothing to trim and nothing to skip. */
  predicate Survives(data: string) {
    Trimmed(data) && Deliverable(data)
  }

  /** The round trip is exact precisely when every event's data is trimmed, non-empty and not [DONE]. */
  lemma RoundTripExactly(ws: seq<Written>)
    requires Framed(ws)
    ensures Payloads(Wire(ws)) == DataOf(ws) <==> forall i :: 0 <= i < |ws| ==> Survives(ws[i].data)
  {
    ReaderUndoesWriters(ws);
    ReceivedLength(ws);
    forall i | 0 <= i < |ws| ensures Trim(ws[i].data) == ws[i].data <==> Trimmed(ws[i].data) {
      TrimmedStays(ws[i].data);
    }
    if Payloads(Wire(ws)) == DataOf(ws) {
      forall i | 0 <= i < |ws| ensures Survives(ws[i].data) {
        assert Received(ws)[i] == DataOf(ws)[i] == ws[i].data;
      }
    }
  }

  /** A payload that starts with a space comes back without it. */
  lemma LeadingSpaceIsLost()
    ensures Framed([Chat(" a")]) && Payloads(Wire([Chat(" a")])) != [" a"]
  {
    var ws := [Chat(" a")];
    RoundTripExactly(ws);
    assert DataOf(ws) == [" a"];
    assert !Survives(ws[0].data);
  }

  lemma DoneNotDelivered()
    ensures !Deliverable(Trim("[DONE]")) && OneLine("[DONE]")
  {
    TrimShrinks("[DONE]");
  }

  lemma FramedWith(before: seq<Written>, w: Written, after: seq<Written>)
    requires Framed(before) && Framed(after) && OneLine(w.data) && w.Chat?
    ensures Framed(before + [w] + after) && Framed(before + after)
  {}

  /** A chat stream's closing [DONE] is never delivered, and reading goes on after it. */
  lemma DoneIsSkipped(before: seq<Written>, after: seq<Written>)
    requires Framed(before) && Framed(after)
    ensures Payloads(Wire(before + [Chat("[DONE]")] + after)) == Payloads(Wire(before + after))
  {
    DoneNotDelivered();
    FramedWith(before, Chat("[DONE]"), after);
    ReaderUndoesWriters(before + [Chat("[DONE]")] + after);
    ReaderUndoesWriters(before + after);
    SkipOne(before, Chat("[DONE]"), after);
  }

  lemma {:induction false} SkipOne(before: seq<Written>, w: Written, after: seq<Written>)
    requires !Deliverable(Trim(w.data))
    ensures Received(before + [w] + after) == Received(before + after)
  {
    if before == [] {
      assert [] + [w] + after == [w] + after && ([w] + after)[1..] == after && [] + after == after;
    } else {
      assert (before + [w] + after)[1..] == before[1..] + [w] + after;
      assert (before + after)[1..] == before[1..] + after;
      SkipOne(before[1..], w, after);
    }
  }

  // ---- the framing, byte for byte ----

  /** What the two writers put on the wire. */
  lemma WireIs(kind: string, data: string)
    ensures Wire([Chat(data)]) == "data: " + data + "\n\n"
    ensures Wire([Named(kind, data)]) == "event: " + kind + "\ndata: " + data + "\n\n"
  {
    assert [Chat(data)][1..] == [] && [Named(kind, data)][1..] == [];
    assert Wire([Chat(data)]) == WireText(Chat(data)) + "";
    assert Wire([Named(kind, data)]) == WireText(Named(kind, data)) + "";
  }

  /** Only data lines are read, with or without a space after the colon and a return at the end. */
  lemma LinesRead(payload: string, other: string)
    requires Trimmed(payload) && payload != "" && payload != "[DONE]" && OneLine(payload) && OneLine(other)
    requires other == "" || other[0] != 'd'
    ensures Payloads("data: " + payload + "\r\n") == [payload]
    ensures Payloads("data:" + payload + "\n") == [payload]
    ensures Payloads(other + "\n") == []
  {
    TrimmedStays(payload);
    PayloadLine("data: " + payload + "\r", " " + payload + "\r");
    SpacedPayload(payload);
    PayloadLine("data:" + payload, payload);
    OneLineBody("data: " + payload + "\r");
    OneLineBody("data:" + payload);
    OtherLine(other);
    OneLineBody(other);
    assert "data: " + payload + "\r\n" == ("data: " + payload + "\r") + "\n";
  }

  lemma PayloadLine(line: string, rest: string)
    requires line == "data:" + rest
    ensures PayloadOf(line) == if Deliverable(Trim(rest)) then [Trim(rest)] else []
  {
    StripKeepsPrefix("data:", rest);
    assert StripReturns(line)[5..] == StripReturns(rest);
    TrimIgnoresReturns(rest);
  }

  lemma SpacedPayload(payload: string)
    ensures Trim(" " + payload + "\r") == Trim(payload)
  {
    var s := " " + payload + "\r";
    TrimDropsLast(s);
    assert s[..|s| - 1] == " " + payload && (" " + payload)[1..] == payload;
  }

  lemma OneLineBody(line: string)
    requires OneLine(line)
    ensures Payloads(line + "\n") == PayloadOf(line)
  {
    ReadsLine(line, "");
    assert line + "\n" + "" == line + "\n" && PayloadOf(line) + [] == PayloadOf(line);
  }
}

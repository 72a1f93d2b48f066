/**
 Both routes from a vendor's answer to the client's items, run side by side: decoded as a stream and
 sent as events, or decoded whole and rendered as a body.
 */
module EndToEnd {
  import opened Sequences
  import opened Responses
  import opened Streaming
  import opened Tallies
  import Anthropic
  import AnthropicWire
  import Google

  /** The items a streamed call ends with, if it was completed. */
  function FinalOutput(reply: Reply): Option<seq<Item>> {
    if reply.HttpError? || reply.log == [] then None
    else match reply.log[|reply.log| - 1].event
      case Completed(body) => Some(body.output)
      case _ => None
  }

  lemma CompletedEnds(log: seq<Sent>, opening: Body, fs: seq<Fragment>, final: Body)
    requires EventsOf(log) == FinishedLog(opening, fs, final)
    ensures FinalOutput(Streamed(log)) == Some(final.output)
  {
    var before := Opening(opening) + ItemLog(fs);
    SnocParts(before, Completed(final));
    assert |EventsOf(log)| == |before| + 1;
    assert EventsOf(log)[|before|] == Completed(final);
  }

  /** What the client of a streamed call is left with. */
  method Finished(requested: string, chunks: seq<Chunk>) returns (reply: Reply)
    ensures FinalOutput(reply) == Some(Output(FragmentsOf(chunks)))
  {
    reply := StreamResponses(requested, chunks, None);
    CompletedEnds(reply.log, OpeningBody(requested, chunks), FragmentsOf(chunks),
                  Body("completed", ModelOf(requested, chunks), Output(FragmentsOf(chunks)), UsageOf(chunks), None));
  }

  /**
   Anthropic: the stream's events go through the decoder and the event writer, the blocks through the
   whole decoder and the renderer. Told block by block, the client gets the same items up to minted
   ids exactly when no tool block is silent; told in any order, exactly when the text reads the same too.
   */
  method AnthropicBothWays(requested: string, model: string, es: seq<Anthropic.StreamEvent>, blocks: seq<Anthropic.Block>, ghost numbers: seq<int>)
    returns (reply: Reply, whole: seq<Item>)
    requires Anthropic.Tells(es, blocks, numbers)
    ensures FinalOutput(reply).Some?
    ensures ShapesOf(FinalOutput(reply).value) == AnthropicWire.ShapesTold(es)
    ensures ShapesOf(FinalOutput(reply).value) == ShapesOf(whole)
      <==> Anthropic.AllText(es) == Anthropic.BlockText(blocks) && Anthropic.Argued(es, blocks, numbers)
    ensures Anthropic.BlocksForward(es, numbers) ==>
      (ShapesOf(FinalOutput(reply).value) == ShapesOf(whole) <==> Anthropic.Argued(es, blocks, numbers))
  {
    Anthropic.NothingBreaks(es);
    var chunks, err := Anthropic.DecodeStream(model, es);
    reply := Finished(requested, chunks);
    var answer := Anthropic.DecodeResponse(blocks);
    whole := ResponsesFromChat(answer);
    Anthropic.StreamMatchesBatch(es, blocks, numbers);
    AnthropicWire.TellsIsOnTheWire(es, blocks, numbers);
    AnthropicWire.StreamOnTheWire(es);
    if Anthropic.BlocksForward(es, numbers) {
      Anthropic.OrderedTextAgrees(es, blocks, numbers);
    }
  }

  /**
   Google: the same two routes. The client gets the same items exactly when stream and answer carry
   the same text and calls; cutting the text and spreading the parts over chunks changes neither.
   */
  method GoogleBothWays(requested: string, model: string, chunks: seq<Google.GoogleChunk>, parts: seq<Google.Part>, mint: Google.Minter)
    returns (reply: Reply, whole: seq<Item>)
    requires Google.Mints(mint) && forall c :: c in chunks ==> c.GoogleChunk?
    ensures FinalOutput(reply).Some?
    ensures ShapesOf(FinalOutput(reply).value) == ShapesOf(whole)
      <==> Google.TextIn(Google.AllParts(chunks)) == Google.TextIn(parts)
           && Google.CallsIn(Google.AllParts(chunks), mint, 0) == Google.CallsIn(parts, mint, 0)
    ensures Google.SameContent(Google.AllParts(chunks), parts) ==> ShapesOf(FinalOutput(reply).value) == ShapesOf(whole)
  {
    Google.NothingMalformed(chunks);
    var out, err := Google.DecodeStream(model, chunks, mint);
    reply := Finished(requested, out);
    var answer := Google.DecodeResponse(Google.GoogleChunk(Some(parts)), mint);
    whole := ResponsesFromChat(answer.value);
    Google.StreamMatchesBatch(chunks, parts, mint);
    Google.CallsByPlace(Google.AllParts(chunks), mint);
    Google.CallsByPlace(parts, mint);
  }
}

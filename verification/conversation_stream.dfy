/**
 The stream that remembers what it passed on, so that the finished turn can be
 saved under the history the caller will send next; and the non-streaming fold
 of the same chunks.
 */
module ConversationStreams {
  import opened Wrappers
  import opened DelegatedTurn

  const FINAL_ANSWER := "final_answer"

  /** What the accumulators hold after a sequence of chunks. */
  datatype Gathered = Gathered(
    turnID: string,
    all: string,
    final: string,
    calls: seq<ToolCall>,
    complete: bool)

  const NOTHING := Gathered("", "", "", [], false)

  function Gather(g: Gathered, c: Chunk): Gathered {
    Gathered(
      if g.turnID == "" then c.id else g.turnID,
      g.all + c.content,
      if c.phase == FINAL_ANSWER then g.final + c.content else g.final,
      g.calls + c.calls,
      g.complete || c.finishReason != "")
  }

  function GatherAll(g: Gathered, chunks: seq<Chunk>): Gathered
    decreases |chunks|
  {
    if chunks == [] then g else GatherAll(Gather(g, chunks[0]), chunks[1..])
  }

  /** The assistant message a turn amounts to: the final answer when there is one, all text otherwise. */
  datatype Reply = Reply(content: string, calls: seq<ToolCall>)

  function ReplyOf(g: Gathered): Reply {
    Reply(if g.final == "" then g.all else g.final, g.calls)
  }

  lemma {:induction false} GatherSnoc(g: Gathered, chunks: seq<Chunk>, c: Chunk)
    ensures GatherAll(g, chunks + [c]) == Gather(GatherAll(g, chunks), c)
    decreases |chunks|
  {
    if chunks == [] {
      assert (chunks + [c])[1..] == [];
    } else {
      assert (chunks + [c])[0] == chunks[0] && (chunks + [c])[1..] == chunks[1..] + [c];
      GatherSnoc(Gather(g, chunks[0]), chunks[1..], c);
    }
  }

  datatype Saved = Saved(reply: Reply, turnID: string)

  class ConversationStream {
    var turnID: string
    var allContent: string
    var finalContent: string
    var toolCalls: seq<ToolCall>
    var complete: bool
    /** What was handed to the registry; a stream saves once. */
    var saved: Option<Saved>

    function View(): Gathered
      reads this
    {
      Gathered(turnID, allContent, finalContent, toolCalls, complete)
    }

    constructor ()
      ensures View() == NOTHING && saved == None
    {
      turnID, allContent, finalContent, toolCalls, complete, saved := "", "", "", [], false, None;
    }

    /** One result of the inner stream passing through. */
    method Observe(received: Received)
      modifies this
      ensures View() == if received.Got? then Gather(old(View()), received.chunk) else old(View())
      ensures saved == if received.Eof? && old(saved).None? then Some(Saved(ReplyOf(old(View())), old(turnID)))
              else old(saved)
    {
      match received {
        case Got(chunk) =>
          if turnID == "" {
            turnID := chunk.id;
          }
          allContent := allContent + chunk.content;
          if chunk.phase == FINAL_ANSWER {
            finalContent := finalContent + chunk.content;
          }
          toolCalls := toolCalls + chunk.calls;
          if chunk.finishReason != "" {
            complete := true;
          }
        case Eof => Save();
        case _ =>
      }
    }

    method Save()
      modifies this`saved
      ensures saved == if old(saved).None? then Some(Saved(ReplyOf(View()), turnID)) else old(saved)
    {
      if saved.None? {
        var content := finalContent;
        if content == "" {
          content := allContent;
        }
        saved := Some(Saved(Reply(content, toolCalls), turnID));
      }
    }

    method Close()
      modifies this`saved
      ensures saved == if complete && old(saved).None? then Some(Saved(ReplyOf(View()), turnID)) else old(saved)
    {
      if complete {
        Save();
      }
    }
  }

  /** Provider.Chat: drain the stream into one message. */
  method Chat(chunks: seq<Chunk>) returns (reply: Reply, finishReason: string)
    ensures reply == ReplyOf(GatherAll(NOTHING, chunks))
    ensures finishReason == LastReason(chunks)
  {
    var allContent, finalContent := "", "";
    var calls: seq<ToolCall> := [];
    finishReason := "";
    for i := 0 to |chunks|
      invariant GatherAll(NOTHING, chunks[..i]).all == allContent
      invariant GatherAll(NOTHING, chunks[..i]).final == finalContent
      invariant GatherAll(NOTHING, chunks[..i]).calls == calls
      invariant finishReason == LastReason(chunks[..i])
    {
      var chunk := chunks[i];
      assert chunks[..i + 1] == chunks[..i] + [chunk];
      GatherSnoc(NOTHING, chunks[..i], chunk);
      allContent := allContent + chunk.content;
      if chunk.phase == FINAL_ANSWER {
        finalContent := finalContent + chunk.content;
      }
      calls := calls + chunk.calls;
      if chunk.finishReason != "" {
        finishReason := chunk.finishReason;
      }
    }
    assert chunks[..|chunks|] == chunks;
    var content := allContent;
    if finalContent != "" {
      content := finalContent;
    }
    reply := Reply(content, calls);
  }

  function LastReason(chunks: seq<Chunk>): string {
    if chunks == [] then ""
    else if chunks[|chunks| - 1].finishReason != "" then chunks[|chunks| - 1].finishReason
    else LastReason(chunks[..|chunks| - 1])
  }

  /**
   The non-streaming answer is exactly the assistant message under which the
   drained stream saved the turn, so sending it back finds the checkpoint.
   */
  method ChatMatchesCheckpoint(chunks: seq<Chunk>) returns (reply: Reply, saved: Option<Saved>)
    ensures saved == Some(Saved(reply, GatherAll(NOTHING, chunks).turnID))
  {
    var stream := new ConversationStream();
    for i := 0 to |chunks|
      invariant fresh(stream)
      invariant stream.View() == GatherAll(NOTHING, chunks[..i]) && stream.saved == None
    {
      assert chunks[..i + 1] == chunks[..i] + [chunks[i]];
      GatherSnoc(NOTHING, chunks[..i], chunks[i]);
      stream.Observe(Got(chunks[i]));
    }
    assert chunks[..|chunks|] == chunks;
    stream.Observe(Eof);
    saved := stream.saved;
    var reason;
    reply, reason := Chat(chunks);
  }

  // ------------------------------------------------ what is saved, told by the chunks

  /** The text of the chunks, of all of them or of those of the final answer. */
  function TextOf(chunks: seq<Chunk>, finalOnly: bool): string {
    if chunks == [] then ""
    else
      var text := if finalOnly && chunks[0].phase != "final_answer" then "" else chunks[0].content;
      text + TextOf(chunks[1..], finalOnly)
  }

  function CallsOf(chunks: seq<Chunk>): seq<ToolCall> {
    if chunks == [] then [] else chunks[0].calls + CallsOf(chunks[1..])
  }

  function FirstID(chunks: seq<Chunk>): string {
    if chunks == [] then "" else if chunks[0].id != "" then chunks[0].id else FirstID(chunks[1..])
  }

  lemma {:induction false} GatheredFrom(g: Gathered, chunks: seq<Chunk>)
    ensures var after := GatherAll(g, chunks);
            && after.all == g.all + TextOf(chunks, false) && after.final == g.final + TextOf(chunks, true)
            && after.calls == g.calls + CallsOf(chunks)
            && after.turnID == (if g.turnID == "" then FirstID(chunks) else g.turnID)
            && (after.complete <==> g.complete || exists i :: 0 <= i < |chunks| && chunks[i].finishReason != "")
    decreases |chunks|
  {
    if chunks != [] {
      var c, rest := chunks[0], chunks[1..];
      GatheredFrom(Gather(g, c), rest);
      assert (exists i :: 0 <= i < |chunks| && chunks[i].finishReason != "") <==>
        c.finishReason != "" || exists i :: 0 <= i < |rest| && rest[i].finishReason != "" by {
        if i :| 0 <= i < |chunks| && chunks[i].finishReason != "" {
          assert i == 0 || rest[i - 1] == chunks[i];
        }
        if i :| 0 <= i < |rest| && rest[i].finishReason != "" {
          assert chunks[i + 1] == rest[i];
        }
      }
      Regroup(g.all, c.content, TextOf(rest, false));
      Regroup(g.final, if c.phase == "final_answer" then c.content else "", TextOf(rest, true));
      Regroup(g.calls, c.calls, CallsOf(rest));
    }
  }

  lemma Regroup<T>(a: seq<T>, b: seq<T>, c: seq<T>)
    ensures a + b + c == a + (b + c) && a + [] == a
  {
  }

  /**
   The message a stream of chunks amounts to: the text of the final answer if there is
   any and all text otherwise, with all calls in order; its turn is the first one named,
   and it counts as complete exactly when some chunk gave a finish reason.
   */
  lemma ReplyTellsTheChunks(chunks: seq<Chunk>)
    ensures var g := GatherAll(NOTHING, chunks);
            && ReplyOf(g).content == (if TextOf(chunks, true) != "" then TextOf(chunks, true)
               else TextOf(chunks, false))
            && ReplyOf(g).calls == CallsOf(chunks)
            && g.turnID == FirstID(chunks)
            && (g.complete <==> exists i :: 0 <= i < |chunks| && chunks[i].finishReason != "")
  {
    GatheredFrom(NOTHING, chunks);
  }
}

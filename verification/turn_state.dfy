/**
 The turn object itself: fields changed in place, one method per critical
 section. Every method is verified against the function of DelegatedTurn that
 says what the section does to the whole state.
 */
module TurnObject {
  import opened Wrappers
  import opened DelegatedTurn

  datatype Answer = Answer(requestID: string, text: string)

  function AnswersOf(plan: seq<Pending>, results: seq<string>): seq<Answer>
    requires |plan| == |results|
  {
    seq(|plan|, i requires 0 <= i < |plan| => Answer(plan[i].requestID, results[i]))
  }

  /** The state after the planned entries have been acknowledged in order. */
  function AcknowledgeAll(t: Turn, plan: seq<Pending>): Turn
    decreases |plan|
  {
    if plan == [] then t else AcknowledgeAll(Acknowledge(t, plan[0]), plan[1..])
  }

  lemma {:induction false} AcknowledgeAllSnoc(t: Turn, plan: seq<Pending>, item: Pending)
    ensures AcknowledgeAll(t, plan + [item]) == Acknowledge(AcknowledgeAll(t, plan), item)
    decreases |plan|
  {
    if plan == [] {
      assert plan + [item] == [item];
    } else {
      assert (plan + [item])[0] == plan[0] && (plan + [item])[1..] == plan[1..] + [item];
      AcknowledgeAllSnoc(Acknowledge(t, plan[0]), plan[1..], item);
    }
  }

  /** How a resume ends: an unmatched call and a failed write are errors for the caller. */
  datatype Outcome = NotWaiting | Unmatched(error: string) | WriteFailed | NotPending(id: string) | Resumed

  class TurnState {
    var turnID: string
    var queue: seq<Chunk>
    var done: bool
    var err: Option<string>
    var errDelivered: bool
    var closed: bool
    var delegated: seq<Pending>
    var awaitingTools: bool
    var nextToolIndex: nat
    const parallelTools: bool

    function View(): Turn
      reads this
    {
      Turn(turnID, queue, delegated, awaitingTools, parallelTools, nextToolIndex, done, closed, err, errDelivered)
    }

    constructor (parallelTools: bool)
      ensures View() == NewTurn(parallelTools)
    {
      this.parallelTools := parallelTools;
      turnID, queue, delegated := "", [], [];
      done, closed, awaitingTools, errDelivered := false, false, false, false;
      err, nextToolIndex := None, 0;
    }

    method QueueDelegatedTools()
      modifies this
      ensures View() == QueueTools(old(View()))
    {
      if !parallelTools {
        for index := 0 to |delegated|
          invariant View() == old(View())
          invariant forall i :: 0 <= i < index ==> !Exposed(delegated[i])
        {
          if Exposed(delegated[index]) {
            return;
          }
        }
      }
      ghost var before := delegated;
      for index := 0 to |delegated|
        invariant |delegated| == |before|
        invariant !parallelTools ==> index == 0 && forall i :: 0 <= i < |before| ==> !Exposed(before[i])
        invariant forall i :: 0 <= i < index ==> delegated[i] == MarkQueued(before[i])
        invariant forall i :: index <= i < |before| ==> delegated[i] == before[i]
        invariant queue == old(queue) + ToolChunks(turnID, Calls(Hidden(before[..index])))
        invariant View() == old(View()).(delegated := delegated, queue := queue)
      {
        assert before[..index + 1] == before[..index] + [before[index]];
        SelectAppend(before[..index], [before[index]], (p: Pending) => !Exposed(p));
        if Exposed(delegated[index]) {
          continue;
        }
        var call := delegated[index].call;
        delegated := delegated[index := delegated[index].(queued := true)];
        queue := queue + [ToolChunk(turnID, call)];
        if !parallelTools {
          assert delegated == [before[0].(queued := true)] + before[1..];
          return;
        }
      }
      assert before[..|before|] == before;
      if parallelTools {
        assert delegated == MarkAllQueued(before);
      }
    }

    method AddDelegatedTool(call: ToolCall, requestID: string) returns (accepted: bool)
      modifies this
      ensures accepted == old(Accepting(View()))
      ensures View() == AddTool(old(View()), call, requestID)
    {
      if done || closed {
        return false;
      }
      var indexed := call;
      if parallelTools {
        indexed := call.(index := nextToolIndex);
        nextToolIndex := nextToolIndex + 1;
      } else {
        indexed := call.(index := 0);
      }
      delegated := delegated + [Pending(indexed, requestID, false, false)];
      awaitingTools := true;
      QueueDelegatedTools();
      return true;
    }

    method MarkDelegatedToolDelivered(chunk: Chunk)
      modifies this`delegated
      ensures delegated == MarkEachDelivered(old(delegated), chunk.calls)
    {
      for c := 0 to |chunk.calls|
        invariant MarkEachDelivered(delegated, chunk.calls[c..]) == MarkEachDelivered(old(delegated), chunk.calls)
      {
        assert chunk.calls[c..][1..] == chunk.calls[c + 1..];
        MarkFirstDelivered(chunk.calls[c].id);
      }
    }

    method MarkFirstDelivered(id: string)
      modifies this`delegated
      ensures delegated == MarkDelivered(old(delegated), id)
    {
      for index := 0 to |delegated|
        invariant delegated == old(delegated)
        invariant forall i :: 0 <= i < index ==> delegated[i].call.id != id
      {
        if delegated[index].call.id == id {
          MarkDeliveredFirst(delegated, id, index);
          delegated := delegated[index := delegated[index].(queued := false, delivered := true)];
          return;
        }
      }
      MarkDeliveredNone(delegated, id);
    }

    /** One pass of the receive loop: MustWait is where the caller parks on the wake channel. */
    method TryReceive() returns (received: Received)
      modifies this
      ensures (View(), received) == Receive(old(View()))
    {
      if |queue| > 0 {
        var chunk := queue[0];
        queue := queue[1..];
        MarkDelegatedToolDelivered(chunk);
        return Got(chunk);
      }
      if done || closed {
        if err.Some? && !errDelivered {
          errDelivered := true;
          return Raised(err.value);
        }
        return Eof;
      }
      if awaitingTools {
        return Eof;
      }
      return MustWait;
    }

    method EnqueueChunk(chunk: Chunk)
      modifies this
      ensures View() == Enqueue(old(View()), chunk)
    {
      if !done && !closed {
        queue := queue + [chunk];
      }
    }

    method FinishTurn(e: Option<string>)
      modifies this
      ensures View() == Finish(old(View()), e)
    {
      if !done {
        done := true;
        err := e;
      }
    }

    /** Returns whether the running turn has to be interrupted and forgotten. */
    method CloseStream() returns (interrupt: bool)
      modifies this
      ensures View() == Close(old(View()))
      ensures interrupt == (old(CloseTakesEffect(View())) && !done)
    {
      if awaitingTools && !done {
        return false;
      }
      if closed {
        return false;
      }
      closed := true;
      return !done;
    }

    method MatchDelegatedToolResults(messages: seq<Message>) returns (matched: Result<Matched>)
      ensures matched == Match(View(), messages)
    {
      var byCall: map<string, string> := map[];
      for m := 0 to |messages|
        invariant forall id :: id in byCall <==> LastResult(messages[..m], id).Some?
        invariant forall id :: id in byCall ==> LastResult(messages[..m], id) == Some(byCall[id])
      {
        assert messages[..m + 1][..m] == messages[..m];
        if messages[m].role == ROLE_TOOL && messages[m].toolCallID != "" {
          byCall := byCall[messages[m].toolCallID := messages[m].text];
        }
      }
      assert messages[..|messages|] == messages;
      if done || !awaitingTools || |delegated| == 0 {
        return Failure(NOT_WAITING);
      }
      var plan: seq<Pending> := [];
      var ordered := [];
      for index := 0 to |delegated|
        invariant plan == Delivered(delegated[..index])
        invariant ResultsFor(plan, messages) == Success(ordered)
      {
        var item := delegated[index];
        assert delegated[..index + 1] == delegated[..index] + [item];
        SelectAppend(delegated[..index], [item], (p: Pending) => p.delivered);
        if !item.delivered {
          continue;
        }
        if item.call.id !in byCall {
          assert delegated == delegated[..index + 1] + delegated[index + 1..];
          SelectAppend(delegated[..index + 1], delegated[index + 1..], (p: Pending) => p.delivered);
          ResultsForStops(plan, item, Delivered(delegated[index + 1..]), messages);
          assert Delivered(delegated) == plan + [item] + Delivered(delegated[index + 1..]);
          return Failure("codex: missing result for delegated tool call " + item.call.id);
        }
        ResultsForSnoc(plan, item, messages);
        plan := plan + [item];
        ordered := ordered + [byCall[item.call.id]];
      }
      assert delegated[..|delegated|] == delegated;
      return Success(Matched(plan, ordered));
    }

    method AcknowledgeDelegatedTool(item: Pending) returns (found: bool)
      modifies this
      ensures found == old(Pends(delegated, item.call.id, item.requestID))
      ensures View() == Acknowledge(old(View()), item)
    {
      for index := 0 to |delegated|
        invariant View() == old(View())
        invariant forall i :: 0 <= i < index ==> !Matches(delegated[i], item.call.id, item.requestID)
      {
        if delegated[index].call.id != item.call.id || delegated[index].requestID != item.requestID {
          continue;
        }
        RemoveFirstSplits(delegated, item.call.id, item.requestID, index);
        RemoveDelegated(index);
        return true;
      }
      return false;
    }

    method RemoveDelegated(index: nat)
      requires index < |delegated|
      modifies this
      ensures var rest := old(delegated)[..index] + old(delegated)[index + 1..];
              var t := old(View()).(delegated := rest, awaitingTools := rest != []);
              View() == if rest != [] then QueueTools(t) else t.(nextToolIndex := 0)
    {
      delegated := delegated[..index] + delegated[index + 1..];
      awaitingTools := |delegated| > 0;
      if awaitingTools {
        QueueDelegatedTools();
      } else {
        nextToolIndex := 0;
      }
    }

    /**
     The caller's resume: answer each planned callback and acknowledge it once its
     response is written. writes gives the outcome of each write; a missing
     outcome means the connection has failed.
     */
    method ResumeDelegatedTurn(messages: seq<Message>, writes: seq<bool>)
      returns (answers: seq<Answer>, outcome: Outcome)
      modifies this
      ensures !old(IsAwaitingTools(View())) ==> outcome == NotWaiting && answers == [] && View() == old(View())
      ensures old(IsAwaitingTools(View())) ==>
                match Match(old(View()), messages)
                case Failure(error) => outcome == Unmatched(error) && answers == [] && View() == old(View())
                case Success(matched) => Answered(old(View()), View(), matched, answers, outcome)
    {
      if !(awaitingTools && !done) {
        return [], NotWaiting;
      }
      var matched := MatchDelegatedToolResults(messages);
      if matched.Failure? {
        return [], Unmatched(matched.error);
      }
      ResultsForAnswersEachEntry(matched.value.plan, messages);
      answers, outcome := AnswerPlanned(matched.value, writes);
    }

    method AnswerPlanned(matched: Matched, writes: seq<bool>) returns (answers: seq<Answer>, outcome: Outcome)
      requires |matched.plan| == |matched.results|
      modifies this
      ensures Answered(old(View()), View(), matched, answers, outcome)
    {
      ghost var t := View();
      var plan, results := matched.plan, matched.results;
      answers := [];
      for index := 0 to |plan|
        invariant answers == AnswersOf(plan, results)[..index]
        invariant View() == AcknowledgeAll(t, plan[..index])
      {
        if index >= |writes| || !writes[index] {
          return answers, WriteFailed;
        }
        answers := answers + [Answer(plan[index].requestID, results[index])];
        AcknowledgeAllSnoc(t, plan[..index], plan[index]);
        assert plan[..index + 1] == plan[..index] + [plan[index]];
        var found := AcknowledgeDelegatedTool(plan[index]);
        if !found {
          return answers, NotPending(plan[index].call.id);
        }
      }
      return answers, Resumed;
    }
  }

  /** A resume answers a prefix of its plan in order and acknowledges exactly what it answered. */
  ghost predicate Answered(before: Turn, after: Turn, matched: Matched, answers: seq<Answer>, outcome: Outcome) {
    && |matched.plan| == |matched.results|
    && |answers| <= |matched.plan|
    && answers == AnswersOf(matched.plan, matched.results)[..|answers|]
    && after == AcknowledgeAll(before, matched.plan[..|answers|])
    && (outcome == Resumed || outcome == WriteFailed || outcome.NotPending?)
    && (outcome == Resumed ==> |answers| == |matched.plan|)
    && (outcome == WriteFailed ==> |answers| < |matched.plan|)
  }

  lemma {:induction false} ResultsForStops(before: seq<Pending>, item: Pending, after: seq<Pending>,
      messages: seq<Message>)
    requires ResultsFor(before, messages).Success?
    requires LastResult(messages, item.call.id) == None
    ensures ResultsFor(before + [item] + after, messages) == Failure(item.call.id)
  {
    var all := before + [item] + after;
    if before == [] {
      assert all[0] == item;
    } else {
      assert all[0] == before[0] && all[1..] == before[1..] + [item] + after;
      ResultsForStops(before[1..], item, after, messages);
    }
  }

  lemma {:induction false} ResultsForSnoc(entries: seq<Pending>, item: Pending, messages: seq<Message>)
    requires ResultsFor(entries, messages).Success?
    ensures ResultsFor(entries + [item], messages) ==
            match LastResult(messages, item.call.id)
            case None => Failure(item.call.id)
            case Some(text) => Success(ResultsFor(entries, messages).value + [text])
  {
    if entries == [] {
      assert (entries + [item])[1..] == [];
      assert forall text: string :: [text] + [] == [] + [text];
    } else {
      assert (entries + [item])[0] == entries[0] && (entries + [item])[1..] == entries[1..] + [item];
      ResultsForSnoc(entries[1..], item, messages);
      if LastResult(messages, item.call.id).Some? {
        var first := LastResult(messages, entries[0].call.id).value;
        var rest, text := ResultsFor(entries[1..], messages).value, LastResult(messages, item.call.id).value;
        assert [first] + rest + [text] == [first] + (rest + [text]);
      }
    }
  }
}

/**
 The state a Codex turn keeps under its mutex, and what each critical section
 does to it (providers/codex/stream.go). The methods of TurnState in
 turn_state.dfy implement these functions in place.
 */
module DelegatedTurn {
  import opened Wrappers

  datatype ToolCall = ToolCall(index: nat, id: string, name: string, arguments: string)

  /** A server callback waiting for the caller's result. */
  datatype Pending = Pending(call: ToolCall, requestID: string, queued: bool, delivered: bool)

  datatype Chunk = Chunk(id: string, content: string, phase: string, calls: seq<ToolCall>, finishReason: string)

  datatype Message = Message(role: string, toolCallID: string, text: string)

  datatype Turn = Turn(
    turnID: string,
    queue: seq<Chunk>,
    delegated: seq<Pending>,
    awaitingTools: bool,
    parallelTools: bool,
    nextToolIndex: nat,
    done: bool,
    closed: bool,
    err: Option<string>,
    errDelivered: bool)

  const ROLE_TOOL := "tool"

  function NewTurn(parallelTools: bool): Turn {
    Turn("", [], [], false, parallelTools, 0, false, false, None, false)
  }

  predicate Exposed(p: Pending) {
    p.queued || p.delivered
  }

  function ToolChunk(turnID: string, call: ToolCall): Chunk {
    Chunk(turnID, "", "", [call], "tool_calls")
  }

  function ToolChunks(turnID: string, calls: seq<ToolCall>): (chunks: seq<Chunk>) {
    seq(|calls|, i requires 0 <= i < |calls| => ToolChunk(turnID, calls[i]))
  }

  function Calls(entries: seq<Pending>): seq<ToolCall> {
    seq(|entries|, i requires 0 <= i < |entries| => entries[i].call)
  }

  function Requests(entries: seq<Pending>): seq<string> {
    seq(|entries|, i requires 0 <= i < |entries| => entries[i].requestID)
  }

  /** The entries that satisfy p, in their own order. */
  function Select(entries: seq<Pending>, p: Pending -> bool): seq<Pending> {
    if entries == [] then []
    else (if p(entries[0]) then [entries[0]] else []) + Select(entries[1..], p)
  }

  function Hidden(entries: seq<Pending>): seq<Pending> {
    Select(entries, (p: Pending) => !Exposed(p))
  }

  function Delivered(entries: seq<Pending>): seq<Pending> {
    Select(entries, (p: Pending) => p.delivered)
  }

  function Undelivered(entries: seq<Pending>): seq<Pending> {
    Select(entries, (p: Pending) => !p.delivered)
  }

  function Queued(entries: seq<Pending>): seq<Pending> {
    Select(entries, (p: Pending) => p.queued)
  }

  function MarkQueued(p: Pending): Pending {
    if Exposed(p) then p else p.(queued := true)
  }

  function MarkAllQueued(entries: seq<Pending>): seq<Pending> {
    seq(|entries|, i requires 0 <= i < |entries| => MarkQueued(entries[i]))
  }

  /** Expose every pending callback in parallel mode, and one at a time otherwise. */
  function QueueTools(t: Turn): Turn {
    if t.parallelTools then
      t.(delegated := MarkAllQueued(t.delegated),
         queue := t.queue + ToolChunks(t.turnID, Calls(Hidden(t.delegated))))
    else if t.delegated == [] || exists i :: 0 <= i < |t.delegated| && Exposed(t.delegated[i]) then
      t
    else
      t.(delegated := [t.delegated[0].(queued := true)] + t.delegated[1..],
         queue := t.queue + [ToolChunk(t.turnID, t.delegated[0].call)])
  }

  predicate Accepting(t: Turn) {
    !t.done && !t.closed
  }

  function AssignIndex(t: Turn, call: ToolCall): ToolCall {
    call.(index := if t.parallelTools then t.nextToolIndex else 0)
  }

  function AddTool(t: Turn, call: ToolCall, requestID: string): Turn {
    if !Accepting(t) then t
    else
      QueueTools(t.(nextToolIndex := if t.parallelTools then t.nextToolIndex + 1 else t.nextToolIndex,
                    delegated := t.delegated + [Pending(AssignIndex(t, call), requestID, false, false)],
                    awaitingTools := true))
  }

  /** Flag the first entry with this call ID as delivered. */
  function MarkDelivered(entries: seq<Pending>, id: string): seq<Pending> {
    if entries == [] then []
    else if entries[0].call.id == id then [entries[0].(queued := false, delivered := true)] + entries[1..]
    else [entries[0]] + MarkDelivered(entries[1..], id)
  }

  function MarkEachDelivered(entries: seq<Pending>, calls: seq<ToolCall>): seq<Pending>
    decreases |calls|
  {
    if calls == [] then entries
    else MarkEachDelivered(MarkDelivered(entries, calls[0].id), calls[1..])
  }

  datatype Received = Got(chunk: Chunk) | Raised(error: string) | Eof | MustWait

  /** One pass of the receive loop under the mutex. */
  function Receive(t: Turn): (Turn, Received) {
    if t.queue != [] then
      (t.(queue := t.queue[1..], delegated := MarkEachDelivered(t.delegated, t.queue[0].calls)), Got(t.queue[0]))
    else if t.done || t.closed then
      if t.err.Some? && !t.errDelivered then (t.(errDelivered := true), Raised(t.err.value)) else (t, Eof)
    else if t.awaitingTools then (t, Eof)
    else (t, MustWait)
  }

  function Enqueue(t: Turn, chunk: Chunk): Turn {
    if Accepting(t) then t.(queue := t.queue + [chunk]) else t
  }

  function Finish(t: Turn, err: Option<string>): Turn {
    if t.done then t else t.(done := true, err := err)
  }

  predicate CloseTakesEffect(t: Turn) {
    !(t.awaitingTools && !t.done) && !t.closed
  }

  function Close(t: Turn): Turn {
    if CloseTakesEffect(t) then t.(closed := true) else t
  }

  predicate Matches(p: Pending, id: string, requestID: string) {
    p.call.id == id && p.requestID == requestID
  }

  predicate Pends(entries: seq<Pending>, id: string, requestID: string) {
    exists i :: 0 <= i < |entries| && Matches(entries[i], id, requestID)
  }

  function RemoveFirst(entries: seq<Pending>, id: string, requestID: string): seq<Pending> {
    if entries == [] then []
    else if Matches(entries[0], id, requestID) then entries[1..]
    else [entries[0]] + RemoveFirst(entries[1..], id, requestID)
  }

  function Acknowledge(t: Turn, item: Pending): Turn {
    if !Pends(t.delegated, item.call.id, item.requestID) then t
    else
      var rest := RemoveFirst(t.delegated, item.call.id, item.requestID);
      var t' := t.(delegated := rest, awaitingTools := rest != []);
      if rest != [] then QueueTools(t') else t'.(nextToolIndex := 0)
  }

  /** The result the caller supplied last for a call ID; an empty ID never names a result. */
  function LastResult(messages: seq<Message>, id: string): Option<string> {
    if messages == [] then None
    else
      var last := messages[|messages| - 1];
      if last.role == ROLE_TOOL && last.toolCallID != "" && last.toolCallID == id then Some(last.text)
      else LastResult(messages[..|messages| - 1], id)
  }

  predicate IsAwaitingTools(t: Turn) {
    t.awaitingTools && !t.done
  }

  /** Pair every delivered callback, in arrival order, with the caller's last result for it. */
  function ResultsFor(entries: seq<Pending>, messages: seq<Message>): Result<seq<string>> {
    if entries == [] then Success([])
    else
      match LastResult(messages, entries[0].call.id)
      case None => Failure(entries[0].call.id)
      case Some(text) =>
        match ResultsFor(entries[1..], messages)
        case Failure(id) => Failure(id)
        case Success(rest) => Success([text] + rest)
  }

  datatype Matched = Matched(plan: seq<Pending>, results: seq<string>)

  const NOT_WAITING := "codex: thread is not waiting for delegated tool results"

  /** What a resume will answer; matching changes nothing. */
  function Match(t: Turn, messages: seq<Message>): Result<Matched> {
    if t.done || !t.awaitingTools || t.delegated == [] then Failure(NOT_WAITING)
    else
      match ResultsFor(Delivered(t.delegated), messages)
      case Failure(id) => Failure("codex: missing result for delegated tool call " + id)
      case Success(results) => Success(Matched(Delivered(t.delegated), results))
  }

  lemma {:induction false} ResultsForAnswersEachEntry(entries: seq<Pending>, messages: seq<Message>)
    ensures ResultsFor(entries, messages).Success? <==>
            forall i :: 0 <= i < |entries| ==> LastResult(messages, entries[i].call.id).Some?
    ensures ResultsFor(entries, messages).Success? ==>
              var results := ResultsFor(entries, messages).value;
              && |results| == |entries|
              && forall i :: 0 <= i < |entries| ==> LastResult(messages, entries[i].call.id) == Some(results[i])
  {
    if entries != [] {
      var head, tail := entries[0], entries[1..];
      ResultsForAnswersEachEntry(tail, messages);
      assert forall i :: 0 <= i < |tail| ==> tail[i] == entries[i + 1];
      assert (forall i :: 0 <= i < |entries| ==> LastResult(messages, entries[i].call.id).Some?) ==>
          forall i :: 0 <= i < |tail| ==> LastResult(messages, tail[i].call.id).Some?;
    }
  }

  lemma {:induction false} SelectAppend(a: seq<Pending>, b: seq<Pending>, p: Pending -> bool)
    ensures Select(a + b, p) == Select(a, p) + Select(b, p)
  {
    if a == [] {
      assert a + b == b;
    } else {
      assert (a + b)[0] == a[0] && (a + b)[1..] == a[1..] + b;
      SelectAppend(a[1..], b, p);
    }
  }

  lemma {:induction false} SelectAll(a: seq<Pending>, p: Pending -> bool)
    requires forall i :: 0 <= i < |a| ==> p(a[i])
    ensures Select(a, p) == a
  {
    if a != [] {
      SelectAll(a[1..], p);
    }
  }

  lemma {:induction false} SelectNone(a: seq<Pending>, p: Pending -> bool)
    requires forall i :: 0 <= i < |a| ==> !p(a[i])
    ensures Select(a, p) == []
  {
    if a != [] {
      SelectNone(a[1..], p);
    }
  }

  lemma {:induction false} SelectMembers(a: seq<Pending>, p: Pending -> bool)
    ensures forall e :: e in Select(a, p) <==> e in a && p(e)
  {
    if a != [] {
      SelectMembers(a[1..], p);
      assert forall e :: e in a <==> e == a[0] || e in a[1..];
    }
  }

  /** A selection splits where p stops holding. */
  lemma SelectPrefix(a: seq<Pending>, k: nat, p: Pending -> bool)
    requires k <= |a|
    requires forall i :: 0 <= i < k ==> p(a[i])
    requires forall i :: k <= i < |a| ==> !p(a[i])
    ensures Select(a, p) == a[..k]
  {
    var before, after := a[..k], a[k..];
    assert a == before + after;
    SelectAppend(before, after, p);
    SelectAll(before, p);
    SelectNone(after, p);
    assert before + [] == before;
  }

  lemma SelectSuffix(a: seq<Pending>, k: nat, p: Pending -> bool)
    requires k <= |a|
    requires forall i :: 0 <= i < k ==> !p(a[i])
    requires forall i :: k <= i < |a| ==> p(a[i])
    ensures Select(a, p) == a[k..]
  {
    var before, after := a[..k], a[k..];
    assert a == before + after;
    SelectAppend(before, after, p);
    SelectNone(before, p);
    SelectAll(after, p);
    assert [] + after == after;
  }

  predicate DistinctIDs(calls: seq<ToolCall>) {
    forall i, j :: 0 <= i < j < |calls| ==> calls[i].id != calls[j].id
  }

  /** With distinct IDs the first match is the only one, so marking and removing are pointwise. */
  lemma {:induction false} MarkDeliveredAt(entries: seq<Pending>, k: nat)
    requires k < |entries| && DistinctIDs(Calls(entries))
    ensures MarkDelivered(entries, entries[k].call.id) == entries[k := entries[k].(queued := false, delivered := true)]
  {
    if k > 0 {
      assert Calls(entries)[0].id != Calls(entries)[k].id;
      assert Calls(entries[1..]) == Calls(entries)[1..];
      MarkDeliveredAt(entries[1..], k - 1);
      assert entries == [entries[0]] + entries[1..];
    }
  }

  lemma {:induction false} RemoveFirstAt(entries: seq<Pending>, k: nat)
    requires k < |entries| && DistinctIDs(Calls(entries))
    ensures Pends(entries, entries[k].call.id, entries[k].requestID)
    ensures RemoveFirst(entries, entries[k].call.id, entries[k].requestID) == entries[..k] + entries[k + 1..]
  {
    assert Matches(entries[k], entries[k].call.id, entries[k].requestID);
    if k > 0 {
      assert Calls(entries)[0].id != Calls(entries)[k].id;
      assert Calls(entries[1..]) == Calls(entries)[1..];
      RemoveFirstAt(entries[1..], k - 1);
      assert entries == [entries[0]] + entries[1..];
    }
  }

  /** Marking and removing stop at the first match. */
  lemma {:induction false} MarkDeliveredFirst(entries: seq<Pending>, id: string, k: nat)
    requires k < |entries| && entries[k].call.id == id && forall i :: 0 <= i < k ==> entries[i].call.id != id
    ensures MarkDelivered(entries, id) == entries[k := entries[k].(queued := false, delivered := true)]
  {
    assert entries == [entries[0]] + entries[1..];
    if k > 0 {
      MarkDeliveredFirst(entries[1..], id, k - 1);
    }
  }

  lemma {:induction false} MarkDeliveredNone(entries: seq<Pending>, id: string)
    requires forall i :: 0 <= i < |entries| ==> entries[i].call.id != id
    ensures MarkDelivered(entries, id) == entries
  {
    if entries != [] {
      assert entries == [entries[0]] + entries[1..];
      MarkDeliveredNone(entries[1..], id);
    }
  }

  lemma {:induction false} RemoveFirstSplits(entries: seq<Pending>, id: string, requestID: string, k: nat)
    requires k < |entries| && Matches(entries[k], id, requestID)
    requires forall i :: 0 <= i < k ==> !Matches(entries[i], id, requestID)
    ensures Pends(entries, id, requestID) && RemoveFirst(entries, id, requestID) == entries[..k] + entries[k + 1..]
  {
    if k > 0 {
      var tail := entries[1..];
      RemoveFirstSplits(tail, id, requestID, k - 1);
      assert [entries[0]] + (tail[..k - 1] + tail[k..]) == entries[..k] + entries[k + 1..];
    }
  }
}

/**
 What a caller receives from a turn (providers/codex/stream.go), told by the history
 of the run: the chunks that were accepted come out in order, none lost, none twice;
 the turn ends as its first finish said; and a turn that waits for tool results
 survives being closed.
 */
module TurnChunks {
  import opened Wrappers
  import opened DelegatedTurn
  import opened TurnObject
  import opened TurnHistory
  import opened TurnTheorems

  // ------------------------------------------------------------- accepted, received

  /** The chunk that shows a callback to the caller. */
  function Shown(s: Session, call: ToolCall, index: nat): Chunk {
    Chunk(s.turn.turnID, "", "", [ToolCall(index, call.id, call.name, call.arguments)], "tool_calls")
  }

  /**
   The chunks an event brings in. Text is accepted while the turn is neither done nor
   closed. A callback is shown as it comes, numbered upwards, in parallel mode; in
   sequential mode only one is shown at a time, the next one when the one before it
   has been acknowledged.
   */
  function Brings(s: Session, e: Event): seq<Chunk> {
    var open := !s.turn.done && !s.turn.closed;
    match e
    case Content(content, phase, finishReason) =>
      if open then [Chunk(s.turn.turnID, content, phase, [], finishReason)] else []
    case Add(call, _) =>
      if !open then []
      else if s.turn.parallelTools then [Shown(s, call, s.turn.nextToolIndex)]
      else if s.turn.delegated == [] then [Shown(s, call, 0)]
      else []
    case Ack =>
      if Acknowledging(s.resume) && !s.turn.parallelTools && |s.turn.delegated| > 1 then
        [Chunk(s.turn.turnID, "", "", [s.turn.delegated[1].call], "tool_calls")]
      else []
    case _ => []
  }

  function Accepted(s: Session, events: seq<Event>): seq<Chunk>
    decreases |events|
  {
    if events == [] then [] else Brings(s, events[0]) + Accepted(Step(s, events[0]), events[1..])
  }

  /** What a receive hands to the caller, if the event is one. */
  function Hands(s: Session, e: Event): Option<Received> {
    if e.Recv? then Some(Receive(s.turn).1) else None
  }

  function HandedChunks(s: Session, e: Event): seq<Chunk> {
    match Hands(s, e)
    case Some(Got(chunk)) => [chunk]
    case _ => []
  }

  function ReceivedChunks(s: Session, events: seq<Event>): seq<Chunk>
    decreases |events|
  {
    if events == [] then [] else HandedChunks(s, events[0]) + ReceivedChunks(Step(s, events[0]), events[1..])
  }

  function RaisedErrors(s: Session, events: seq<Event>): seq<string>
    decreases |events|
  {
    if events == [] then []
    else
      (match Hands(s, events[0])
       case Some(Raised(error)) => [error]
       case _ => []) + RaisedErrors(Step(s, events[0]), events[1..])
  }

  /** How the first finish of a run ends the turn. */
  function FirstFinish(events: seq<Event>): Option<Option<string>> {
    if events == [] then None
    else if events[0].Finished? then Some(events[0].err)
    else FirstFinish(events[1..])
  }

  /** A close reaches a turn that is done or has no callback pending. */
  predicate ClosedIn(s: Session, events: seq<Event>)
    decreases |events|
  {
    events != []
    && ((events[0].Closed? && (s.turn.done || s.turn.delegated == [])) || ClosedIn(Step(s, events[0]), events[1..]))
  }

  // ------------------------------------------------------------------------- steps

  lemma AddBrings(s: Session, call: ToolCall, requestID: string)
    requires Inv(s)
    ensures AddStep(s, call, requestID).turn.queue == s.turn.queue + Brings(s, Add(call, requestID))
  {
    if Accepting(s.turn) {
      var k: nat :| Conserved(s, k);
      AddToolShape(s.turn, call, requestID, k);
    }
  }

  lemma AckBrings(s: Session)
    requires Inv(s)
    ensures AckStep(s).turn.queue == s.turn.queue + Brings(s, Ack)
  {
    if Acknowledging(s.resume) {
      var k: nat :| Conserved(s, k);
      var m := PlannedAt(s.turn, s.resume, s.added, k, s.resume.next);
      AcknowledgeShape(s.turn, m, k);
      if !s.turn.parallelTools {
        assert m == 0;
        assert Rest(s.turn, 0) == s.turn.delegated[1..];
      }
    }
  }

  /** Receiving takes the head of the queue, text joins it, and nothing else moves it. */
  lemma OtherBrings(s: Session, e: Event)
    requires !e.Add? && !e.Ack?
    ensures s.turn.queue + Brings(s, e) == HandedChunks(s, e) + Step(s, e).turn.queue
  {
    match e
    case Recv => assert Brings(s, Recv) == [];
    case BeginResume(messages) => assert BeginStep(s, messages).turn == s.turn;
    case WriteOk => assert WriteStep(s).turn == s.turn;
    case _ =>
  }

  lemma StepBrings(s: Session, e: Event)
    requires Inv(s)
    ensures s.turn.queue + Brings(s, e) == HandedChunks(s, e) + Step(s, e).turn.queue
  {
    if e.Add? {
      AddBrings(s, e.call, e.requestID);
    } else if e.Ack? {
      AckBrings(s);
    } else {
      OtherBrings(s, e);
    }
  }

  lemma {:induction false} ChunksFrom(s: Session, events: seq<Event>)
    requires Inv(s) && UniqueCalls(events) && forall i :: 0 <= i < |events| ==> Fresh(s, events[i])
    ensures s.turn.queue + Accepted(s, events) == ReceivedChunks(s, events) + Run(s, events).turn.queue
    decreases |events|
  {
    if events != [] {
      var s', rest := Step(s, events[0]), events[1..];
      StepBrings(s, events[0]);
      StepKeeps(s, events[0]);
      forall i | 0 <= i < |rest| ensures Fresh(s', rest[i]) {
        assert Fresh(s, events[i + 1]);
        AddedGrows(s, events[0]);
      }
      ChunksFrom(s', rest);
      Rejoin(s.turn.queue, Brings(s, events[0]), Accepted(s', rest), HandedChunks(s, events[0]), s'.turn.queue,
             ReceivedChunks(s', rest), Run(s', rest).turn.queue);
    }
  }

  lemma Rejoin<T>(queue: seq<T>, brought: seq<T>, later: seq<T>, handed: seq<T>, queue': seq<T>, received: seq<T>,
      end: seq<T>)
    requires queue + brought == handed + queue' && queue' + later == received + end
    ensures queue + (brought + later) == (handed + received) + end
  {
    assert queue + (brought + later) == (queue + brought) + later == handed + (queue' + later);
  }

  /** Over every run: the chunks received and then the queue are exactly the chunks accepted, in order. */
  lemma ChunksConserved(parallelTools: bool, events: seq<Event>)
    requires UniqueCalls(events)
    ensures var s := Start(parallelTools);
            Accepted(s, events) == ReceivedChunks(s, events) + Run(s, events).turn.queue
  {
    var s := Start(parallelTools);
    assert Conserved(s, 0);
    ChunksFrom(s, events);
    assert [] + Accepted(s, events) == Accepted(s, events);
  }

  // ------------------------------------------------------------- how the turn ends

  lemma {:induction false} FinishFrom(s: Session, events: seq<Event>)
    requires !s.turn.done ==> s.turn.err.None?
    ensures var t, first := Run(s, events).turn, FirstFinish(events);
            && (t.done <==> s.turn.done || first.Some?)
            && t.err == if !s.turn.done && first.Some? then first.value else s.turn.err
    decreases |events|
  {
    if events != [] {
      StepEnding(s, events[0]);
      FinishFrom(Step(s, events[0]), events[1..]);
    }
  }

  predicate SameEnding(t: Turn, t': Turn) {
    t'.done == t.done && t'.closed == t.closed && t'.err == t.err && t'.errDelivered == t.errDelivered
  }

  lemma QueueingEndsNothing(t: Turn)
    ensures SameEnding(t, QueueTools(t))
    ensures |QueueTools(t).delegated| == |t.delegated| && QueueTools(t).nextToolIndex == t.nextToolIndex
  {
  }

  lemma AddEndsNothing(t: Turn, call: ToolCall, requestID: string)
    ensures SameEnding(t, AddTool(t, call, requestID))
  {
  }

  lemma AcknowledgeEndsNothing(t: Turn, item: Pending)
    ensures SameEnding(t, Acknowledge(t, item))
  {
    if Pends(t.delegated, item.call.id, item.requestID) {
      var rest := RemoveFirst(t.delegated, item.call.id, item.requestID);
      QueueingEndsNothing(t.(delegated := rest, awaitingTools := rest != []));
    }
  }

  /** Only finishing ends a turn, and only the first finish counts. */
  lemma StepEnding(s: Session, e: Event)
    ensures Step(s, e).turn.done == (s.turn.done || e.Finished?)
    ensures Step(s, e).turn.err == if e.Finished? && !s.turn.done then e.err else s.turn.err
    ensures e.Recv? || Step(s, e).turn.errDelivered == s.turn.errDelivered
    ensures e.Closed? || Step(s, e).turn.closed == s.turn.closed
  {
    match e
    case Add(call, requestID) => AddEndsNothing(s.turn, call, requestID);
    case Ack =>
      if Acknowledging(s.resume) {
        AcknowledgeEndsNothing(s.turn, Item(s.resume));
      }
    case _ =>
  }

  /** A turn that waits for tool results takes no notice of being closed; any other turn is closed. */
  lemma StepCloses(s: Session, e: Event)
    requires Inv(s)
    ensures Step(s, e).turn.closed == (s.turn.closed || (e.Closed? && (s.turn.done || s.turn.delegated == [])))
  {
    StepEnding(s, e);
    var k: nat :| Conserved(s, k);
  }

  lemma {:induction false} ClosedFrom(s: Session, events: seq<Event>)
    requires Inv(s) && UniqueCalls(events) && forall i :: 0 <= i < |events| ==> Fresh(s, events[i])
    ensures Run(s, events).turn.closed <==> s.turn.closed || ClosedIn(s, events)
    decreases |events|
  {
    if events != [] {
      var s', rest := Step(s, events[0]), events[1..];
      StepCloses(s, events[0]);
      StepKeeps(s, events[0]);
      forall i | 0 <= i < |rest| ensures Fresh(s', rest[i]) {
        assert Fresh(s, events[i + 1]);
        AddedGrows(s, events[0]);
      }
      ClosedFrom(s', rest);
    }
  }

  lemma {:induction false} RaisedFrom(s: Session, events: seq<Event>)
    requires (s.turn.errDelivered ==> s.turn.err.Some?) && (s.turn.err.Some? ==> s.turn.done)
    ensures var t := Run(s, events).turn;
            && (t.errDelivered ==> t.err.Some?) && (t.err.Some? ==> t.done)
            && (s.turn.errDelivered ==> t.errDelivered && t.err == s.turn.err)
            && RaisedErrors(s, events) == if t.errDelivered && !s.turn.errDelivered then [t.err.value] else []
    decreases |events|
  {
    if events != [] {
      var e, s' := events[0], Step(s, events[0]);
      StepEnding(s, e);
      RaisedFrom(s', events[1..]);
    }
  }

  /** Over every run: done, closed and the error are what the first finish and the closes that count made them. */
  lemma TurnEndsAsFirstFinished(parallelTools: bool, events: seq<Event>)
    requires UniqueCalls(events)
    ensures var s := Start(parallelTools);
            var t, first := Run(s, events).turn, FirstFinish(events);
            && (t.done <==> first.Some?)
            && (t.closed <==> ClosedIn(s, events))
            && t.err == (if first.Some? then first.value else None)
            && |RaisedErrors(s, events)| <= 1
            && (forall error :: error in RaisedErrors(s, events) ==> first == Some(Some(error)))
  {
    var s := Start(parallelTools);
    assert Conserved(s, 0);
    FinishFrom(s, events);
    ClosedFrom(s, events);
    RaisedFrom(s, events);
  }

  /** What a caller is owed after a run: the accepted chunks it has not received. */
  function OwedChunks(parallelTools: bool, events: seq<Event>): seq<Chunk> {
    var accepted, received := Accepted(Start(parallelTools), events), ReceivedChunks(Start(parallelTools), events);
    if |received| <= |accepted| then accepted[|received|..] else []
  }

  /**
   After every run a receive yields the oldest accepted chunk not received yet; with
   none left, the error of the first finish if it was not raised yet, the end if the
   turn is done, closed or waiting for tool results; and otherwise the caller waits.
   */
  lemma ReceiveYields(parallelTools: bool, events: seq<Event>)
    requires UniqueCalls(events)
    ensures var s := Start(parallelTools);
            var owed, first := OwedChunks(parallelTools, events), FirstFinish(events);
            var received := Receive(Run(s, events).turn).1;
            if owed != [] then received == Got(owed[0])
            else if first.Some? && first.value.Some? && RaisedErrors(s, events) == [] then
              received == Raised(first.value.value)
            else if first.Some? || ClosedIn(s, events) || Run(s, events).turn.delegated != [] then received == Eof
            else received == MustWait
  {
    var s := Start(parallelTools);
    var t := Run(s, events).turn;
    ChunksConserved(parallelTools, events);
    TurnEndsAsFirstFinished(parallelTools, events);
    RaisedFrom(s, events);
    ExposureDiscipline(parallelTools, events);
    assert (ReceivedChunks(s, events) + t.queue)[|ReceivedChunks(s, events)|..] == t.queue;
  }

  /**
   Over every run: closing a turn with callbacks pending and not done leaves everything
   as it was, so that it can be resumed; closing any other turn marks it closed and
   changes nothing else.
   */
  lemma CloseSparesWaitingTurns(parallelTools: bool, events: seq<Event>)
    requires UniqueCalls(events)
    ensures var s := Run(Start(parallelTools), events);
            Step(s, Closed) ==
              if !s.turn.done && s.turn.delegated != [] then s else s.(turn := s.turn.(closed := true))
  {
    ExposureDiscipline(parallelTools, events);
    var s := Run(Start(parallelTools), events);
    assert s.turn.closed ==> s.turn.(closed := true) == s.turn;
  }

  // --------------------------------------------------------------------- numbering

  /** How many callbacks have come since there was last none pending, beginning with n of them. */
  function BatchSize(n: nat, s: Session, events: seq<Event>): nat
    decreases |events|
  {
    if events == [] then n
    else
      var s' := Step(s, events[0]);
      var grown := if events[0].Add? && !s.turn.done && !s.turn.closed then n + 1 else n;
      BatchSize(if s'.turn.delegated == [] then 0 else grown, s', events[1..])
  }

  lemma {:induction false} MarkingKeepsLength(entries: seq<Pending>, id: string)
    ensures |MarkDelivered(entries, id)| == |entries|
  {
    if entries != [] {
      MarkingKeepsLength(entries[1..], id);
    }
  }

  lemma {:induction false} MarkingAllKeepsLength(entries: seq<Pending>, calls: seq<ToolCall>)
    ensures |MarkEachDelivered(entries, calls)| == |entries|
    decreases |calls|
  {
    if calls != [] {
      MarkingKeepsLength(entries, calls[0].id);
      MarkingAllKeepsLength(MarkDelivered(entries, calls[0].id), calls[1..]);
    }
  }

  lemma AddCounts(t: Turn, call: ToolCall, requestID: string)
    requires t.parallelTools && Accepting(t)
    ensures AddTool(t, call, requestID).delegated != []
    ensures AddTool(t, call, requestID).nextToolIndex == t.nextToolIndex + 1
  {
    var grown := t.delegated + [Pending(AssignIndex(t, call), requestID, false, false)];
    QueueingEndsNothing(t.(nextToolIndex := t.nextToolIndex + 1, delegated := grown, awaitingTools := true));
  }

  lemma AcknowledgeCounts(t: Turn, item: Pending)
    requires t.delegated == [] ==> t.nextToolIndex == 0
    ensures var t' := Acknowledge(t, item);
            t'.nextToolIndex == if t'.delegated == [] then 0 else t.nextToolIndex
  {
    if Pends(t.delegated, item.call.id, item.requestID) {
      var rest := RemoveFirst(t.delegated, item.call.id, item.requestID);
      QueueingEndsNothing(t.(delegated := rest, awaitingTools := rest != []));
    }
  }

  lemma StepCounts(s: Session, e: Event)
    requires s.turn.parallelTools && (s.turn.delegated == [] ==> s.turn.nextToolIndex == 0)
    ensures var s' := Step(s, e);
            s'.turn.nextToolIndex ==
              if s'.turn.delegated == [] then 0
              else s.turn.nextToolIndex + if e.Add? && !s.turn.done && !s.turn.closed then 1 else 0
  {
    match e
    case Add(call, requestID) =>
      if Accepting(s.turn) {
        AddCounts(s.turn, call, requestID);
      }
    case Ack =>
      if Acknowledging(s.resume) {
        AcknowledgeCounts(s.turn, Item(s.resume));
      }
    case Recv =>
      if s.turn.queue != [] {
        MarkingAllKeepsLength(s.turn.delegated, s.turn.queue[0].calls);
      }
    case _ =>
  }

  lemma {:induction false} BatchFrom(s: Session, events: seq<Event>)
    requires s.turn.parallelTools && (s.turn.delegated == [] ==> s.turn.nextToolIndex == 0)
    ensures Run(s, events).turn.nextToolIndex == BatchSize(s.turn.nextToolIndex, s, events)
    decreases |events|
  {
    if events != [] {
      StepModeFixed(s, events[0]);
      StepCounts(s, events[0]);
      BatchFrom(Step(s, events[0]), events[1..]);
    }
  }

  /** Over every run: callbacks shown in parallel are numbered from zero again once none was pending. */
  lemma CallbacksAreNumberedPerBatch(events: seq<Event>)
    ensures Run(Start(true), events).turn.nextToolIndex == BatchSize(0, Start(true), events)
  {
    BatchFrom(Start(true), events);
  }
}

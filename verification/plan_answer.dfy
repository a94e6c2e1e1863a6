/**
 What an answer over a ChatGPT plan holds (providers/chatgpt/provider.go), told over
 the events and items it comes from: which response is collected and what is merged
 into it, what the answer says and calls, and which chunks a stream hands on.
 */
module PlanAnswers {
  import opened Wrappers
  import opened AscendingInts
  import opened PlanOutput
  import opened PlanOutputTheorems
  import opened PlanStreams
  import opened PlanStreamTheorems

  // -------------------------------------------------------------------- the merge

  /** Items that say which they are. */
  predicate Named(items: seq<RawItem>) {
    forall i :: 0 <= i < |items| ==> items[i].id.Some?
  }

  /**
   Merging changes the output list and nothing else of the response; it is refused
   exactly when there is something to merge and a part of it cannot be read.
   */
  lemma MergeChangesOnlyTheOutput(body: Body, streamed: map<int, RawItem>)
    ensures streamed == map[] ==> Collect(body, streamed) == Success(body)
    ensures streamed != map[] && body.Null? ==>
              Collect(body, streamed) == Failure("chatgpt: completed response is missing its body")
    ensures streamed != map[] && !body.Null? ==>
              (Collect(body, streamed).Success? <==>
                && body.Document? && !body.output.NotAList?
                && (body.output.Items? ==> Named(body.output.items))
                && forall k :: k in streamed ==> streamed[k].id.Some?)
    ensures streamed != map[] && Collect(body, streamed).Success? ==>
              var merged := Collect(body, streamed).value;
              && body.Document? && merged.Document? && merged.output.Items?
              && merged.status == body.status && merged.meta == body.meta && merged.rest == body.rest
  {
    if body.Document? {
      assert AllReadable(streamed) <==> forall k :: k in streamed ==> streamed[k].id.Some?;
    }
  }

  // ------------------------------------------------------------------- the answer

  /** The text of the parts of an item that count for the answer: not those of commentary. */
  function PartsSpoken(item: RawItem): seq<Part> {
    match item.chat
    case Some(Message(phase, content)) => if phase == "commentary" then [] else content
    case _ => []
  }

  function CallsIn(item: RawItem): seq<Call> {
    match item.chat
    case Some(FunctionCall(call)) => [call]
    case _ => []
  }

  function AllParts(items: seq<RawItem>): seq<Part> {
    if items == [] then [] else PartsSpoken(items[0]) + AllParts(items[1..])
  }

  function AllCalls(items: seq<RawItem>): seq<Call> {
    if items == [] then [] else CallsIn(items[0]) + AllCalls(items[1..])
  }

  /** Texts and refusals in order; other parts say nothing. */
  function Spelled(parts: seq<Part>): string {
    if parts == [] then ""
    else
      (match parts[0]
       case OutputText(text) => text
       case Refusal(refusal) => refusal
       case OtherPart => "") + Spelled(parts[1..])
  }

  lemma {:induction false} SpelledJoins(a: seq<Part>, b: seq<Part>)
    ensures Spelled(a + b) == Spelled(a) + Spelled(b)
    decreases |a|
  {
    if a == [] {
      assert a + b == b;
    } else {
      assert (a + b)[1..] == a[1..] + b;
      SpelledJoins(a[1..], b);
    }
  }

  lemma {:induction false} PartsAreSpelled(parts: seq<Part>)
    ensures PartsText(parts) == Spelled(parts)
    decreases |parts|
  {
    if parts != [] {
      var before, last := parts[..|parts| - 1], parts[|parts| - 1];
      PartsAreSpelled(before);
      assert before + [last] == parts;
      SpelledJoins(before, [last]);
      assert [last][1..] == [];
    }
  }

  lemma {:induction false} PartsJoin(a: seq<RawItem>, b: seq<RawItem>)
    ensures AllParts(a + b) == AllParts(a) + AllParts(b)
    decreases |a|
  {
    if a == [] {
      assert a + b == b;
    } else {
      assert (a + b)[1..] == a[1..] + b;
      PartsJoin(a[1..], b);
    }
  }

  lemma {:induction false} CallsJoin(a: seq<RawItem>, b: seq<RawItem>)
    ensures AllCalls(a + b) == AllCalls(a) + AllCalls(b)
    decreases |a|
  {
    if a == [] {
      assert a + b == b;
    } else {
      assert (a + b)[1..] == a[1..] + b;
      CallsJoin(a[1..], b);
    }
  }

  lemma {:induction false} ContentIsSpelled(items: seq<RawItem>)
    ensures Content(items) == Spelled(AllParts(items))
    decreases |items|
  {
    if items != [] {
      var before, last := items[..|items| - 1], items[|items| - 1];
      ContentIsSpelled(before);
      assert before + [last] == items;
      PartsJoin(before, [last]);
      assert [last][1..] == [] && AllParts([last]) == PartsSpoken(last) + [] == PartsSpoken(last);
      SpelledJoins(AllParts(before), AllParts([last]));
      PartsAreSpelled(PartsSpoken(last));
    }
  }

  function Numbered(calls: seq<Call>): seq<ToolCall> {
    seq(|calls|, i requires 0 <= i < |calls| => ToolCall(i, calls[i]))
  }

  lemma {:induction false} CallsAreNumbered(items: seq<RawItem>)
    ensures Calls(items) == Numbered(AllCalls(items))
    decreases |items|
  {
    if items != [] {
      var before, last := items[..|items| - 1], items[|items| - 1];
      CallsAreNumbered(before);
      assert before + [last] == items;
      CallsJoin(before, [last]);
      assert AllCalls([last]) == CallsIn(last) + [];
      assert Numbered(AllCalls(before) + CallsIn(last))[..|AllCalls(before)|] == Numbered(AllCalls(before));
    }
  }

  lemma {:induction false} NoCalls(items: seq<RawItem>)
    ensures AllCalls(items) != [] <==>
            exists i :: 0 <= i < |items| && items[i].chat.Some? && items[i].chat.value.FunctionCall?
    decreases |items|
  {
    if items != [] {
      NoCalls(items[1..]);
      if i :| 0 <= i < |items| && items[i].chat.Some? && items[i].chat.value.FunctionCall? {
        assert i == 0 || items[1..][i - 1] == items[i];
      }
      if AllCalls(items[1..]) != [] {
        var i :| 0 <= i < |items[1..]| && items[1..][i].chat.Some? && items[1..][i].chat.value.FunctionCall?;
        assert items[i + 1] == items[1..][i];
      }
    }
  }

  /**
   The answer read from a response: its texts and refusals in order, commentary left
   out, its calls in order and numbered from zero, its items as they came, and the
   finish reason "tool_calls" exactly when there is a call. A missing response is an
   empty answer; one with a part that cannot be read is an error.
   */
  lemma AnswerTellsTheItems(body: Body)
    ensures ReplyOf(body).Success? <==>
              body.Null? || (&& body.Document? && body.meta.Some? && !body.output.NotAList?
                             && forall i :: 0 <= i < |Terminal(body)| ==> Terminal(body)[i].chat.Some?)
    ensures body.Null? ==> ReplyOf(body) == Success(Reply("", "", 0, "", [], [], "stop"))
    ensures body.Document? && ReplyOf(body).Success? ==>
              var items := if body.output.Items? then body.output.items else [];
              var reply := ReplyOf(body).value;
              && (reply.id, reply.model, reply.usage) == (body.meta.value.id, body.meta.value.model,
                 body.meta.value.usage)
              && reply.content == Spelled(AllParts(items)) && reply.calls == Numbered(AllCalls(items))
              && reply.native == items
              && (reply.finish == "tool_calls" <==>
                   exists i :: 0 <= i < |items| && items[i].chat.Some? && items[i].chat.value.FunctionCall?)
              && (reply.finish == "tool_calls" || reply.finish == "stop")
  {
    if body.Document? {
      ContentIsSpelled(Terminal(body));
      CallsAreNumbered(Terminal(body));
      NoCalls(Terminal(body));
    }
  }

  // ------------------------------------------------------- the response collected

  /** An event that is read and leaves the stream open. */
  predicate Passes(e: Event) {
    && e.frame.Some? && !e.frame.value.response.NotAnObject?
    && Kind(e) != "response.completed"
    && Kind(e) !in {"response.failed", "response.incomplete", "error"}
    && !e.frame.value.index.BadIndex?
    && (Kind(e) == "response.output_item.done" ==>
         e.frame.value.index.At? && e.frame.value.index.value >= 0 && e.frame.value.item.Present?)
  }

  predicate Reports(e: Event, index: int) {
    && e.frame.Some? && Kind(e) == "response.output_item.done"
    && e.frame.value.index == At(index) && e.frame.value.item.Present?
  }

  /** The item reported last at an index. */
  function LastReported(events: seq<Event>, index: int): Option<RawItem> {
    if events == [] then None
    else if Reports(events[|events| - 1], index) then Some(events[|events| - 1].frame.value.item.item)
    else LastReported(events[..|events| - 1], index)
  }

  ghost predicate Holds(output: map<int, RawItem>, events: seq<Event>) {
    forall k :: (k in output <==> LastReported(events, k).Some?)
                && (k in output ==> Some(output[k]) == LastReported(events, k))
  }

  predicate AllPass(events: seq<Event>) {
    forall i :: 0 <= i < |events| ==> Passes(events[i])
  }

  /** What one more event that passes adds to the items reported. */
  function Kept(output: map<int, RawItem>, e: Event): map<int, RawItem>
    requires Passes(e)
  {
    if Kind(e) == "response.output_item.done" then output[e.frame.value.index.value := e.frame.value.item.item]
    else output
  }

  lemma KeptHolds(output: map<int, RawItem>, before: seq<Event>, e: Event)
    requires Holds(output, before) && Passes(e)
    ensures Holds(Kept(output, e), before + [e])
  {
    assert (before + [e])[..|before|] == before;
    forall k
      ensures LastReported(before + [e], k) ==
              if Reports(e, k) then Some(e.frame.value.item.item) else LastReported(before, k)
    {
    }
  }

  function Reported(events: seq<Event>): map<int, RawItem>
    requires AllPass(events)
  {
    if events == [] then map[] else Kept(Reported(events[..|events| - 1]), events[|events| - 1])
  }

  lemma {:induction false} ReportedHolds(events: seq<Event>)
    requires AllPass(events)
    ensures Holds(Reported(events), events)
  {
    if events != [] {
      ReportedHolds(events[..|events| - 1]);
      KeptHolds(Reported(events[..|events| - 1]), events[..|events| - 1], events[|events| - 1]);
      assert events[..|events| - 1] + [events[|events| - 1]] == events;
    }
  }

  lemma ReadPasses(events: seq<Event>, ending: Ending, n: nat)
    requires n < |events| && Passes(events[n])
    ensures Read(Source(events[n..], ending, false)) == (Got(events[n]), Source(events[n + 1..], ending, false))
  {
    assert events[n..][0] == events[n] && events[n..][1..] == events[n + 1..];
  }

  /** How collecting goes on after events that pass. */
  lemma {:induction false} CollectedAfter(events: seq<Event>, ending: Ending, n: nat)
    requires n <= |events| && AllPass(events[..n])
    ensures Collected(Source(events, ending, false), map[])
         == Collected(Source(events[n..], ending, false), Reported(events[..n]))
  {
    if n == 0 {
      assert events[0..] == events;
    } else {
      assert events[..n][..n - 1] == events[..n - 1];
      CollectedAfter(events, ending, n - 1);
      var e := events[n - 1];
      assert events[..n][n - 1] == e;
      ReadPasses(events, ending, n - 1);
    }
  }

  /** The first event that does not pass decides. */
  function Verdict(e: Event, output: map<int, RawItem>): Option<Body>
    requires !Passes(e)
  {
    if e.frame.Some? && Kind(e) == "response.completed" && e.frame.value.response.Document?
       && e.frame.value.response.status == "completed" && !e.frame.value.index.BadIndex?
    then Some(e.frame.value.response)
    else None
  }

  /**
   The response collected is the one of the first event that does not pass, if that
   one completes the stream, merged with the item reported last at each index before
   it; a stream whose events all pass, or in which something else comes first, is an error.
   */
  lemma CollectedTellsTheEvents(events: seq<Event>, ending: Ending, n: nat) returns (streamed: map<int, RawItem>)
    requires n <= |events| && AllPass(events[..n]) && (n < |events| ==> !Passes(events[n]))
    ensures Holds(streamed, events[..n])
    ensures var collected := Collected(Source(events, ending, false), map[]);
            && (n < |events| && Verdict(events[n], streamed).Some? ==>
                 collected == Collect(Verdict(events[n], streamed).value, streamed))
            && (n < |events| && Verdict(events[n], streamed).None? ==> collected.Failure?)
            && (n == |events| ==>
                 collected == Failure(match ending
                                      case Closed => "chatgpt: stream ended without response.completed"
                                      case Broken(message) => message))
  {
    streamed := Reported(events[..n]);
    ReportedHolds(events[..n]);
    CollectedAfter(events, ending, n);
    if n < |events| {
      assert events[n..][0] == events[n];
    }
  }

  // --------------------------------------------------------- the chunks handed on

  /** An event a chat stream takes in or hands on without ending. */
  predicate Flows(e: Event) {
    && Passes(e) && e.frame.value.delta.Some?
    && (Kind(e) == "response.output_item.added" ==>
         e.frame.value.item.NullItem? || (e.frame.value.item.Present? && e.frame.value.item.item.phase.Some?))
  }

  predicate AllFlow(events: seq<Event>) {
    forall i :: 0 <= i < |events| ==> Flows(events[i])
  }

  /** An event without an index speaks of the first item. */
  function Place(e: Event): int
    requires Flows(e)
  {
    if e.frame.value.index.At? then e.frame.value.index.value else 0
  }

  /** The phase announced last for an index, or none. */
  function Announced(events: seq<Event>, index: int): string
    requires AllFlow(events)
  {
    if events == [] then ""
    else
      var last := events[|events| - 1];
      if Kind(last) == "response.output_item.added" && Place(last) == index then
        if last.frame.value.item.NullItem? then "" else last.frame.value.item.item.phase.value
      else Announced(events[..|events| - 1], index)
  }

  predicate IsDelta(e: Event)
    requires Flows(e)
  {
    Kind(e) == "response.output_text.delta" || Kind(e) == "response.refusal.delta"
  }

  /** Every piece of text with the phase announced last for its item. */
  function Deltas(events: seq<Event>): seq<Chunk>
    requires AllFlow(events)
  {
    if events == [] then []
    else
      var before, last := events[..|events| - 1], events[|events| - 1];
      if IsDelta(last) then Deltas(before) + [Text(Announced(before, Place(last)), last.frame.value.delta.value)]
      else Deltas(before)
  }

  ghost predicate InPhase(s: ChatState, events: seq<Event>, ending: Ending, n: nat)
    requires n <= |events| && AllFlow(events[..n])
  {
    && !s.completed && s.source == Source(events[n..], ending, false)
    && forall k :: PhaseAt(s.phases, k) == Announced(events[..n], k)
  }

  /** What one event that flows does to the stream. */
  lemma FlowHandled(s: ChatState, e: Event)
    requires Flows(e)
    ensures var (o, s') := Handle(s, e);
            && s'.completed == s.completed && s'.source == s.source
            && o == (if IsDelta(e) then Some(Sent(Text(PhaseAt(s.phases, Place(e)), e.frame.value.delta.value)))
                     else None)
            && s'.phases == if Kind(e) == "response.output_item.added" then
                              s.phases[Place(e) := PhaseOf(e.frame.value.item)]
                            else s.phases
  {
  }

  lemma FlowStep(s: ChatState, events: seq<Event>, ending: Ending, n: nat)
    requires n < |events| && AllFlow(events[..n]) && Flows(events[n]) && InPhase(s, events, ending, n)
    ensures AllFlow(events[..n + 1])
    ensures var (o, s') := Step(s);
            && InPhase(s', events, ending, n + 1)
            && o == if IsDelta(events[n]) then
                      Some(Sent(Text(Announced(events[..n], Place(events[n])), events[n].frame.value.delta.value)))
                    else None
  {
    var e := events[n];
    ReadPasses(events, ending, n);
    FlowHandled(s.(source := Source(events[n + 1..], ending, false)), e);
    FlowOn(events, n);
    var s' := Step(s).1;
    assert events[..n + 1][..n] == events[..n] && events[..n + 1][n] == e;
    forall k ensures PhaseAt(s'.phases, k) == Announced(events[..n + 1], k) {
      AnnouncedNext(events[..n + 1], k);
      assert PhaseAt(s.phases, k) == Announced(events[..n], k);
    }
  }

  lemma FlowOn(events: seq<Event>, n: nat)
    requires n < |events| && AllFlow(events[..n]) && Flows(events[n])
    ensures AllFlow(events[..n + 1])
  {
    var longer := events[..n + 1];
    forall i | 0 <= i < |longer| ensures Flows(longer[i]) {
      assert i < n ==> longer[i] == events[..n][i];
    }
  }

  lemma AnnouncedNext(events: seq<Event>, k: int)
    requires events != [] && AllFlow(events)
    ensures var last := events[|events| - 1];
            Announced(events, k) ==
            if Kind(last) == "response.output_item.added" && Place(last) == k then PhaseOf(last.frame.value.item)
            else Announced(events[..|events| - 1], k)
  {
  }

  /** The chunks of the events up to m follow the ones of the events up to n. */
  lemma {:induction false} ChunksFrom(s: ChatState, events: seq<Event>, ending: Ending, n: nat, m: nat)
      returns (s': ChatState)
    requires n <= m <= |events| && AllFlow(events[..m]) && AllFlow(events[..n]) && InPhase(s, events, ending, n)
    ensures InPhase(s', events, ending, m)
    ensures Deltas(events[..n]) + Drained(s).chunks == Deltas(events[..m]) + Drained(s').chunks
    ensures Drained(s).end == Drained(s').end
    decreases m - n
  {
    if n == m {
      s' := s;
    } else {
      assert events[..m][n] == events[n];
      FlowStep(s, events, ending, n);
      OneChunk(s, events, ending, n);
      s' := ChunksFrom(Step(s).1, events, ending, n + 1, m);
    }
  }

  /** The chunk of an event that is handed on. */
  function DeltaAt(events: seq<Event>, n: nat): seq<Chunk>
    requires n < |events| && AllFlow(events[..n]) && Flows(events[n])
  {
    if IsDelta(events[n]) then [Text(Announced(events[..n], Place(events[n])), events[n].frame.value.delta.value)]
    else []
  }

  lemma DeltasNext(events: seq<Event>, n: nat)
    requires n < |events| && AllFlow(events[..n]) && Flows(events[n]) && AllFlow(events[..n + 1])
    ensures Deltas(events[..n + 1]) == Deltas(events[..n]) + DeltaAt(events, n)
  {
    assert events[..n + 1][..n] == events[..n] && events[..n + 1][n] == events[n];
  }

  lemma HeardNext(s: ChatState, sent: seq<Chunk>)
    requires !s.completed && |sent| <= 1 && forall i :: 0 <= i < |sent| ==> sent[i].Text?
    requires Step(s).0 == if sent == [] then None else Some(Sent(sent[0]))
    ensures Drained(s) == Heard(sent + Drained(Step(s).1).chunks, Drained(Step(s).1).end)
  {
    if sent == [] {
      SilentStep(s);
      assert [] + Drained(s).chunks == Drained(s).chunks;
    } else {
      TextReceived(s, Step(s).1, sent[0]);
      assert sent == [sent[0]];
    }
  }

  lemma OneChunk(s: ChatState, events: seq<Event>, ending: Ending, n: nat)
    requires n < |events| && AllFlow(events[..n]) && Flows(events[n]) && InPhase(s, events, ending, n)
    requires AllFlow(events[..n + 1])
    ensures Deltas(events[..n]) + Drained(s).chunks == Deltas(events[..n + 1]) + Drained(Step(s).1).chunks
    ensures Drained(s).end == Drained(Step(s).1).end
  {
    FlowStep(s, events, ending, n);
    HeardNext(s, DeltaAt(events, n));
    DeltasNext(events, n);
    Rejoin(Deltas(events[..n]), DeltaAt(events, n), Drained(Step(s).1).chunks);
  }

  lemma Rejoin<T>(a: seq<T>, b: seq<T>, c: seq<T>)
    ensures a + (b + c) == (a + b) + c
  {
  }

  lemma StopsAt(s: ChatState, events: seq<Event>, ending: Ending, n: nat)
    requires n <= |events| && AllFlow(events[..n]) && InPhase(s, events, ending, n)
    requires n < |events| ==> !Flows(events[n])
    ensures |Drained(s).chunks| <= 1 && (Drained(s).chunks != [] ==> Drained(s).chunks[0].Last?)
    ensures Drained(s).end.Done? <==> Drained(s).chunks != []
  {
    StepConsumes(s);
    var (o, s') := Step(s);
    if n < |events| {
      assert events[n..][0] == events[n];
    }
    if o.Some? && o.value.Sent? {
      assert RecvChat(s) == (o.value, s');
      assert s'.completed;
      assert Drained(s') == Heard([], Done);
    }
  }

  /**
   For every event list: the chunks handed on are the text deltas before the first event
   that stops the stream, in order and each with the phase announced last for its item,
   and then at most the last chunk, which comes exactly if the stream ends without an error.
   */
  lemma ChunksAreTheDeltas(events: seq<Event>, ending: Ending, n: nat)
    requires n <= |events| && AllFlow(events[..n]) && (n < |events| ==> !Flows(events[n]))
    ensures var heard, deltas := Drained(Begun(events, ending)), Deltas(events[..n]);
            && deltas <= heard.chunks
            && |heard.chunks| <= |deltas| + 1
            && (heard.end.Done? <==> |heard.chunks| == |deltas| + 1)
            && (heard.end.Done? ==> heard.chunks[|deltas|].Last?)
  {
    var s := Begun(events, ending);
    assert events[0..] == events && events[..0] == [];
    var s' := ChunksFrom(s, events, ending, 0, n);
    StopsAt(s', events, ending, n);
    assert [] + Drained(s).chunks == Drained(s).chunks;
  }
}

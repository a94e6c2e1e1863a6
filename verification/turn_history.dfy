/**
 Whole runs of a turn: callbacks arriving, the caller receiving, resumes
 answering, in any interleaving, with histories of what was added, delivered
 and answered. A step that the code would not take leaves the session as it is.
 */
module TurnHistory {
  import opened Wrappers
  import opened DelegatedTurn
  import opened TurnObject

  /** A resume between its match and its last acknowledgement; one runs at a time. */
  datatype Resume =
    | Idle
    | Answering(matched: Matched, messages: seq<Message>, next: nat, written: bool, base: nat)

  datatype Session = Session(
    turn: Turn,
    added: seq<ToolCall>,
    requests: seq<string>,
    delivered: seq<ToolCall>,
    answered: seq<Answer>,
    resume: Resume)

  datatype Event =
    | Add(call: ToolCall, requestID: string)
    | Content(content: string, phase: string, finishReason: string)
    | Finished(err: Option<string>)
    | Closed
    | Recv
    | BeginResume(messages: seq<Message>)
    | WriteOk
    | WriteFail
    | Ack

  function Start(parallelTools: bool): Session {
    Session(NewTurn(parallelTools), [], [], [], [], Idle)
  }

  function AddStep(s: Session, call: ToolCall, requestID: string): Session {
    if Accepting(s.turn) then
      s.(turn := AddTool(s.turn, call, requestID),
         added := s.added + [AssignIndex(s.turn, call)],
         requests := s.requests + [requestID])
    else s
  }

  function RecvStep(s: Session): Session {
    var (turn, received) := Receive(s.turn);
    s.(turn := turn, delivered := s.delivered + if received.Got? then received.chunk.calls else [])
  }

  function BeginStep(s: Session, messages: seq<Message>): Session {
    if s.resume.Idle? && IsAwaitingTools(s.turn) && Match(s.turn, messages).Success?
       && Match(s.turn, messages).value.plan != [] then
      s.(resume := Answering(Match(s.turn, messages).value, messages, 0, false, |s.answered|))
    else s
  }

  predicate Writing(resume: Resume) {
    resume.Answering? && !resume.written && resume.next < |resume.matched.plan| == |resume.matched.results|
  }

  function WriteStep(s: Session): Session {
    if Writing(s.resume) then
      var n := s.resume.next;
      s.(answered := s.answered + [Answer(s.resume.matched.plan[n].requestID, s.resume.matched.results[n])],
         resume := s.resume.(written := true))
    else s
  }

  predicate Acknowledging(resume: Resume) {
    resume.Answering? && resume.written && resume.next < |resume.matched.plan|
  }

  /** The entry whose response is written but not acknowledged. */
  function Item(resume: Resume): Pending
    requires Acknowledging(resume)
  {
    resume.matched.plan[resume.next]
  }

  function AckStep(s: Session): Session {
    if Acknowledging(s.resume) then
      var item := Item(s.resume);
      s.(turn := Acknowledge(s.turn, item),
         resume := if Pends(s.turn.delegated, item.call.id, item.requestID)
           && s.resume.next + 1 < |s.resume.matched.plan|
                   then s.resume.(next := s.resume.next + 1, written := false)
                   else Idle)
    else s
  }

  function Step(s: Session, e: Event): Session {
    match e
    case Add(call, requestID) => AddStep(s, call, requestID)
    case Content(content, phase, finishReason) =>
      s.(turn := Enqueue(s.turn, Chunk(s.turn.turnID, content, phase, [], finishReason)))
    case Finished(err) => s.(turn := Finish(s.turn, err))
    case Closed => s.(turn := Close(s.turn))
    case Recv => RecvStep(s)
    case BeginResume(messages) => BeginStep(s, messages)
    case WriteOk => WriteStep(s)
    case WriteFail => if Writing(s.resume) then s.(resume := Idle) else s
    case Ack => AckStep(s)
  }

  function Run(s: Session, events: seq<Event>): Session
    decreases |events|
  {
    if events == [] then s else Run(Step(s, events[0]), events[1..])
  }

  /** The server never reuses a call ID within a turn. */
  predicate UniqueCalls(events: seq<Event>) {
    forall i, j :: 0 <= i < j < |events| && events[i].Add? && events[j].Add? ==> events[i].call.id != events[j].call.id
  }

  function ToolCallsOf(queue: seq<Chunk>): seq<ToolCall> {
    if queue == [] then [] else queue[0].calls + ToolCallsOf(queue[1..])
  }

  function RequestsOf(answers: seq<Answer>): seq<string> {
    seq(|answers|, i requires 0 <= i < |answers| => answers[i].requestID)
  }

  /** Live callbacks that no written response has answered yet. */
  function Unanswered(live: seq<Pending>, resume: Resume): seq<Pending> {
    if Acknowledging(resume) then RemoveFirst(live, Item(resume).call.id, Item(resume).requestID) else live
  }

  // ---------------------------------------------------------------- invariant

  /** k delivered entries come first; what follows them is exposed as the mode allows. */
  ghost predicate Exposure(t: Turn, k: nat) {
    && k <= |t.delegated|
    && (t.awaitingTools <==> t.delegated != [])
    && (forall i :: 0 <= i < |t.delegated| ==> (t.delegated[i].delivered <==> i < k))
    && (t.parallelTools ==> forall i :: 0 <= i < |t.delegated| ==> (t.delegated[i].queued <==> i >= k))
    && (!t.parallelTools ==> k <= 1 && forall i :: 0 <= i < |t.delegated| ==> (t.delegated[i].queued <==> i == k == 0))
    && (t.parallelTools ==>
          && (forall i, j :: 0 <= i < j < |t.delegated| ==> t.delegated[i].call.index < t.delegated[j].call.index)
          && (forall i :: 0 <= i < |t.delegated| ==> t.delegated[i].call.index < t.nextToolIndex))
  }

  /** The entries whose chunks wait in the queue. */
  function Waiting(t: Turn, k: nat): seq<Pending>
    requires k <= |t.delegated|
  {
    if t.parallelTools then t.delegated[k..]
    else if k == 0 && t.delegated != [] then [t.delegated[0]]
    else []
  }

  /** Added calls are the delivered ones followed by the live ones not delivered yet. */
  ghost predicate Ledger(added: seq<ToolCall>, delivered: seq<ToolCall>, live: seq<ToolCall>, k: nat) {
    && k <= |live|
    && added == delivered + live[k..]
    && DistinctIDs(added)
    && DistinctIDs(live)
    && (forall i :: 0 <= i < |live| ==> live[i] in added)
  }

  /** The queue carries one chunk for each waiting call, in the same order. */
  ghost predicate QueueAgrees(queue: seq<Chunk>, waiting: seq<ToolCall>) {
    && ToolCallsOf(queue) == waiting
    && (forall i :: 0 <= i < |queue| ==> |queue[i].calls| <= 1)
  }

  ghost predicate Conserved(s: Session, k: nat) {
    && Exposure(s.turn, k)
    && Ledger(s.added, s.delivered, Calls(s.turn.delegated), k)
    && QueueAgrees(s.turn.queue, Calls(Waiting(s.turn, k)))
  }

  /** What is left of a plan is live and delivered; what was acknowledged is gone for good. */
  ghost predicate PlanLive(plan: seq<Pending>, n: nat, live: seq<Pending>) {
    forall j :: n <= j < |plan| ==> plan[j].delivered && plan[j] in live
  }

  ghost predicate PlanGone(plan: seq<Pending>, n: nat, live: seq<Pending>) {
    forall j, i :: 0 <= j < n && j < |plan| && 0 <= i < |live| ==> live[i].call.id != plan[j].call.id
  }

  ghost predicate PlanKnown(plan: seq<Pending>, added: seq<ToolCall>) {
    DistinctIDs(Calls(plan)) && forall j :: 0 <= j < |plan| ==> plan[j].call in added
  }

  /** The answers since the resume began are the plan's, in order, with the caller's last results. */
  ghost predicate Progress(resume: Resume, answered: seq<Answer>) {
    resume.Answering? ==>
      var plan, results := resume.matched.plan, resume.matched.results;
      && resume.next < |plan| == |results|
      && resume.base + resume.next + (if resume.written then 1 else 0) == |answered|
      && answered[resume.base..] == AnswersOf(plan, results)[..|answered| - resume.base]
      && (forall j :: 0 <= j < |plan| ==> LastResult(resume.messages, plan[j].call.id) == Some(results[j]))
  }

  ghost predicate PlanOrderly(resume: Resume, live: seq<Pending>, added: seq<ToolCall>) {
    resume.Answering? ==>
      && resume.next < |resume.matched.plan|
      && PlanLive(resume.matched.plan, resume.next, live)
      && PlanGone(resume.matched.plan, resume.next, live)
      && PlanKnown(resume.matched.plan, added)
  }

  ghost predicate RequestsConserved(requests: seq<string>, answered: seq<Answer>, unanswered: seq<Pending>) {
    multiset(requests) == multiset(RequestsOf(answered)) + multiset(Requests(unanswered))
  }

  ghost predicate Inv(s: Session) {
    && (exists k :: Conserved(s, k))
    && Progress(s.resume, s.answered)
    && PlanOrderly(s.resume, s.turn.delegated, s.added)
    && RequestsConserved(s.requests, s.answered, Unanswered(s.turn.delegated, s.resume))
  }

  // ------------------------------------------------------------- preservation

  lemma {:induction false} ToolCallsAppend(a: seq<Chunk>, b: seq<Chunk>)
    ensures ToolCallsOf(a + b) == ToolCallsOf(a) + ToolCallsOf(b)
  {
    if a == [] {
      assert a + b == b;
    } else {
      assert (a + b)[0] == a[0] && (a + b)[1..] == a[1..] + b;
      ToolCallsAppend(a[1..], b);
    }
  }

  lemma ToolCallsOne(chunk: Chunk)
    ensures ToolCallsOf([chunk]) == chunk.calls
  {
    assert ToolCallsOf([chunk][1..]) == [];
  }

  /** Whether a callback that arrives now is exposed at once. */
  predicate ExposedOnArrival(t: Turn) {
    t.parallelTools || t.delegated == []
  }

  lemma AddParallelShape(t: Turn, call: ToolCall, requestID: string, k: nat)
    requires Exposure(t, k) && Accepting(t) && t.parallelTools
    ensures var p := Pending(AssignIndex(t, call), requestID, true, false);
            AddTool(t, call, requestID) ==
            t.(nextToolIndex := t.nextToolIndex + 1, delegated := t.delegated + [p], awaitingTools := true,
               queue := t.queue + [ToolChunk(t.turnID, p.call)])
  {
    var d, p := t.delegated, Pending(AssignIndex(t, call), requestID, false, false);
    var grown := d + [p];
    HiddenAtEnd(d, p);
    assert Calls([p]) == [p.call];
    assert ToolChunks(t.turnID, [p.call]) == [ToolChunk(t.turnID, p.call)];
    assert MarkAllQueued(grown) == d + [p.(queued := true)];
  }

  lemma HiddenAtEnd(d: seq<Pending>, p: Pending)
    requires !Exposed(p) && forall i :: 0 <= i < |d| ==> Exposed(d[i])
    ensures Hidden(d + [p]) == [p]
  {
    SelectAppend(d, [p], (q: Pending) => !Exposed(q));
    SelectNone(d, (q: Pending) => !Exposed(q));
    SelectAll([p], (q: Pending) => !Exposed(q));
  }

  lemma AddSequentialShape(t: Turn, call: ToolCall, requestID: string, k: nat)
    requires Exposure(t, k) && Accepting(t) && !t.parallelTools
    ensures var p := Pending(AssignIndex(t, call), requestID, t.delegated == [], false);
            AddTool(t, call, requestID) ==
            t.(delegated := t.delegated + [p], awaitingTools := true,
               queue := t.queue + if t.delegated == [] then [ToolChunk(t.turnID, p.call)] else [])
  {
    var d, p := t.delegated, Pending(AssignIndex(t, call), requestID, false, false);
    var grown := d + [p];
    if d == [] {
      assert grown == [p] && grown[1..] == [];
      assert !Exposed(grown[0]);
    } else {
      assert Exposed(grown[0]);
      assert t.queue + [] == t.queue;
    }
  }

  lemma AddToolShape(t: Turn, call: ToolCall, requestID: string, k: nat)
    requires Exposure(t, k) && Accepting(t)
    ensures var p := Pending(AssignIndex(t, call), requestID, ExposedOnArrival(t), false);
            AddTool(t, call, requestID) ==
            t.(nextToolIndex := if t.parallelTools then t.nextToolIndex + 1 else t.nextToolIndex,
               delegated := t.delegated + [p],
               queue := t.queue + if ExposedOnArrival(t) then [ToolChunk(t.turnID, p.call)] else [],
               awaitingTools := true)
  {
    if t.parallelTools {
      AddParallelShape(t, call, requestID, k);
    } else {
      AddSequentialShape(t, call, requestID, k);
    }
  }

  lemma LedgerAppend(added: seq<ToolCall>, delivered: seq<ToolCall>, live: seq<ToolCall>, k: nat, call: ToolCall)
    requires Ledger(added, delivered, live, k)
    requires forall i :: 0 <= i < |added| ==> added[i].id != call.id
    ensures Ledger(added + [call], delivered, live + [call], k)
  {
    assert (live + [call])[k..] == live[k..] + [call];
    forall i | 0 <= i < |live| ensures live[i].id != call.id && live[i] in added + [call] {
      var j :| 0 <= j < |added| && added[j] == live[i];
    }
  }

  lemma QueueAppend(queue: seq<Chunk>, waiting: seq<ToolCall>, chunk: Chunk)
    requires QueueAgrees(queue, waiting) && |chunk.calls| <= 1
    ensures QueueAgrees(queue + [chunk], waiting + chunk.calls)
  {
    ToolCallsAppend(queue, [chunk]);
    ToolCallsOne(chunk);
  }

  /** A new entry at the end keeps the exposure of the older ones. */
  lemma ExposureAppend(t: Turn, p: Pending, next: nat, k: nat)
    requires Exposure(t, k) && !p.delivered && p.queued == ExposedOnArrival(t)
    requires t.parallelTools ==> p.call.index == t.nextToolIndex && next == t.nextToolIndex + 1
    ensures Exposure(t.(nextToolIndex := next, delegated := t.delegated + [p], awaitingTools := true), k)
    ensures Calls(Waiting(t.(delegated := t.delegated + [p]), k)) ==
            Calls(Waiting(t, k)) + if p.queued then [p.call] else []
  {
    assert (t.delegated + [p])[k..] == t.delegated[k..] + [p];
  }

  /** A session whose parts fit together again. */
  lemma Fits(s: Session, k: nat, live: seq<ToolCall>, waiting: seq<ToolCall>)
    requires Exposure(s.turn, k) && Calls(s.turn.delegated) == live && Calls(Waiting(s.turn, k)) == waiting
    requires Ledger(s.added, s.delivered, live, k) && QueueAgrees(s.turn.queue, waiting)
    ensures Conserved(s, k)
  {
  }

  /** Neither depends on the queue. */
  lemma QueueIsApart(t: Turn, queue: seq<Chunk>, k: nat)
    requires Exposure(t, k)
    ensures Exposure(t.(queue := queue), k) && Waiting(t.(queue := queue), k) == Waiting(t, k)
  {
  }

  lemma AppendKeeps(s: Session, p: Pending, next: nat, k: nat)
    requires Conserved(s, k) && !p.delivered
    requires p.queued == ExposedOnArrival(s.turn)
    requires forall i :: 0 <= i < |s.added| ==> s.added[i].id != p.call.id
    requires s.turn.parallelTools ==> p.call.index == s.turn.nextToolIndex && next == s.turn.nextToolIndex + 1
    ensures Conserved(s.(turn := s.turn.(nextToolIndex := next, delegated := s.turn.delegated + [p],
            awaitingTools := true,
                           queue := s.turn.queue + if p.queued then [ToolChunk(s.turn.turnID, p.call)] else []),
                         added := s.added + [p.call]), k)
  {
    var t := s.turn;
    var grown := t.(nextToolIndex := next, delegated := t.delegated + [p], awaitingTools := true);
    var queue := t.queue + if p.queued then [ToolChunk(t.turnID, p.call)] else [];
    var live, waiting := Calls(t.delegated) + [p.call], Calls(Waiting(t, k)) + if p.queued then [p.call] else [];
    ExposureAppend(t, p, next, k);
    QueueIsApart(grown, queue, k);
    LedgerAppend(s.added, s.delivered, Calls(t.delegated), k, p.call);
    assert Calls(grown.delegated) == live;
    if p.queued {
      QueueAppend(t.queue, Calls(Waiting(t, k)), ToolChunk(t.turnID, p.call));
    } else {
      assert queue == t.queue && waiting == Calls(Waiting(t, k));
    }
    Fits(s.(turn := grown.(queue := queue), added := s.added + [p.call]), k, live, waiting);
  }

  lemma {:induction false} MarkEachDeliveredOne(entries: seq<Pending>, call: ToolCall)
    ensures MarkEachDelivered(entries, [call]) == MarkDelivered(entries, call.id)
  {
    assert [call][1..] == [];
  }

  /** Receiving a tool chunk delivers exactly the first undelivered entry. */
  lemma ReceiveShape(s: Session, k: nat)
    requires Conserved(s, k) && s.turn.queue != [] && s.turn.queue[0].calls != []
    ensures var t, chunk := s.turn, s.turn.queue[0];
            && k < |t.delegated| && chunk.calls == [t.delegated[k].call] && t.delegated[k].queued
            && MarkEachDelivered(t.delegated, chunk.calls) ==
               t.delegated[k := t.delegated[k].(queued := false, delivered := true)]
  {
    var t, d, chunk := s.turn, s.turn.delegated, s.turn.queue[0];
    var call := chunk.calls[0];
    assert chunk.calls == [call];
    assert ToolCallsOf(t.queue)[0] == call;
    assert Calls(Waiting(t, k))[0] == call;
    assert k < |d| && d[k].call == call;
    MarkDeliveredAt(d, k);
    MarkEachDeliveredOne(d, call);
  }

  function DeliverAt(d: seq<Pending>, k: nat): seq<Pending>
    requires k < |d|
  {
    d[k := d[k].(queued := false, delivered := true)]
  }

  lemma ExposureDeliver(t: Turn, k: nat)
    requires Exposure(t, k) && k < |t.delegated| && t.delegated[k].queued
    ensures Exposure(t.(delegated := DeliverAt(t.delegated, k)), k + 1)
  {
  }

  lemma WaitingDeliver(t: Turn, k: nat)
    requires Exposure(t, k) && k < |t.delegated| && t.delegated[k].queued
    ensures Calls(Waiting(t, k)) == [t.delegated[k].call]
            + Calls(Waiting(t.(delegated := DeliverAt(t.delegated, k)), k + 1))
  {
    var d, d' := t.delegated, DeliverAt(t.delegated, k);
    if t.parallelTools {
      assert d'[k + 1..] == d[k + 1..];
      assert d[k..] == [d[k]] + d[k + 1..];
    }
  }

  lemma LedgerDeliver(added: seq<ToolCall>, delivered: seq<ToolCall>, live: seq<ToolCall>, k: nat)
    requires Ledger(added, delivered, live, k) && k < |live|
    ensures Ledger(added, delivered + [live[k]], live, k + 1)
  {
    assert live[k..] == [live[k]] + live[k + 1..];
  }

  lemma QueueDeliver(queue: seq<Chunk>, call: ToolCall, rest: seq<ToolCall>)
    requires queue != [] && queue[0].calls == [call] && QueueAgrees(queue, [call] + rest)
    ensures QueueAgrees(queue[1..], rest)
  {
    assert ToolCallsOf(queue) == [call] + ToolCallsOf(queue[1..]);
    assert ([call] + rest)[1..] == rest && ([call] + ToolCallsOf(queue[1..]))[1..] == ToolCallsOf(queue[1..]);
  }

  function Delivering(t: Turn, k: nat): Turn
    requires k < |t.delegated| && t.queue != []
  {
    t.(queue := t.queue[1..], delegated := DeliverAt(t.delegated, k))
  }

  lemma ExposureDelivering(t: Turn, k: nat)
    requires Exposure(t, k) && k < |t.delegated| && t.delegated[k].queued && t.queue != []
    ensures Exposure(Delivering(t, k), k + 1)
  {
    ExposureDeliver(t, k);
    QueueIsApart(t.(delegated := DeliverAt(t.delegated, k)), t.queue[1..], k + 1);
  }

  lemma LedgerDelivering(t: Turn, added: seq<ToolCall>, delivered: seq<ToolCall>, k: nat)
    requires Ledger(added, delivered, Calls(t.delegated), k) && k < |t.delegated| && t.queue != []
    ensures Ledger(added, delivered + [t.delegated[k].call], Calls(Delivering(t, k).delegated), k + 1)
  {
    LedgerDeliver(added, delivered, Calls(t.delegated), k);
    assert Calls(Delivering(t, k).delegated) == Calls(t.delegated);
  }

  lemma QueueDelivering(t: Turn, k: nat)
    requires Exposure(t, k) && k < |t.delegated| && t.delegated[k].queued && QueueAgrees(t.queue, Calls(Waiting(t, k)))
    requires t.queue != [] && t.queue[0].calls == [t.delegated[k].call]
    ensures QueueAgrees(Delivering(t, k).queue, Calls(Waiting(Delivering(t, k), k + 1)))
  {
    var t' := t.(delegated := DeliverAt(t.delegated, k));
    ExposureDeliver(t, k);
    WaitingDeliver(t, k);
    QueueIsApart(t', t.queue[1..], k + 1);
    QueueDeliver(t.queue, t.delegated[k].call, Calls(Waiting(t', k + 1)));
  }

  lemma DeliverKeeps(s: Session, k: nat)
    requires Conserved(s, k) && s.turn.queue != [] && k < |s.turn.delegated|
    requires s.turn.delegated[k].queued && s.turn.queue[0].calls == [s.turn.delegated[k].call]
    ensures Conserved(s.(turn := Delivering(s.turn, k), delivered := s.delivered + [s.turn.delegated[k].call]), k + 1)
  {
    ExposureDelivering(s.turn, k);
    LedgerDelivering(s.turn, s.added, s.delivered, k);
    QueueDelivering(s.turn, k);
  }

  /** After a removal, sequential mode exposes the entry that became first. */
  function Advance(t: Turn, rest: seq<Pending>): seq<Pending> {
    if t.parallelTools || rest == [] then rest else [rest[0].(queued := true)] + rest[1..]
  }

  function Rest(t: Turn, m: nat): seq<Pending>
    requires m < |t.delegated|
  {
    t.delegated[..m] + t.delegated[m + 1..]
  }

  /** The turn without its m-th entry, before anything is queued for it. */
  function Shrunk(t: Turn, m: nat): Turn
    requires m < |t.delegated|
  {
    t.(delegated := Advance(t, Rest(t, m)), awaitingTools := Rest(t, m) != [],
       nextToolIndex := if Rest(t, m) == [] then 0 else t.nextToolIndex)
  }

  function NextChunk(t: Turn, rest: seq<Pending>): seq<Chunk> {
    if t.parallelTools || rest == [] then [] else [ToolChunk(t.turnID, rest[0].call)]
  }

  /** The turn after its m-th entry, a delivered one, was acknowledged. */
  function Without(t: Turn, m: nat): Turn
    requires m < |t.delegated|
  {
    Shrunk(t, m).(queue := t.queue + NextChunk(t, Rest(t, m)))
  }

  /** After a removal, sequential mode has nothing exposed and parallel mode everything. */
  lemma RestIs(t: Turn, m: nat, k: nat)
    requires Exposure(t, k) && m < k
    ensures forall i :: 0 <= i < |Rest(t, m)| ==> (Exposed(Rest(t, m)[i]) <==> t.parallelTools)
  {
    var d, rest := t.delegated, Rest(t, m);
    forall i | 0 <= i < |rest| ensures Exposed(rest[i]) <==> t.parallelTools {
      var o := if i < m then i else i + 1;
      assert rest[i] == d[o];
      assert d[o].delivered <==> o < k;
    }
  }

  /** Acknowledging a delivered entry removes it and nothing else. */
  lemma AcknowledgeShape(t: Turn, m: nat, k: nat)
    requires Exposure(t, k) && m < k && DistinctIDs(Calls(t.delegated))
    ensures Pends(t.delegated, t.delegated[m].call.id, t.delegated[m].requestID)
    ensures RemoveFirst(t.delegated, t.delegated[m].call.id, t.delegated[m].requestID) == Rest(t, m)
    ensures Acknowledge(t, t.delegated[m]) == Without(t, m)
  {
    RemoveFirstAt(t.delegated, m);
    RestIs(t, m, k);
    RequeueRest(t, m);
  }

  lemma RequeueRest(t: Turn, m: nat)
    requires m < |t.delegated| && forall i :: 0 <= i < |Rest(t, m)| ==> (Exposed(Rest(t, m)[i]) <==> t.parallelTools)
    ensures var t' := t.(delegated := Rest(t, m), awaitingTools := Rest(t, m) != []);
            Without(t, m) == if Rest(t, m) != [] then QueueTools(t') else t'.(nextToolIndex := 0)
  {
    var rest := Rest(t, m);
    assert t.queue + [] == t.queue;
    if rest != [] {
      if t.parallelTools {
        RequeueExposed(t.(delegated := rest, awaitingTools := true));
      } else {
        RequeueHidden(t.(delegated := rest, awaitingTools := true));
      }
    }
  }

  /** Queueing again exposes nothing that is exposed already. */
  lemma RequeueExposed(t: Turn)
    requires t.parallelTools && forall i :: 0 <= i < |t.delegated| ==> Exposed(t.delegated[i])
    ensures QueueTools(t) == t
  {
    SelectNone(t.delegated, (q: Pending) => !Exposed(q));
    assert MarkAllQueued(t.delegated) == t.delegated;
    assert t.queue + [] == t.queue;
  }

  lemma RequeueHidden(t: Turn)
    requires !t.parallelTools && t.delegated != [] && forall i :: 0 <= i < |t.delegated| ==> !Exposed(t.delegated[i])
    ensures QueueTools(t) ==
            t.(delegated := Advance(t, t.delegated), queue := t.queue + [ToolChunk(t.turnID, t.delegated[0].call)])
  {
  }

  lemma LedgerRemove(added: seq<ToolCall>, delivered: seq<ToolCall>, live: seq<ToolCall>, k: nat, m: nat)
    requires Ledger(added, delivered, live, k) && m < k
    ensures Ledger(added, delivered, live[..m] + live[m + 1..], k - 1)
  {
    var rest := live[..m] + live[m + 1..];
    assert rest[k - 1..] == live[k..];
    forall i | 0 <= i < |rest| ensures rest[i] in added {
      assert rest[i] == live[if i < m then i else i + 1];
    }
  }

  lemma EntriesAfterRemoval(t: Turn, m: nat)
    requires m < |t.delegated|
    ensures var d := Shrunk(t, m).delegated;
            && |d| == |t.delegated| - 1
            && forall i :: 0 <= i < |d| ==>
                 var p := t.delegated[if i < m then i else i + 1];
                 d[i].call == p.call && d[i].delivered == p.delivered
                   && d[i].queued == (p.queued || (!t.parallelTools && i == 0))
  {
  }

  lemma ExposureRemove(t: Turn, m: nat, k: nat)
    requires Exposure(t, k) && m < k
    ensures Exposure(Shrunk(t, m), k - 1)
  {
    EntriesAfterRemoval(t, m);
  }

  lemma CallsRemove(t: Turn, m: nat)
    requires m < |t.delegated|
    ensures Calls(Shrunk(t, m).delegated) == Calls(t.delegated)[..m] + Calls(t.delegated)[m + 1..]
  {
    assert Calls(Rest(t, m)) == Calls(t.delegated)[..m] + Calls(t.delegated)[m + 1..];
    assert Calls(Advance(t, Rest(t, m))) == Calls(Rest(t, m));
  }

  lemma WaitingRemoveParallel(t: Turn, m: nat, k: nat)
    requires t.parallelTools && m < k <= |t.delegated|
    ensures Waiting(Shrunk(t, m), k - 1) == Waiting(t, k)
  {
    assert Rest(t, m)[k - 1..] == t.delegated[k..];
  }

  /** In sequential mode only the first entry is ever delivered, and the next one takes its place. */
  lemma WaitingRemoveSequential(t: Turn)
    requires !t.parallelTools && t.delegated != []
    ensures Waiting(t, 1) == []
    ensures Calls(Waiting(Shrunk(t, 0), 0)) == if Rest(t, 0) == [] then [] else [Rest(t, 0)[0].call]
  {
  }

  lemma WaitingRemove(t: Turn, m: nat, k: nat)
    requires Exposure(t, k) && m < k
    ensures k - 1 <= |Shrunk(t, m).delegated|
    ensures Calls(Waiting(Shrunk(t, m), k - 1)) == Calls(Waiting(t, k)) + ToolCallsOf(NextChunk(t, Rest(t, m)))
  {
    var next := NextChunk(t, Rest(t, m));
    if t.parallelTools {
      WaitingRemoveParallel(t, m, k);
      assert Calls(Waiting(t, k)) + [] == Calls(Waiting(t, k));
    } else {
      WaitingRemoveSequential(t);
      if next != [] {
        ToolCallsOne(next[0]);
      }
      assert Calls(Waiting(t, k)) == [];
      assert [] + ToolCallsOf(next) == ToolCallsOf(next);
    }
  }

  lemma ExposureWithout(t: Turn, m: nat, k: nat)
    requires Exposure(t, k) && m < k
    ensures Exposure(Without(t, m), k - 1)
  {
    ExposureRemove(t, m, k);
    QueueIsApart(Shrunk(t, m), Without(t, m).queue, k - 1);
  }

  lemma LedgerWithout(t: Turn, added: seq<ToolCall>, delivered: seq<ToolCall>, m: nat, k: nat)
    requires Ledger(added, delivered, Calls(t.delegated), k) && m < k <= |t.delegated|
    ensures Ledger(added, delivered, Calls(Without(t, m).delegated), k - 1)
  {
    CallsRemove(t, m);
    LedgerRemove(added, delivered, Calls(t.delegated), k, m);
  }

  lemma QueueWithout(t: Turn, m: nat, k: nat)
    requires Exposure(t, k) && QueueAgrees(t.queue, Calls(Waiting(t, k))) && m < k
    ensures k - 1 <= |Without(t, m).delegated| && QueueAgrees(Without(t, m).queue, Calls(Waiting(Without(t, m), k - 1)))
  {
    WaitingRemove(t, m, k);
    ExposureRemove(t, m, k);
    QueueIsApart(Shrunk(t, m), Without(t, m).queue, k - 1);
    QueueGains(t.queue, Calls(Waiting(t, k)), NextChunk(t, Rest(t, m)));
  }

  lemma RemoveKeeps(s: Session, m: nat, k: nat)
    requires Conserved(s, k) && m < k
    ensures Conserved(s.(turn := Without(s.turn, m)), k - 1)
  {
    ExposureWithout(s.turn, m, k);
    LedgerWithout(s.turn, s.added, s.delivered, m, k);
    QueueWithout(s.turn, m, k);
  }

  /** At most one more chunk, with at most one call. */
  lemma QueueGains(queue: seq<Chunk>, waiting: seq<ToolCall>, added: seq<Chunk>)
    requires QueueAgrees(queue, waiting) && |added| <= 1 && (added != [] ==> |added[0].calls| <= 1)
    ensures QueueAgrees(queue + added, waiting + ToolCallsOf(added))
    ensures ToolCallsOf(added) == if added == [] then [] else added[0].calls
  {
    if added == [] {
      assert queue + [] == queue && waiting + [] == waiting;
    } else {
      assert added == [added[0]];
      QueueAppend(queue, waiting, added[0]);
      ToolCallsOne(added[0]);
    }
  }

  /** Entries that agree on call and request, whatever their flags. */
  predicate SameCallbacks(a: seq<Pending>, b: seq<Pending>) {
    |a| == |b| && forall i :: 0 <= i < |a| ==> a[i].call == b[i].call && a[i].requestID == b[i].requestID
  }

  lemma SameCallbacksRequests(a: seq<Pending>, b: seq<Pending>)
    requires SameCallbacks(a, b)
    ensures Requests(a) == Requests(b) && Calls(a) == Calls(b)
  {
  }

  lemma {:induction false} SameCallbacksRemove(a: seq<Pending>, b: seq<Pending>, id: string, requestID: string)
    requires SameCallbacks(a, b)
    ensures SameCallbacks(RemoveFirst(a, id, requestID), RemoveFirst(b, id, requestID))
  {
    if a != [] {
      SameCallbacksRemove(a[1..], b[1..], id, requestID);
    }
  }

  lemma {:induction false} RemoveFirstAppend(a: seq<Pending>, p: Pending, id: string, requestID: string)
    requires Pends(a, id, requestID)
    ensures RemoveFirst(a + [p], id, requestID) == RemoveFirst(a, id, requestID) + [p]
  {
    if a != [] {
      assert (a + [p])[0] == a[0] && (a + [p])[1..] == a[1..] + [p];
      if !Matches(a[0], id, requestID) {
        var i :| 0 <= i < |a| && Matches(a[i], id, requestID);
        assert Matches(a[1..][i - 1], id, requestID);
        RemoveFirstAppend(a[1..], p, id, requestID);
      }
    }
  }

  /** Where a planned entry sits among the live ones. */
  lemma PlannedAt(t: Turn, resume: Resume, added: seq<ToolCall>, k: nat, j: nat) returns (m: nat)
    requires Exposure(t, k) && PlanOrderly(resume, t.delegated, added) && resume.Answering?
    requires resume.next <= j < |resume.matched.plan|
    ensures m < k && t.delegated[m] == resume.matched.plan[j]
  {
    var item := resume.matched.plan[j];
    assert item.delivered && item in t.delegated;
    m :| m < |t.delegated| && t.delegated[m] == item;
  }

  ghost predicate Fresh(s: Session, e: Event) {
    e.Add? ==> forall i :: 0 <= i < |s.added| ==> s.added[i].id != e.call.id
  }

  lemma PlanAppend(resume: Resume, live: seq<Pending>, added: seq<ToolCall>, p: Pending)
    requires PlanOrderly(resume, live, added)
    requires forall i :: 0 <= i < |added| ==> added[i].id != p.call.id
    ensures PlanOrderly(resume, live + [p], added + [p.call])
  {
    if resume.Answering? {
      var plan := resume.matched.plan;
      forall j | 0 <= j < |plan| ensures plan[j].call.id != p.call.id && plan[j].call in added + [p.call] {
        assert plan[j].call in added;
        var i :| 0 <= i < |added| && added[i] == plan[j].call;
      }
    }
  }

  lemma UnansweredAppend(resume: Resume, live: seq<Pending>, added: seq<ToolCall>, p: Pending)
    requires PlanOrderly(resume, live, added)
    ensures Unanswered(live + [p], resume) == Unanswered(live, resume) + [p]
  {
    if Acknowledging(resume) {
      var i :| 0 <= i < |live| && live[i] == Item(resume);
      assert Matches(live[i], Item(resume).call.id, Item(resume).requestID);
      RemoveFirstAppend(live, p, Item(resume).call.id, Item(resume).requestID);
    }
  }

  lemma RequestsAdd(requests: seq<string>, answered: seq<Answer>, unanswered: seq<Pending>, p: Pending)
    requires RequestsConserved(requests, answered, unanswered)
    ensures RequestsConserved(requests + [p.requestID], answered, unanswered + [p])
  {
    assert Requests(unanswered + [p]) == Requests(unanswered) + [p.requestID];
  }

  lemma AddStepKeeps(s: Session, call: ToolCall, requestID: string)
    requires Inv(s) && Fresh(s, Add(call, requestID))
    ensures Inv(AddStep(s, call, requestID))
  {
    if Accepting(s.turn) {
      var k: nat :| Conserved(s, k);
      var t := s.turn;
      var p := Pending(AssignIndex(t, call), requestID, ExposedOnArrival(t), false);
      var next := if t.parallelTools then t.nextToolIndex + 1 else t.nextToolIndex;
      AppendKeeps(s, p, next, k);
      PlanAppend(s.resume, t.delegated, s.added, p);
      UnansweredAppend(s.resume, t.delegated, s.added, p);
      RequestsAdd(s.requests, s.answered, Unanswered(t.delegated, s.resume), p);
      AddToolShape(t, call, requestID, k);
      assert Conserved(AddStep(s, call, requestID).(requests := s.requests), k);
      assert Conserved(AddStep(s, call, requestID), k);
    }
  }

  lemma PlanDeliver(resume: Resume, live: seq<Pending>, added: seq<ToolCall>, k: nat)
    requires PlanOrderly(resume, live, added) && k < |live| && !live[k].delivered
    ensures PlanOrderly(resume, live[k := live[k].(queued := false, delivered := true)], added)
  {
    if resume.Answering? {
      var plan, live' := resume.matched.plan, live[k := live[k].(queued := false, delivered := true)];
      forall j | resume.next <= j < |plan| ensures plan[j] in live' {
        var i :| 0 <= i < |live| && live[i] == plan[j];
        assert live'[i] == plan[j];
      }
      assert forall i :: 0 <= i < |live| ==> live'[i].call == live[i].call;
    }
  }

  lemma UnansweredDeliver(resume: Resume, live: seq<Pending>, k: nat)
    requires k < |live|
    ensures Requests(Unanswered(live[k := live[k].(queued := false, delivered := true)], resume)) ==
            Requests(Unanswered(live, resume))
  {
    var live' := live[k := live[k].(queued := false, delivered := true)];
    if Acknowledging(resume) {
      SameCallbacksRemove(live, live', Item(resume).call.id, Item(resume).requestID);
    }
    SameCallbacksRequests(Unanswered(live, resume), Unanswered(live', resume));
  }

  lemma RecvStepKeeps(s: Session)
    requires Inv(s)
    ensures Inv(RecvStep(s))
  {
    var k: nat :| Conserved(s, k);
    if s.turn.queue != [] && s.turn.queue[0].calls != [] {
      ReceiveShape(s, k);
      DeliverKeeps(s, k);
      PlanDeliver(s.resume, s.turn.delegated, s.added, k);
      UnansweredDeliver(s.resume, s.turn.delegated, k);
      assert Conserved(RecvStep(s), k + 1);
    } else {
      PlainReceiveKeeps(s, k);
    }
  }

  /** Text chunks, errors and ends of stream touch no callback. */
  lemma PlainReceiveShape(t: Turn)
    requires t.queue == [] || t.queue[0].calls == []
    ensures var (t', received) := Receive(t);
            && t' == t.(queue := if t.queue == [] then [] else t.queue[1..], errDelivered := t'.errDelivered)
            && (received.Got? ==> received.chunk.calls == [])
  {
  }

  lemma PlainReceiveKeeps(s: Session, k: nat)
    requires Conserved(s, k) && (s.turn.queue == [] || s.turn.queue[0].calls == [])
    ensures Conserved(RecvStep(s), k) && RecvStep(s).turn.delegated == s.turn.delegated
  {
    var t, t' := s.turn, RecvStep(s).turn;
    PlainReceiveShape(t);
    assert s.delivered + [] == s.delivered;
    assert RecvStep(s).delivered == s.delivered;
    PlainQueue(t.queue, Calls(Waiting(t, k)));
    assert Waiting(t', k) == Waiting(t, k);
  }

  lemma PlainQueue(queue: seq<Chunk>, waiting: seq<ToolCall>)
    requires QueueAgrees(queue, waiting) && (queue == [] || queue[0].calls == [])
    ensures QueueAgrees(if queue == [] then [] else queue[1..], waiting)
  {
    if queue != [] {
      assert [] + ToolCallsOf(queue[1..]) == ToolCallsOf(queue[1..]);
    }
  }

  lemma WriteProgress(resume: Resume, answered: seq<Answer>)
    requires Progress(resume, answered) && Writing(resume)
    ensures Progress(resume.(written := true),
                     answered + [Answer(resume.matched.plan[resume.next].requestID,
                       resume.matched.results[resume.next])])
  {
    var answer := Answer(resume.matched.plan[resume.next].requestID, resume.matched.results[resume.next]);
    assert (answered + [answer])[resume.base..] == answered[resume.base..] + [answer];
    var all := AnswersOf(resume.matched.plan, resume.matched.results);
    assert all[..resume.next + 1] == all[..resume.next] + [answer];
  }

  lemma RequestsAnswer(requests: seq<string>, answered: seq<Answer>, live: seq<Pending>, m: nat, text: string)
    requires RequestsConserved(requests, answered, live) && m < |live|
    ensures RequestsConserved(requests, answered + [Answer(live[m].requestID, text)], live[..m] + live[m + 1..])
  {
    assert Requests(live) == Requests(live[..m]) + [live[m].requestID] + Requests(live[m + 1..]);
    assert Requests(live[..m] + live[m + 1..]) == Requests(live[..m]) + Requests(live[m + 1..]);
    assert RequestsOf(answered + [Answer(live[m].requestID, text)]) == RequestsOf(answered) + [live[m].requestID];
  }

  lemma WriteStepKeeps(s: Session)
    requires Inv(s)
    ensures Inv(WriteStep(s))
  {
    if Writing(s.resume) {
      var k: nat :| Conserved(s, k);
      var m := PlannedAt(s.turn, s.resume, s.added, k, s.resume.next);
      WriteProgress(s.resume, s.answered);
      RemoveFirstAt(s.turn.delegated, m);
      RequestsAnswer(s.requests, s.answered, s.turn.delegated, m, s.resume.matched.results[s.resume.next]);
      assert Conserved(WriteStep(s), k);
    }
  }

  /** The rest of the plan is still live after the removal, wherever it stood. */
  lemma PlanStaysLive(t: Turn, resume: Resume, added: seq<ToolCall>, m: nat, k: nat)
    requires Exposure(t, k) && PlanOrderly(resume, t.delegated, added)
    requires Acknowledging(resume) && m < k && t.delegated[m] == Item(resume)
    ensures PlanLive(resume.matched.plan, resume.next + 1, Shrunk(t, m).delegated)
  {
    var d' := Shrunk(t, m).delegated;
    var plan, n := resume.matched.plan, resume.next;
    forall j | n < j < |plan| ensures plan[j].delivered && plan[j] in d' {
      var o := PlannedAt(t, resume, added, k, j);
      assert Calls(plan)[n].id != Calls(plan)[j].id;
      assert d'[if o < m then o else o - 1] == plan[j];
    }
  }

  lemma PlanStaysGone(t: Turn, plan: seq<Pending>, n: nat, m: nat)
    requires DistinctIDs(Calls(t.delegated)) && PlanGone(plan, n, t.delegated)
    requires n < |plan| && m < |t.delegated| && t.delegated[m] == plan[n]
    ensures PlanGone(plan, n + 1, Shrunk(t, m).delegated)
  {
    var d, d' := t.delegated, Shrunk(t, m).delegated;
    EntriesAfterRemoval(t, m);
    forall j, i | 0 <= j < n + 1 && 0 <= i < |d'| ensures d'[i].call.id != plan[j].call.id {
      var o := if i < m then i else i + 1;
      assert d'[i].call == d[o].call;
      assert Calls(d)[o].id == d[o].call.id && Calls(d)[m].id == plan[n].call.id;
    }
  }

  lemma PlanRemove(t: Turn, resume: Resume, added: seq<ToolCall>, m: nat, k: nat)
    requires Exposure(t, k) && DistinctIDs(Calls(t.delegated)) && PlanOrderly(resume, t.delegated, added)
    requires Acknowledging(resume) && m < k && t.delegated[m] == Item(resume)
    requires resume.next + 1 < |resume.matched.plan|
    ensures PlanOrderly(resume.(next := resume.next + 1, written := false), Shrunk(t, m).delegated, added)
  {
    PlanStaysLive(t, resume, added, m, k);
    PlanStaysGone(t, resume.matched.plan, resume.next, m);
  }

  function Continued(resume: Resume): Resume
    requires Acknowledging(resume)
  {
    if resume.next + 1 < |resume.matched.plan| then resume.(next := resume.next + 1, written := false) else Idle
  }

  lemma AckPlan(t: Turn, resume: Resume, added: seq<ToolCall>, m: nat, k: nat)
    requires Exposure(t, k) && DistinctIDs(Calls(t.delegated)) && PlanOrderly(resume, t.delegated, added)
    requires Acknowledging(resume) && m < k && t.delegated[m] == Item(resume)
    ensures PlanOrderly(Continued(resume), Shrunk(t, m).delegated, added)
  {
    if resume.next + 1 < |resume.matched.plan| {
      PlanRemove(t, resume, added, m, k);
    }
  }

  lemma AckStepKeeps(s: Session)
    requires Inv(s)
    ensures Inv(AckStep(s))
  {
    if Acknowledging(s.resume) {
      var k: nat :| Conserved(s, k);
      AckKeeps(s, k);
    }
  }

  lemma AckKeeps(s: Session, k: nat)
    requires Conserved(s, k) && Acknowledging(s.resume)
    requires Progress(s.resume, s.answered) && PlanOrderly(s.resume, s.turn.delegated, s.added)
    requires RequestsConserved(s.requests, s.answered, Unanswered(s.turn.delegated, s.resume))
    ensures Inv(AckStep(s))
  {
    AckLeaves(s, k);
    AckFinishes(s, AckStep(s), k - 1);
  }

  /** What an acknowledgement leaves: one entry less, the rest of the plan, the same requests. */
  lemma AckLeaves(s: Session, k: nat)
    requires Conserved(s, k) && Acknowledging(s.resume) && PlanOrderly(s.resume, s.turn.delegated, s.added)
    ensures k > 0
    ensures var s' := AckStep(s);
            && Conserved(s', k - 1)
            && PlanOrderly(s'.resume, s'.turn.delegated, s'.added)
            && Requests(s'.turn.delegated) == Requests(Unanswered(s.turn.delegated, s.resume))
            && s'.resume == Continued(s.resume)
            && s'.added == s.added && s'.answered == s.answered && s'.requests == s.requests
  {
    var m := PlannedAt(s.turn, s.resume, s.added, k, s.resume.next);
    AckConserved(s, m, k);
    AckPlan(s.turn, s.resume, s.added, m, k);
    SameCallbacksRequests(Shrunk(s.turn, m).delegated, Rest(s.turn, m));
  }

  /** The bookkeeping of an acknowledgement once its effect on the turn is known. */
  lemma AckFinishes(s: Session, s': Session, k: nat)
    requires Acknowledging(s.resume) && Progress(s.resume, s.answered)
    requires RequestsConserved(s.requests, s.answered, Unanswered(s.turn.delegated, s.resume))
    requires Conserved(s', k) && PlanOrderly(s'.resume, s'.turn.delegated, s'.added)
    requires Requests(s'.turn.delegated) == Requests(Unanswered(s.turn.delegated, s.resume))
    requires s'.answered == s.answered && s'.requests == s.requests && s'.resume == Continued(s.resume)
    ensures Inv(s')
  {
    AckProgress(s.resume, s.answered);
    assert Unanswered(s'.turn.delegated, s'.resume) == s'.turn.delegated;
  }

  lemma AckProgress(resume: Resume, answered: seq<Answer>)
    requires Acknowledging(resume) && Progress(resume, answered)
    ensures Progress(Continued(resume), answered)
  {
  }

  lemma AckShape(s: Session, m: nat)
    requires Acknowledging(s.resume) && m < |s.turn.delegated| && s.turn.delegated[m] == Item(s.resume)
    requires Pends(s.turn.delegated, s.turn.delegated[m].call.id, s.turn.delegated[m].requestID)
    requires RemoveFirst(s.turn.delegated, s.turn.delegated[m].call.id, s.turn.delegated[m].requestID) ==
             Rest(s.turn, m)
    requires Acknowledge(s.turn, s.turn.delegated[m]) == Without(s.turn, m)
    ensures AckStep(s) == s.(turn := Without(s.turn, m), resume := Continued(s.resume))
    ensures Unanswered(s.turn.delegated, s.resume) == Rest(s.turn, m)
  {
  }

  lemma AckConserved(s: Session, m: nat, k: nat)
    requires Conserved(s, k) && Acknowledging(s.resume) && m < k && s.turn.delegated[m] == Item(s.resume)
    ensures var s' := AckStep(s);
            && Conserved(s', k - 1)
            && s'.turn.delegated == Shrunk(s.turn, m).delegated
            && Unanswered(s.turn.delegated, s.resume) == Rest(s.turn, m)
            && s'.resume == Continued(s.resume)
            && s'.added == s.added && s'.answered == s.answered && s'.requests == s.requests
  {
    AcknowledgeShape(s.turn, m, k);
    AckShape(s, m);
    RemoveKeeps(s, m, k);
  }

  lemma PlanBegin(t: Turn, added: seq<ToolCall>, delivered: seq<ToolCall>, k: nat)
    requires Exposure(t, k) && Ledger(added, delivered, Calls(t.delegated), k)
    ensures Delivered(t.delegated) == t.delegated[..k]
    ensures PlanLive(t.delegated[..k], 0, t.delegated) && PlanKnown(t.delegated[..k], added)
  {
    var d := t.delegated;
    SelectPrefix(d, k, (p: Pending) => p.delivered);
    assert Calls(d[..k]) == Calls(d)[..k];
    forall j | 0 <= j < k ensures d[..k][j].call in added {
      assert Calls(d)[j] in added;
    }
  }

  lemma BeginStepKeeps(s: Session, messages: seq<Message>)
    requires Inv(s)
    ensures Inv(BeginStep(s, messages))
  {
    var s' := BeginStep(s, messages);
    if s' != s {
      var k: nat :| Conserved(s, k);
      PlanBegin(s.turn, s.added, s.delivered, k);
      ResultsForAnswersEachEntry(s.turn.delegated[..k], messages);
      assert s.answered[|s.answered|..] == [];
      assert Conserved(s', k);
    }
  }

  /** Turns that agree on their callbacks. */
  predicate SameCallbackState(t: Turn, t': Turn) {
    && t'.delegated == t.delegated && t'.awaitingTools == t.awaitingTools
    && t'.parallelTools == t.parallelTools && t'.nextToolIndex == t.nextToolIndex
  }

  lemma SameExposure(t: Turn, t': Turn, k: nat)
    requires Exposure(t, k) && SameCallbackState(t, t')
    ensures Exposure(t', k) && Waiting(t', k) == Waiting(t, k)
  {
  }

  lemma SameTurnConserved(s: Session, turn: Turn, k: nat)
    requires Conserved(s, k) && SameCallbackState(s.turn, turn) && QueueAgrees(turn.queue, Calls(Waiting(s.turn, k)))
    ensures Conserved(s.(turn := turn), k)
  {
    SameExposure(s.turn, turn, k);
  }

  /** Steps that touch neither callbacks nor histories: text, the end of the turn, closing. */
  lemma QuietStepKeeps(s: Session, turn: Turn, k: nat)
    requires Conserved(s, k) && SameCallbackState(s.turn, turn) && QueueAgrees(turn.queue, Calls(Waiting(s.turn, k)))
    requires Progress(s.resume, s.answered) && PlanOrderly(s.resume, s.turn.delegated, s.added)
    requires RequestsConserved(s.requests, s.answered, Unanswered(s.turn.delegated, s.resume))
    ensures Inv(s.(turn := turn))
  {
    SameTurnConserved(s, turn, k);
  }

  lemma QueueWithText(queue: seq<Chunk>, waiting: seq<ToolCall>, chunk: Chunk)
    requires QueueAgrees(queue, waiting) && chunk.calls == []
    ensures QueueAgrees(queue + [chunk], waiting)
  {
    QueueAppend(queue, waiting, chunk);
    assert waiting + [] == waiting;
  }

  lemma ContentKeeps(s: Session, chunk: Chunk)
    requires Inv(s) && chunk.calls == []
    ensures Inv(s.(turn := Enqueue(s.turn, chunk)))
  {
    var k: nat :| Conserved(s, k);
    if Accepting(s.turn) {
      QueueWithText(s.turn.queue, Calls(Waiting(s.turn, k)), chunk);
    }
    QuietStepKeeps(s, Enqueue(s.turn, chunk), k);
  }

  lemma FinishedKeeps(s: Session, err: Option<string>)
    requires Inv(s)
    ensures Inv(Step(s, Finished(err)))
  {
    var k: nat :| Conserved(s, k);
    QuietStepKeeps(s, Finish(s.turn, err), k);
  }

  lemma ClosedKeeps(s: Session)
    requires Inv(s)
    ensures Inv(Step(s, Closed))
  {
    var k: nat :| Conserved(s, k);
    QuietStepKeeps(s, Close(s.turn), k);
  }

  lemma WriteFailKeeps(s: Session)
    requires Inv(s)
    ensures Inv(Step(s, WriteFail))
  {
    if Writing(s.resume) {
      var k: nat :| Conserved(s, k);
      assert Conserved(s.(resume := Idle), k);
    }
  }

  lemma StepKeeps(s: Session, e: Event)
    requires Inv(s) && Fresh(s, e)
    ensures Inv(Step(s, e))
  {
    match e
    case Add(call, requestID) => AddStepKeeps(s, call, requestID);
    case Recv => RecvStepKeeps(s);
    case WriteOk => WriteStepKeeps(s);
    case WriteFail => WriteFailKeeps(s);
    case Ack => AckStepKeeps(s);
    case BeginResume(messages) => BeginStepKeeps(s, messages);
    case Content(content, phase, finishReason) =>
      ContentKeeps(s, Chunk(s.turn.turnID, content, phase, [], finishReason));
    case Finished(err) => FinishedKeeps(s, err);
    case Closed => ClosedKeeps(s);
  }
}

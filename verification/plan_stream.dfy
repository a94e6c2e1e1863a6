/**
 Reading a ChatGPT plan response (providers/chatgpt/provider.go): the event stream
 that guards its terminal event, the collecting call over it, and the chat stream
 that hands text on as it arrives and finishes with the rest of the answer.
 */
module PlanStreams {
  import opened Wrappers
  import opened PlanOutput

  datatype Index = NoIndex | At(value: int) | BadIndex

  datatype ItemField = Missing | NullItem | Present(item: RawItem)

  /** What the decoders find in one event; `delta` is None when it is not text. */
  datatype Frame = Frame(kind: string, delta: Option<string>, index: Index, item: ItemField, response: Body,
      failure: string)

  /** `frame` is None when the data is not an object with well-typed error fields. */
  datatype Event = Event(name: string, frame: Option<Frame>)

  datatype Ending = Closed | Broken(message: string)

  datatype Received = Got(event: Event) | Eof | Failed(message: string)

  const COMPLETED := "response.completed"
  const ITEM_ADDED := "response.output_item.added"
  const ITEM_DONE := "response.output_item.done"
  const COMMENTARY := "commentary"
  const NO_TERMINAL := "chatgpt: stream ended without response.completed"
  const NOT_COMPLETED := "chatgpt: terminal response did not complete"
  const NO_ITEM := "chatgpt: completed output item is missing its index or value"
  const TEXT_DIFFERS := "chatgpt: terminal text differs from the streamed output"

  function Kind(e: Event): string
    requires e.frame.Some?
  {
    if e.frame.value.kind == "" then e.name else e.frame.value.kind
  }

  predicate IsFailure(kind: string) {
    kind == "response.failed" || kind == "response.incomplete" || kind == "error"
  }

  predicate IsText(kind: string) {
    kind == "response.output_text.delta" || kind == "response.refusal.delta"
  }

  // ------------------------------------------------------------ the event stream

  /** The events still to come, how the connection ends after them, and whether a terminal event was seen. */
  datatype Source = Source(pending: seq<Event>, ending: Ending, completed: bool)

  predicate Decodes(e: Event) {
    e.frame.Some? && !e.frame.value.response.NotAnObject?
  }

  predicate Ends(e: Event) {
    Decodes(e) && (Kind(e) == COMPLETED || IsFailure(Kind(e)))
  }

  predicate CompletedWell(e: Event) {
    Decodes(e) && Kind(e) == COMPLETED && e.frame.value.response.Document?
      && e.frame.value.response.status == "completed"
  }

  function Judge(e: Event): Received {
    if !Decodes(e) then Failed(UNREADABLE)
    else if Kind(e) == COMPLETED then if CompletedWell(e) then Got(e) else Failed(NOT_COMPLETED)
    else if IsFailure(Kind(e)) then Failed(e.frame.value.failure)
    else Got(e)
  }

  function Read(s: Source): (Received, Source) {
    if s.completed then (Eof, s)
    else if s.pending == [] then (Failed(if s.ending.Closed? then NO_TERMINAL else s.ending.message), s)
    else (Judge(s.pending[0]), s.(pending := s.pending[1..], completed := Ends(s.pending[0])))
  }

  class ResponseStream {
    var pending: seq<Event>
    const ending: Ending
    var completed: bool

    function View(): Source
      reads this
    {
      Source(pending, ending, completed)
    }

    constructor (events: seq<Event>, ending: Ending)
      ensures View() == Source(events, ending, false)
    {
      pending, this.ending, completed := events, ending, false;
    }

    method Recv() returns (r: Received)
      modifies this
      ensures (r, View()) == Read(old(View()))
    {
      if completed {
        return Eof;
      }
      if pending == [] {
        return Failed(match ending case Closed => NO_TERMINAL case Broken(message) => message);
      }
      var event := pending[0];
      pending := pending[1..];
      if event.frame.None? || event.frame.value.response.NotAnObject? {
        return Failed(UNREADABLE);
      }
      var kind := if event.frame.value.kind == "" then event.name else event.frame.value.kind;
      if kind == COMPLETED {
        completed := true;
        match event.frame.value.response {
          case Document(status, _, _, _) =>
            if status != "completed" {
              return Failed(NOT_COMPLETED);
            }
          case _ => return Failed(NOT_COMPLETED);
        }
      } else if kind == "response.failed" || kind == "response.incomplete" || kind == "error" {
        completed := true;
        return Failed(event.frame.value.failure);
      }
      return Got(event);
    }
  }

  // ---------------------------------------------------------- the collecting call

  predicate ItemGiven(f: Frame) {
    f.index.At? && f.index.value >= 0 && f.item.Present?
  }

  /** The terminal response after all events, with the items reported on the way. */
  ghost function Collected(s: Source, output: map<int, RawItem>): Result<Body>
    decreases |s.pending|
  {
    var (r, rest) := Read(s);
    match r
    case Failed(message) => Failure(message)
    case Eof => Failure("EOF")
    case Got(e) =>
      var f := e.frame.value;
      if f.index.BadIndex? then Failure(UNREADABLE)
      else if Kind(e) == ITEM_DONE then
        if ItemGiven(f) then Collected(rest, output[f.index.value := f.item.item]) else Failure(NO_ITEM)
      else if Kind(e) == COMPLETED then Collect(f.response, output)
      else Collected(rest, output)
  }

  method CreateResponse(events: seq<Event>, ending: Ending) returns (r: Result<Body>)
    ensures r == Collected(Source(events, ending, false), map[])
  {
    var stream := new ResponseStream(events, ending);
    var output := map[];
    while true
      invariant fresh(stream)
      invariant Collected(stream.View(), output) == Collected(Source(events, ending, false), map[])
      decreases |stream.pending|
    {
      var received := stream.Recv();
      match received {
        case Failed(message) => return Failure(message);
        case Eof => return Failure("EOF");
        case Got(event) =>
          var frame := event.frame.value;
          if frame.index.BadIndex? {
            return Failure(UNREADABLE);
          }
          if Kind(event) == ITEM_DONE {
            if !frame.index.At? || frame.index.value < 0 || !frame.item.Present? {
              return Failure(NO_ITEM);
            }
            output := output[frame.index.value := frame.item.item];
          }
          if Kind(event) == COMPLETED {
            r := CollectResponseOutput(frame.response, output);
            return;
          }
      }
    }
  }

  // ------------------------------------------------------------- the chat answer

  datatype ToolCall = ToolCall(index: nat, call: Call)

  datatype Reply = Reply(
    id: string, model: string, usage: int,
    content: string, calls: seq<ToolCall>, native: seq<RawItem>, finish: string)

  function PartText(part: Part): string {
    match part
    case OutputText(text) => text
    case Refusal(refusal) => refusal
    case OtherPart => ""
  }

  function PartsText(parts: seq<Part>): string {
    if parts == [] then "" else PartsText(parts[..|parts| - 1]) + PartText(parts[|parts| - 1])
  }

  function Speech(item: Option<ChatItem>): string {
    match item
    case Some(Message(phase, content)) => if phase == COMMENTARY then "" else PartsText(content)
    case _ => ""
  }

  /** The text of all messages that are not commentary. */
  function Content(items: seq<RawItem>): string {
    if items == [] then "" else Content(items[..|items| - 1]) + Speech(items[|items| - 1].chat)
  }

  function Calls(items: seq<RawItem>): seq<ToolCall> {
    if items == [] then []
    else
      var before := Calls(items[..|items| - 1]);
      match items[|items| - 1].chat
      case Some(FunctionCall(call)) => before + [ToolCall(|before|, call)]
      case _ => before
  }

  function ReplyOf(body: Body): Result<Reply> {
    match body
    case NotAnObject => Failure(UNREADABLE)
    case Null => Success(Reply("", "", 0, "", [], [], "stop"))
    case Document(_, output, meta, _) =>
      var items := Terminal(body);
      if meta.None? || output.NotAList? || exists i :: 0 <= i < |items| && items[i].chat.None? then Failure(UNREADABLE)
      else
        Success(Reply(meta.value.id, meta.value.model, meta.value.usage, Content(items), Calls(items), items,
                      if Calls(items) == [] then "stop" else "tool_calls"))
  }

  method ResponseChat(body: Body) returns (r: Result<Reply>)
    ensures r == ReplyOf(body)
  {
    if body.Null? {
      return Success(Reply("", "", 0, "", [], [], "stop"));
    }
    if body.NotAnObject? || body.output.NotAList? || body.meta.None? {
      return Failure(UNREADABLE);
    }
    var items := Terminal(body);
    var ok, content, calls := ReadItems(items);
    if !ok {
      return Failure(UNREADABLE);
    }
    var finish := if |calls| > 0 then "tool_calls" else "stop";
    r := Success(Reply(body.meta.value.id, body.meta.value.model, body.meta.value.usage, content, calls, items,
      finish));
  }

  method ReadItems(items: seq<RawItem>) returns (ok: bool, content: string, calls: seq<ToolCall>)
    ensures ok <==> forall i :: 0 <= i < |items| ==> items[i].chat.Some?
    ensures ok ==> content == Content(items) && calls == Calls(items)
  {
    content, calls := "", [];
    var n := 0;
    while n < |items|
      invariant 0 <= n <= |items|
      invariant forall i :: 0 <= i < n ==> items[i].chat.Some?
      invariant content == Content(items[..n]) && calls == Calls(items[..n])
    {
      if items[n].chat.None? {
        return false, "", [];
      }
      assert items[..n + 1][..n] == items[..n];
      match items[n].chat.value {
        case FunctionCall(call) => calls := calls + [ToolCall(|calls|, call)];
        case Message(phase, parts) =>
          if phase != COMMENTARY {
            var text := AllPartsText(parts);
            content := content + text;
          }
        case OtherItem =>
      }
      n := n + 1;
    }
    assert items[..n] == items;
    ok := true;
  }

  method AllPartsText(parts: seq<Part>) returns (text: string)
    ensures text == PartsText(parts)
  {
    text := "";
    var n := 0;
    while n < |parts|
      invariant 0 <= n <= |parts| && text == PartsText(parts[..n])
    {
      assert parts[..n + 1][..n] == parts[..n];
      text := text + PartText(parts[n]);
      n := n + 1;
    }
    assert parts[..n] == parts;
  }

  /** The answer of the non-streaming call. */
  ghost function Answer(s: Source, output: map<int, RawItem>): Result<Reply> {
    match Collected(s, output)
    case Failure(error) => Failure(error)
    case Success(body) => ReplyOf(body)
  }

  method Chat(events: seq<Event>, ending: Ending) returns (r: Result<Reply>)
    ensures r == Answer(Source(events, ending, false), map[])
  {
    var body := CreateResponse(events, ending);
    match body {
      case Failure(error) => r := Failure(error);
      case Success(document) => r := ResponseChat(document);
    }
  }

  // -------------------------------------------------------------- the chat stream

  /** A piece of text with its phase, or the end of the answer with what had not been streamed. */
  datatype Chunk = Text(phase: string, text: string) | Last(reply: Reply)

  datatype Outcome = Sent(chunk: Chunk) | Done | Error(message: string)

  datatype ChatState = ChatState(source: Source, text: string, phases: map<int, string>, output: map<int, RawItem>,
      completed: bool)

  function IndexOf(f: Frame): int {
    if f.index.At? then f.index.value else 0
  }

  function PhaseAt(phases: map<int, string>, index: int): string {
    if index in phases then phases[index] else ""
  }

  predicate PhaseGiven(item: ItemField) {
    item.NullItem? || (item.Present? && item.item.phase.Some?)
  }

  function PhaseOf(item: ItemField): string
    requires PhaseGiven(item)
  {
    if item.NullItem? then "" else item.item.phase.value
  }

  ghost function Finish(s: ChatState, response: Body): (Outcome, ChatState) {
    match Collect(response, s.output)
    case Failure(error) => (Error(error), s)
    case Success(body) =>
      match ReplyOf(body)
      case Failure(error) => (Error(error), s)
      case Success(reply) =>
        if s.text <= reply.content then
          (Sent(Last(reply.(content := reply.content[|s.text|..]))), s.(completed := true))
        else (Error(TEXT_DIFFERS), s)
  }

  /** What one received event does: an outcome, or nothing to hand on yet. */
  ghost function Handle(s: ChatState, e: Event): (Option<Outcome>, ChatState)
    requires e.frame.Some?
  {
    var f := e.frame.value;
    if f.delta.None? || f.index.BadIndex? then (Some(Error(UNREADABLE)), s)
    else if Kind(e) == ITEM_ADDED then
      if PhaseGiven(f.item) then (None, s.(phases := s.phases[IndexOf(f) := PhaseOf(f.item)]))
      else (Some(Error(UNREADABLE)), s)
    else if IsText(Kind(e)) then
      var phase := PhaseAt(s.phases, IndexOf(f));
      (Some(Sent(Text(phase, f.delta.value))), if phase == COMMENTARY then s else s.(text := s.text + f.delta.value))
    else if Kind(e) == ITEM_DONE then
      if ItemGiven(f) then (None, s.(output := s.output[f.index.value := f.item.item])) else (Some(Error(NO_ITEM)), s)
    else if Kind(e) == COMPLETED then
      var (outcome, after) := Finish(s, f.response);
      (Some(outcome), after)
    else (None, s)
  }

  /** Read one event and handle it. */
  ghost function Step(s: ChatState): (Option<Outcome>, ChatState) {
    var (r, rest) := Read(s.source);
    var s' := s.(source := rest);
    match r
    case Failed(message) => (Some(Error(message)), s')
    case Eof => (Some(Done), s')
    case Got(e) => Handle(s', e)
  }

  lemma StepConsumes(s: ChatState)
    ensures var (o, s') := Step(s);
            && |s'.source.pending| <= |s.source.pending|
            && (o.None? || o.value.Sent? ==> |s'.source.pending| < |s.source.pending|)
  {
  }

  ghost function RecvChat(s: ChatState): (r: (Outcome, ChatState))
    ensures |r.1.source.pending| <= |s.source.pending|
    ensures r.0.Sent? ==> |r.1.source.pending| < |s.source.pending|
    decreases |s.source.pending|
  {
    if s.completed then (Done, s)
    else
      StepConsumes(s);
      var (o, s') := Step(s);
      if o.Some? then (o.value, s') else RecvChat(s')
  }

  class ChatStream {
    const inner: ResponseStream
    var text: string
    var phases: map<int, string>
    var output: map<int, RawItem>
    var completed: bool

    function View(): ChatState
      reads this, inner
    {
      ChatState(inner.View(), text, phases, output, completed)
    }

    constructor (inner: ResponseStream)
      ensures this.inner == inner && View() == ChatState(inner.View(), "", map[], map[], false)
    {
      this.inner := inner;
      text, phases, output, completed := "", map[], map[], false;
    }

    method Recv() returns (r: Outcome)
      modifies this, inner
      ensures (r, View()) == RecvChat(old(View()))
    {
      if completed {
        return Done;
      }
      while true
        invariant !completed
        invariant RecvChat(View()) == RecvChat(old(View()))
        decreases |inner.pending|
      {
        var received := inner.Recv();
        match received {
          case Failed(message) => return Error(message);
          case Eof => return Done;
          case Got(event) =>
            var outcome := HandleEvent(event);
            if outcome.Some? {
              return outcome.value;
            }
        }
      }
    }

    method HandleEvent(event: Event) returns (outcome: Option<Outcome>)
      requires event.frame.Some? && !completed
      modifies this
      ensures (outcome, View()) == Handle(old(View()), event)
    {
      outcome := None;
      var frame := event.frame.value;
      if frame.delta.None? || frame.index.BadIndex? {
        return Some(Error(UNREADABLE));
      }
      var index := if frame.index.At? then frame.index.value else 0;
      var kind := Kind(event);
      if kind == ITEM_ADDED {
        if !PhaseGiven(frame.item) {
          return Some(Error(UNREADABLE));
        }
        phases := phases[index := PhaseOf(frame.item)];
      } else if IsText(kind) {
        var phase := PhaseAt(phases, index);
        if phase != COMMENTARY {
          text := text + frame.delta.value;
        }
        return Some(Sent(Text(phase, frame.delta.value)));
      } else if kind == ITEM_DONE {
        if !frame.index.At? || index < 0 || !frame.item.Present? {
          return Some(Error(NO_ITEM));
        }
        output := output[index := frame.item.item];
      } else if kind == COMPLETED {
        var last := FinishStream(frame.response);
        return Some(last);
      }
    }

    method FinishStream(response: Body) returns (outcome: Outcome)
      requires !completed
      modifies this`completed
      ensures (outcome, View()) == Finish(old(View()), response)
    {
      var body := CollectResponseOutput(response, output);
      if body.Failure? {
        return Error(body.error);
      }
      var reply := ResponseChat(body.value);
      if reply.Failure? {
        return Error(reply.error);
      }
      if !(text <= reply.value.content) {
        return Error(TEXT_DIFFERS);
      }
      completed := true;
      outcome := Sent(Last(reply.value.(content := reply.value.content[|text|..])));
    }
  }
}

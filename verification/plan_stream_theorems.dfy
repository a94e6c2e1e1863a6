/** Streaming a ChatGPT answer and asking for it whole agree, and the stream never just stops. */
module PlanStreamTheorems {
  import opened Wrappers
  import opened PlanOutput
  import opened PlanStreams

  /** A caller's view of a chat stream: the chunks received, and how receiving ended. */
  datatype Heard = Heard(chunks: seq<Chunk>, end: Outcome)

  ghost function Drained(s: ChatState): Heard
    decreases |s.source.pending|
  {
    var (o, s') := RecvChat(s);
    match o
    case Sent(chunk) =>
      var rest := Drained(s');
      rest.(chunks := [chunk] + rest.chunks)
    case _ => Heard([], o)
  }

  /** The non-commentary text among received chunks. */
  function Said(chunks: seq<Chunk>): string {
    if chunks == [] then ""
    else (if chunks[0].Text? && chunks[0].phase != COMMENTARY then chunks[0].text else "") + Said(chunks[1..])
  }

  // ------------------------------- what the events say, told without the stream object

  /** The deltas up to the terminal event that are not of a commentary item. */
  ghost function Spoken(s: Source, phases: map<int, string>): string
    decreases |s.pending|
  {
    var (r, rest) := Read(s);
    match r
    case Got(e) =>
      var f := e.frame.value;
      if Kind(e) == COMPLETED then ""
      else if Kind(e) == ITEM_ADDED && PhaseGiven(f.item) then Spoken(rest, phases[IndexOf(f) := PhaseOf(f.item)])
      else if IsText(Kind(e)) && f.delta.Some? && PhaseAt(phases, IndexOf(f)) != COMMENTARY then
        f.delta.value + Spoken(rest, phases)
      else Spoken(rest, phases)
    case _ => ""
  }

  /** Up to the terminal event every delta is text and every announced item has a readable phase. */
  ghost predicate Legible(s: Source)
    decreases |s.pending|
  {
    var (r, rest) := Read(s);
    match r
    case Got(e) =>
      && e.frame.value.delta.Some?
      && (Kind(e) == ITEM_ADDED ==> PhaseGiven(e.frame.value.item))
      && (Kind(e) != COMPLETED ==> Legible(rest))
    case _ => true
  }

  /** The streamed answer is the collected one, its content cut after what was said before. */
  ghost predicate Agrees(h: Heard, text: string, answer: Result<Reply>) {
    && answer.Success? && h.chunks != []
    && (forall i :: 0 <= i < |h.chunks| - 1 ==> h.chunks[i].Text?)
    && var last := h.chunks[|h.chunks| - 1];
    && last.Last?
    && answer.value.content == text + Said(h.chunks) + last.reply.content
    && answer.value == last.reply.(content := answer.value.content)
  }

  predicate Begins(text: string, answer: Result<Reply>) {
    answer.Success? && text <= answer.value.content
  }

  ghost predicate Deliverable(s: ChatState) {
    Legible(s.source) && Begins(s.text + Spoken(s.source, s.phases), Answer(s.source, s.output))
  }

  ghost predicate AgreesFrom(s: ChatState) {
    var h := Drained(s);
    && (h.end.Done? <==> Deliverable(s))
    && (h.end.Done? ==> Agrees(h, s.text, Answer(s.source, s.output)))
  }

  lemma SilentStep(s: ChatState)
    requires !s.completed && Step(s).0.None?
    ensures Drained(s) == Drained(Step(s).1)
  {
    StepConsumes(s);
    var s' := Step(s).1;
    assert RecvChat(s) == RecvChat(s');
  }

  lemma TextHeard(h: Heard, rest: Heard, chunk: Chunk, text: string, answer: Result<Reply>)
    requires chunk.Text? && h.chunks == [chunk] + rest.chunks
    requires Agrees(rest, if chunk.phase == COMMENTARY then text else text + chunk.text, answer)
    ensures Agrees(h, text, answer)
  {
    var last := rest.chunks[|rest.chunks| - 1];
    assert h.chunks[1..] == rest.chunks && h.chunks[|h.chunks| - 1] == last;
    if chunk.phase == COMMENTARY {
      assert Said(h.chunks) == Said(rest.chunks);
    } else {
      assert Said(h.chunks) == chunk.text + Said(rest.chunks);
      assert text + chunk.text + Said(rest.chunks) + last.reply.content == text + (chunk.text + Said(rest.chunks))
        + last.reply.content;
    }
  }

  predicate IsLegibleText(e: Event) {
    Decodes(e) && e.frame.value.delta.Some? && !e.frame.value.index.BadIndex? && IsText(Kind(e))
  }

  lemma TextAnswer(s: Source, rest: Source, output: map<int, RawItem>, e: Event)
    requires Read(s) == (Got(e), rest) && IsLegibleText(e)
    ensures Answer(s, output) == Answer(rest, output) && Legible(s) == Legible(rest)
  {
  }

  lemma TextSpoken(s: Source, rest: Source, phases: map<int, string>, e: Event)
    requires Read(s) == (Got(e), rest) && IsLegibleText(e)
    ensures Spoken(s, phases)
         == (if PhaseAt(phases, IndexOf(e.frame.value)) == COMMENTARY then "" else e.frame.value.delta.value)
           + Spoken(rest, phases)
  {
    assert "" + Spoken(rest, phases) == Spoken(rest, phases);
  }

  lemma Joined(a: string, b: string, c: string)
    ensures a + (b + c) == a + b + c
  {
  }

  lemma TextDeliverable(s: ChatState, s': ChatState, e: Event)
    requires Read(s.source) == (Got(e), s'.source) && s'.output == s.output && s'.phases == s.phases && IsLegibleText(e)
    requires s'.text == s.text + if PhaseAt(s.phases, IndexOf(e.frame.value)) == COMMENTARY then ""
             else e.frame.value.delta.value
    ensures Deliverable(s) <==> Deliverable(s')
  {
    TextAnswer(s.source, s'.source, s.output, e);
    TextSpoken(s.source, s'.source, s.phases, e);
    var said := if PhaseAt(s.phases, IndexOf(e.frame.value)) == COMMENTARY then "" else e.frame.value.delta.value;
    Joined(s.text, said, Spoken(s'.source, s.phases));
  }

  lemma TextStep(s: ChatState, s': ChatState, e: Event)
    requires !s.completed && Read(s.source) == (Got(e), s'.source) && IsLegibleText(e)
    requires s' == Handle(s.(source := s'.source), e).1
    requires AgreesFrom(s')
    ensures AgreesFrom(s)
  {
    var chunk := Text(PhaseAt(s.phases, IndexOf(e.frame.value)), e.frame.value.delta.value);
    StepConsumes(s);
    assert Step(s) == (Some(Sent(chunk)), s');
    assert s.text + "" == s.text;
    TextDeliverable(s, s', e);
    TextAnswer(s.source, s'.source, s.output, e);
    TextReceived(s, s', chunk);
    if Drained(s').end.Done? {
      TextHeard(Drained(s), Drained(s'), chunk, s.text, Answer(s.source, s.output));
    }
  }

  lemma TextReceived(s: ChatState, s': ChatState, chunk: Chunk)
    requires !s.completed && Step(s) == (Some(Sent(chunk)), s')
    ensures Drained(s) == Heard([chunk] + Drained(s').chunks, Drained(s').end)
  {
    assert RecvChat(s) == (Sent(chunk), s');
  }

  lemma LastStep(s: ChatState, e: Event, rest: Source)
    requires !s.completed && !s.source.completed && Read(s.source) == (Got(e), rest)
    requires e.frame.value.delta.Some? && !e.frame.value.index.BadIndex? && Kind(e) == COMPLETED
    ensures AgreesFrom(s)
  {
    StepConsumes(s);
    var answer := Answer(s.source, s.output);
    assert Collected(s.source, s.output) == Collect(e.frame.value.response, s.output);
    assert s.text + "" == s.text;
    var (o, s') := RecvChat(s);
    if o.Sent? {
      assert Drained(s') == Heard([], Done);
      assert Drained(s) == Heard([o.chunk] + [], Done);
      assert Said([o.chunk]) == "";
      assert s.text + o.chunk.reply.content == answer.value.content;
    }
  }

  lemma SilentAgrees(s: ChatState, e: Event, rest: Source)
    requires !s.completed && !s.source.completed && Read(s.source) == (Got(e), rest)
    requires Step(s).0.None? && AgreesFrom(Step(s).1)
    ensures AgreesFrom(s)
  {
    SilentStep(s);
    var s' := Step(s).1;
    assert Answer(s.source, s.output) == Answer(s'.source, s'.output);
    assert Spoken(s.source, s.phases) == Spoken(s'.source, s'.phases);
    assert Legible(s.source) == Legible(s'.source);
  }

  lemma {:induction false} StreamAgreesFrom(s: ChatState)
    requires !s.completed && !s.source.completed
    ensures AgreesFrom(s)
    decreases |s.source.pending|
  {
    StepConsumes(s);
    var (r, rest) := Read(s.source);
    match r
    case Failed(_) =>
    case Eof =>
    case Got(e) =>
      var f := e.frame.value;
      if f.delta.None? || f.index.BadIndex? {
      } else if Kind(e) == COMPLETED {
        LastStep(s, e, rest);
      } else if IsText(Kind(e)) {
        var s' := Handle(s.(source := rest), e).1;
        StreamAgreesFrom(s');
        TextStep(s, s', e);
      } else if Step(s).0.None? {
        StreamAgreesFrom(Step(s).1);
        SilentAgrees(s, e, rest);
      }
  }

  ghost function Begun(events: seq<Event>, ending: Ending): ChatState {
    ChatState(Source(events, ending, false), "", map[], map[], false)
  }

  /**
   For every event list: the stream reaches its end without an error exactly when
   the whole answer can be had, the deltas and announced items are legible, and
   what was streamed is a beginning of the answer; and then the text said, the rest
   in the last chunk, the calls, the native output and the finish reason are those
   of the whole answer.
   */
  lemma StreamingEqualsNonStreaming(events: seq<Event>, ending: Ending)
    ensures Drained(Begun(events, ending)).end.Done? <==> Deliverable(Begun(events, ending))
    ensures Drained(Begun(events, ending)).end.Done? ==>
              Agrees(Drained(Begun(events, ending)), "", Answer(Source(events, ending, false), map[]))
  {
    StreamAgreesFrom(Begun(events, ending));
  }

  // ------------------------------------------------- the end comes after a terminal event

  /** The state before the n-th receive; receiving may go on after an error. */
  ghost function After(s: ChatState, n: nat): ChatState {
    if n == 0 then s else RecvChat(After(s, n - 1)).1
  }

  /** How many events were read before the n-th receive. */
  ghost function ReadBefore(events: seq<Event>, ending: Ending, n: nat): int {
    |events| - |After(Begun(events, ending), n).source.pending|
  }

  ghost predicate Suffix(pending: seq<Event>, events: seq<Event>) {
    |pending| <= |events| && pending == events[|events| - |pending|..]
  }

  ghost predicate Open(s: ChatState) {
    !s.completed && !s.source.completed
  }

  ghost predicate HandsOnOrRaises(o: Outcome) {
    o.Error? || (o.Sent? && o.chunk.Last?)
  }

  lemma StepFromOpen(s: ChatState)
    requires Open(s)
    ensures var (o, s') := Step(s);
            && (o.Some? ==> !o.value.Done?)
            && (if s.source.pending == [] then s' == s && o.Some? else s'.source.pending == s.source.pending[1..])
            && (!Open(s') ==>
                  s.source.pending != [] && Ends(s.source.pending[0]) && o.Some? && HandsOnOrRaises(o.value))
  {
  }

  ghost predicate ClosesAt(o: Outcome, events: seq<Event>, left: nat) {
    0 < |events| - left <= |events| && Ends(events[|events| - left - 1]) && HandsOnOrRaises(o)
  }

  /**
   Receiving from an open stream never answers "end"; if it closes the stream, a
   terminal event was read last and was handed on or raised.
   */
  lemma {:induction false} ReceiveFromOpen(s: ChatState, events: seq<Event>)
    requires Open(s) && Suffix(s.source.pending, events)
    ensures !RecvChat(s).0.Done? && Suffix(RecvChat(s).1.source.pending, events)
    ensures !Open(RecvChat(s).1) ==>
              |RecvChat(s).1.source.pending| < |s.source.pending|
                && ClosesAt(RecvChat(s).0, events, |RecvChat(s).1.source.pending|)
    decreases |s.source.pending|
  {
    StepConsumes(s);
    StepFromOpen(s);
    var (o, s') := Step(s);
    if s.source.pending != [] {
      assert s.source.pending[1..] == events[|events| - |s.source.pending| + 1..];
      assert s.source.pending[0] == events[|events| - |s.source.pending|];
    }
    if o.None? {
      ReceiveFromOpen(s', events);
    }
  }

  ghost predicate ClosedBy(events: seq<Event>, ending: Ending, i: nat) {
    var (o, s') := RecvChat(After(Begun(events, ending), i));
    && ReadBefore(events, ending, i) < ReadBefore(events, ending, i + 1)
    && ClosesAt(o, events, |s'.source.pending|)
  }

  ghost predicate OpenAt(events: seq<Event>, ending: Ending, n: nat) {
    Open(After(Begun(events, ending), n)) && Suffix(After(Begun(events, ending), n).source.pending, events)
  }

  lemma OpenOrClosed(events: seq<Event>, ending: Ending, i: nat)
    requires OpenAt(events, ending, i)
    ensures OpenAt(events, ending, i + 1) || ClosedBy(events, ending, i)
  {
    ReceiveFromOpen(After(Begun(events, ending), i), events);
  }

  lemma {:induction false} FirstClosing(open: nat -> bool, closing: nat -> bool, n: nat)
    requires open(0) && forall i: nat :: open(i) ==> open(i + 1) || closing(i)
    ensures open(n) || exists i: nat :: i < n && closing(i)
  {
    if n > 0 {
      FirstClosing(open, closing, n - 1);
      assert open(n - 1) ==> open(n - 1 + 1) || closing(n - 1);
    }
  }

  /**
   However often a caller receives, also after errors: an end is never reported
   before an earlier receive has read a terminal event and handed on the last chunk or an error.
   */
  lemma EndOnlyAfterTerminal(events: seq<Event>, ending: Ending, n: nat)
    requires RecvChat(After(Begun(events, ending), n)).0.Done?
    ensures exists i: nat :: i < n && ClosedBy(events, ending, i)
  {
    var open: nat -> bool := (i: nat) => OpenAt(events, ending, i);
    var closing: nat -> bool := (i: nat) => ClosedBy(events, ending, i);
    forall i: nat | open(i) ensures open(i + 1) || closing(i) {
      OpenOrClosed(events, ending, i);
    }
    FirstClosing(open, closing, n);
    if open(n) {
      ReceiveFromOpen(After(Begun(events, ending), n), events);
    }
    assert exists i: nat :: i < n && closing(i);
  }
}

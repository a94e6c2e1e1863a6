/** What a client of the adapted event stream can rely on. */
module ResponseTheorems {
  import opened Wrappers
  import opened AscendingInts
  import opened ResponseStreams

  // ---------------------------------------------------------- the event grammar

  /** The life of one output index: added once, extended, done once with exactly what was sent. */
  datatype Life = Unborn | Open(sofar: string) | Finished(total: string) | Broken

  function Content(item: Item): string {
    match item
    case MessageItem(_, _, content) => if |content| == 1 then content[0] else ""
    case CallItem(_, _, _, _, arguments) => arguments
  }

  function LifeStep(l: Life, e: Event, i: nat): Life {
    match e
    case ItemAdded(index, item) =>
      if index != i then l else if l.Unborn? && Content(item) == "" then Open("") else Broken
    case TextDelta(_, index, delta) =>
      if index != i then l else if l.Open? && delta != "" then Open(l.sofar + delta) else Broken
    case ArgumentsDelta(_, index, delta) =>
      if index != i then l else if l.Open? && delta != "" then Open(l.sofar + delta) else Broken
    case TextDone(_, index, text) => if index != i then l else if l == Open(text) then l else Broken
    case PartDone(_, index, text) => if index != i then l else if l == Open(text) then l else Broken
    case ArgumentsDone(_, index, arguments) => if index != i then l else if l == Open(arguments) then l else Broken
    case PartAdded(_, index) => if index != i then l else if l == Open("") then l else Broken
    case ItemDone(index, item) =>
      if index != i then l else if l == Open(Content(item)) then Finished(Content(item)) else Broken
    case _ => l
  }

  function LifeOf(events: seq<Event>, i: nat): Life {
    if events == [] then Unborn else LifeStep(LifeOf(events[..|events| - 1], i), events[|events| - 1], i)
  }

  lemma LifeSnoc(events: seq<Event>, e: Event, i: nat)
    ensures LifeOf(events + [e], i) == LifeStep(LifeOf(events, i), e, i)
  {
    assert (events + [e])[..|events|] == events;
  }

  // ----------------------------------------------------------- the client's fold

  /** A client's picture of the output, kept per output index. */
  function Apply(view: map<nat, Item>, e: Event): map<nat, Item> {
    match e
    case ItemAdded(index, item) => view[index := item]
    case PartAdded(_, index) =>
      if index in view && view[index].MessageItem? then
        view[index := view[index].(content := view[index].content + [""])]
      else view
    case TextDelta(_, index, delta) =>
      if index in view && view[index].MessageItem? && |view[index].content| == 1 then
        view[index := view[index].(content := [view[index].content[0] + delta])]
      else view
    case ArgumentsDelta(_, index, delta) =>
      if index in view && view[index].CallItem? then
        view[index := view[index].(arguments := view[index].arguments + delta)]
      else view
    case ItemDone(index, item) => view[index := item]
    case _ => view
  }

  function Client(events: seq<Event>): map<nat, Item> {
    if events == [] then map[] else Apply(Client(events[..|events| - 1]), events[|events| - 1])
  }

  lemma ClientSnoc(events: seq<Event>, e: Event)
    ensures Client(events + [e]) == Apply(Client(events), e)
  {
    assert (events + [e])[..|events|] == events;
  }

  /** What the added and delta events alone tell about a slot. */
  function Announced(slot: Slot): Item {
    match slot
    case TextSlot(text) => MessageItem(TEXT_ITEM, IN_PROGRESS, [text])
    case CallSlot(_, itemID, announcedID, announcedName, _, _, arguments) =>
      CallItem(itemID, IN_PROGRESS, announcedID, announcedName, arguments)
  }

  ghost predicate Shows(view: map<nat, Item>, slots: seq<Slot>) {
    && (forall i :: i in view <==> 0 <= i < |slots|)
    && (forall i :: 0 <= i < |slots| ==> view[i] == Announced(slots[i]))
  }

  /** One text slot at most, and one slot for each tool index. */
  ghost predicate OneSlotEach(slots: seq<Slot>) {
    && (forall i, j :: 0 <= i < j < |slots| && slots[i].TextSlot? ==> slots[j].CallSlot?)
    && (forall i, j :: 0 <= i < j < |slots| && slots[i].CallSlot? && slots[j].CallSlot? ==>
       slots[i].index != slots[j].index)
  }

  ghost predicate LivesOpen(events: seq<Event>, slots: seq<Slot>) {
    forall i: nat :: LifeOf(events, i) == if i < |slots| then Open(Content(Announced(slots[i]))) else Unborn
  }

  ghost predicate Inv(s: Stream) {
    && OneSlotEach(s.slots)
    && LivesOpen(s.events, s.slots)
    && Shows(Client(s.events), s.slots)
    && NoTerminal(s.events)
    && (forall i :: 0 <= i < |s.slots| && s.slots[i].CallSlot? ==> s.slots[i].announcedName <= s.slots[i].name)
  }

  predicate Terminal(e: Event) {
    e.Failed? || e.Completed? || e.ItemDone? || e.TextDone? || e.PartDone? || e.ArgumentsDone?
  }

  ghost predicate NoTerminal(events: seq<Event>) {
    forall i :: 0 <= i < |events| ==> !Terminal(events[i])
  }

  lemma StartTextLives(events: seq<Event>, slots: seq<Slot>)
    requires LivesOpen(events, slots)
    ensures LivesOpen(events + [ItemAdded(|slots|, MessageItem(TEXT_ITEM, IN_PROGRESS, [])),
            PartAdded(TEXT_ITEM, |slots|)], slots + [TextSlot("")])
  {
    var added, part := ItemAdded(|slots|, MessageItem(TEXT_ITEM, IN_PROGRESS, [])), PartAdded(TEXT_ITEM, |slots|);
    assert events + [added] + [part] == events + [added, part];
    forall i: nat
      ensures LifeOf(events + [added, part], i) ==
              if i < |slots| + 1 then Open(Content(Announced((slots + [TextSlot("")])[i]))) else Unborn
    {
      LifeSnoc(events, added, i);
      LifeSnoc(events + [added], part, i);
    }
  }

  lemma StartTextShows(events: seq<Event>, slots: seq<Slot>)
    requires Shows(Client(events), slots)
    ensures Shows(Client(events + [ItemAdded(|slots|, MessageItem(TEXT_ITEM, IN_PROGRESS, [])),
            PartAdded(TEXT_ITEM, |slots|)]), slots + [TextSlot("")])
  {
    var added, part := ItemAdded(|slots|, MessageItem(TEXT_ITEM, IN_PROGRESS, [])), PartAdded(TEXT_ITEM, |slots|);
    assert events + [added] + [part] == events + [added, part];
    ClientSnoc(events, added);
    ClientSnoc(events + [added], part);
  }

  lemma StartTextKeeps(s: Stream)
    requires Inv(s)
    ensures Inv(StartText(s))
  {
    FindTextFinds(s.slots);
    if FindText(s.slots).None? {
      StartTextLives(s.events, s.slots);
      StartTextShows(s.events, s.slots);
    }
  }

  /** One delta event extends one slot. */
  lemma DeltaLives(events: seq<Event>, slots: seq<Slot>, k: nat, e: Event, delta: string, slot: Slot)
    requires LivesOpen(events, slots) && k < |slots| && delta != ""
    requires (e.TextDelta? || e.ArgumentsDelta?) && e.index == k && e.delta == delta
    requires Content(Announced(slot)) == Content(Announced(slots[k])) + delta
    ensures LivesOpen(events + [e], slots[k := slot])
  {
    forall i: nat
      ensures LifeOf(events + [e], i) == if i < |slots| then Open(Content(Announced(slots[k := slot][i]))) else Unborn
    {
      LifeSnoc(events, e, i);
    }
  }

  lemma DeltaShows(events: seq<Event>, slots: seq<Slot>, k: nat, e: Event, delta: string, slot: Slot)
    requires Shows(Client(events), slots) && k < |slots|
    requires if slots[k].TextSlot? then e == TextDelta(TEXT_ITEM, k, delta) && slot == TextSlot(slots[k].text + delta)
             else
               && e == ArgumentsDelta(slots[k].itemID, k, delta)
               && slot == slots[k].(arguments := slots[k].arguments + delta)
    ensures Shows(Client(events + [e]), slots[k := slot])
  {
    ClientSnoc(events, e);
    assert Client(events)[k] == Announced(slots[k]);
  }

  lemma ExtendTextKeeps(s: Stream, delta: string)
    requires Inv(s) && delta != ""
    ensures Inv(ExtendText(s, delta))
  {
    FindTextFinds(s.slots);
    if FindText(s.slots).Some? {
      var i := FindText(s.slots).value;
      var slot := TextSlot(s.slots[i].text + delta);
      DeltaLives(s.events, s.slots, i, TextDelta(TEXT_ITEM, i, delta), delta, slot);
      DeltaShows(s.events, s.slots, i, TextDelta(TEXT_ITEM, i, delta), delta, slot);
    }
  }

  lemma StartCallLives(events: seq<Event>, slots: seq<Slot>, slot: Slot, item: Item)
    requires LivesOpen(events, slots) && Content(item) == "" && Content(Announced(slot)) == ""
    ensures LivesOpen(events + [ItemAdded(|slots|, item)], slots + [slot])
  {
    var added := ItemAdded(|slots|, item);
    forall i: nat
      ensures LifeOf(events + [added], i) ==
                if i < |slots| + 1 then Open(Content(Announced((slots + [slot])[i]))) else Unborn
    {
      LifeSnoc(events, added, i);
    }
  }

  lemma StartCallShows(events: seq<Event>, slots: seq<Slot>, slot: Slot)
    requires Shows(Client(events), slots)
    ensures Shows(Client(events + [ItemAdded(|slots|, Announced(slot))]), slots + [slot])
  {
    ClientSnoc(events, ItemAdded(|slots|, Announced(slot)));
  }

  lemma StartCallKeeps(s: Stream, f: Fragment)
    requires Inv(s) && FindCall(s.slots, f.index).None?
    ensures Inv(StartCall(s, f))
  {
    var s' := StartCall(s, f);
    var slot := s'.slots[|s.slots|];
    NewCallSlot(s.slots, slot, f.index);
    StartCallLives(s.events, s.slots, slot, Announced(slot));
    StartCallShows(s.events, s.slots, slot);
  }

  lemma NewCallSlot(slots: seq<Slot>, slot: Slot, index: int)
    requires OneSlotEach(slots) && FindCall(slots, index).None? && slot.CallSlot? && slot.index == index
    ensures OneSlotEach(slots + [slot])
  {
    FindCallFinds(slots, index);
  }

  lemma ContinueCallKeeps(s: Stream, i: nat, f: Fragment)
    requires Inv(s) && i < |s.slots| && s.slots[i].CallSlot?
    ensures Inv(ContinueCall(s, i, f))
  {
    var s' := ContinueCall(s, i, f);
    assert forall j :: 0 <= j < |s.slots| ==> Announced(s'.slots[j]) == Announced(s.slots[j]);
  }

  lemma ExtendArgumentsKeeps(s: Stream, i: nat, delta: string)
    requires Inv(s) && i < |s.slots| && s.slots[i].CallSlot?
    ensures Inv(ExtendArguments(s, i, delta))
  {
    if delta != "" {
      var slot := s.slots[i].(arguments := s.slots[i].arguments + delta);
      DeltaLives(s.events, s.slots, i, ArgumentsDelta(s.slots[i].itemID, i, delta), delta, slot);
      DeltaShows(s.events, s.slots, i, ArgumentsDelta(s.slots[i].itemID, i, delta), delta, slot);
    }
  }

  lemma OnFragmentKeeps(s: Stream, f: Fragment)
    requires Inv(s)
    ensures Inv(OnFragment(s, f))
  {
    FindCallFinds(s.slots, f.index);
    match FindCall(s.slots, f.index)
    case None =>
      StartCallKeeps(s, f);
      ExtendArgumentsKeeps(StartCall(s, f), |s.slots|, f.arguments);
    case Some(i) =>
      ContinueCallKeeps(s, i, f);
      ExtendArgumentsKeeps(ContinueCall(s, i, f), i, f.arguments);
  }

  lemma {:induction false} OnFragmentsKeeps(s: Stream, calls: seq<Fragment>)
    requires Inv(s)
    ensures Inv(OnFragments(s, calls))
    decreases |calls|
  {
    if calls != [] {
      OnFragmentKeeps(s, calls[0]);
      OnFragmentsKeeps(OnFragment(s, calls[0]), calls[1..]);
    }
  }

  lemma {:induction false} OnChoicesKeeps(s: Stream, choices: seq<Option<Delta>>)
    requires Inv(s)
    ensures Inv(OnChoices(s, choices))
    decreases |choices|
  {
    if choices != [] {
      if choices[0].Some? {
        var delta := choices[0].value;
        if delta.text != "" {
          StartTextKeeps(s);
          ExtendTextKeeps(StartText(s), delta.text);
        }
        OnFragmentsKeeps(OnText(s, delta.text), delta.calls);
      }
      OnChoicesKeeps(OnChoice(s, choices[0]), choices[1..]);
    }
  }

  lemma {:induction false} OnChunksKeeps(s: Stream, chunks: seq<Chunk>)
    requires Inv(s)
    ensures Inv(OnChunks(s, chunks))
    decreases |chunks|
  {
    if chunks != [] {
      OnChoicesKeeps(if chunks[0].usage.Some? then s.(usage := chunks[0].usage.value) else s, chunks[0].choices);
      OnChunksKeeps(OnChunk(s, chunks[0]), chunks[1..]);
    }
  }

  /** An event about no output index. */
  lemma NoIndex(events: seq<Event>, e: Event)
    requires e.Created? || e.InProgress?
    ensures Client(events + [e]) == Client(events)
    ensures forall i: nat :: LifeOf(events + [e], i) == LifeOf(events, i)
  {
    ClientSnoc(events, e);
    forall i: nat ensures LifeOf(events + [e], i) == LifeOf(events, i) {
      LifeSnoc(events, e, i);
    }
  }

  lemma OpenedInv()
    ensures Inv(Opened())
  {
    NoIndex([], Created);
    NoIndex([Created], InProgress);
    assert [] + [Created] == [Created] && [Created] + [InProgress] == Opened().events;
  }

  // ------------------------------------------------------------------ completion

  /** Whether a slot's item is done, once the text is or is not and these tool indexes are. */
  predicate Done(slot: Slot, text: bool, calls: set<int>) {
    if slot.TextSlot? then text else slot.index in calls
  }

  function LifeIn(slots: seq<Slot>, text: bool, calls: set<int>, i: nat): Life {
    if i >= |slots| then Unborn
    else if Done(slots[i], text, calls) then Finished(Content(FinalItem(slots[i])))
    else Open(Content(FinalItem(slots[i])))
  }

  ghost predicate Closing(events: seq<Event>, slots: seq<Slot>, text: bool, calls: set<int>) {
    && (forall i: nat :: LifeOf(events, i) == LifeIn(slots, text, calls, i))
    && (forall i: nat :: i in Client(events) <==> i < |slots|)
    && (forall i: nat :: i < |slots| ==>
          Client(events)[i] == if Done(slots[i], text, calls) then FinalItem(slots[i]) else Announced(slots[i]))
  }

  /** A statement of totals changes nothing but is checked against what was sent. */
  lemma TotalsAgree(events: seq<Event>, slots: seq<Slot>, text: bool, calls: set<int>, e: Event, k: nat)
    requires Closing(events, slots, text, calls) && k < |slots| && !Done(slots[k], text, calls)
    requires || e == TextDone(TEXT_ITEM, k, Content(FinalItem(slots[k])))
             || e == PartDone(TEXT_ITEM, k, Content(FinalItem(slots[k])))
             || (e.ArgumentsDone? && e.index == k && e.arguments == Content(FinalItem(slots[k])))
    ensures Closing(events + [e], slots, text, calls)
  {
    ClientSnoc(events, e);
    forall i: nat ensures LifeOf(events + [e], i) == LifeIn(slots, text, calls, i) {
      LifeSnoc(events, e, i);
    }
  }

  lemma ItemCloses(events: seq<Event>, slots: seq<Slot>, text: bool, calls: set<int>, k: nat, text': bool,
      calls': set<int>)
    requires Closing(events, slots, text, calls) && k < |slots| && !Done(slots[k], text, calls)
    requires forall i: nat :: i < |slots| ==> (Done(slots[i], text', calls') <==> Done(slots[i], text, calls) || i == k)
    ensures Closing(events + [ItemDone(k, FinalItem(slots[k]))], slots, text', calls')
  {
    var e := ItemDone(k, FinalItem(slots[k]));
    ClientSnoc(events, e);
    forall i: nat ensures LifeOf(events + [e], i) == LifeIn(slots, text', calls', i) {
      LifeSnoc(events, e, i);
    }
  }

  lemma TextCloses(events: seq<Event>, slots: seq<Slot>)
    requires Closing(events, slots, false, {}) && OneSlotEach(slots)
    ensures Closing(events + TextDoneEvents(slots), slots, true, {})
  {
    FindTextFinds(slots);
    match FindText(slots)
    case None => assert events + [] == events;
    case Some(k) =>
      var text := slots[k].text;
      var e1, e2, e3 := TextDone(TEXT_ITEM, k, text), PartDone(TEXT_ITEM, k, text), ItemDone(k, FinalItem(slots[k]));
      TotalsAgree(events, slots, false, {}, e1, k);
      TotalsAgree(events + [e1], slots, false, {}, e2, k);
      ItemCloses(events + [e1] + [e2], slots, false, {}, k, true, {});
      assert events + [e1] + [e2] + [e3] == events + [e1, e2, e3];
  }

  lemma CallCloses(events: seq<Event>, slots: seq<Slot>, calls: set<int>, index: int)
    requires Closing(events, slots, true, calls) && OneSlotEach(slots)
    requires index in CallIndexes(slots) && index !in calls
    ensures Closing(events + CallDoneEvents(slots, index), slots, true, calls + {index})
  {
    FindCallFinds(slots, index);
    var k := FindCall(slots, index).value;
    var e1, e2 := ArgumentsDone(slots[k].itemID, k, slots[k].arguments), ItemDone(k, FinalItem(slots[k]));
    TotalsAgree(events, slots, true, calls, e1, k);
    ItemCloses(events + [e1], slots, true, calls, k, true, calls + {index});
    assert events + [e1] + [e2] == events + [e1, e2];
  }

  /** One call after the other in the order given, whatever `closing` says about the events so far. */
  lemma {:induction false} CallsInOrder(closing: (seq<Event>, set<int>) -> bool, events: seq<Event>, slots: seq<Slot>,
      indexes: seq<int>)
    requires closing(events, {}) && IsAscending(indexes)
    requires forall sent, calls, index ::
               closing(sent, calls) && index in Elements(indexes) && index !in calls ==>
                 closing(sent + CallDoneEvents(slots, index), calls + {index})
    ensures closing(events + CallsDoneEvents(slots, indexes), Elements(indexes))
    decreases |indexes|
  {
    if indexes == [] {
      assert events + [] == events;
      assert Elements(indexes) == {};
    } else {
      var before, last := indexes[..|indexes| - 1], indexes[|indexes| - 1];
      assert indexes == before + [last];
      ElementsSnoc(before, last);
      CallsInOrder(closing, events, slots, before);
      var sent := events + CallsDoneEvents(slots, before);
      assert closing(sent + CallDoneEvents(slots, last), Elements(before) + {last});
      assert sent + CallDoneEvents(slots, last) == events + CallsDoneEvents(slots, indexes);
    }
  }

  lemma CallsClose(events: seq<Event>, slots: seq<Slot>, indexes: seq<int>)
    requires Closing(events, slots, true, {}) && OneSlotEach(slots)
    requires IsAscending(indexes) && Elements(indexes) == CallIndexes(slots)
    ensures Closing(events + CallsDoneEvents(slots, indexes), slots, true, CallIndexes(slots))
  {
    var closing: (seq<Event>, set<int>) -> bool := (sent, calls) => Closing(sent, slots, true, calls);
    forall sent, calls, index | closing(sent, calls) && index in Elements(indexes) && index !in calls
      ensures closing(sent + CallDoneEvents(slots, index), calls + {index})
    {
      CallCloses(sent, slots, calls, index);
    }
    CallsInOrder(closing, events, slots, indexes);
  }

  lemma ElementsSnoc(s: seq<int>, last: int)
    requires IsAscending(s + [last])
    ensures Elements(s + [last]) == Elements(s) + {last} && last !in Elements(s) && IsAscending(s)
  {
    var t := s + [last];
    assert forall i :: 0 <= i < |s| ==> t[i] == s[i] && t[i] < t[|s|];
    forall k | k in Elements(s) + {last} ensures k in Elements(t) {
      if k == last {
        assert t[|s|] == k;
      } else {
        var i :| 0 <= i < |s| && s[i] == k;
        assert t[i] == k;
      }
    }
  }

  /** Text first, then the calls by ascending tool index: together every slot is closed. */
  lemma AllClose(events: seq<Event>, slots: seq<Slot>, indexes: seq<int>)
    requires Closing(events, slots, false, {}) && OneSlotEach(slots)
    requires Lists(indexes, CallIndexes(slots))
    ensures Closing(events + TextDoneEvents(slots) + CallsDoneEvents(slots, indexes), slots, true, CallIndexes(slots))
  {
    TextCloses(events, slots);
    CallsClose(events + TextDoneEvents(slots), slots, indexes);
  }

  lemma CompletedChangesNothing(events: seq<Event>, slots: seq<Slot>, usage: Usage)
    requires Closing(events, slots, true, CallIndexes(slots))
    ensures var all, output := events + [Completed(Output(slots), usage)], Output(slots);
            && (forall i: nat :: i in Client(all) <==> i < |output|)
            && (forall i: nat :: i < |output| ==> Client(all)[i] == output[i])
            && (forall i: nat :: LifeOf(all, i) == if i < |output| then Finished(Content(output[i])) else Unborn)
  {
    var e := Completed(Output(slots), usage);
    ClientSnoc(events, e);
    forall i: nat ensures LifeOf(events + [e], i) == LifeOf(events, i) {
      LifeSnoc(events, e, i);
    }
    assert forall i: nat :: i < |slots| ==> Done(slots[i], true, CallIndexes(slots));
  }

  /** A stream that drains: what the client folded is the final document, slot by slot, with none missing. */
  lemma EventsReplayToDocument(chunks: seq<Chunk>)
    ensures var events := Transcript(chunks, Eof);
            && events != [] && events[|events| - 1].Completed?
            && var output := events[|events| - 1].output;
            && (forall i: nat :: i in Client(events) <==> i < |output|)
            && (forall i: nat :: i < |output| ==> Client(events)[i] == output[i])
            && (forall i: nat :: LifeOf(events, i) == if i < |output| then Finished(Content(output[i])) else Unborn)
  {
    OpenedInv();
    OnChunksKeeps(Opened(), chunks);
    var s := OnChunks(Opened(), chunks);
    assert Closing(s.events, s.slots, false, {});
    var indexes := Ascending(CallIndexes(s.slots));
    AllClose(s.events, s.slots, indexes);
    CompletedChangesNothing(s.events + TextDoneEvents(s.slots) + CallsDoneEvents(s.slots, indexes), s.slots, s.usage);
  }

  /** The added and delta events alone already carry every item's identity and its whole text or arguments. */
  lemma DeltasCarryTheContent(chunks: seq<Chunk>)
    ensures var s := OnChunks(Opened(), chunks);
            var view, output := Client(s.events), Output(s.slots);
            && NoTerminal(s.events)
            && (forall i: nat :: i in view <==> i < |output|)
            && (forall i: nat :: i < |output| ==>
                  && view[i].id == output[i].id && Content(view[i]) == Content(output[i])
                  && (view[i].MessageItem? <==> output[i].MessageItem?)
                  && (view[i].CallItem? ==> view[i].name <= output[i].name))
  {
    OpenedInv();
    OnChunksKeeps(Opened(), chunks);
  }

  predicate IsDone(e: Event) {
    e.Completed? || e.ItemDone? || e.TextDone? || e.PartDone? || e.ArgumentsDone?
  }

  /** An upstream error is reported once, last, and nothing is declared done or completed. */
  lemma ErrorEndsTheStream(chunks: seq<Chunk>, message: string)
    ensures var events := Transcript(chunks, Upstream(message));
            && events != [] && events[|events| - 1] == Failed(message)
            && (forall i :: 0 <= i < |events| - 1 ==> !events[i].Failed?)
            && (forall i :: 0 <= i < |events| ==> !IsDone(events[i]))
            && (forall i: nat :: LifeOf(events, i).Unborn? || LifeOf(events, i).Open?)
  {
    OpenedInv();
    OnChunksKeeps(Opened(), chunks);
    var s := OnChunks(Opened(), chunks);
    forall i: nat ensures LifeOf(s.events + [Failed(message)], i) == LifeOf(s.events, i) {
      LifeSnoc(s.events, Failed(message), i);
    }
  }
}

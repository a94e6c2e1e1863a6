/**
 The adapter object itself (gateway/responses.go, streamAdaptedResponse): counters,
 a text buffer and three maps by tool index, updated chunk by chunk, and an output
 array filled slot by slot. Everything it writes is proved to be the transcript of
 response_stream.dfy, numbered from zero.
 */
module ResponseAdapters {
  import opened Wrappers
  import opened AscendingInts
  import opened ResponseStreams

  datatype Numbered = Numbered(number: nat, event: Event)

  /** The provider's fragments of one call, put together; an ID not seen yet is empty. */
  datatype ToolCall = ToolCall(id: Name, name: string, arguments: string)

  const NO_ID := Given("")

  ghost predicate Sends(sent: seq<Numbered>, sequence: nat, events: seq<Event>) {
    && sequence == |sent| == |events|
    && forall i :: 0 <= i < |sent| ==> sent[i] == Numbered(i, events[i])
  }

  ghost predicate TextHeld(slots: seq<Slot>, started: bool, textOutputIndex: int, text: string) {
    && (started ==> 0 <= textOutputIndex < |slots| && slots[textOutputIndex] == TextSlot(text))
    && (!started ==> textOutputIndex == -1 && text == "")
    && (forall i :: 0 <= i < |slots| && slots[i].TextSlot? ==> i == textOutputIndex)
  }

  ghost predicate CallHeld(slots: seq<Slot>, index: int, call: ToolCall, at: nat, itemID: Name) {
    && at < |slots| && slots[at].CallSlot? && slots[at].index == index && slots[at].itemID == itemID
    && call == ToolCall(slots[at].callID, slots[at].name, slots[at].arguments) && call.id != NO_ID
  }

  ghost predicate CallsHeld(slots: seq<Slot>, calls: map<int, ToolCall>, indexes: map<int, nat>,
      itemIDs: map<int, Name>) {
    && calls.Keys == indexes.Keys == itemIDs.Keys
    && (forall k :: k in indexes ==> CallHeld(slots, k, calls[k], indexes[k], itemIDs[k]))
    && (forall i :: 0 <= i < |slots| && slots[i].CallSlot? ==>
       slots[i].index in indexes && indexes[slots[i].index] == i)
  }

  lemma TextFound(slots: seq<Slot>, started: bool, textOutputIndex: int, text: string)
    requires TextHeld(slots, started, textOutputIndex, text)
    ensures FindText(slots) == if started then Some(textOutputIndex) else None
  {
    FindTextFinds(slots);
  }

  lemma CallFound(slots: seq<Slot>, calls: map<int, ToolCall>, indexes: map<int, nat>, itemIDs: map<int, Name>,
      index: int)
    requires CallsHeld(slots, calls, indexes, itemIDs)
    ensures FindCall(slots, index) == if index in indexes then Some(indexes[index]) else None
  {
    FindCallFinds(slots, index);
    if index in indexes {
      assert CallHeld(slots, index, calls[index], indexes[index], itemIDs[index]);
    }
  }

  lemma HeldKeys(slots: seq<Slot>, calls: map<int, ToolCall>, indexes: map<int, nat>, itemIDs: map<int, Name>)
    requires CallsHeld(slots, calls, indexes, itemIDs)
    ensures calls.Keys == CallIndexes(slots)
  {
    forall k | k in calls ensures k in CallIndexes(slots) {
      assert CallHeld(slots, k, calls[k], indexes[k], itemIDs[k]);
    }
  }

  lemma TextMoves(slots: seq<Slot>, calls: map<int, ToolCall>, indexes: map<int, nat>, itemIDs: map<int, Name>,
      slots': seq<Slot>)
    requires CallsHeld(slots, calls, indexes, itemIDs) && |slots| <= |slots'|
    requires forall i :: 0 <= i < |slots| ==> slots'[i] == slots[i] || (slots[i].TextSlot? && slots'[i].TextSlot?)
    requires forall i :: |slots| <= i < |slots'| ==> slots'[i].TextSlot?
    ensures CallsHeld(slots', calls, indexes, itemIDs)
  {
    forall k | k in indexes ensures CallHeld(slots', k, calls[k], indexes[k], itemIDs[k]) {
      assert CallHeld(slots, k, calls[k], indexes[k], itemIDs[k]);
    }
  }

  lemma CallJoins(slots: seq<Slot>, calls: map<int, ToolCall>, indexes: map<int, nat>, itemIDs: map<int, Name>,
      slot: Slot)
    requires CallsHeld(slots, calls, indexes, itemIDs)
    requires slot.CallSlot? && slot.index !in indexes && slot.callID != NO_ID
    ensures CallsHeld(slots + [slot],
                      calls[slot.index := ToolCall(slot.callID, slot.name, slot.arguments)],
                      indexes[slot.index := |slots|], itemIDs[slot.index := slot.itemID])
  {
    var calls' := calls[slot.index := ToolCall(slot.callID, slot.name, slot.arguments)];
    var indexes', itemIDs' := indexes[slot.index := |slots|], itemIDs[slot.index := slot.itemID];
    forall k | k in indexes' ensures CallHeld(slots + [slot], k, calls'[k], indexes'[k], itemIDs'[k]) {
      if k != slot.index {
        assert CallHeld(slots, k, calls[k], indexes[k], itemIDs[k]);
      }
    }
  }

  lemma CallGrows(slots: seq<Slot>, calls: map<int, ToolCall>, indexes: map<int, nat>, itemIDs: map<int, Name>,
      at: nat, slot: Slot)
    requires CallsHeld(slots, calls, indexes, itemIDs)
    requires at < |slots| && slots[at].CallSlot? && slot.CallSlot?
    requires slot.index == slots[at].index && slot.itemID == slots[at].itemID && slot.callID != NO_ID
    ensures CallsHeld(slots[at := slot], calls[slot.index := ToolCall(slot.callID, slot.name, slot.arguments)],
            indexes, itemIDs)
  {
    var calls' := calls[slot.index := ToolCall(slot.callID, slot.name, slot.arguments)];
    assert indexes[slot.index] == at;
    forall k | k in indexes ensures CallHeld(slots[at := slot], k, calls'[k], indexes[k], itemIDs[k]) {
      assert CallHeld(slots, k, calls[k], indexes[k], itemIDs[k]);
    }
  }

  lemma TextStays(slots: seq<Slot>, started: bool, textOutputIndex: int, text: string, slots': seq<Slot>)
    requires TextHeld(slots, started, textOutputIndex, text) && |slots| <= |slots'|
    requires forall i :: 0 <= i < |slots| ==> slots'[i] == slots[i] || (slots[i].CallSlot? && slots'[i].CallSlot?)
    requires forall i :: |slots| <= i < |slots'| ==> slots'[i].CallSlot?
    ensures TextHeld(slots', started, textOutputIndex, text)
  {
  }

  lemma TextBegins(slots: seq<Slot>, textOutputIndex: int, text: string)
    requires TextHeld(slots, false, textOutputIndex, text)
    ensures TextHeld(slots + [TextSlot("")], true, |slots|, text)
  {
  }

  /** The output array once the text and the calls of these tool indexes are done. */
  ghost predicate Filling(items: seq<Option<Item>>, slots: seq<Slot>, done: seq<int>) {
    && |items| == |slots|
    && forall i :: 0 <= i < |slots| ==>
         items[i] == if slots[i].TextSlot? || slots[i].index in done then Some(FinalItem(slots[i])) else None
  }

  lemma FillingGrows(items: seq<Option<Item>>, items': seq<Option<Item>>, slots: seq<Slot>, indexes: seq<int>, n: nat)
    requires n < |indexes| && Filling(items, slots, indexes[..n]) && |items'| == |slots|
    requires forall i :: 0 <= i < |slots| ==>
               items'[i] == if slots[i].CallSlot? && slots[i].index == indexes[n] then Some(FinalItem(slots[i]))
                 else items[i]
    ensures Filling(items', slots, indexes[..n + 1])
  {
    assert indexes[..n + 1] == indexes[..n] + [indexes[n]];
  }

  lemma DoneEventsGrow(events: seq<Event>, slots: seq<Slot>, indexes: seq<int>, n: nat)
    requires n < |indexes|
    ensures events + CallsDoneEvents(slots, indexes[..n]) + CallDoneEvents(slots, indexes[n])
         == events + CallsDoneEvents(slots, indexes[..n + 1])
  {
    assert indexes[..n + 1][..n] == indexes[..n];
  }

  /** All slots of a finished output array; none may be left empty. */
  function Filled(slots: seq<Option<Item>>): seq<Item>
    requires forall i :: 0 <= i < |slots| ==> slots[i].Some?
  {
    seq(|slots|, i requires 0 <= i < |slots| => slots[i].value)
  }

  lemma EverySlotFilled(items: seq<Option<Item>>, slots: seq<Slot>, indexes: seq<int>)
    requires Filling(items, slots, indexes) && Elements(indexes) == CallIndexes(slots)
    ensures (forall i :: 0 <= i < |items| ==> items[i].Some?) && Filled(items) == Output(slots)
  {
    assert forall i :: 0 <= i < |slots| && slots[i].CallSlot? ==> slots[i].index in Elements(indexes);
  }

  class ResponseAdapter {
    var sent: seq<Numbered>
    var sequence: nat
    var text: string
    var usage: Usage
    var started: bool
    var textOutputIndex: int
    var nextOutputIndex: nat
    var toolCalls: map<int, ToolCall>
    var toolOutputIndexes: map<int, nat>
    var toolItemIDs: map<int, Name>
    var minted: nat
    ghost var stream: Stream

    ghost predicate Valid()
      reads this
    {
      && Sends(sent, sequence, stream.events)
      && TextHeld(stream.slots, started, textOutputIndex, text)
      && CallsHeld(stream.slots, toolCalls, toolOutputIndexes, toolItemIDs)
      && nextOutputIndex == |stream.slots| && minted == stream.minted && usage == stream.usage
    }

    constructor ()
      ensures Valid() && stream == Opened()
    {
      sent := [Numbered(0, Created), Numbered(1, InProgress)];
      sequence := 2;
      text, usage, started, textOutputIndex, nextOutputIndex := "", Usage(0, 0, 0), false, -1, 0;
      toolCalls, toolOutputIndexes, toolItemIDs := map[], map[], map[];
      minted := FIRST_FREE;
      stream := Opened();
    }

    method Emit(e: Event)
      requires Sends(sent, sequence, stream.events)
      modifies this`sent, this`sequence, this`stream
      ensures Sends(sent, sequence, stream.events)
      ensures stream == old(stream).(events := old(stream).events + [e])
    {
      sent, sequence := sent + [Numbered(sequence, e)], sequence + 1;
      stream := stream.(events := stream.events + [e]);
    }

    /** The first text claims the next output index. */
    method StartTextItem()
      requires Valid()
      modifies this
      ensures Valid() && started && stream == StartText(old(stream))
    {
      TextFound(stream.slots, started, textOutputIndex, text);
      if !started {
        ghost var before := stream;
        TextBegins(before.slots, textOutputIndex, text);
        TextMoves(before.slots, toolCalls, toolOutputIndexes, toolItemIDs, before.slots + [TextSlot("")]);
        ClaimTextIndex();
        Emit(ItemAdded(textOutputIndex, MessageItem(TEXT_ITEM, IN_PROGRESS, [])));
        Emit(PartAdded(TEXT_ITEM, textOutputIndex));
        assert stream.events == StartText(before).events;
      }
    }

    method ClaimTextIndex()
      modifies this`started, this`textOutputIndex, this`nextOutputIndex, this`stream
      ensures started && textOutputIndex == old(nextOutputIndex) && nextOutputIndex == old(nextOutputIndex) + 1
      ensures stream == old(stream).(slots := old(stream).slots + [TextSlot("")])
    {
      started, textOutputIndex, nextOutputIndex := true, nextOutputIndex, nextOutputIndex + 1;
      stream := stream.(slots := stream.slots + [TextSlot("")]);
    }

    method ExtendTextItem(delta: string)
      requires Valid() && started
      modifies this
      ensures Valid() && stream == ExtendText(old(stream), delta)
    {
      TextFound(stream.slots, started, textOutputIndex, text);
      text := text + delta;
      ghost var slots := stream.slots[textOutputIndex := TextSlot(text)];
      TextMoves(stream.slots, toolCalls, toolOutputIndexes, toolItemIDs, slots);
      stream := stream.(slots := slots);
      Emit(TextDelta(TEXT_ITEM, textOutputIndex, delta));
    }

    method AddText(delta: string)
      requires Valid()
      modifies this
      ensures Valid() && stream == OnText(old(stream), delta)
    {
      if delta != "" {
        StartTextItem();
        ExtendTextItem(delta);
      }
    }

    /** A fragment of a tool index not seen before claims the next output index. */
    method StartToolCall(f: Fragment)
      requires Valid() && f.index !in toolCalls
      modifies this
      ensures Valid() && stream == StartCall(old(stream), f)
      ensures f.index in toolOutputIndexes && toolOutputIndexes[f.index] == |old(stream).slots|
    {
      ghost var begun := stream;
      var itemID, callID := MintToolIDs(f);
      ghost var slot := CallSlot(f.index, itemID, callID, f.name, callID, f.name, "");
      CallJoins(begun.slots, toolCalls, toolOutputIndexes, toolItemIDs, slot);
      TextStays(begun.slots, started, textOutputIndex, text, begun.slots + [slot]);
      ClaimToolIndex(f.index, itemID, ToolCall(callID, f.name, ""));
      stream := stream.(slots := begun.slots + [slot]);
      Emit(ItemAdded(toolOutputIndexes[f.index], CallItem(itemID, IN_PROGRESS, callID, f.name, "")));
    }

    /** The call keeps the provider's ID if it has one. */
    method MintToolIDs(f: Fragment) returns (itemID: Name, callID: Name)
      requires minted == stream.minted
      modifies this`minted, this`stream
      ensures itemID == Minted("fc_", old(minted)) && callID == NextID(Minted("call_", old(minted) + 1), f)
              && callID != NO_ID
      ensures minted == old(minted) + (if f.id == "" then 2 else 1) && stream == old(stream).(minted := minted)
    {
      itemID := Minted("fc_", minted);
      minted := minted + 1;
      callID := Given(f.id);
      if f.id == "" {
        callID := Minted("call_", minted);
        minted := minted + 1;
      }
      stream := stream.(minted := minted);
    }

    method ClaimToolIndex(index: int, itemID: Name, call: ToolCall)
      modifies this`toolCalls, this`toolOutputIndexes, this`toolItemIDs, this`nextOutputIndex
      ensures toolCalls == old(toolCalls)[index := call] && toolItemIDs == old(toolItemIDs)[index := itemID]
      ensures toolOutputIndexes == old(toolOutputIndexes)[index := old(nextOutputIndex)]
      ensures nextOutputIndex == old(nextOutputIndex) + 1
    {
      toolCalls := toolCalls[index := call];
      toolOutputIndexes, nextOutputIndex := toolOutputIndexes[index := nextOutputIndex], nextOutputIndex + 1;
      toolItemIDs := toolItemIDs[index := itemID];
    }

    method ContinueToolCall(f: Fragment)
      requires Valid() && f.index in toolCalls
      modifies this`toolCalls, this`stream
      ensures Valid()
      ensures toolOutputIndexes[f.index] < |old(stream).slots|
              && old(stream).slots[toolOutputIndexes[f.index]].CallSlot?
      ensures stream == ContinueCall(old(stream), toolOutputIndexes[f.index], f)
    {
      var current := toolCalls[f.index];
      ghost var at := toolOutputIndexes[f.index];
      assert CallHeld(stream.slots, f.index, current, at, toolItemIDs[f.index]);
      if f.id != "" {
        current := current.(id := Given(f.id));
      }
      if f.name != "" {
        current := current.(name := current.name + f.name);
      }
      ghost var next := ContinueCall(stream, at, f);
      assert f.name == "" ==> stream.slots[at].name + f.name == stream.slots[at].name;
      assert current == ToolCall(next.slots[at].callID, next.slots[at].name, next.slots[at].arguments);
      CallGrows(stream.slots, toolCalls, toolOutputIndexes, toolItemIDs, at, next.slots[at]);
      TextStays(stream.slots, started, textOutputIndex, text, next.slots);
      toolCalls, stream := toolCalls[f.index := current], next;
    }

    method ExtendToolCall(index: int, delta: string)
      requires Valid() && index in toolCalls
      modifies this`toolCalls, this`sent, this`sequence, this`stream
      ensures Valid()
      ensures toolOutputIndexes[index] < |old(stream).slots| && old(stream).slots[toolOutputIndexes[index]].CallSlot?
      ensures stream == ExtendArguments(old(stream), toolOutputIndexes[index], delta)
    {
      var current := toolCalls[index];
      ghost var at := toolOutputIndexes[index];
      assert CallHeld(stream.slots, index, current, at, toolItemIDs[index]);
      if delta != "" {
        current := current.(arguments := current.arguments + delta);
        ghost var slot := stream.slots[at].(arguments := stream.slots[at].arguments + delta);
        CallGrows(stream.slots, toolCalls, toolOutputIndexes, toolItemIDs, at, slot);
        TextStays(stream.slots, started, textOutputIndex, text, stream.slots[at := slot]);
        toolCalls := toolCalls[index := current];
        stream := stream.(slots := stream.slots[at := slot]);
        Emit(ArgumentsDelta(toolItemIDs[index], toolOutputIndexes[index], delta));
      }
    }

    method AddFragment(f: Fragment)
      requires Valid()
      modifies this
      ensures Valid() && stream == OnFragment(old(stream), f)
    {
      CallFound(stream.slots, toolCalls, toolOutputIndexes, toolItemIDs, f.index);
      if f.index !in toolCalls {
        StartToolCall(f);
      } else {
        ContinueToolCall(f);
      }
      ExtendToolCall(f.index, f.arguments);
    }

    method AddFragments(calls: seq<Fragment>)
      requires Valid()
      modifies this
      ensures Valid() && stream == OnFragments(old(stream), calls)
    {
      var i := 0;
      while i < |calls|
        invariant 0 <= i <= |calls| && Valid()
        invariant OnFragments(stream, calls[i..]) == OnFragments(old(stream), calls)
      {
        AddFragment(calls[i]);
        i := i + 1;
      }
    }

    method AddChunk(c: Chunk)
      requires Valid()
      modifies this
      ensures Valid() && stream == OnChunk(old(stream), c)
    {
      if c.usage.Some? {
        usage, stream := c.usage.value, stream.(usage := c.usage.value);
      }
      ghost var begun := stream;
      var i := 0;
      while i < |c.choices|
        invariant 0 <= i <= |c.choices| && Valid()
        invariant OnChoices(stream, c.choices[i..]) == OnChoices(begun, c.choices)
      {
        if c.choices[i].Some? {
          AddText(c.choices[i].value.text);
          AddFragments(c.choices[i].value.calls);
        }
        i := i + 1;
      }
    }

    /** Close the text item and put it into its output slot. */
    method FinishText(output: array<Option<Item>>)
      requires Valid() && output.Length == nextOutputIndex
      requires forall i :: 0 <= i < output.Length ==> output[i].None?
      modifies output, this`sent, this`sequence, this`stream
      ensures Valid()
      ensures stream == old(stream).(events := old(stream).events + TextDoneEvents(old(stream).slots))
      ensures Filling(output[..], stream.slots, [])
    {
      TextFound(stream.slots, started, textOutputIndex, text);
      ghost var before := stream.events;
      if started {
        var item := MessageItem(TEXT_ITEM, COMPLETED, [text]);
        Emit(TextDone(TEXT_ITEM, textOutputIndex, text));
        Emit(PartDone(TEXT_ITEM, textOutputIndex, text));
        Emit(ItemDone(textOutputIndex, item));
        output[textOutputIndex] := Some(item);
        assert stream.events == before + TextDoneEvents(stream.slots);
      } else {
        assert before + [] == before;
      }
    }

    method FinishToolCall(output: array<Option<Item>>, index: int)
      requires Valid() && output.Length == nextOutputIndex && index in toolCalls
      modifies output, this`sent, this`sequence, this`stream
      ensures Valid()
      ensures stream == old(stream).(events := old(stream).events + CallDoneEvents(old(stream).slots, index))
      ensures forall i :: 0 <= i < output.Length ==>
                var slot := stream.slots[i];
                output[i] == if slot.CallSlot? && slot.index == index then Some(FinalItem(slot)) else old(output[i])
    {
      CallFound(stream.slots, toolCalls, toolOutputIndexes, toolItemIDs, index);
      ghost var before := stream.events;
      var call := toolCalls[index];
      var outputIndex := toolOutputIndexes[index];
      assert CallHeld(stream.slots, index, call, outputIndex, toolItemIDs[index]);
      var item := CallItem(toolItemIDs[index], COMPLETED, call.id, call.name, call.arguments);
      output[outputIndex] := Some(item);
      Emit(ArgumentsDone(toolItemIDs[index], outputIndex, call.arguments));
      Emit(ItemDone(outputIndex, item));
      assert stream.events == before + CallDoneEvents(stream.slots, index);
    }

    method FinishToolCalls(output: array<Option<Item>>, indexes: seq<int>)
      requires Valid() && output.Length == nextOutputIndex
      requires Elements(indexes) == toolCalls.Keys && Filling(output[..], stream.slots, [])
      modifies output, this`sent, this`sequence, this`stream
      ensures Valid()
      ensures stream == old(stream).(events := old(stream).events + CallsDoneEvents(old(stream).slots, indexes))
      ensures Filling(output[..], stream.slots, indexes)
    {
      ghost var before := stream;
      var n := 0;
      assert before.events + [] == before.events;
      while n < |indexes|
        invariant 0 <= n <= |indexes| && Valid()
        invariant stream == before.(events := before.events + CallsDoneEvents(before.slots, indexes[..n]))
        invariant Filling(output[..], before.slots, indexes[..n])
      {
        ghost var items := output[..];
        FinishToolCall(output, indexes[n]);
        FillingGrows(items, output[..], before.slots, indexes, n);
        DoneEventsGrow(before.events, before.slots, indexes, n);
        n := n + 1;
      }
      assert indexes[..n] == indexes;
    }

    /** Declare everything done; every slot of the output array has been filled. */
    method Complete()
      requires Valid()
      modifies this`sent, this`sequence, this`stream
      ensures Valid()
      ensures var s := old(stream);
              stream.events == s.events + TextDoneEvents(s.slots)
                + CallsDoneEvents(s.slots, Ascending(CallIndexes(s.slots)))
                             + [Completed(Output(s.slots), s.usage)]
    {
      var output := new Option<Item>[nextOutputIndex](_ => None);
      FinishText(output);
      HeldKeys(stream.slots, toolCalls, toolOutputIndexes, toolItemIDs);
      var indexes := SortKeys(toolCalls.Keys);
      FinishToolCalls(output, indexes);
      var items := output[..];
      EverySlotFilled(items, stream.slots, indexes);
      Emit(Completed(Filled(items), usage));
    }
  }

  /** One response: everything written is the transcript, and its events are numbered 0, 1, 2, ... */
  method StreamAdaptedResponse(chunks: seq<Chunk>, ending: Ending) returns (sent: seq<Numbered>)
    ensures |sent| == |Transcript(chunks, ending)|
    ensures forall i :: 0 <= i < |sent| ==> sent[i] == Numbered(i, Transcript(chunks, ending)[i])
  {
    var adapter := new ResponseAdapter();
    var i := 0;
    while i < |chunks|
      invariant 0 <= i <= |chunks| && adapter.Valid() && fresh(adapter)
      invariant OnChunks(adapter.stream, chunks[i..]) == OnChunks(Opened(), chunks)
    {
      adapter.AddChunk(chunks[i]);
      i := i + 1;
    }
    match ending {
      case Upstream(message) => adapter.Emit(Failed(message));
      case Eof => adapter.Complete();
    }
    sent := adapter.sent;
  }
}

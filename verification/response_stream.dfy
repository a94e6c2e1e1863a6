/**
 What the adapter from chat chunks to Responses events produces
 (gateway/responses.go), by reference: the output items in the order they first
 appear, and the events announcing and extending them. The object that computes
 it with counters and maps is in response_adapter.dfy.
 */
module ResponseStreams {
  import opened Wrappers
  import opened AscendingInts

  /** Identifiers are given by the provider or minted here from a counter. */
  datatype Name = Given(text: string) | Minted(prefix: string, number: nat)

  datatype Fragment = Fragment(index: int, id: string, name: string, arguments: string)

  datatype Delta = Delta(text: string, calls: seq<Fragment>)

  datatype Usage = Usage(prompt: int, completion: int, total: int)

  /** One chunk: each choice has a delta or none. */
  datatype Chunk = Chunk(usage: Option<Usage>, choices: seq<Option<Delta>>)

  datatype Item =
    | MessageItem(id: Name, status: string, content: seq<string>)
    | CallItem(id: Name, status: string, callID: Name, name: string, arguments: string)

  datatype Event =
    | Created
    | InProgress
    | ItemAdded(index: nat, item: Item)
    | PartAdded(itemID: Name, index: nat)
    | TextDelta(itemID: Name, index: nat, delta: string)
    | ArgumentsDelta(itemID: Name, index: nat, delta: string)
    | TextDone(itemID: Name, index: nat, text: string)
    | PartDone(itemID: Name, index: nat, text: string)
    | ArgumentsDone(itemID: Name, index: nat, arguments: string)
    | ItemDone(index: nat, item: Item)
    | Failed(message: string)
    | Completed(output: seq<Item>, usage: Usage)

  const IN_PROGRESS := "in_progress"
  const COMPLETED := "completed"

  /** The response takes the first minted number and its text item the second. */
  const TEXT_ITEM := Minted("msg_", 1)
  const FIRST_FREE := 2

  datatype Slot =
    | TextSlot(text: string)
    | CallSlot(index: int, itemID: Name, announcedID: Name, announcedName: string, callID: Name, name: string,
      arguments: string)

  datatype Stream = Stream(slots: seq<Slot>, events: seq<Event>, minted: nat, usage: Usage)

  function Opened(): Stream {
    Stream([], [Created, InProgress], FIRST_FREE, Usage(0, 0, 0))
  }

  function FindText(slots: seq<Slot>): Option<nat> {
    if slots == [] then None
    else if slots[0].TextSlot? then Some(0)
    else match FindText(slots[1..]) case None => None case Some(i) => Some(i + 1)
  }

  function FindCall(slots: seq<Slot>, index: int): Option<nat> {
    if slots == [] then None
    else if slots[0].CallSlot? && slots[0].index == index then Some(0)
    else match FindCall(slots[1..], index) case None => None case Some(i) => Some(i + 1)
  }

  lemma {:induction false} FindTextFinds(slots: seq<Slot>)
    ensures FindText(slots).Some? ==> FindText(slots).value < |slots| && slots[FindText(slots).value].TextSlot?
    ensures FindText(slots).None? ==> forall i :: 0 <= i < |slots| ==> !slots[i].TextSlot?
    ensures FindText(slots).Some? ==> forall i :: 0 <= i < FindText(slots).value ==> !slots[i].TextSlot?
  {
    if slots != [] && !slots[0].TextSlot? {
      FindTextFinds(slots[1..]);
    }
  }

  lemma {:induction false} FindCallFinds(slots: seq<Slot>, index: int)
    ensures FindCall(slots, index).Some? ==>
              var i := FindCall(slots, index).value;
              i < |slots| && slots[i].CallSlot? && slots[i].index == index
    ensures FindCall(slots, index).Some? ==>
              forall i :: 0 <= i < FindCall(slots, index).value ==> !(slots[i].CallSlot? && slots[i].index == index)
    ensures FindCall(slots, index).None? ==> forall i :: 0 <= i < |slots| ==>
            !(slots[i].CallSlot? && slots[i].index == index)
  {
    if slots != [] && !(slots[0].CallSlot? && slots[0].index == index) {
      FindCallFinds(slots[1..], index);
    }
  }

  function StartText(s: Stream): Stream {
    if FindText(s.slots).Some? then s
    else
      s.(slots := s.slots + [TextSlot("")],
         events := s.events + [ItemAdded(|s.slots|, MessageItem(TEXT_ITEM, IN_PROGRESS, [])),
           PartAdded(TEXT_ITEM, |s.slots|)])
  }

  function ExtendText(s: Stream, delta: string): Stream {
    match FindText(s.slots)
    case None => s
    case Some(i) =>
      if i < |s.slots| && s.slots[i].TextSlot? then
        s.(slots := s.slots[i := TextSlot(s.slots[i].text + delta)],
          events := s.events + [TextDelta(TEXT_ITEM, i, delta)])
      else s
  }

  function OnText(s: Stream, delta: string): Stream {
    if delta == "" then s else ExtendText(StartText(s), delta)
  }

  /** The call ID a fragment leaves in force. */
  function NextID(id: Name, f: Fragment): Name {
    if f.id != "" then Given(f.id) else id
  }

  function StartCall(s: Stream, f: Fragment): Stream {
    var itemID := Minted("fc_", s.minted);
    var callID := NextID(Minted("call_", s.minted + 1), f);
    s.(slots := s.slots + [CallSlot(f.index, itemID, callID, f.name, callID, f.name, "")],
       events := s.events + [ItemAdded(|s.slots|, CallItem(itemID, IN_PROGRESS, callID, f.name, ""))],
       minted := s.minted + if f.id == "" then 2 else 1)
  }

  function ContinueCall(s: Stream, i: nat, f: Fragment): Stream
    requires i < |s.slots| && s.slots[i].CallSlot?
  {
    var slot := s.slots[i];
    s.(slots := s.slots[i := slot.(callID := NextID(slot.callID, f), name := slot.name + f.name)])
  }

  function ExtendArguments(s: Stream, i: nat, delta: string): Stream
    requires i < |s.slots| && s.slots[i].CallSlot?
  {
    if delta == "" then s
    else
      s.(slots := s.slots[i := s.slots[i].(arguments := s.slots[i].arguments + delta)],
         events := s.events + [ArgumentsDelta(s.slots[i].itemID, i, delta)])
  }

  function OnFragment(s: Stream, f: Fragment): Stream {
    FindCallFinds(s.slots, f.index);
    match FindCall(s.slots, f.index)
    case None => ExtendArguments(StartCall(s, f), |s.slots|, f.arguments)
    case Some(i) => ExtendArguments(ContinueCall(s, i, f), i, f.arguments)
  }

  function OnFragments(s: Stream, calls: seq<Fragment>): Stream
    decreases |calls|
  {
    if calls == [] then s else OnFragments(OnFragment(s, calls[0]), calls[1..])
  }

  function OnChoice(s: Stream, choice: Option<Delta>): Stream {
    match choice
    case None => s
    case Some(delta) => OnFragments(OnText(s, delta.text), delta.calls)
  }

  function OnChoices(s: Stream, choices: seq<Option<Delta>>): Stream
    decreases |choices|
  {
    if choices == [] then s else OnChoices(OnChoice(s, choices[0]), choices[1..])
  }

  function OnChunk(s: Stream, c: Chunk): Stream {
    OnChoices(if c.usage.Some? then s.(usage := c.usage.value) else s, c.choices)
  }

  function OnChunks(s: Stream, chunks: seq<Chunk>): Stream
    decreases |chunks|
  {
    if chunks == [] then s else OnChunks(OnChunk(s, chunks[0]), chunks[1..])
  }

  // ------------------------------------------------------------------ completion

  function FinalItem(slot: Slot): Item {
    match slot
    case TextSlot(text) => MessageItem(TEXT_ITEM, COMPLETED, [text])
    case CallSlot(_, itemID, _, _, callID, name, arguments) => CallItem(itemID, COMPLETED, callID, name, arguments)
  }

  function Output(slots: seq<Slot>): seq<Item> {
    seq(|slots|, i requires 0 <= i < |slots| => FinalItem(slots[i]))
  }

  function CallIndexes(slots: seq<Slot>): set<int> {
    set i | 0 <= i < |slots| && slots[i].CallSlot? :: slots[i].index
  }

  function TextDoneEvents(slots: seq<Slot>): seq<Event> {
    match FindText(slots)
    case None => []
    case Some(i) =>
      if i < |slots| && slots[i].TextSlot? then
        [TextDone(TEXT_ITEM, i, slots[i].text), PartDone(TEXT_ITEM, i, slots[i].text), ItemDone(i, FinalItem(slots[i]))]
      else []
  }

  function CallDoneEvents(slots: seq<Slot>, index: int): seq<Event> {
    match FindCall(slots, index)
    case None => []
    case Some(i) =>
      if i < |slots| && slots[i].CallSlot? then
        [ArgumentsDone(slots[i].itemID, i, slots[i].arguments), ItemDone(i, FinalItem(slots[i]))]
      else []
  }

  function CallsDoneEvents(slots: seq<Slot>, indexes: seq<int>): seq<Event> {
    if indexes == [] then []
    else CallsDoneEvents(slots, indexes[..|indexes| - 1]) + CallDoneEvents(slots, indexes[|indexes| - 1])
  }

  datatype Ending = Eof | Upstream(message: string)

  /** All events of a stream that ends as given: done events and the document, or one error. */
  ghost function Transcript(chunks: seq<Chunk>, ending: Ending): seq<Event> {
    var s := OnChunks(Opened(), chunks);
    match ending
    case Upstream(message) => s.events + [Failed(message)]
    case Eof =>
      s.events + TextDoneEvents(s.slots) + CallsDoneEvents(s.slots, Ascending(CallIndexes(s.slots)))
        + [Completed(Output(s.slots), s.usage)]
  }
}

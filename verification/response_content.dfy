/**
 What the completed response of an adapted stream says, told over the chunks alone
 (gateway/responses.go): every text delta and tool fragment in its item, the items
 in the order they first appeared, and the last usage reported.
 */
module ResponseContent {
  import opened Wrappers
  import opened AscendingInts
  import opened ResponseStreams
  import opened ResponseDocuments

  // ----------------------------------------------------------------------- usage

  /** The usage of the last chunk that carries one. */
  function LastUsage(chunks: seq<Chunk>): Usage {
    if chunks == [] then Usage(0, 0, 0)
    else if chunks[|chunks| - 1].usage.Some? then chunks[|chunks| - 1].usage.value
    else LastUsage(chunks[..|chunks| - 1])
  }

  lemma {:induction false} ChunksJoin(s: Stream, a: seq<Chunk>, b: seq<Chunk>)
    ensures OnChunks(s, a + b) == OnChunks(OnChunks(s, a), b)
    decreases |a|
  {
    if a == [] {
      assert a + b == b;
    } else {
      assert (a + b)[1..] == a[1..] + b;
      ChunksJoin(OnChunk(s, a[0]), a[1..], b);
    }
  }

  lemma ChoicesKeepUsage(s: Stream, choices: seq<Option<Delta>>)
    ensures OnChoices(s, choices).usage == s.usage
  {
    ChoicesByPieces(s, choices);
    AnyUsage(s, s.usage, ChoicesPieces(choices));
    assert s.(usage := s.usage) == s;
  }

  lemma {:induction false} UsageIsLast(chunks: seq<Chunk>)
    ensures OnChunks(Opened(), chunks).usage == LastUsage(chunks)
  {
    if chunks != [] {
      var before, last := chunks[..|chunks| - 1], chunks[|chunks| - 1];
      UsageIsLast(before);
      assert before + [last] == chunks;
      ChunksJoin(Opened(), before, [last]);
      var s := OnChunks(Opened(), before);
      assert OnChunks(s, [last]) == OnChunk(s, last);
      ChoicesKeepUsage(if last.usage.Some? then s.(usage := last.usage.value) else s, last.choices);
    }
  }

  // ----------------------------------------------------------------------- items

  /** What a piece belongs to: the text, or the call with its tool index. */
  function KeyOf(p: Piece): Option<int> {
    match p
    case Text(_) => None
    case Call(f) => Some(f.index)
  }

  /** The items of a stream in the order they first appear in it. */
  function Appearance(pieces: seq<Piece>): seq<Option<int>> {
    if pieces == [] then []
    else
      var before, key := Appearance(pieces[..|pieces| - 1]), KeyOf(pieces[|pieces| - 1]);
      if key in before then before else before + [key]
  }

  /** A slot holds what was gathered under its key. */
  predicate Tells(slot: Slot, key: Option<int>, g: Gathered) {
    match key
    case None => slot == TextSlot(g.text)
    case Some(index) => slot.CallSlot? && slot.index == index && index in g.calls && Holds(slot, g.calls[index])
  }

  predicate Told(slots: seq<Slot>, keys: seq<Option<int>>, g: Gathered) {
    && |slots| == |keys|
    && (forall i :: 0 <= i < |slots| ==> Tells(slots[i], keys[i], g))
    && (forall i, j :: 0 <= i < j < |keys| ==> keys[i] != keys[j])
  }

  /** Call slots have item IDs of their own, numbered upwards below the counter. */
  predicate Numbered(slots: seq<Slot>, minted: nat) {
    && (forall i :: 0 <= i < |slots| && slots[i].CallSlot? ==>
         slots[i].itemID.Minted? && slots[i].itemID.prefix == "fc_" && slots[i].itemID.number < minted)
    && (forall i, j :: 0 <= i < j < |slots| && slots[i].CallSlot? && slots[j].CallSlot? ==>
         slots[i].itemID != slots[j].itemID)
  }

  lemma FindKey(slots: seq<Slot>, keys: seq<Option<int>>, g: Gathered, key: Option<int>)
    requires Told(slots, keys, g)
    ensures var at := if key.None? then FindText(slots) else FindCall(slots, key.value);
            && (at.Some? <==> key in keys)
            && (at.Some? ==> at.value < |slots| && keys[at.value] == key)
  {
    FindTextFinds(slots);
    if key.Some? {
      FindCallFinds(slots, key.value);
    }
    if key in keys {
      var i :| 0 <= i < |keys| && keys[i] == key;
      assert Tells(slots[i], keys[i], g);
    }
    var at := if key.None? then FindText(slots) else FindCall(slots, key.value);
    if at.Some? {
      assert Tells(slots[at.value], keys[at.value], g);
    }
  }

  /** One slot changes and what is gathered changes for its key alone. */
  lemma SlotTold(slots: seq<Slot>, keys: seq<Option<int>>, g: Gathered, at: nat, slot: Slot, g': Gathered)
    requires Told(slots, keys, g) && at < |slots| && Tells(slot, keys[at], g')
    requires forall key, other :: key != keys[at] && Tells(other, key, g) ==> Tells(other, key, g')
    ensures Told(slots[at := slot], keys, g')
  {
  }

  lemma SlotAdded(slots: seq<Slot>, keys: seq<Option<int>>, g: Gathered, key: Option<int>, slot: Slot, g': Gathered)
    requires Told(slots, keys, g) && key !in keys && Tells(slot, key, g')
    requires forall k, other :: k != key && Tells(other, k, g) ==> Tells(other, k, g')
    ensures Told(slots + [slot], keys + [key], g')
  {
    assert forall i :: 0 <= i < |keys| ==> keys[i] in keys;
  }

  lemma NoTextYet(keys: seq<Option<int>>, g: Gathered, s: Stream)
    requires Told(s.slots, keys, g)
    ensures var at := FindText(s.slots);
            at.Some? ==> at.value < |s.slots| && s.slots[at.value] == TextSlot(g.text)
  {
    FindKey(s.slots, keys, g, None);
    if FindText(s.slots).Some? {
      assert Tells(s.slots[FindText(s.slots).value], None, g);
    }
  }

  lemma TextTold(s: Stream, keys: seq<Option<int>>, g: Gathered, delta: string)
    requires Told(s.slots, keys, g) && delta != "" && (None !in keys ==> g.text == "")
    ensures Told(OnText(s, delta).slots, if None in keys then keys else keys + [None], Take(g, Text(delta)))
  {
    var g' := Take(g, Text(delta));
    FindKey(s.slots, keys, g, None);
    var s1 := StartText(s);
    if None in keys {
      var at := FindText(s.slots).value;
      NoTextYet(keys, g, s);
      SlotTold(s.slots, keys, g, at, TextSlot(g.text + delta), g');
    } else {
      SlotAdded(s.slots, keys, g, None, TextSlot(""), g);
      FindKey(s1.slots, keys + [None], g, None);
      var at := FindText(s1.slots).value;
      NoTextYet(keys + [None], g, s1);
      SlotTold(s1.slots, keys + [None], g, at, TextSlot(g.text + delta), g');
    }
  }

  lemma CallTold(s: Stream, keys: seq<Option<int>>, g: Gathered, f: Fragment)
    requires Told(s.slots, keys, g) && (forall k :: k in g.calls ==> Some(k) in keys)
    ensures Told(OnFragment(s, f).slots, if Some(f.index) in keys then keys else keys + [Some(f.index)],
                 Take(g, Call(f)))
  {
    var g' := Take(g, Call(f));
    FindKey(s.slots, keys, g, Some(f.index));
    FindCallFinds(s.slots, f.index);
    match FindCall(s.slots, f.index) {
      case Some(at) =>
        assert Tells(s.slots[at], keys[at], g);
        var slot := OnFragment(s, f).slots[at];
        assert OnFragment(s, f).slots == s.slots[at := slot];
        SlotTold(s.slots, keys, g, at, slot, g');
      case None =>
        var slots := OnFragment(s, f).slots;
        assert slots == s.slots + [slots[|s.slots|]];
        SlotAdded(s.slots, keys, g, Some(f.index), slots[|s.slots|], g');
    }
  }

  lemma TextNumbered(s: Stream, delta: string)
    requires Numbered(s.slots, s.minted)
    ensures Numbered(OnText(s, delta).slots, OnText(s, delta).minted)
  {
    FindTextFinds(s.slots);
  }

  lemma CallNumbered(s: Stream, f: Fragment)
    requires Numbered(s.slots, s.minted)
    ensures Numbered(OnFragment(s, f).slots, OnFragment(s, f).minted)
  {
    FindCallFinds(s.slots, f.index);
    var slots := OnFragment(s, f).slots;
    if FindCall(s.slots, f.index).None? {
      assert slots == s.slots + [slots[|s.slots|]];
    } else {
      assert slots == s.slots[FindCall(s.slots, f.index).value := slots[FindCall(s.slots, f.index).value]];
    }
  }

  predicate NoEmptyText(pieces: seq<Piece>) {
    forall i :: 0 <= i < |pieces| && pieces[i].Text? ==> pieces[i].delta != ""
  }

  lemma {:induction false} PiecesTold(pieces: seq<Piece>)
    requires NoEmptyText(pieces)
    ensures var s, keys, g := OnPieces(Opened(), pieces), Appearance(pieces), Gather(pieces);
            && Told(s.slots, keys, g) && Numbered(s.slots, s.minted)
            && (None !in keys ==> g.text == "") && (forall k :: k in g.calls <==> Some(k) in keys)
  {
    if pieces != [] {
      var before, last := pieces[..|pieces| - 1], pieces[|pieces| - 1];
      PiecesTold(before);
      var s := OnPieces(Opened(), before);
      match last {
        case Text(delta) =>
          TextTold(s, Appearance(before), Gather(before), delta);
          TextNumbered(s, delta);
        case Call(f) =>
          CallTold(s, Appearance(before), Gather(before), f);
          CallNumbered(s, f);
      }
    }
  }

  lemma {:induction false} CallsNotEmpty(calls: seq<Fragment>)
    ensures NoEmptyText(CallPieces(calls))
  {
    if calls != [] {
      CallsNotEmpty(calls[1..]);
    }
  }

  lemma {:induction false} ChoicesNotEmpty(choices: seq<Option<Delta>>)
    ensures NoEmptyText(ChoicesPieces(choices))
  {
    if choices != [] {
      if choices[0].Some? {
        CallsNotEmpty(choices[0].value.calls);
      }
      ChoicesNotEmpty(choices[1..]);
    }
  }

  lemma {:induction false} ChunksNotEmpty(chunks: seq<Chunk>)
    ensures NoEmptyText(Pieces(chunks))
  {
    if chunks != [] {
      ChoicesNotEmpty(chunks[0].choices);
      ChunksNotEmpty(chunks[1..]);
    }
  }

  // --------------------------------------------------------------- the whole answer

  /** The finished item under a key: all text that came, or the call put together from its fragments. */
  predicate Carries(item: Item, key: Option<int>, g: Gathered) {
    && item.status == COMPLETED
    && match key
       case None => item.MessageItem? && item.content == [g.text]
       case Some(index) =>
         && item.CallItem? && index in g.calls
         && item.name == g.calls[index].name && item.arguments == g.calls[index].arguments
         && (g.calls[index].id != "" ==> item.callID == Given(g.calls[index].id))
         && (g.calls[index].id == "" ==> item.callID.Minted?)
  }

  /**
   For every stream that ends well, the completed response has one item for the text,
   if any came, and one for each tool index, in the order they first appeared, each
   with everything that was sent for it and an ID of its own; and its usage is the last
   one reported, or zero.
   */
  lemma CompletedTellsTheChunks(chunks: seq<Chunk>)
    ensures var events := Transcript(chunks, Eof);
            var keys, g := Appearance(Pieces(chunks)), Gather(Pieces(chunks));
            && events != [] && events[|events| - 1].Completed?
            && var done := events[|events| - 1];
            && done.usage == LastUsage(chunks)
            && |done.output| == |keys|
            && (forall i :: 0 <= i < |keys| ==> Carries(done.output[i], keys[i], g))
            && (forall i, j :: 0 <= i < j < |keys| ==> done.output[i].id != done.output[j].id)
  {
    UsageIsLast(chunks);
    ChunksNotEmpty(chunks);
    PiecesTold(Pieces(chunks));
    ChunksByPieces(Opened(), chunks);
    var slots := OnChunks(Opened(), chunks).slots;
    var keys, g := Appearance(Pieces(chunks)), Gather(Pieces(chunks));
    forall i | 0 <= i < |slots| ensures Carries(FinalItem(slots[i]), keys[i], g) {
      assert Tells(slots[i], keys[i], g);
    }
    forall i, j | 0 <= i < j < |slots| ensures FinalItem(slots[i]).id != FinalItem(slots[j]).id {
      assert Tells(slots[i], keys[i], g) && Tells(slots[j], keys[j], g);
      assert keys[i] != keys[j];
    }
  }

  /** An appearance lists each thing that came once, the text and every tool index. */
  lemma {:induction false} EachAppearsOnce(pieces: seq<Piece>)
    ensures forall key :: key in Appearance(pieces) <==> exists n :: 0 <= n < |pieces| && KeyOf(pieces[n]) == key
    ensures forall i, j :: 0 <= i < j < |Appearance(pieces)| ==> Appearance(pieces)[i] != Appearance(pieces)[j]
  {
    if pieces != [] {
      var before, last := pieces[..|pieces| - 1], pieces[|pieces| - 1];
      EachAppearsOnce(before);
      assert Appearance(before) <= Appearance(pieces);
      forall key | key in Appearance(pieces) ensures exists n :: 0 <= n < |pieces| && KeyOf(pieces[n]) == key {
        if key == KeyOf(last) {
          assert KeyOf(pieces[|pieces| - 1]) == key;
        } else {
          assert key in Appearance(before);
          var n :| 0 <= n < |before| && KeyOf(before[n]) == key;
          assert KeyOf(pieces[n]) == key;
        }
      }
      forall n | 0 <= n < |pieces| ensures KeyOf(pieces[n]) in Appearance(pieces) {
        if n < |before| {
          assert KeyOf(before[n]) in Appearance(before);
        }
      }
    }
  }

  // --------------------------------------------------------------- the done events

  /** What a finished item is told done with. */
  function DoneWith(item: Item, i: nat): seq<Event> {
    match item
    case MessageItem(id, _, content) =>
      var text := if content == [] then "" else content[0];
      [TextDone(id, i, text), PartDone(id, i, text), ItemDone(i, item)]
    case CallItem(id, _, _, _, arguments) => [ArgumentsDone(id, i, arguments), ItemDone(i, item)]
  }

  lemma {:induction false} CallsDoneLength(slots: seq<Slot>, indexes: seq<int>)
    requires forall n :: 0 <= n < |indexes| ==> |CallDoneEvents(slots, indexes[n])| == 2
    ensures |CallsDoneEvents(slots, indexes)| == 2 * |indexes|
    decreases |indexes|
  {
    if indexes != [] {
      CallsDoneLength(slots, indexes[..|indexes| - 1]);
    }
  }

  lemma {:induction false} CallsDoneAt(slots: seq<Slot>, indexes: seq<int>, r: nat)
    requires forall n :: 0 <= n < |indexes| ==> |CallDoneEvents(slots, indexes[n])| == 2
    requires r < |indexes|
    ensures StandsAt(CallsDoneEvents(slots, indexes), 2 * r, CallDoneEvents(slots, indexes[r]))
    decreases |indexes|
  {
    var before, index := indexes[..|indexes| - 1], indexes[|indexes| - 1];
    CallsDoneLength(slots, before);
    var done, last := CallsDoneEvents(slots, before), CallDoneEvents(slots, index);
    assert CallsDoneEvents(slots, indexes) == done + last;
    if r < |before| {
      CallsDoneAt(slots, before, r);
      StandsBetween([], done, last, 2 * r, CallDoneEvents(slots, indexes[r]));
      assert [] + done + last == done + last;
    } else {
      StandsBetween(done, last, [], 0, last);
      assert done + last + [] == done + last;
    }
  }

  predicate StandsAt(events: seq<Event>, at: nat, own: seq<Event>) {
    at + |own| <= |events| && events[at..at + |own|] == own
  }

  lemma StandsBetween(before: seq<Event>, events: seq<Event>, after: seq<Event>, at: nat, own: seq<Event>)
    requires StandsAt(events, at, own)
    ensures StandsAt(before + events + after, |before| + at, own)
  {
    var all := before + events + after;
    assert all[|before| + at..|before| + at + |own|] == events[at..at + |own|];
  }

  /** The done events of the slot under a key, told from the slot. */
  lemma SlotDone(slots: seq<Slot>, keys: seq<Option<int>>, g: Gathered, i: nat)
    requires Told(slots, keys, g) && i < |slots|
    ensures (if keys[i].None? then TextDoneEvents(slots) else CallDoneEvents(slots, keys[i].value))
         == DoneWith(FinalItem(slots[i]), i)
  {
    FindKey(slots, keys, g, keys[i]);
    assert Tells(slots[i], keys[i], g);
    var at := if keys[i].None? then FindText(slots) else FindCall(slots, keys[i].value);
    assert keys[at.value] == keys[i];
    assert at.value == i;
  }

  lemma CallKeys(slots: seq<Slot>, keys: seq<Option<int>>, g: Gathered)
    requires Told(slots, keys, g)
    ensures forall index :: index in CallIndexes(slots) <==> Some(index) in keys
  {
    forall index | Some(index) in keys ensures index in CallIndexes(slots) {
      var i :| 0 <= i < |keys| && keys[i] == Some(index);
      assert Tells(slots[i], keys[i], g);
    }
    forall index | index in CallIndexes(slots) ensures Some(index) in keys {
      var i :| 0 <= i < |slots| && slots[i].CallSlot? && slots[i].index == index;
      assert Tells(slots[i], keys[i], g);
    }
  }

  lemma EachCallDone(slots: seq<Slot>, keys: seq<Option<int>>, g: Gathered, index: int)
    requires Told(slots, keys, g) && Some(index) in keys
    ensures |CallDoneEvents(slots, index)| == 2
  {
    var i :| 0 <= i < |keys| && keys[i] == Some(index);
    SlotDone(slots, keys, g, i);
    assert Tells(slots[i], keys[i], g);
  }

  /** Where the done events of each item begin: text first, then the calls by their tool index. */
  function DoneAt(slots: seq<Slot>, indexes: seq<int>, key: Option<int>): nat {
    if key.Some? && key.value in indexes then |TextDoneEvents(slots)| + 2 * Rank(indexes, key.value) else 0
  }

  function Rank(indexes: seq<int>, index: int): (r: nat)
    requires index in indexes
    ensures r < |indexes| && indexes[r] == index
  {
    if indexes[0] == index then 0 else 1 + Rank(indexes[1..], index)
  }

  lemma CallStands(slots: seq<Slot>, keys: seq<Option<int>>, g: Gathered, indexes: seq<int>, index: int)
    requires Told(slots, keys, g) && Lists(indexes, CallIndexes(slots)) && Some(index) in keys
    ensures index in indexes && StandsAt(CallsDoneEvents(slots, indexes), 2 * Rank(indexes, index),
                                         CallDoneEvents(slots, index))
  {
    CallKeys(slots, keys, g);
    assert index in Elements(indexes);
    forall n | 0 <= n < |indexes| ensures |CallDoneEvents(slots, indexes[n])| == 2 {
      assert indexes[n] in Elements(indexes);
      EachCallDone(slots, keys, g, indexes[n]);
    }
    CallsDoneAt(slots, indexes, Rank(indexes, index));
  }

  lemma StandsFirst(own: seq<Event>, after: seq<Event>)
    ensures StandsAt(own + after, 0, own)
  {
  }

  lemma StandsAfter(before: seq<Event>, events: seq<Event>, at: nat, own: seq<Event>)
    requires StandsAt(events, at, own)
    ensures StandsAt(before + events, |before| + at, own)
  {
    var all := before + events;
    assert all[|before| + at..|before| + at + |own|] == events[at..at + |own|];
  }

  lemma DoneStands(slots: seq<Slot>, keys: seq<Option<int>>, g: Gathered, indexes: seq<int>, i: nat)
    requires Told(slots, keys, g) && Lists(indexes, CallIndexes(slots)) && i < |slots|
    ensures keys[i].Some? ==> keys[i].value in indexes
    ensures StandsAt(TextDoneEvents(slots) + CallsDoneEvents(slots, indexes), DoneAt(slots, indexes, keys[i]),
                     DoneWith(FinalItem(slots[i]), i))
  {
    SlotDone(slots, keys, g, i);
    match keys[i] {
      case None => StandsFirst(TextDoneEvents(slots), CallsDoneEvents(slots, indexes));
      case Some(index) =>
        CallStands(slots, keys, g, indexes, index);
        StandsAfter(TextDoneEvents(slots), CallsDoneEvents(slots, indexes), 2 * Rank(indexes, index),
                    CallDoneEvents(slots, index));
    }
  }

  /** Text is done before calls, and calls in the order of their tool indexes. */
  predicate DoneBefore(a: Option<int>, b: Option<int>) {
    b.Some? && (a.None? || a.value < b.value)
  }

  lemma DoneInOrder(slots: seq<Slot>, keys: seq<Option<int>>, g: Gathered, indexes: seq<int>, i: nat, j: nat)
    requires Told(slots, keys, g) && Lists(indexes, CallIndexes(slots)) && i < |slots| && j < |slots|
    requires DoneBefore(keys[i], keys[j])
    ensures DoneAt(slots, indexes, keys[i]) < DoneAt(slots, indexes, keys[j])
  {
    DoneStands(slots, keys, g, indexes, i);
    DoneStands(slots, keys, g, indexes, j);
    if keys[i].None? {
      SlotDone(slots, keys, g, i);
      assert Tells(slots[i], keys[i], g);
    } else {
      RanksAscend(indexes, keys[i].value, keys[j].value);
    }
  }

  /** Each item is told done where `at` says, in their order. */
  predicate DoneInFull(events: seq<Event>, output: seq<Item>, keys: seq<Option<int>>, at: seq<nat>) {
    && |at| == |keys| == |output|
    && (forall i :: 0 <= i < |output| ==> StandsAt(events, at[i], DoneWith(output[i], i)))
    && (forall i, j :: 0 <= i < |keys| && 0 <= j < |keys| && DoneBefore(keys[i], keys[j]) ==> at[i] < at[j])
  }

  lemma AllStand(before: seq<Event>, slots: seq<Slot>, keys: seq<Option<int>>, g: Gathered, indexes: seq<int>,
      after: seq<Event>) returns (at: seq<nat>)
    requires Told(slots, keys, g) && Lists(indexes, CallIndexes(slots))
    ensures DoneInFull(before + (TextDoneEvents(slots) + CallsDoneEvents(slots, indexes)) + after, Output(slots), keys,
                       at)
  {
    var done := TextDoneEvents(slots) + CallsDoneEvents(slots, indexes);
    var all := before + done + after;
    at := seq(|keys|, i requires 0 <= i < |keys| => |before| + DoneAt(slots, indexes, keys[i]));
    forall i | 0 <= i < |slots| ensures StandsAt(all, at[i], DoneWith(Output(slots)[i], i)) {
      OneStands(before, slots, keys, g, indexes, after, i);
    }
    forall i, j | 0 <= i < |keys| && 0 <= j < |keys| && DoneBefore(keys[i], keys[j]) ensures at[i] < at[j] {
      DoneInOrder(slots, keys, g, indexes, i, j);
    }
  }

  lemma OneStands(before: seq<Event>, slots: seq<Slot>, keys: seq<Option<int>>, g: Gathered, indexes: seq<int>,
      after: seq<Event>, i: nat)
    requires Told(slots, keys, g) && Lists(indexes, CallIndexes(slots)) && i < |slots|
    ensures StandsAt(before + (TextDoneEvents(slots) + CallsDoneEvents(slots, indexes)) + after,
                     |before| + DoneAt(slots, indexes, keys[i]), DoneWith(FinalItem(slots[i]), i))
  {
    DoneStands(slots, keys, g, indexes, i);
    StandsBetween(before, TextDoneEvents(slots) + CallsDoneEvents(slots, indexes), after,
                  DoneAt(slots, indexes, keys[i]), DoneWith(FinalItem(slots[i]), i));
  }

  lemma Grouped<T>(a: seq<T>, b: seq<T>, c: seq<T>, last: T)
    ensures a + b + c + [last] == a + (b + c) + [last]
    ensures var all := a + (b + c) + [last]; all != [] && all[|all| - 1] == last
  {
  }

  lemma TranscriptEnds(chunks: seq<Chunk>)
    ensures var s, events := OnChunks(Opened(), chunks), Transcript(chunks, Eof);
            && events == s.events
                 + (TextDoneEvents(s.slots) + CallsDoneEvents(s.slots, Ascending(CallIndexes(s.slots))))
                 + [Completed(Output(s.slots), s.usage)]
            && events != [] && events[|events| - 1] == Completed(Output(s.slots), s.usage)
  {
    var s := OnChunks(Opened(), chunks);
    Grouped(s.events, TextDoneEvents(s.slots), CallsDoneEvents(s.slots, Ascending(CallIndexes(s.slots))),
            Completed(Output(s.slots), s.usage));
  }

  lemma ChunksTold(chunks: seq<Chunk>)
    ensures Told(OnChunks(Opened(), chunks).slots, Appearance(Pieces(chunks)), Gather(Pieces(chunks)))
  {
    ChunksNotEmpty(chunks);
    PiecesTold(Pieces(chunks));
    ChunksByPieces(Opened(), chunks);
  }

  /**
   For every stream that ends well: each item of the completed response is told done in
   full, under its own index and ID, the text before all calls and calls by tool index.
   */
  lemma EveryItemIsToldDone(chunks: seq<Chunk>) returns (at: seq<nat>)
    ensures var events := Transcript(chunks, Eof);
            && events != [] && events[|events| - 1].Completed?
            && DoneInFull(events, events[|events| - 1].output, Appearance(Pieces(chunks)), at)
  {
    ChunksTold(chunks);
    TranscriptEnds(chunks);
    var s := OnChunks(Opened(), chunks);
    at := AllStand(s.events, s.slots, Appearance(Pieces(chunks)), Gather(Pieces(chunks)),
                   Ascending(CallIndexes(s.slots)), [Completed(Output(s.slots), s.usage)]);
  }

  lemma RanksAscend(indexes: seq<int>, a: int, b: int)
    requires IsAscending(indexes) && a in indexes && b in indexes && a < b
    ensures Rank(indexes, a) < Rank(indexes, b)
  {
  }
}

/**
 The output list of a response that is not streamed (gateway/responses.go,
 responseOutput), and when the completed event of a stream carries the same one.
 */
module ResponseDocuments {
  import opened Wrappers
  import opened AscendingInts
  import opened ResponseStreams

  /** A call put together; an absent ID is "". */
  datatype WholeCall = WholeCall(id: string, name: string, arguments: string)

  datatype Answer = Answer(content: string, calls: seq<WholeCall>)

  function CallIDOf(call: WholeCall, minted: nat): Name {
    if call.id == "" then Minted("call_", minted) else Given(call.id)
  }

  /** A missing call ID is minted before the ID of the item. */
  function CallOutput(call: WholeCall, minted: nat): Item {
    var itemID := Minted("fc_", if call.id == "" then minted + 1 else minted);
    CallItem(itemID, COMPLETED, CallIDOf(call, minted), call.name, call.arguments)
  }

  /** The output items so far and the next number to mint. */
  datatype Listing = Listing(items: seq<Item>, minted: nat)

  function ListCalls(l: Listing, calls: seq<WholeCall>): Listing {
    if calls == [] then l
    else
      var before := ListCalls(l, calls[..|calls| - 1]);
      var call := calls[|calls| - 1];
      Listing(before.items + [CallOutput(call, before.minted)], before.minted + if call.id == "" then 2 else 1)
  }

  function ListAnswer(l: Listing, answer: Answer): Listing {
    var begun :=
      if answer.content == "" then l
      else Listing(l.items + [MessageItem(Minted("msg_", l.minted), COMPLETED, [answer.content])], l.minted + 1);
    ListCalls(begun, answer.calls)
  }

  function ListAnswers(l: Listing, answers: seq<Answer>): Listing {
    if answers == [] then l else ListAnswer(ListAnswers(l, answers[..|answers| - 1]), answers[|answers| - 1])
  }

  method ResponseOutput(answers: seq<Answer>, supply: nat) returns (output: seq<Item>)
    ensures output == ListAnswers(Listing([], supply), answers).items
  {
    var minted := supply;
    output := [];
    for n := 0 to |answers|
      invariant Listing(output, minted) == ListAnswers(Listing([], supply), answers[..n])
    {
      var answer := answers[n];
      assert answers[..n + 1][..n] == answers[..n];
      if answer.content != "" {
        output := output + [MessageItem(Minted("msg_", minted), COMPLETED, [answer.content])];
        minted := minted + 1;
      }
      ghost var begun := Listing(output, minted);
      for c := 0 to |answer.calls|
        invariant Listing(output, minted) == ListCalls(begun, answer.calls[..c])
      {
        var call := answer.calls[c];
        assert answer.calls[..c + 1][..c] == answer.calls[..c];
        var callID := Given(call.id);
        if call.id == "" {
          callID := Minted("call_", minted);
          minted := minted + 1;
        }
        output := output + [CallItem(Minted("fc_", minted), COMPLETED, callID, call.name, call.arguments)];
        minted := minted + 1;
      }
      assert answer.calls[..|answer.calls|] == answer.calls;
    }
    assert answers[..|answers|] == answers;
  }

  // -------------------------------------------------------- the chunks, put together

  datatype Piece = Text(delta: string) | Call(fragment: Fragment)

  function CallPieces(calls: seq<Fragment>): seq<Piece> {
    if calls == [] then [] else [Call(calls[0])] + CallPieces(calls[1..])
  }

  function ChoicePieces(choice: Option<Delta>): seq<Piece> {
    if choice.None? then []
    else (if choice.value.text != "" then [Text(choice.value.text)] else []) + CallPieces(choice.value.calls)
  }

  function ChoicesPieces(choices: seq<Option<Delta>>): seq<Piece> {
    if choices == [] then [] else ChoicePieces(choices[0]) + ChoicesPieces(choices[1..])
  }

  /** The texts and tool fragments of a stream in the order they come. */
  function Pieces(chunks: seq<Chunk>): seq<Piece> {
    if chunks == [] then [] else ChoicesPieces(chunks[0].choices) + Pieces(chunks[1..])
  }

  /** What a stream amounts to: all its text, and each call by its tool index. */
  datatype Gathered = Gathered(text: string, calls: map<int, WholeCall>)

  function Extended(call: WholeCall, f: Fragment): WholeCall {
    WholeCall(if f.id != "" then f.id else call.id, call.name + f.name, call.arguments + f.arguments)
  }

  function Take(g: Gathered, p: Piece): Gathered {
    match p
    case Text(delta) => g.(text := g.text + delta)
    case Call(f) =>
      var known := if f.index in g.calls then g.calls[f.index] else WholeCall("", "", "");
      g.(calls := g.calls[f.index := Extended(known, f)])
  }

  function Gather(pieces: seq<Piece>): Gathered {
    if pieces == [] then Gathered("", map[]) else Take(Gather(pieces[..|pieces| - 1]), pieces[|pieces| - 1])
  }

  ghost function Folded(g: Gathered): Answer {
    var indexes := Ascending(g.calls.Keys);
    assert forall i :: 0 <= i < |indexes| ==> indexes[i] in Elements(indexes);
    Answer(g.text, seq(|indexes|, i requires 0 <= i < |indexes| => g.calls[indexes[i]]))
  }

  /** Text begins before any call, and a new tool index is above all earlier ones. */
  predicate Follows(g: Gathered, p: Piece) {
    match p
    case Text(_) => g.text == "" ==> g.calls == map[]
    case Call(f) => f.index in g.calls || forall k :: k in g.calls ==> k < f.index
  }

  predicate InOrder(pieces: seq<Piece>) {
    forall n :: 0 <= n < |pieces| ==> Follows(Gather(pieces[..n]), pieces[n])
  }

  // ---------------------------------------------------------- the stream, by pieces

  function OnPiece(s: Stream, p: Piece): Stream {
    match p
    case Text(delta) => OnText(s, delta)
    case Call(f) => OnFragment(s, f)
  }

  function OnPieces(s: Stream, pieces: seq<Piece>): Stream {
    if pieces == [] then s else OnPiece(OnPieces(s, pieces[..|pieces| - 1]), pieces[|pieces| - 1])
  }

  lemma {:induction false} OnPiecesJoin(s: Stream, a: seq<Piece>, b: seq<Piece>)
    ensures OnPieces(s, a + b) == OnPieces(OnPieces(s, a), b)
  {
    if b == [] {
      assert a + b == a;
    } else {
      assert (a + b)[..|a + b| - 1] == a + b[..|b| - 1];
      OnPiecesJoin(s, a, b[..|b| - 1]);
    }
  }

  lemma OnOne(s: Stream, p: Piece)
    ensures OnPieces(s, [p]) == OnPiece(s, p)
  {
    assert [p][..0] == [];
  }

  lemma {:induction false} FragmentsByPieces(s: Stream, calls: seq<Fragment>)
    ensures OnFragments(s, calls) == OnPieces(s, CallPieces(calls))
    decreases |calls|
  {
    if calls != [] {
      OnOne(s, Call(calls[0]));
      FragmentsByPieces(OnFragment(s, calls[0]), calls[1..]);
      OnPiecesJoin(s, [Call(calls[0])], CallPieces(calls[1..]));
    }
  }

  lemma ChoiceByPieces(s: Stream, choice: Option<Delta>)
    ensures OnChoice(s, choice) == OnPieces(s, ChoicePieces(choice))
  {
    if choice.Some? {
      var text := if choice.value.text != "" then [Text(choice.value.text)] else [];
      if choice.value.text != "" {
        OnOne(s, text[0]);
      }
      FragmentsByPieces(OnText(s, choice.value.text), choice.value.calls);
      OnPiecesJoin(s, text, CallPieces(choice.value.calls));
    }
  }

  lemma {:induction false} ChoicesByPieces(s: Stream, choices: seq<Option<Delta>>)
    ensures OnChoices(s, choices) == OnPieces(s, ChoicesPieces(choices))
    decreases |choices|
  {
    if choices != [] {
      ChoiceByPieces(s, choices[0]);
      ChoicesByPieces(OnChoice(s, choices[0]), choices[1..]);
      OnPiecesJoin(s, ChoicePieces(choices[0]), ChoicesPieces(choices[1..]));
    }
  }

  lemma PieceAnyUsage(s: Stream, usage: Usage, p: Piece)
    ensures OnPiece(s.(usage := usage), p) == OnPiece(s, p).(usage := usage)
  {
  }

  /** Usage is only carried along. */
  lemma {:induction false} AnyUsage(s: Stream, usage: Usage, pieces: seq<Piece>)
    ensures OnPieces(s.(usage := usage), pieces) == OnPieces(s, pieces).(usage := usage)
  {
    if pieces != [] {
      AnyUsage(s, usage, pieces[..|pieces| - 1]);
      PieceAnyUsage(OnPieces(s, pieces[..|pieces| - 1]), usage, pieces[|pieces| - 1]);
    }
  }

  lemma {:induction false} ChunksByPieces(s: Stream, chunks: seq<Chunk>)
    ensures OnChunks(s, chunks).slots == OnPieces(s, Pieces(chunks)).slots
    decreases |chunks|
  {
    if chunks != [] {
      var c := chunks[0];
      var s1 := if c.usage.Some? then s.(usage := c.usage.value) else s;
      ChoicesByPieces(s1, c.choices);
      ChunksByPieces(OnChunk(s, c), chunks[1..]);
      OnPiecesJoin(s, ChoicesPieces(c.choices), Pieces(chunks[1..]));
      if c.usage.Some? {
        AnyUsage(s, c.usage.value, ChoicesPieces(c.choices));
        AnyUsage(OnPieces(s, ChoicesPieces(c.choices)), c.usage.value, Pieces(chunks[1..]));
      }
    }
  }

  // ------------------------------------------------------------- slots and gathered

  /** A call slot holds the call gathered under its index, with an ID of its own where none was given. */
  predicate Holds(slot: Slot, call: WholeCall) {
    && slot.CallSlot? && slot.itemID.Minted? && slot.itemID.prefix == "fc_"
    && (if call.id != "" then slot.callID == Given(call.id) else slot.callID.Minted? && slot.callID.prefix == "call_")
    && slot.name == call.name && slot.arguments == call.arguments
  }

  ghost predicate SlotFits(slots: seq<Slot>, i: int, g: Gathered)
    requires 0 <= i < |slots|
  {
    match slots[i]
    case TextSlot(text) => text == g.text
    case CallSlot(index, _, _, _, _, _, _) => index in g.calls && Holds(slots[i], g.calls[index])
  }

  /** Text stands first if there is any, then the calls by ascending tool index. */
  ghost predicate Sorted(slots: seq<Slot>, g: Gathered) {
    && (forall i :: 0 <= i < |slots| ==> SlotFits(slots, i, g) && (slots[i].TextSlot? <==> i == 0 && g.text != ""))
    && (g.text != "" ==> slots != [])
    && CallIndexes(slots) == g.calls.Keys
    && (forall i, j :: 0 <= i < j < |slots| && slots[i].CallSlot? && slots[j].CallSlot? ==>
       slots[i].index < slots[j].index)
  }

  lemma NoSlots(slots: seq<Slot>, g: Gathered)
    requires Sorted(slots, g) && g.text == "" && g.calls == map[]
    ensures slots == []
  {
    SlotsAreCalls(slots);
    assert CallIndexes(slots) == {};
  }

  lemma SlotsAreCalls(slots: seq<Slot>)
    requires forall i :: 0 <= i < |slots| ==> !slots[i].TextSlot?
    ensures slots != [] ==> CallIndexes(slots) != {}
  {
    if slots != [] {
      assert slots[0].CallSlot? && slots[0].index in CallIndexes(slots);
    }
  }

  lemma TextSorts(s: Stream, g: Gathered, delta: string)
    requires Sorted(s.slots, g) && Follows(g, Text(delta))
    ensures Sorted(OnText(s, delta).slots, Take(g, Text(delta)))
  {
    FindTextFinds(s.slots);
    var g' := Take(g, Text(delta));
    if delta == "" {
      assert g.text + "" == g.text;
    } else if g.text == "" {
      NoSlots(s.slots, g);
      var started := StartText(s);
      assert started.slots == [TextSlot("")] && FindText(started.slots) == Some(0);
      assert OnText(s, delta).slots == [TextSlot("" + delta)];
      assert CallIndexes(OnText(s, delta).slots) == {};
    } else {
      assert s.slots[0].TextSlot? && FindText(s.slots) == Some(0);
      var slots' := OnText(s, delta).slots;
      assert slots' == s.slots[0 := TextSlot(g.text + delta)];
      ReplacedIndexes(s.slots, 0, TextSlot(g.text + delta));
      assert forall i :: 0 < i < |s.slots| ==> SlotFits(s.slots, i, g);
    }
  }

  lemma ReplacedIndexes(slots: seq<Slot>, i: nat, slot: Slot)
    requires i < |slots| && slot.CallSlot? == slots[i].CallSlot? && (slot.CallSlot? ==> slot.index == slots[i].index)
    ensures CallIndexes(slots[i := slot]) == CallIndexes(slots)
  {
    forall k | k in CallIndexes(slots) ensures k in CallIndexes(slots[i := slot]) {
      var j :| 0 <= j < |slots| && slots[j].CallSlot? && slots[j].index == k;
      assert slots[i := slot][j].CallSlot?;
    }
    forall k | k in CallIndexes(slots[i := slot]) ensures k in CallIndexes(slots) {
      var j :| 0 <= j < |slots| && slots[i := slot][j].CallSlot? && slots[i := slot][j].index == k;
      assert slots[j].CallSlot?;
    }
  }

  lemma AddedIndexes(slots: seq<Slot>, slot: Slot)
    requires slot.CallSlot?
    ensures CallIndexes(slots + [slot]) == CallIndexes(slots) + {slot.index}
  {
    forall k | k in CallIndexes(slots) + {slot.index} ensures k in CallIndexes(slots + [slot]) {
      if k == slot.index {
        assert (slots + [slot])[|slots|].CallSlot?;
      } else {
        var j :| 0 <= j < |slots| && slots[j].CallSlot? && slots[j].index == k;
        assert (slots + [slot])[j].CallSlot?;
      }
    }
  }

  /** What a fragment makes of the slots: a new one at the end, or a changed one in its place. */
  lemma FragmentSlots(s: Stream, f: Fragment) returns (slot: Slot)
    ensures slot.CallSlot? && slot.index == f.index
    ensures FindCall(s.slots, f.index).None? ==>
              OnFragment(s, f).slots == s.slots + [slot] && Holds(slot, Extended(WholeCall("", "", ""), f))
    ensures FindCall(s.slots, f.index).Some? ==>
              var i := FindCall(s.slots, f.index).value;
              && i < |s.slots| && OnFragment(s, f).slots == s.slots[i := slot]
              && forall call :: Holds(s.slots[i], call) ==> Holds(slot, Extended(call, f))
  {
    FindCallFinds(s.slots, f.index);
    match FindCall(s.slots, f.index)
    case None =>
      slot := OnFragment(s, f).slots[|s.slots|];
      assert "" + f.arguments == f.arguments;
    case Some(i) =>
      slot := OnFragment(s, f).slots[i];
      assert s.slots[i].arguments + "" == s.slots[i].arguments;
      assert OnFragment(s, f).slots == s.slots[i := slot];
  }

  lemma NewCallSorts(slots: seq<Slot>, g: Gathered, f: Fragment, slot: Slot)
    requires Sorted(slots, g) && f.index !in g.calls && forall k :: k in g.calls ==> k < f.index
    requires slot.CallSlot? && slot.index == f.index && Holds(slot, Extended(WholeCall("", "", ""), f))
    ensures Sorted(slots + [slot], Take(g, Call(f)))
  {
    var g', slots' := Take(g, Call(f)), slots + [slot];
    AddedIndexes(slots, slot);
    forall i | 0 <= i < |slots'| ensures SlotFits(slots', i, g') && (slots'[i].TextSlot? <==> i == 0 && g'.text != "") {
      if i < |slots| {
        assert SlotFits(slots, i, g);
      }
    }
    forall i | 0 <= i < |slots| && slots[i].CallSlot? ensures slots[i].index < f.index {
      assert SlotFits(slots, i, g);
    }
  }

  lemma OldCallSorts(slots: seq<Slot>, g: Gathered, f: Fragment, at: nat, slot: Slot)
    requires Sorted(slots, g) && f.index in g.calls && at < |slots| && slots[at].CallSlot? && slots[at].index == f.index
    requires slot.CallSlot? && slot.index == f.index && Holds(slot, Extended(g.calls[f.index], f))
    ensures Sorted(slots[at := slot], Take(g, Call(f)))
  {
    var g', slots' := Take(g, Call(f)), slots[at := slot];
    ReplacedIndexes(slots, at, slot);
    forall i | 0 <= i < |slots'| ensures SlotFits(slots', i, g') && (slots'[i].TextSlot? <==> i == 0 && g'.text != "") {
      assert SlotFits(slots, i, g);
      assert i != at && slots[i].CallSlot? ==> slots[i].index != f.index;
    }
  }

  lemma CallSorts(s: Stream, g: Gathered, f: Fragment)
    requires Sorted(s.slots, g) && Follows(g, Call(f))
    ensures Sorted(OnFragment(s, f).slots, Take(g, Call(f)))
  {
    FindCallFinds(s.slots, f.index);
    var slot := FragmentSlots(s, f);
    if FindCall(s.slots, f.index).None? {
      assert f.index !in CallIndexes(s.slots);
      NewCallSorts(s.slots, g, f, slot);
    } else {
      var i := FindCall(s.slots, f.index).value;
      assert SlotFits(s.slots, i, g);
      OldCallSorts(s.slots, g, f, i, slot);
    }
  }

  lemma {:induction false} PiecesSort(pieces: seq<Piece>)
    requires InOrder(pieces)
    ensures Sorted(OnPieces(Opened(), pieces).slots, Gather(pieces))
  {
    if pieces == [] {
      assert CallIndexes([]) == {};
    } else {
      var before, last := pieces[..|pieces| - 1], pieces[|pieces| - 1];
      assert forall n :: 0 <= n < |before| ==> before[..n] == pieces[..n] && before[n] == pieces[n];
      PiecesSort(before);
      assert Follows(Gather(before), last);
      match last
      case Text(delta) => TextSorts(OnPieces(Opened(), before), Gather(before), delta);
      case Call(f) => CallSorts(OnPieces(Opened(), before), Gather(before), f);
    }
  }

  // ---------------------------------------------------------------- the same output

  /** A name with the number of a minted one left out. */
  function Blank(name: Name): Name {
    if name.Minted? then Minted(name.prefix, 0) else name
  }

  function Shape(item: Item): Item {
    match item
    case MessageItem(id, status, content) => MessageItem(Blank(id), status, content)
    case CallItem(id, status, callID, name, arguments) => CallItem(Blank(id), status, Blank(callID), name, arguments)
  }

  ghost predicate SameShapes(a: seq<Item>, b: seq<Item>) {
    |a| == |b| && forall i :: 0 <= i < |a| ==> Shape(a[i]) == Shape(b[i])
  }

  lemma {:induction false} ListedCalls(l: Listing, calls: seq<WholeCall>)
    ensures var items := ListCalls(l, calls).items;
            && |items| == |l.items| + |calls| && items[..|l.items|] == l.items
            && forall i :: 0 <= i < |calls| ==> Shape(items[|l.items| + i]) == Shape(CallOutput(calls[i], 0))
  {
    if calls != [] {
      ListedCalls(l, calls[..|calls| - 1]);
    }
  }

  lemma OneAnswer(answer: Answer, supply: nat)
    ensures var l := Listing([], supply);
            ListAnswers(l, [answer]) == ListAnswer(l, answer)
  {
    assert [answer][..0] == [];
  }

  /** The tool indexes of the slots from a place on. */
  function IndexesFrom(slots: seq<Slot>, first: nat): seq<int>
    requires first <= |slots| && forall i :: first <= i < |slots| ==> slots[i].CallSlot?
  {
    seq(|slots| - first, i requires 0 <= i < |slots| - first => slots[first + i].index)
  }

  lemma IndexesAre(slots: seq<Slot>, first: nat)
    requires first <= |slots| && forall i :: 0 <= i < |slots| ==> (slots[i].CallSlot? <==> first <= i)
    ensures Elements(IndexesFrom(slots, first)) == CallIndexes(slots)
  {
    var order := IndexesFrom(slots, first);
    forall k | k in CallIndexes(slots) ensures k in Elements(order) {
      var j :| 0 <= j < |slots| && slots[j].CallSlot? && slots[j].index == k;
      assert order[j - first] == k;
    }
    forall k | k in Elements(order) ensures k in CallIndexes(slots) {
      var i :| 0 <= i < |order| && order[i] == k;
      assert slots[first + i].CallSlot?;
    }
  }

  function First(g: Gathered): nat {
    if g.text != "" then 1 else 0
  }

  /** The call slots of sorted slots, after the text if there is any, are in ascending order. */
  lemma SortedCalls(slots: seq<Slot>, g: Gathered)
    requires Sorted(slots, g)
    ensures First(g) <= |slots| && forall i :: 0 <= i < |slots| ==> (slots[i].CallSlot? <==> First(g) <= i)
    ensures IndexesFrom(slots, First(g)) == Ascending(g.calls.Keys)
  {
    IndexesAre(slots, First(g));
    AscendingUnique(IndexesFrom(slots, First(g)), Ascending(g.calls.Keys));
  }

  lemma HeldShape(slot: Slot, call: WholeCall)
    requires Holds(slot, call)
    ensures Shape(FinalItem(slot)) == Shape(CallOutput(call, 0))
  {
  }

  /** What an answer lists: its text if there is any, then one item for each call. */
  lemma AnswerShapes(answer: Answer, supply: nat)
    ensures var items := ListAnswers(Listing([], supply), [answer]).items;
            var first := if answer.content != "" then 1 else 0;
            && |items| == first + |answer.calls|
            && (first == 1 ==> Shape(items[0]) == MessageItem(Minted("msg_", 0), COMPLETED, [answer.content]))
            && forall i :: 0 <= i < |answer.calls| ==> Shape(items[first + i]) == Shape(CallOutput(answer.calls[i], 0))
  {
    OneAnswer(answer, supply);
    var l := if answer.content == "" then Listing([], supply)
             else Listing([] + [MessageItem(Minted("msg_", supply), COMPLETED, [answer.content])], supply + 1);
    ListedCalls(l, answer.calls);
  }

  lemma FoldedCall(g: Gathered, i: nat)
    requires i < |Ascending(g.calls.Keys)|
    ensures |Folded(g).calls| == |Ascending(g.calls.Keys)| && Ascending(g.calls.Keys)[i] in g.calls
    ensures Folded(g).calls[i] == g.calls[Ascending(g.calls.Keys)[i]]
  {
    assert Ascending(g.calls.Keys)[i] in Elements(Ascending(g.calls.Keys));
  }

  lemma SlotShape(slots: seq<Slot>, g: Gathered, at: nat)
    requires at < |slots| && SlotFits(slots, at, g) && slots[at].CallSlot?
    ensures slots[at].index in g.calls && Shape(FinalItem(slots[at])) == Shape(CallOutput(g.calls[slots[at].index], 0))
  {
    HeldShape(slots[at], g.calls[slots[at].index]);
  }

  lemma SlotAt(slots: seq<Slot>, g: Gathered, keys: seq<int>, i: nat)
    requires First(g) <= |slots| && forall j :: 0 <= j < |slots| ==> (slots[j].CallSlot? <==> First(g) <= j)
    requires forall j :: 0 <= j < |slots| ==> SlotFits(slots, j, g)
    requires keys == IndexesFrom(slots, First(g)) && i < |keys|
    ensures var at := First(g) + i;
            at < |slots| && SlotFits(slots, at, g) && slots[at].CallSlot? && slots[at].index == keys[i]
  {
  }

  lemma CallShape(slots: seq<Slot>, g: Gathered, i: nat)
    requires Sorted(slots, g) && i < |Folded(g).calls|
    ensures First(g) + i < |slots| && Shape(FinalItem(slots[First(g) + i])) == Shape(CallOutput(Folded(g).calls[i], 0))
  {
    FoldedCall(g, i);
    SortedCalls(slots, g);
    SlotAt(slots, g, Ascending(g.calls.Keys), i);
    SlotShape(slots, g, First(g) + i);
  }

  lemma TextShape(slots: seq<Slot>, g: Gathered)
    requires Sorted(slots, g) && g.text != ""
    ensures slots != [] && Shape(FinalItem(slots[0])) == MessageItem(Minted("msg_", 0), COMPLETED, [g.text])
  {
    assert SlotFits(slots, 0, g);
  }

  lemma SortedSize(slots: seq<Slot>, g: Gathered)
    requires Sorted(slots, g)
    ensures |slots| == First(g) + |Folded(g).calls|
  {
    SortedCalls(slots, g);
    assert |IndexesFrom(slots, First(g))| == |slots| - First(g);
  }

  lemma ItemShape(slots: seq<Slot>, g: Gathered, items: seq<Item>, i: nat)
    requires Sorted(slots, g) && i < |slots| == |items| == First(g) + |Folded(g).calls|
    requires g.text != "" ==> Shape(items[0]) == MessageItem(Minted("msg_", 0), COMPLETED, [g.text])
    requires forall j :: 0 <= j < |Folded(g).calls| ==>
             Shape(items[First(g) + j]) == Shape(CallOutput(Folded(g).calls[j], 0))
    ensures Shape(FinalItem(slots[i])) == Shape(items[i])
  {
    if i < First(g) {
      TextShape(slots, g);
    } else {
      CallShape(slots, g, i - First(g));
      assert items[First(g) + (i - First(g))] == items[i];
    }
  }

  lemma SortedOutput(slots: seq<Slot>, g: Gathered, supply: nat)
    requires Sorted(slots, g)
    ensures SameShapes(Output(slots), ListAnswers(Listing([], supply), [Folded(g)]).items)
  {
    SortedSize(slots, g);
    AnswerShapes(Folded(g), supply);
    var items := ListAnswers(Listing([], supply), [Folded(g)]).items;
    forall i | 0 <= i < |slots| ensures Shape(Output(slots)[i]) == Shape(items[i]) {
      ItemShape(slots, g, items, i);
    }
  }

  /**
   When the text of a stream begins before any call and tool indexes first appear in
   ascending order, the completed event carries the output that the folded stream has
   as an answer that is not streamed, up to the numbers of minted IDs.
   */
  lemma StreamedOutputIsDocumentOutput(chunks: seq<Chunk>, supply: nat)
    requires InOrder(Pieces(chunks))
    ensures var events := Transcript(chunks, Eof);
            && events != [] && events[|events| - 1].Completed?
            && SameShapes(events[|events| - 1].output,
                          ListAnswers(Listing([], supply), [Folded(Gather(Pieces(chunks)))]).items)
  {
    ChunksByPieces(Opened(), chunks);
    PiecesSort(Pieces(chunks));
    SortedOutput(OnChunks(Opened(), chunks).slots, Gather(Pieces(chunks)), supply);
  }
}

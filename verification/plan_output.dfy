/**
 Collecting the output of a ChatGPT plan response (providers/chatgpt/provider.go,
 collectResponseOutput). A plan stream may report its items one by one, by output
 index, and then send a terminal response whose own output list is empty, partial
 or complete; the two are merged by index and by item ID.
 */
module PlanOutput {
  import opened Wrappers
  import opened AscendingInts

  datatype Call = Call(id: string, name: string, arguments: string)

  datatype Part = OutputText(text: string) | Refusal(refusal: string) | OtherPart

  datatype ChatItem =
    | FunctionCall(call: Call)
    | Message(phase: string, content: seq<Part>)
    | OtherItem

  /**
   One JSON output item: its bytes, and what each decoder makes of them. `id`,
   `phase` and `chat` are None when the value does not decode as that header.
   An absent ID decodes as "".
   */
  datatype RawItem = RawItem(bytes: string, id: Option<string>, phase: Option<string>, chat: Option<ChatItem>)

  datatype Meta = Meta(id: string, model: string, usage: int)

  /** A missing or null output list is Absent. */
  datatype OutputField = Absent | NotAList | Items(items: seq<RawItem>)

  /** A terminal response. `meta` is None when its header fields have the wrong types. */
  datatype Body = NotAnObject | Null | Document(status: string, output: OutputField, meta: Option<Meta>, rest: string)

  const UNREADABLE := "cannot unmarshal"
  const NO_BODY := "chatgpt: completed response is missing its body"

  // ------------------------------------------------------------- reference form

  /** The merge so far: items by index, the IDs they carry, and an index above all of them. */
  datatype Merge = Merge(output: map<int, RawItem>, ids: set<string>, next: nat)

  predicate Readable(item: RawItem) {
    item.id.Some?
  }

  ghost predicate AllReadable(output: map<int, RawItem>) {
    forall k :: k in output ==> Readable(output[k])
  }

  ghost function IDs(output: map<int, RawItem>): set<string> {
    set k | k in output && output[k].id.Some? && output[k].id.value != "" :: output[k].id.value
  }

  predicate Bounds(next: nat, keys: set<int>) {
    (forall k :: k in keys ==> k < next) && (next > 0 ==> next - 1 in keys)
  }

  ghost function Next(keys: set<int>): (next: nat)
    ensures Bounds(next, keys)
  {
    NextExists(keys);
    var next: nat :| Bounds(next, keys);
    next
  }

  lemma {:induction false} NextExists(keys: set<int>)
    ensures exists next: nat :: Bounds(next, keys)
  {
    if keys == {} {
      assert Bounds(0, keys);
    } else {
      var key := Member(keys);
      NextExists(keys - {key});
      var below: nat :| Bounds(below, keys - {key});
      assert forall k :: k in keys ==> k == key || k in keys - {key};
      assert Bounds(if key >= below then key + 1 else below, keys);
    }
  }

  function Mark(ids: set<string>, id: string): set<string> {
    if id == "" then ids else ids + {id}
  }

  /** One terminal item at its own index: dropped if already there, moved past the end if its place is taken. */
  function Place(m: Merge, index: nat, item: RawItem): Merge
    requires Readable(item)
  {
    var id := item.id.value;
    if id != "" && id in m.ids then m
    else if index in m.output && id == "" then m
    else
      var at := if index in m.output then m.next else index;
      Merge(m.output[at := item], Mark(m.ids, id), if at >= m.next then at + 1 else m.next)
  }

  function PlaceAll(m: Merge, terminal: seq<RawItem>): Merge
    requires forall i :: 0 <= i < |terminal| ==> Readable(terminal[i])
  {
    if terminal == [] then m
    else Place(PlaceAll(m, terminal[..|terminal| - 1]), |terminal| - 1, terminal[|terminal| - 1])
  }

  ghost function Streamed(output: map<int, RawItem>): Merge {
    Merge(output, IDs(output), Next(output.Keys))
  }

  /** The items at these indexes. */
  function Values(output: map<int, RawItem>, keys: seq<int>): seq<RawItem>
    requires forall i :: 0 <= i < |keys| ==> keys[i] in output
  {
    seq(|keys|, i requires 0 <= i < |keys| => output[keys[i]])
  }

  lemma KeysOf(keys: seq<int>, all: set<int>)
    requires Lists(keys, all)
    ensures forall i :: 0 <= i < |keys| ==> keys[i] in all
  {
    assert forall i :: 0 <= i < |keys| ==> keys[i] in Elements(keys);
  }

  ghost function Listed(output: map<int, RawItem>): seq<RawItem> {
    KeysOf(Ascending(output.Keys), output.Keys);
    Values(output, Ascending(output.Keys))
  }

  function Terminal(body: Body): seq<RawItem>
    requires body.Document?
  {
    if body.output.Items? then body.output.items else []
  }

  ghost function Merged(streamed: map<int, RawItem>, terminal: seq<RawItem>): map<int, RawItem>
    requires forall i :: 0 <= i < |terminal| ==> Readable(terminal[i])
  {
    PlaceAll(Streamed(streamed), terminal).output
  }

  ghost predicate Collectable(body: Body, streamed: map<int, RawItem>) {
    && body.Document? && !body.output.NotAList? && AllReadable(streamed)
    && forall i :: 0 <= i < |Terminal(body)| ==> Readable(Terminal(body)[i])
  }

  ghost function Collect(body: Body, streamed: map<int, RawItem>): Result<Body> {
    if streamed == map[] then Success(body)
    else if body.Null? then Failure(NO_BODY)
    else if !Collectable(body, streamed) then Failure(UNREADABLE)
    else Success(body.(output := Items(Listed(Merged(streamed, Terminal(body))))))
  }

  // ------------------------------------------------------------------ the method

  /** Read the streamed items in whatever order the map gives them. */
  method ReadStreamed(output: map<int, RawItem>) returns (ok: bool, ids: set<string>, next: nat)
    ensures ok <==> AllReadable(output)
    ensures ok ==> Merge(output, ids, next) == Streamed(output)
  {
    ids, next := {}, 0;
    var left := output.Keys;
    while left != {}
      invariant left <= output.Keys
      invariant forall k :: k in output && k !in left ==> Readable(output[k])
      invariant forall id :: id in ids <==>
                exists k :: k in output && k !in left && output[k].id == Some(id) && id != ""
      invariant Bounds(next, output.Keys - left)
      decreases left
    {
      ghost var member := Member(left);
      var index :| index in left;
      var item := output[index];
      if !Readable(item) {
        return false, {}, 0;
      }
      ids := Mark(ids, item.id.value);
      if index >= next {
        next := index + 1;
      }
      assert output.Keys - (left - {index}) == output.Keys - left + {index};
      left := left - {index};
    }
    ok := true;
    assert output.Keys - left == output.Keys;
    assert ids == IDs(output);
  }

  /** Place the terminal items one after the other. */
  method PlaceTerminal(output: map<int, RawItem>, seen: set<string>, free: nat, terminal: seq<RawItem>)
    returns (ok: bool, placed: map<int, RawItem>)
    ensures ok <==> forall i :: 0 <= i < |terminal| ==> Readable(terminal[i])
    ensures ok ==> placed == PlaceAll(Merge(output, seen, free), terminal).output
  {
    placed := output;
    var ids, next: nat := seen, free;
    var n := 0;
    while n < |terminal|
      invariant 0 <= n <= |terminal|
      invariant forall i :: 0 <= i < n ==> Readable(terminal[i])
      invariant Merge(placed, ids, next) == PlaceAll(Merge(output, seen, free), terminal[..n])
    {
      var item := terminal[n];
      if !Readable(item) {
        return false, placed;
      }
      var id := item.id.value;
      assert terminal[..n + 1][..n] == terminal[..n];
      if id != "" && id in ids {
        n := n + 1;
        continue;
      }
      var index := n;
      if index in placed {
        if id == "" {
          n := n + 1;
          continue;
        }
        index := next;
        next := next + 1;
      }
      placed := placed[index := item];
      ids := Mark(ids, id);
      if index >= next {
        next := index + 1;
      }
      n := n + 1;
    }
    assert terminal[..n] == terminal;
    ok := true;
  }

  /** The items by ascending index. */
  method ListByIndex(output: map<int, RawItem>) returns (items: seq<RawItem>)
    ensures items == Listed(output)
  {
    var indexes := SortKeys(output.Keys);
    KeysOf(indexes, output.Keys);
    items := [];
    var n := 0;
    while n < |indexes|
      invariant 0 <= n <= |indexes|
      invariant items == Values(output, indexes)[..n]
    {
      items := items + [output[indexes[n]]];
      n := n + 1;
    }
  }

  method CollectResponseOutput(body: Body, output: map<int, RawItem>) returns (r: Result<Body>)
    ensures r == Collect(body, output)
  {
    if output == map[] {
      return Success(body);
    }
    if body.NotAnObject? {
      return Failure(UNREADABLE);
    }
    if body.Null? {
      return Failure(NO_BODY);
    }
    if body.output.NotAList? {
      return Failure(UNREADABLE);
    }
    var ok, ids, next := ReadStreamed(output);
    if !ok {
      return Failure(UNREADABLE);
    }
    var placed;
    ok, placed := PlaceTerminal(output, ids, next, Terminal(body));
    if !ok {
      return Failure(UNREADABLE);
    }
    var items := ListByIndex(placed);
    r := Success(body.(output := Items(items)));
  }
}

/** What the merge of streamed and terminal output keeps, and when it can be repeated. */
module PlanOutputTheorems {
  import opened Wrappers
  import opened AscendingInts
  import opened PlanOutput

  ghost predicate SameID(a: RawItem, b: RawItem) {
    a.id == b.id && a.id.Some? && a.id.value != ""
  }

  /** Streamed items are untouched and no other item repeats an ID. */
  ghost predicate Sound(m: Merge, streamed: map<int, RawItem>) {
    && m.ids == IDs(m.output)
    && Bounds(m.next, m.output.Keys)
    && (forall k :: k in streamed ==> k in m.output && m.output[k] == streamed[k])
    && (forall k, j :: k in m.output && j in m.output && k != j && SameID(m.output[k], m.output[j]) ==>
       k in streamed && j in streamed)
  }

  ghost predicate Holds(output: map<int, RawItem>, item: RawItem) {
    exists k :: k in output && SameID(output[k], item)
  }

  /** `later` adds only items of `source`, and takes nothing away. */
  ghost predicate Adds(output: map<int, RawItem>, later: map<int, RawItem>, source: seq<RawItem>) {
    && (forall k :: k in output ==> k in later && later[k] == output[k])
    && (forall k :: k in later ==> k in output || later[k] in source)
  }

  lemma DroppedIsHeld(m: Merge, item: RawItem)
    requires m.ids == IDs(m.output) && Readable(item) && item.id.value in m.ids
    ensures Holds(m.output, item)
  {
    var k :| k in m.output && m.output[k].id.Some? && m.output[k].id.value == item.id.value && item.id.value != "";
    assert SameID(m.output[k], item);
  }

  /** A new item at a free index. */
  lemma PlacedKeeps(m: Merge, streamed: map<int, RawItem>, at: nat, item: RawItem, m': Merge)
    requires Sound(m, streamed) && Readable(item) && at !in m.output
    requires item.id.value == "" || item.id.value !in m.ids
    requires m' == Merge(m.output[at := item], Mark(m.ids, item.id.value), if at >= m.next then at + 1 else m.next)
    ensures Sound(m', streamed) && Adds(m.output, m'.output, [item]) && (item.id.value != "" ==> Holds(m'.output, item))
  {
    assert item in [item];
    assert m'.output[at].id == item.id;
    forall id | id in m.ids ensures id in IDs(m'.output) {
      var k :| k in m.output && m.output[k].id.Some? && m.output[k].id.value == id;
      assert m'.output[k].id == Some(id);
    }
    assert m'.ids == IDs(m'.output);
    if item.id.value != "" {
      assert SameID(m'.output[at], item);
    }
    forall k | k in m.output ensures !SameID(m.output[k], item) {
      assert m.output[k].id.Some? && m.output[k].id.value != "" ==> m.output[k].id.value in IDs(m.output);
    }
  }

  lemma PlaceKeeps(m: Merge, streamed: map<int, RawItem>, index: nat, item: RawItem)
    requires Sound(m, streamed) && Readable(item)
    ensures var m' := Place(m, index, item);
            Sound(m', streamed) && Adds(m.output, m'.output, [item]) && (item.id.value != "" ==> Holds(m'.output, item))
  {
    if item.id.value != "" && item.id.value in m.ids {
      DroppedIsHeld(m, item);
    } else if !(index in m.output && item.id.value == "") {
      PlacedKeeps(m, streamed, if index in m.output then m.next else index, item, Place(m, index, item));
    }
  }

  ghost predicate HoldsAll(output: map<int, RawItem>, items: seq<RawItem>) {
    forall i :: 0 <= i < |items| && items[i].id.Some? && items[i].id.value != "" ==> Holds(output, items[i])
  }

  lemma AddsTwice(first: map<int, RawItem>, second: map<int, RawItem>, third: map<int, RawItem>, items: seq<RawItem>,
      item: RawItem)
    requires Adds(first, second, items) && Adds(second, third, [item]) && HoldsAll(second, items)
    requires item.id.Some? && item.id.value != "" ==> Holds(third, item)
    ensures Adds(first, third, items + [item]) && HoldsAll(third, items + [item])
  {
    forall k | k in third && k !in first ensures third[k] in items + [item] {
      if k in second {
        assert third[k] in items;
      }
    }
    forall i | 0 <= i < |items| && items[i].id.Some? && items[i].id.value != "" ensures Holds(third, items[i]) {
      var k :| k in second && SameID(second[k], items[i]);
      assert SameID(third[k], items[i]);
    }
  }

  ghost predicate Kept(m: Merge, later: Merge, streamed: map<int, RawItem>, items: seq<RawItem>) {
    Sound(later, streamed) && Adds(m.output, later.output, items) && HoldsAll(later.output, items)
  }

  lemma PlaceNextKeeps(m: Merge, before: Merge, streamed: map<int, RawItem>, items: seq<RawItem>, n: nat, item: RawItem)
    requires Kept(m, before, streamed, items) && Readable(item)
    ensures Kept(m, Place(before, n, item), streamed, items + [item])
  {
    PlaceKeeps(before, streamed, n, item);
    AddsTwice(m.output, before.output, Place(before, n, item).output, items, item);
  }

  lemma {:induction false} PlaceAllKeeps(m: Merge, streamed: map<int, RawItem>, terminal: seq<RawItem>)
    requires Sound(m, streamed)
    requires forall i :: 0 <= i < |terminal| ==> Readable(terminal[i])
    ensures Kept(m, PlaceAll(m, terminal), streamed, terminal)
    decreases |terminal|
  {
    if terminal != [] {
      var n := |terminal| - 1;
      PlaceAllKeeps(m, streamed, terminal[..n]);
      PlaceNextKeeps(m, PlaceAll(m, terminal[..n]), streamed, terminal[..n], n, terminal[n]);
      assert terminal[..n] + [terminal[n]] == terminal;
    }
  }

  lemma StreamedSound(streamed: map<int, RawItem>)
    requires AllReadable(streamed)
    ensures Sound(Streamed(streamed), streamed)
  {
  }

  /** `items` are the items of `output` by ascending key. */
  ghost predicate Spells(items: seq<RawItem>, output: map<int, RawItem>, keys: seq<int>) {
    && Lists(keys, output.Keys)
    && (forall i :: 0 <= i < |keys| ==> keys[i] in output)
    && items == Values(output, keys)
  }

  /** `at` says where each key's item stands in the list. */
  ghost predicate Stands(at: map<int, nat>, output: map<int, RawItem>, items: seq<RawItem>) {
    && at.Keys == output.Keys
    && (forall k :: k in output ==> at[k] < |items| && items[at[k]] == output[k])
    && (forall k, j :: k in output && j in output && k < j ==> at[k] < at[j])
  }

  /** The position of each key in an ascending list. */
  lemma {:induction false} Positions(keys: seq<int>) returns (at: map<int, nat>)
    requires IsAscending(keys)
    ensures forall k :: k in at <==> k in keys
    ensures forall i :: 0 <= i < |keys| ==> keys[i] in at && at[keys[i]] == i
    decreases |keys|
  {
    if keys == [] {
      at := map[];
    } else {
      var n := |keys| - 1;
      var before := Positions(keys[..n]);
      at := before[keys[n] := n];
      assert forall i :: 0 <= i < n ==> keys[..n][i] == keys[i] && keys[i] < keys[n];
    }
  }

  lemma ListedAt(output: map<int, RawItem>, keys: seq<int>) returns (at: map<int, nat>)
    requires Lists(keys, output.Keys)
    ensures forall i :: 0 <= i < |keys| ==> keys[i] in output
    ensures Stands(at, output, Values(output, keys))
    ensures forall i :: 0 <= i < |keys| ==> at[keys[i]] == i
  {
    KeysOf(keys, output.Keys);
    at := Positions(keys);
    assert forall k :: k in at <==> k in Elements(keys);
    forall k, j | k in output && j in output && k < j ensures at[k] < at[j] {
      assert keys[at[k]] == k && keys[at[j]] == j;
    }
  }

  /**
   Whenever the merge succeeds on streamed items: each streamed item is in the
   result unchanged and in index order, every terminal ID is in it, everything in it
   came from one of the two sources, and an ID occurs twice only if it was streamed twice.
   */
  lemma MergeKeepsEveryItemAndID(body: Body, streamed: map<int, RawItem>, merged: Body) returns (at: map<int, nat>)
    requires streamed != map[] && Collect(body, streamed) == Success(merged)
    ensures merged.Document? && merged.output.Items? && body.Document?
    ensures Stands(at, streamed, merged.output.items)
    ensures var items := merged.output.items;
            && (forall p: nat, q: nat :: p < q < |items| && SameID(items[p], items[q]) ==>
               p in at.Values && q in at.Values)
            && (forall p: nat :: p < |items| && items[p] !in Terminal(body) ==> p in at.Values)
            && (forall i: nat ::
                  i < |Terminal(body)| && Readable(Terminal(body)[i]) && Terminal(body)[i].id.value != "" ==>
                  exists p: nat :: p < |items| && SameID(items[p], Terminal(body)[i]))
  {
    var m, keys := CollectedIs(body, streamed, merged);
    at := KeptPositions(m, streamed, Terminal(body), keys, merged.output.items);
  }

  lemma CollectedIs(body: Body, streamed: map<int, RawItem>, merged: Body) returns (m: Merge, keys: seq<int>)
    requires streamed != map[] && Collect(body, streamed) == Success(merged)
    ensures body.Document? && merged.Document? && merged.output.Items?
    ensures forall i :: 0 <= i < |Terminal(body)| ==> Readable(Terminal(body)[i])
    ensures Kept(Streamed(streamed), m, streamed, Terminal(body)) && Spells(merged.output.items, m.output, keys)
  {
    StreamedSound(streamed);
    PlaceAllKeeps(Streamed(streamed), streamed, Terminal(body));
    m := PlaceAll(Streamed(streamed), Terminal(body));
    keys := Ascending(m.output.Keys);
    KeysOf(keys, m.output.Keys);
  }

  lemma KeptPositions(m: Merge, streamed: map<int, RawItem>, terminal: seq<RawItem>, keys: seq<int>,
      items: seq<RawItem>)
    returns (at: map<int, nat>)
    requires Kept(Streamed(streamed), m, streamed, terminal) && Spells(items, m.output, keys)
    requires forall i :: 0 <= i < |terminal| ==> Readable(terminal[i])
    ensures Stands(at, streamed, items)
    ensures forall p: nat, q: nat :: p < q < |items| && SameID(items[p], items[q]) ==> p in at.Values && q in at.Values
    ensures forall p: nat :: p < |items| && items[p] !in terminal ==> p in at.Values
    ensures forall i: nat :: i < |terminal| && Readable(terminal[i]) && terminal[i].id.value != "" ==>
              exists p: nat :: p < |items| && SameID(items[p], terminal[i])
  {
    var all := ListedAt(m.output, keys);
    at := map k | k in streamed :: all[k];
    forall p: nat | p < |items| && keys[p] in streamed ensures p in at.Values {
      assert at[keys[p]] == p;
    }
    HeldIsListed(m.output, terminal, all, items);
    RepeatsAreStreamed(m, streamed, keys);
  }

  lemma HeldIsListed(output: map<int, RawItem>, terminal: seq<RawItem>, all: map<int, nat>, items: seq<RawItem>)
    requires HoldsAll(output, terminal) && Stands(all, output, items)
    requires forall i :: 0 <= i < |terminal| ==> Readable(terminal[i])
    ensures forall i: nat :: i < |terminal| && Readable(terminal[i]) && terminal[i].id.value != "" ==>
            exists p: nat :: p < |items| && SameID(items[p], terminal[i])
  {
    forall i: nat | i < |terminal| && Readable(terminal[i]) && terminal[i].id.value != ""
      ensures exists p: nat :: p < |items| && SameID(items[p], terminal[i])
    {
      assert Holds(output, terminal[i]);
      var k :| k in output && SameID(output[k], terminal[i]);
      assert SameID(items[all[k]], terminal[i]);
    }
  }

  lemma RepeatsAreStreamed(m: Merge, streamed: map<int, RawItem>, keys: seq<int>)
    requires Sound(m, streamed) && Lists(keys, m.output.Keys)
    requires forall i :: 0 <= i < |keys| ==> keys[i] in m.output
    ensures forall p: nat, q: nat :: p < q < |keys| && SameID(Values(m.output, keys)[p], Values(m.output, keys)[q]) ==>
              keys[p] in streamed && keys[q] in streamed
  {
  }

  // --------------------------------------------- which of the terminal items stay

  lemma NextMovesNothing(m: Merge, streamed: map<int, RawItem>, terminal: seq<RawItem>, at: int)
    requires Sound(m, streamed) && terminal != [] && forall i :: 0 <= i < |terminal| ==> Readable(terminal[i])
    requires at in PlaceAll(m, terminal[..|terminal| - 1]).output
    ensures at in PlaceAll(m, terminal).output
    ensures PlaceAll(m, terminal).output[at] == PlaceAll(m, terminal[..|terminal| - 1]).output[at]
  {
    var n := |terminal| - 1;
    PlaceAllKeeps(m, streamed, terminal[..n]);
    PlaceKeeps(PlaceAll(m, terminal[..n]), streamed, n, terminal[n]);
  }

  /** What is placed stays where it is. */
  lemma {:induction false} NothingIsMoved(m: Merge, streamed: map<int, RawItem>, terminal: seq<RawItem>, j: nat,
      at: int)
    requires Sound(m, streamed) && j <= |terminal| && forall i :: 0 <= i < |terminal| ==> Readable(terminal[i])
    requires at in PlaceAll(m, terminal[..j]).output
    ensures at in PlaceAll(m, terminal).output
    ensures PlaceAll(m, terminal).output[at] == PlaceAll(m, terminal[..j]).output[at]
    decreases |terminal|
  {
    if j == |terminal| {
      assert terminal[..j] == terminal;
    } else {
      var before := terminal[..|terminal| - 1];
      assert before[..j] == terminal[..j];
      NothingIsMoved(m, streamed, before, j, at);
      NextMovesNothing(m, streamed, terminal, at);
    }
  }

  lemma NewIDIsFree(m: Merge, streamed: map<int, RawItem>, terminal: seq<RawItem>, id: string)
    requires Kept(Streamed(streamed), m, streamed, terminal)
    requires forall k :: k in streamed ==> streamed[k].id != Some(id)
    requires forall i :: 0 <= i < |terminal| ==> terminal[i].id != Some(id)
    ensures id !in m.ids
  {
  }

  lemma NewIDIsPlaced(m: Merge, index: nat, item: RawItem) returns (at: int)
    requires Readable(item) && item.id.value != "" && item.id.value !in m.ids
    ensures at in Place(m, index, item).output && Place(m, index, item).output[at] == item
  {
    at := if index in m.output then m.next else index;
  }

  lemma FirstIsPlaced(streamed: map<int, RawItem>, terminal: seq<RawItem>, j: nat) returns (at: int)
    requires AllReadable(streamed) && forall i :: 0 <= i < |terminal| ==> Readable(terminal[i])
    requires j < |terminal| && terminal[j].id.Some? && terminal[j].id.value != ""
    requires forall k :: k in streamed ==> streamed[k].id != terminal[j].id
    requires forall i :: 0 <= i < j ==> terminal[i].id != terminal[j].id
    ensures at in PlaceAll(Streamed(streamed), terminal[..j + 1]).output
    ensures PlaceAll(Streamed(streamed), terminal[..j + 1]).output[at] == terminal[j]
  {
    var m, before := Streamed(streamed), terminal[..j];
    StreamedSound(streamed);
    PlaceAllKeeps(m, streamed, before);
    NewIDIsFree(PlaceAll(m, before), streamed, before, terminal[j].id.value);
    at := NewIDIsPlaced(PlaceAll(m, before), j, terminal[j]);
    assert terminal[..j + 1][..j] == before && terminal[..j + 1][j] == terminal[j];
  }

  lemma PlacedIsListed(output: map<int, RawItem>, at: int)
    requires at in output
    ensures output[at] in Listed(output)
  {
    var keys := Ascending(output.Keys);
    KeysOf(keys, output.Keys);
    assert at in Elements(keys);
    var p :| 0 <= p < |keys| && keys[p] == at;
    assert Listed(output)[p] == output[at];
  }

  /** A terminal item with an ID that was neither streamed nor used by an item before it is in the result. */
  lemma FirstWithItsIDIsKept(body: Body, streamed: map<int, RawItem>, merged: Body, j: nat)
    requires streamed != map[] && Collect(body, streamed) == Success(merged)
    requires body.Document? && j < |Terminal(body)| && Terminal(body)[j].id.Some? && Terminal(body)[j].id.value != ""
    requires forall k :: k in streamed ==> streamed[k].id != Terminal(body)[j].id
    requires forall i :: 0 <= i < j ==> Terminal(body)[i].id != Terminal(body)[j].id
    ensures merged.Document? && merged.output.Items? && Terminal(body)[j] in merged.output.items
  {
    var terminal := Terminal(body);
    var at := FirstIsPlaced(streamed, terminal, j);
    StreamedSound(streamed);
    NothingIsMoved(Streamed(streamed), streamed, terminal, j + 1, at);
    PlacedIsListed(Merged(streamed, terminal), at);
  }

  // ---------------------------------------------------- streamed without gaps

  /** Which terminal items survive, told without any placing: the new ones, with unnamed ones only past the end. */
  datatype Survival = Survival(items: seq<RawItem>, ids: set<string>, end: nat)

  function Survive(s: Survival, index: nat, item: RawItem): Survival
    requires Readable(item)
  {
    var id := item.id.value;
    if (if id == "" then index < s.end else id in s.ids) then s
    else Survival(s.items + [item], Mark(s.ids, id), if index < s.end then s.end + 1 else index + 1)
  }

  function Survivors(s: Survival, terminal: seq<RawItem>): Survival
    requires forall i :: 0 <= i < |terminal| ==> Readable(terminal[i])
  {
    if terminal == [] then s
    else Survive(Survivors(s, terminal[..|terminal| - 1]), |terminal| - 1, terminal[|terminal| - 1])
  }

  ghost predicate Contiguous(streamed: map<int, RawItem>, k: nat) {
    forall i :: i in streamed <==> 0 <= i < k
  }

  lemma ListedGrows(output: map<int, RawItem>, keys: seq<int>, at: int, item: RawItem)
    requires Lists(keys, output.Keys) && forall k :: k in output ==> k < at
    requires forall i :: 0 <= i < |keys| ==> keys[i] in output
    ensures Lists(keys + [at], output[at := item].Keys)
    ensures forall i :: 0 <= i < |keys + [at]| ==> (keys + [at])[i] in output[at := item]
    ensures Values(output[at := item], keys + [at]) == Values(output, keys) + [item]
  {
    var grown := keys + [at];
    forall k | k in output.Keys + {at} ensures k in Elements(grown) {
      if k == at {
        assert grown[|keys|] == at;
      } else {
        assert k in Elements(keys);
        var i :| 0 <= i < |keys| && keys[i] == k;
        assert grown[i] == k;
      }
    }
  }

  lemma ListedIs(output: map<int, RawItem>, keys: seq<int>)
    requires Lists(keys, output.Keys)
    ensures forall i :: 0 <= i < |keys| ==> keys[i] in output
    ensures Listed(output) == Values(output, keys)
  {
    KeysOf(keys, output.Keys);
    AscendingUnique(keys, Ascending(output.Keys));
  }

  /** The merge and the survivors, side by side, once `n` terminal items are read. */
  ghost predicate Appending(m: Merge, s: Survival, n: nat) {
    && m.ids == s.ids && m.next == s.end
    && Bounds(m.next, m.output.Keys)
    && forall i :: n <= i < m.next ==> i in m.output
  }

  lemma PlaceAppends(m: Merge, first: seq<RawItem>, s: Survival, n: nat, item: RawItem, keys: seq<int>)
      returns (keys': seq<int>)
    requires Appending(m, s, n) && Readable(item) && Spells(first + s.items, m.output, keys)
    ensures Appending(Place(m, n, item), Survive(s, n, item), n + 1)
    ensures Spells(first + Survive(s, n, item).items, Place(m, n, item).output, keys')
  {
    keys' := keys;
    var id := item.id.value;
    if !(if id == "" then n in m.output else id in m.ids) {
      var at := if n in m.output then m.next else n;
      ListedGrows(m.output, keys, at, item);
      keys' := keys + [at];
      assert first + s.items + [item] == first + (s.items + [item]);
    }
  }

  lemma {:induction false} PlaceAllAppends(m: Merge, first: seq<RawItem>, s: Survival, terminal: seq<RawItem>,
      keys: seq<int>)
    returns (keys': seq<int>)
    requires Appending(m, s, 0) && Spells(first + s.items, m.output, keys)
    requires forall i :: 0 <= i < |terminal| ==> Readable(terminal[i])
    ensures Appending(PlaceAll(m, terminal), Survivors(s, terminal), |terminal|)
    ensures Spells(first + Survivors(s, terminal).items, PlaceAll(m, terminal).output, keys')
    decreases |terminal|
  {
    if terminal == [] {
      keys' := keys;
    } else {
      var n := |terminal| - 1;
      var before := PlaceAllAppends(m, first, s, terminal[..n], keys);
      keys' := PlaceAppends(PlaceAll(m, terminal[..n]), first, Survivors(s, terminal[..n]), n, terminal[n], before);
    }
  }

  ghost function From(streamed: map<int, RawItem>, k: nat): Survival {
    Survival([], IDs(streamed), k)
  }

  /** The items of indexes 0..k-1 in order. */
  ghost predicate InPlace(first: seq<RawItem>, streamed: map<int, RawItem>, k: nat) {
    Contiguous(streamed, k) && |first| == k && forall i :: 0 <= i < k ==> first[i] == streamed[i]
  }

  lemma ContiguousListed(streamed: map<int, RawItem>, k: nat) returns (keys: seq<int>)
    requires Contiguous(streamed, k)
    ensures Spells(Listed(streamed), streamed, keys) && InPlace(Listed(streamed), streamed, k)
  {
    keys := seq(k, i => i);
    forall i | i in streamed ensures i in Elements(keys) {
      assert keys[i] == i;
    }
    assert Elements(keys) == streamed.Keys;
    ListedIs(streamed, keys);
  }

  lemma MergeSpells(first: seq<RawItem>, streamed: map<int, RawItem>, k: nat, terminal: seq<RawItem>, keys: seq<int>)
    returns (keys': seq<int>)
    requires InPlace(first, streamed, k) && Spells(first, streamed, keys)
    requires forall i :: 0 <= i < |terminal| ==> Readable(terminal[i])
    ensures Spells(first + Survivors(From(streamed, k), terminal).items, Merged(streamed, terminal), keys')
  {
    var m := Streamed(streamed);
    assert m.next == k by {
      assert k > 0 ==> k - 1 in streamed;
      assert m.next > 0 ==> m.next - 1 in streamed;
    }
    assert first + [] == first;
    keys' := PlaceAllAppends(m, first, From(streamed, k), terminal, keys);
  }

  /** Streamed indexes 0..k-1: the result is the streamed items, then the survivors in their own order. */
  lemma ContiguousMergeAppends(streamed: map<int, RawItem>, k: nat, terminal: seq<RawItem>)
      returns (first: seq<RawItem>)
    requires Contiguous(streamed, k)
    requires forall i :: 0 <= i < |terminal| ==> Readable(terminal[i])
    ensures InPlace(first, streamed, k)
    ensures Listed(Merged(streamed, terminal)) == first + Survivors(From(streamed, k), terminal).items
  {
    var keys := ContiguousListed(streamed, k);
    first := Listed(streamed);
    var keys' := MergeSpells(first, streamed, k, terminal, keys);
    ListedIs(Merged(streamed, terminal), keys');
  }

  /** Survivors are new: no streamed ID, no ID twice. */
  ghost predicate AllNew(items: seq<RawItem>, ids: set<string>) {
    && (forall i :: 0 <= i < |items| ==> Readable(items[i]) && (items[i].id.value != "" ==> items[i].id.value !in ids))
    && (forall i, j :: 0 <= i < j < |items| ==> !SameID(items[i], items[j]))
  }

  ghost predicate Marked(s: Survival, ids: set<string>) {
    && AllNew(s.items, ids)
    && (forall id :: id in s.ids <==>
       id in ids || exists i :: 0 <= i < |s.items| && s.items[i].id == Some(id) && id != "")
  }

  lemma {:induction false} SurvivorsAreNew(s: Survival, ids: set<string>, terminal: seq<RawItem>)
    requires Marked(s, ids)
    requires forall i :: 0 <= i < |terminal| ==> Readable(terminal[i])
    ensures Marked(Survivors(s, terminal), ids)
    decreases |terminal|
  {
    if terminal != [] {
      var n := |terminal| - 1;
      SurvivorsAreNew(s, ids, terminal[..n]);
      var before, item := Survivors(s, terminal[..n]), terminal[n];
      var after := Survive(before, n, item);
      if after != before {
        assert after.items == before.items + [item];
        forall id | id in after.ids
          ensures id in ids || exists i :: 0 <= i < |after.items| && after.items[i].id == Some(id) && id != ""
        {
          if id !in ids {
            if id in before.ids {
              var i :| 0 <= i < |before.items| && before.items[i].id == Some(id) && id != "";
              assert after.items[i].id == Some(id);
            } else {
              assert after.items[|before.items|].id == Some(id);
            }
          }
        }
      }
    }
  }

  /** Reading the streamed items back as terminal items drops all of them. */
  lemma {:induction false} StreamedDoNotSurvive(first: seq<RawItem>, streamed: map<int, RawItem>, k: nat, n: nat)
    requires InPlace(first, streamed, k) && AllReadable(streamed) && n <= k
    ensures forall i :: 0 <= i < n ==> Readable(first[..n][i])
    ensures Survivors(From(streamed, k), first[..n]) == From(streamed, k)
  {
    if n > 0 {
      StreamedDoNotSurvive(first, streamed, k, n - 1);
      assert first[..n][..n - 1] == first[..n - 1];
      assert first[n - 1] == streamed[n - 1];
      assert streamed[n - 1].id.value != "" ==> streamed[n - 1].id.value in IDs(streamed);
    }
  }

  lemma NotSeen(items: seq<RawItem>, ids: set<string>, seen: set<string>, n: nat)
    requires n < |items| && AllNew(items, ids)
    requires forall id :: id in seen ==> id in ids || exists i :: 0 <= i < n && items[i].id == Some(id) && id != ""
    ensures items[n].id.value != "" ==> items[n].id.value !in seen
  {
    assert forall i :: 0 <= i < n ==> !SameID(items[i], items[n]);
  }

  /** New items read right after the first `k` survive again, in place. */
  lemma {:induction false} NewSurviveAgain(first: seq<RawItem>, items: seq<RawItem>, ids: set<string>, n: nat)
      returns (s: Survival)
    requires n <= |items| && AllNew(items, ids)
    requires forall i :: 0 <= i < |first| ==> Readable(first[i])
    requires Survivors(Survival([], ids, |first|), first) == Survival([], ids, |first|)
    ensures s == Survivors(Survival([], ids, |first|), first + items[..n])
    ensures s.items == items[..n] && s.end == |first| + n
    ensures forall id :: id in s.ids ==> id in ids || exists i :: 0 <= i < n && items[i].id == Some(id) && id != ""
  {
    if n == 0 {
      assert first + items[..0] == first;
      s := Survival([], ids, |first|);
    } else {
      var before := NewSurviveAgain(first, items, ids, n - 1);
      var read := first + items[..n];
      assert read[..|read| - 1] == first + items[..n - 1];
      var item := items[n - 1];
      assert read[|read| - 1] == item;
      NotSeen(items, ids, before.ids, n - 1);
      s := Survive(before, |read| - 1, item);
    }
  }

  /** Reading back the streamed items and then the survivors, exactly the survivors survive. */
  lemma SameSurvive(first: seq<RawItem>, streamed: map<int, RawItem>, k: nat, terminal: seq<RawItem>)
    requires InPlace(first, streamed, k) && AllReadable(streamed)
    requires forall i :: 0 <= i < |terminal| ==> Readable(terminal[i])
    ensures var survivors := Survivors(From(streamed, k), terminal).items;
            && (forall i :: 0 <= i < |first + survivors| ==> Readable((first + survivors)[i]))
            && Survivors(From(streamed, k), first + survivors).items == survivors
  {
    var survivors := Survivors(From(streamed, k), terminal).items;
    SurvivorsAreNew(From(streamed, k), IDs(streamed), terminal);
    StreamedDoNotSurvive(first, streamed, k, k);
    assert first[..k] == first;
    var again := NewSurviveAgain(first, survivors, IDs(streamed), |survivors|);
    assert survivors[..|survivors|] == survivors;
  }

  /** Streamed indexes 0..k-1: merging the result once more with the same streamed items changes nothing. */
  lemma ContiguousMergeIsStable(body: Body, streamed: map<int, RawItem>, k: nat)
    requires Contiguous(streamed, k) && Collect(body, streamed).Success?
    ensures Collect(Collect(body, streamed).value, streamed) == Collect(body, streamed)
  {
    if streamed != map[] {
      var terminal := Terminal(body);
      var first := ContiguousMergeAppends(streamed, k, terminal);
      SameSurvive(first, streamed, k, terminal);
      var again := Collect(body, streamed).value;
      assert Terminal(again) == Listed(Merged(streamed, terminal));
      var first' := ContiguousMergeAppends(streamed, k, Terminal(again));
      assert first' == first;
    }
  }
}

/**
 Where merging plan output is not harmless, and exactly where: unnamed terminal
 items that are dropped, and merges that change when they are repeated.
 */
module PlanOutputLimits {
  import opened Wrappers
  import opened AscendingInts
  import opened PlanOutput
  import opened PlanOutputTheorems

  ghost predicate AllRead(items: seq<RawItem>) {
    forall i :: 0 <= i < |items| ==> Readable(items[i])
  }

  // ------------------------------------------------------- unnamed terminal items

  /** The IDs a list of items carries. */
  function Names(items: seq<RawItem>): set<string>
    requires AllRead(items)
  {
    if items == [] then {} else Mark(Names(items[..|items| - 1]), items[|items| - 1].id.value)
  }

  /** An item with an ID that neither the streamed items nor the earlier ones have. */
  ghost predicate Fresh(streamed: map<int, RawItem>, before: seq<RawItem>, item: RawItem)
    requires AllRead(before) && Readable(item)
  {
    item.id.value != "" && item.id.value !in IDs(streamed) + Names(before)
  }

  /** How many items with a new ID stand at an index that is streamed or past all streamed ones. */
  ghost function Displaced(streamed: map<int, RawItem>, terminal: seq<RawItem>): nat
    requires AllRead(terminal)
  {
    if terminal == [] then 0
    else
      var n := |terminal| - 1;
      var before := terminal[..n];
      Displaced(streamed, before) +
      if Fresh(streamed, before, terminal[n]) && (n in streamed || n >= Next(streamed.Keys)) then 1 else 0
  }

  /** Nothing is streamed at the index, and the renamed items do not reach it. */
  ghost predicate Free(streamed: map<int, RawItem>, terminal: seq<RawItem>, i: nat)
    requires AllRead(terminal) && i <= |terminal|
  {
    i !in streamed && (i < Next(streamed.Keys) || i >= Next(streamed.Keys) + Displaced(streamed, terminal[..i]))
  }

  /** The merge after `terminal`: which later indexes are taken, and how far the renamed items reach. */
  ghost predicate Reaches(m: Merge, streamed: map<int, RawItem>, terminal: seq<RawItem>)
    requires AllRead(terminal)
  {
    var n, next, reach := |terminal|, Next(streamed.Keys), Next(streamed.Keys) + Displaced(streamed, terminal);
    && m.ids == IDs(streamed) + Names(terminal)
    && (forall x :: x >= n ==> (x in m.output <==> x in streamed || next <= x < m.next))
    && (forall x :: x >= n && x in m.output && x !in streamed ==> m.output[x].id != Some(""))
    && (if n < reach then m.next == reach else m.next <= n)
  }

  lemma PlaceReaches(m: Merge, streamed: map<int, RawItem>, terminal: seq<RawItem>)
    requires AllRead(terminal) && terminal != []
    requires var n := |terminal| - 1; Reaches(m, streamed, terminal[..n])
    ensures var n := |terminal| - 1;
            && Reaches(Place(m, n, terminal[n]), streamed, terminal)
            && (n !in m.output <==> Free(streamed, terminal, n))
  {
    var n := |terminal| - 1;
    assert Bounds(Next(streamed.Keys), streamed.Keys);
  }

  lemma {:induction false} AllReach(streamed: map<int, RawItem>, terminal: seq<RawItem>)
    requires AllReadable(streamed) && AllRead(terminal)
    ensures Reaches(PlaceAll(Streamed(streamed), terminal), streamed, terminal)
  {
    if terminal == [] {
    } else {
      var n := |terminal| - 1;
      AllReach(streamed, terminal[..n]);
      PlaceReaches(PlaceAll(Streamed(streamed), terminal[..n]), streamed, terminal);
    }
  }

  /** What is placed stays. */
  lemma {:induction false} PlacedStays(m: Merge, terminal: seq<RawItem>, n: nat)
    requires AllRead(terminal) && n <= |terminal| && Bounds(m.next, m.output.Keys)
    ensures forall k :: k in PlaceAll(m, terminal[..n]).output ==>
              k in PlaceAll(m, terminal).output
                && PlaceAll(m, terminal).output[k] == PlaceAll(m, terminal[..n]).output[k]
    ensures Bounds(PlaceAll(m, terminal).next, PlaceAll(m, terminal).output.Keys)
    decreases |terminal|
  {
    if terminal != [] {
      var last := |terminal| - 1;
      if n == |terminal| {
        assert terminal[..n] == terminal;
        PlacedStays(m, terminal[..last], last);
      } else {
        assert terminal[..last][..n] == terminal[..n];
        PlacedStays(m, terminal[..last], n);
      }
    }
  }

  /**
   An unnamed terminal item is kept, at its own index, if and only if nothing was
   streamed there and the renamed items do not reach it: as many items with a new ID
   before it as stand at an index that is streamed or past all streamed ones.
   */
  lemma UnnamedItemKeptExactlyIf(streamed: map<int, RawItem>, terminal: seq<RawItem>, i: nat)
    requires AllReadable(streamed) && AllRead(terminal) && i < |terminal| && terminal[i].id == Some("")
    ensures var merged := Merged(streamed, terminal);
            (i !in streamed && i in merged && merged[i] == terminal[i]) <==>
              i !in streamed &&
              (i < Next(streamed.Keys) || i >= Next(streamed.Keys) + Displaced(streamed, terminal[..i]))
  {
    var upTo := terminal[..i + 1];
    assert upTo[..i] == terminal[..i];
    AllReach(streamed, terminal[..i]);
    PlaceReaches(PlaceAll(Streamed(streamed), terminal[..i]), streamed, upTo);
    PlacedStays(Streamed(streamed), terminal, i + 1);
  }

  lemma OneMoreName(known: set<string>, names: set<string>, id: string)
    ensures |Mark(names, id) - known| ==
              |names - known| + if id != "" && id !in known + names then 1 else 0
  {
    if id != "" && id !in known + names {
      assert Mark(names, id) - known == (names - known) + {id};
    } else {
      assert Mark(names, id) - known == names - known;
    }
  }

  lemma ContiguousNext(streamed: map<int, RawItem>, k: nat)
    requires Contiguous(streamed, k)
    ensures Next(streamed.Keys) == k
  {
    assert k > 0 ==> k - 1 in streamed;
  }

  lemma {:induction false} DisplacedAreNew(streamed: map<int, RawItem>, k: nat, terminal: seq<RawItem>)
    requires Contiguous(streamed, k) && AllRead(terminal)
    ensures Displaced(streamed, terminal) == |Names(terminal) - IDs(streamed)|
  {
    if terminal != [] {
      DisplacedAreNew(streamed, k, terminal[..|terminal| - 1]);
      var n := |terminal| - 1;
      OneMoreName(IDs(streamed), Names(terminal[..n]), terminal[n].id.value);
      ContiguousNext(streamed, k);
    }
  }

  /** Streamed indexes 0..k-1: an unnamed item stays exactly when it stands past k and the new IDs before it. */
  lemma UnnamedItemKeptAfterContiguous(streamed: map<int, RawItem>, k: nat, terminal: seq<RawItem>, i: nat)
    requires Contiguous(streamed, k) && AllReadable(streamed)
    requires AllRead(terminal) && i < |terminal| && terminal[i].id == Some("")
    ensures var merged := Merged(streamed, terminal);
            (i !in streamed && i in merged && merged[i] == terminal[i]) <==>
              i >= k + |Names(terminal[..i]) - IDs(streamed)|
  {
    UnnamedItemKeptExactlyIf(streamed, terminal, i);
    ContiguousNext(streamed, k);
    DisplacedAreNew(streamed, k, terminal[..i]);
  }

  // --------------------------------------------------------- merging a second time

  lemma {:induction false} AscendingSize(s: seq<int>)
    requires IsAscending(s)
    ensures |s| == |Elements(s)|
  {
    if s == [] {
      assert Elements(s) == {};
    } else {
      ElementsTail(s);
      AscendingSize(s[1..]);
      assert s[0] in Elements(s);
    }
  }

  lemma ListedSize(output: map<int, RawItem>)
    ensures |Listed(output)| == |output|
  {
    AscendingSize(Ascending(output.Keys));
    assert |output| == |output.Keys|;
  }

  /** Whether an item that is read back at its place in the list is dropped. */
  ghost predicate Settles(streamed: map<int, RawItem>, items: seq<RawItem>, i: nat)
    requires AllRead(items) && i < |items|
  {
    items[i].id.value == "" ==> i in streamed
  }

  lemma {:induction false} SettledAreDropped(streamed: map<int, RawItem>, items: seq<RawItem>, n: nat)
    requires AllReadable(streamed) && AllRead(items) && n <= |items|
    requires forall i :: 0 <= i < |items| ==> items[i].id.value == "" || items[i].id.value in IDs(streamed)
    requires forall i :: 0 <= i < n ==> Settles(streamed, items, i)
    ensures PlaceAll(Streamed(streamed), items[..n]) == Streamed(streamed)
  {
    if n == 0 {
      assert items[..0] == [];
    } else {
      assert items[..n][..n - 1] == items[..n - 1];
      SettledAreDropped(streamed, items, n - 1);
      assert Settles(streamed, items, n - 1);
    }
  }

  /** The list of the streamed items, and that each of them is readable and known. */
  lemma ListedKnown(streamed: map<int, RawItem>)
    requires AllReadable(streamed)
    ensures AllRead(Listed(streamed)) && |Listed(streamed)| == |streamed|
    ensures forall i :: 0 <= i < |Listed(streamed)| ==>
              Listed(streamed)[i].id.value == "" || Listed(streamed)[i].id.value in IDs(streamed)
  {
    var keys := Ascending(streamed.Keys);
    KeysOf(keys, streamed.Keys);
    ListedSize(streamed);
  }

  lemma FirstUnsettled(streamed: map<int, RawItem>, items: seq<RawItem>, bad: nat) returns (i: nat)
    requires AllRead(items) && bad < |items| && !Settles(streamed, items, bad)
    ensures i < |items| && !Settles(streamed, items, i)
    ensures forall j :: 0 <= j < i ==> Settles(streamed, items, j)
  {
    i := 0;
    while Settles(streamed, items, i)
      invariant i <= bad
      invariant forall j :: 0 <= j < i ==> Settles(streamed, items, j)
      decreases bad - i
    {
      i := i + 1;
    }
  }

  lemma MergedIsRead(streamed: map<int, RawItem>, terminal: seq<RawItem>)
    requires AllReadable(streamed) && AllRead(terminal)
    ensures AllRead(Listed(Merged(streamed, terminal)))
  {
    StreamedSound(streamed);
    PlaceAllKeeps(Streamed(streamed), streamed, terminal);
    var output := Merged(streamed, terminal);
    var keys := Ascending(output.Keys);
    KeysOf(keys, output.Keys);
    forall i | 0 <= i < |keys| ensures Readable(output[keys[i]]) {
      assert keys[i] in output;
    }
  }

  /** Merging a result once more with the same streamed items, told on the lists. */
  lemma CollectedAgain(body: Body, streamed: map<int, RawItem>)
    requires streamed != map[] && Collect(body, streamed).Success?
    ensures Collectable(body, streamed) && AllReadable(streamed) && AllRead(Terminal(body))
    ensures AllRead(Listed(Merged(streamed, Terminal(body))))
    ensures var items := Listed(Merged(streamed, Terminal(body)));
            && Collect(body, streamed) == Success(body.(output := Items(items)))
            && (Collect(Collect(body, streamed).value, streamed) == Collect(body, streamed) <==>
                  Listed(Merged(streamed, items)) == items)
  {
    MergedIsRead(streamed, Terminal(body));
  }

  /**
   Nothing in the terminal list: the merge is just the streamed items, and merging it
   once more changes nothing if and only if each unnamed item stands at a place whose
   number was streamed.
   */
  lemma EmptyTerminalIsStableExactlyIf(body: Body, streamed: map<int, RawItem>)
    requires streamed != map[] && Collect(body, streamed).Success? && Terminal(body) == []
    ensures Collect(body, streamed) == Success(body.(output := Items(Listed(streamed)))) && AllRead(Listed(streamed))
    ensures Collect(Collect(body, streamed).value, streamed) == Collect(body, streamed) <==>
              forall i :: 0 <= i < |Listed(streamed)| && Listed(streamed)[i].id.value == "" ==> i in streamed
  {
    CollectedAgain(body, streamed);
    assert Merged(streamed, []) == streamed;
    ListedAgain(streamed);
  }

  lemma ListedAgain(streamed: map<int, RawItem>)
    requires AllReadable(streamed) && AllRead(Listed(streamed))
    ensures Listed(Merged(streamed, Listed(streamed))) == Listed(streamed) <==>
              forall i :: 0 <= i < |Listed(streamed)| && Listed(streamed)[i].id.value == "" ==> i in streamed
  {
    var items := Listed(streamed);
    ListedKnown(streamed);
    ListedSize(Merged(streamed, items));
    assert forall i :: 0 <= i < |items| ==>
      (Settles(streamed, items, i) <==> (items[i].id.value == "" ==> i in streamed));
    if forall i :: 0 <= i < |items| ==> Settles(streamed, items, i) {
      SettledAreDropped(streamed, items, |items|);
      assert items[..|items|] == items;
    } else {
      var bad :| 0 <= bad < |items| && !Settles(streamed, items, bad);
      UnsettledGrows(streamed, items, bad);
    }
  }

  lemma UnsettledGrows(streamed: map<int, RawItem>, items: seq<RawItem>, bad: nat)
    requires AllReadable(streamed) && AllRead(items) && bad < |items| && !Settles(streamed, items, bad)
    requires forall i :: 0 <= i < |items| ==> items[i].id.value == "" || items[i].id.value in IDs(streamed)
    ensures |Merged(streamed, items)| > |streamed|
  {
    var i := FirstUnsettled(streamed, items, bad);
    SettledAreDropped(streamed, items, i);
    PlacedStays(Streamed(streamed), items, i + 1);
    assert items[..i + 1][..i] == items[..i];
    var upTo := PlaceAll(Streamed(streamed), items[..i + 1]).output;
    assert upTo == streamed[i := items[i]];
    forall k | k in streamed.Keys + {i} ensures k in Merged(streamed, items) {
      assert k in upTo;
    }
    assert |streamed.Keys + {i}| == |streamed| + 1;
    SubsetSize(streamed.Keys + {i}, Merged(streamed, items).Keys);
    assert |Merged(streamed, items)| == |Merged(streamed, items).Keys|;
  }

  // ------------------------------------------------------------ inputs that fail

  lemma OneListed(key: nat, item: RawItem)
    ensures Listed(map[key := item]) == [item] && Next({key}) == key + 1
  {
    var keys := [key];
    assert Elements(keys) == {key} by {
      assert keys[0] == key;
    }
    ListedIs(map[key := item], keys);
    assert key in {key} && (Next({key}) > 0 ==> Next({key}) - 1 in {key});
  }

  lemma TwoListed(a: int, b: int, x: RawItem, y: RawItem)
    requires a < b
    ensures Listed(map[a := x, b := y]) == [x, y]
  {
    var keys := [a, b];
    assert Elements(keys) == {a, b} by {
      assert keys[0] == a && keys[1] == b;
    }
    ListedIs(map[a := x, b := y], keys);
  }

  /** An unnamed item at a place that was not streamed: reading the result back duplicates it. */
  lemma GapsBreakStability(item: RawItem, rest: string)
    requires item.id == Some("")
    ensures var body := Document("completed", Absent, None, rest);
            var streamed := map[1 := item];
            && Collect(body, streamed) == Success(body.(output := Items([item])))
            && Collect(body.(output := Items([item])), streamed) == Success(body.(output := Items([item, item])))
  {
    var streamed := map[1 := item];
    OneListed(1, item);
    assert Merged(streamed, []) == streamed;
    var one := [item];
    assert one[..0] == [];
    assert Merged(streamed, one) == map[0 := item, 1 := item];
    TwoListed(0, 1, item, item);
  }

  /** An unnamed terminal item can be lost though nothing was streamed at its index. */
  lemma UnnamedItemCanBeLost(streamed: RawItem, named: RawItem, unnamed: RawItem, rest: string)
    requires streamed.id == Some("a") && named.id == Some("b") && unnamed.id == Some("")
    ensures Collect(Document("completed", Items([named, unnamed]), None, rest), map[0 := streamed])
         == Success(Document("completed", Items([streamed, named]), None, rest))
  {
    var terminal := [named, unnamed];
    var m := Streamed(map[0 := streamed]);
    OneListed(0, streamed);
    assert m.ids == {"a"} by {
      assert m.output[0].id == Some("a");
    }
    assert [named][..0] == [] && terminal[..1] == [named];
    assert PlaceAll(m, [named]) == Place(m, 0, named);
    assert Merged(map[0 := streamed], terminal) == map[0 := streamed, 1 := named];
    TwoListed(0, 1, streamed, named);
  }
}

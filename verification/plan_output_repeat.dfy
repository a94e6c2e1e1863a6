/**
 Merging plan output a second time when every item has an ID: exactly when the
 order stays.
 */
module PlanOutputRepeat {
  import opened Wrappers
  import opened AscendingInts
  import opened PlanOutput
  import opened PlanOutputTheorems
  import opened PlanOutputLimits

  predicate Named(item: RawItem) {
    item.id.Some? && item.id.value != ""
  }

  ghost predicate AllNamed(output: map<int, RawItem>) {
    forall k :: k in output ==> Named(output[k])
  }

  ghost predicate AllHaveIDs(items: seq<RawItem>) {
    AllRead(items) && forall p :: 0 <= p < |items| ==> items[p].id.value != ""
  }

  /** A merged list: `at` says where the streamed items stand, and every other item has an ID of its own. */
  ghost predicate Mixed(streamed: map<int, RawItem>, at: map<int, nat>, items: seq<RawItem>) {
    && AllNamed(streamed)
    && Stands(at, streamed, items)
    && AllHaveIDs(items)
    && (forall p :: 0 <= p < |items| && p !in at.Values ==> items[p].id.value !in IDs(streamed))
    && (forall p: nat, q: nat :: p < q < |items| && SameID(items[p], items[q]) ==> p in at.Values && q in at.Values)
  }

  /**
   An item read back at place i stays there: the streamed indexes of the items listed
   before it are below i and of those after it above, or i is itself a streamed index
   and no streamed item comes after it.
   */
  ghost predicate Fits(streamed: map<int, RawItem>, at: map<int, nat>, i: nat) {
    || (forall k :: k in at ==> (at[k] < i ==> k < i) && (at[k] > i ==> k > i))
    || (i in streamed && forall k :: k in at ==> at[k] < i)
  }

  ghost function Again(streamed: map<int, RawItem>, items: seq<RawItem>, n: nat): Merge
    requires n <= |items| && AllHaveIDs(items)
  {
    PlaceAll(Streamed(streamed), items[..n])
  }

  /** What is known of the second merge after n items. */
  ghost predicate Read(m: Merge, streamed: map<int, RawItem>, items: seq<RawItem>, n: nat)
    requires n <= |items| && AllHaveIDs(items)
  {
    && m.ids == IDs(streamed) + Names(items[..n])
    && m.next >= Next(streamed.Keys) && Bounds(m.next, m.output.Keys)
    && (forall k :: k in streamed ==> k in m.output && m.output[k] == streamed[k])
    && (forall x :: x in m.output ==> x in streamed || 0 <= x < n || x >= Next(streamed.Keys))
  }

  lemma {:induction false} NamesAre(items: seq<RawItem>)
    requires AllRead(items)
    ensures forall id :: id in Names(items) <==> id != "" && exists p :: 0 <= p < |items| && items[p].id.value == id
  {
    if items != [] {
      var n := |items| - 1;
      NamesAre(items[..n]);
      forall id | id != "" && exists p :: 0 <= p < |items| && items[p].id.value == id ensures id in Names(items) {
        var p :| 0 <= p < |items| && items[p].id.value == id;
        assert p < n ==> items[..n][p] == items[p];
      }
      forall id | id in Names(items[..n]) ensures exists p :: 0 <= p < |items| && items[p].id.value == id {
        var p :| 0 <= p < n && items[..n][p].id.value == id;
        assert items[p].id.value == id;
      }
      assert items[n].id.value == items[n].id.value;
    }
  }

  lemma PlaceOf(at: map<int, nat>, p: nat) returns (k: int)
    requires p in at.Values
    ensures k in at && at[k] == p
  {
    if forall j :: j in at ==> at[j] != p {
      assert false;
    }
    k :| k in at && at[k] == p;
  }

  /** A streamed item is known, any other is new. */
  lemma KnownIfStreamed(streamed: map<int, RawItem>, at: map<int, nat>, items: seq<RawItem>, n: nat)
    requires Mixed(streamed, at, items) && n < |items|
    ensures items[n].id.value in IDs(streamed) + Names(items[..n]) <==> n in at.Values
  {
    NamesAre(items[..n]);
    if n in at.Values {
      var k := PlaceOf(at, n);
      assert streamed[k] == items[n];
    } else {
      forall p | 0 <= p < n ensures items[..n][p].id.value != items[n].id.value {
        assert !SameID(items[p], items[n]);
      }
    }
  }

  /** From m to m' one item is read back at place n: a streamed one is dropped, another one placed. */
  ghost predicate Reads(m: Merge, m': Merge, streamed: map<int, RawItem>, at: map<int, nat>, item: RawItem, n: nat) {
    var place := if n in m.output then m.next else n;
    && m.next >= Next(streamed.Keys) && Bounds(m.next, m.output.Keys)
    && (forall k :: k in streamed ==> k in m.output && m.output[k] == streamed[k])
    && (if n in at.Values then m' == m
        else m'.output == m.output[place := item] && place !in m.output
             && m'.next == if place >= m.next then place + 1 else m.next)
  }

  lemma ReadOne(streamed: map<int, RawItem>, at: map<int, nat>, items: seq<RawItem>, n: nat)
    requires Mixed(streamed, at, items) && n < |items|
    requires Read(Again(streamed, items, n), streamed, items, n)
    ensures var m, m' := Again(streamed, items, n), Again(streamed, items, n + 1);
            Read(m', streamed, items, n + 1) && Reads(m, m', streamed, at, items[n], n)
  {
    assert items[..n + 1][..n] == items[..n];
    KnownIfStreamed(streamed, at, items, n);
    assert items[n].id.value in Names(items[..n + 1]);
  }

  lemma {:induction false} AllReadAgain(streamed: map<int, RawItem>, at: map<int, nat>, items: seq<RawItem>, n: nat)
    requires Mixed(streamed, at, items) && n <= |items|
    ensures Read(Again(streamed, items, n), streamed, items, n)
  {
    if n == 0 {
      assert items[..0] == [];
    } else {
      AllReadAgain(streamed, at, items, n - 1);
      ReadOne(streamed, at, items, n - 1);
    }
  }

  // -------------------------------------------------- an order that stays was fit

  lemma SameSize<T>(a: set<T>, b: set<T>)
    requires a <= b && |a| == |b|
    ensures a == b
  {
    assert b == a + (b - a);
    assert |b| == |a| + |b - a|;
  }

  lemma SameAscending(a: seq<int>, b: seq<int>)
    requires IsAscending(a) && IsAscending(b) && |a| == |b| && Elements(b) <= Elements(a)
    ensures a == b
  {
    AscendingSize(a);
    AscendingSize(b);
    SameSize(Elements(b), Elements(a));
    AscendingUnique(a, b);
  }

  ghost predicate Increasing(at: map<int, nat>) {
    forall k, j :: k in at && j in at && k < j ==> at[k] < at[j]
  }

  /** The places of the streamed items in index order. */
  ghost function Places(at: map<int, nat>): (places: seq<int>)
    ensures |places| == |Ascending(at.Keys)|
    ensures forall j :: 0 <= j < |places| ==> Ascending(at.Keys)[j] in at && places[j] == at[Ascending(at.Keys)[j]]
  {
    var keys := Ascending(at.Keys);
    KeysOf(keys, at.Keys);
    seq(|keys|, j requires 0 <= j < |keys| => at[keys[j]])
  }

  lemma PlacesAscend(at: map<int, nat>)
    requires Increasing(at)
    ensures IsAscending(Places(at))
  {
    var keys := Ascending(at.Keys);
    forall i, j | 0 <= i < j < |keys| ensures Places(at)[i] < Places(at)[j] {
      assert keys[i] < keys[j];
    }
  }

  lemma KeyPlace(at: map<int, nat>, k: int) returns (j: nat)
    requires k in at
    ensures j < |Places(at)| && Ascending(at.Keys)[j] == k && Places(at)[j] == at[k]
  {
    assert k in Elements(Ascending(at.Keys));
    j :| 0 <= j < |Ascending(at.Keys)| && Ascending(at.Keys)[j] == k;
  }

  lemma PlaceElements(at: map<int, nat>, x: int)
    ensures x in Elements(Places(at)) <==> x >= 0 && x in at.Values
  {
    if x in Elements(Places(at)) {
      var j :| 0 <= j < |Places(at)| && Places(at)[j] == x;
    }
    if x >= 0 && x in at.Values {
      var k := PlaceOf(at, x);
      var j := KeyPlace(at, k);
    }
  }

  /** The streamed items of a list can stand in only one way. */
  lemma StandsOnce(a: map<int, nat>, b: map<int, nat>)
    requires a.Keys == b.Keys && Increasing(a) && Increasing(b) && b.Values <= a.Values
    ensures a == b
  {
    PlacesAscend(a);
    PlacesAscend(b);
    forall x | x in Elements(Places(b)) ensures x in Elements(Places(a)) {
      PlaceElements(a, x);
      PlaceElements(b, x);
    }
    SameAscending(Places(a), Places(b));
    forall k | k in a ensures a[k] == b[k] {
      var i := KeyPlace(a, k);
    }
  }

  /** The index a new item gets when it is read back. */
  ghost function Index(streamed: map<int, RawItem>, items: seq<RawItem>, i: nat): int
    requires i < |items| && AllHaveIDs(items)
  {
    var m := Again(streamed, items, i);
    if i in m.output then m.next else i
  }

  lemma IndexStays(streamed: map<int, RawItem>, at: map<int, nat>, items: seq<RawItem>, i: nat)
    requires Mixed(streamed, at, items) && i < |items| && i !in at.Values
    ensures var output := Merged(streamed, items);
            var index := Index(streamed, items, i);
            index in output && output[index] == items[i]
  {
    AllReadAgain(streamed, at, items, i);
    ReadOne(streamed, at, items, i);
    PlacedStays(Streamed(streamed), items, i + 1);
  }

  lemma KnownPlace(streamed: map<int, RawItem>, at: map<int, nat>, items: seq<RawItem>, k: int, p: nat)
    requires Mixed(streamed, at, items) && k in streamed && p < |items| && items[p] == streamed[k]
    ensures p in at.Values
  {
    assert streamed[k].id.value in IDs(streamed);
  }

  /** Where the streamed items stand among all of them. */
  lemma StandsAmong(streamed: map<int, RawItem>, output: map<int, RawItem>, all: map<int, nat>, items: seq<RawItem>)
    requires Stands(all, output, items) && forall k :: k in streamed ==> k in output && output[k] == streamed[k]
    ensures var some: map<int, nat> := map k | k in streamed :: all[k];
            Increasing(some) && forall k :: k in streamed ==> some[k] < |items| && items[some[k]] == streamed[k]
  {
  }

  lemma PlacesKnown(streamed: map<int, RawItem>, at: map<int, nat>, items: seq<RawItem>, some: map<int, nat>)
    requires Mixed(streamed, at, items) && some.Keys == streamed.Keys
    requires forall k :: k in streamed ==> some[k] < |items| && items[some[k]] == streamed[k]
    ensures some.Values <= at.Values
  {
    forall p | p in some.Values ensures p in at.Values {
      var k := PlaceOf(some, p);
      KnownPlace(streamed, at, items, k, p);
    }
  }

  lemma MixedIncreases(streamed: map<int, RawItem>, at: map<int, nat>, items: seq<RawItem>)
    requires Mixed(streamed, at, items)
    ensures at.Keys == streamed.Keys && Increasing(at)
  {
  }

  /** Where the merged list is the same again, each index stands where it stood. */
  lemma SameListSameStand(streamed: map<int, RawItem>, at: map<int, nat>, items: seq<RawItem>,
                          output: map<int, RawItem>, all: map<int, nat>)
    requires Mixed(streamed, at, items) && Stands(all, output, items)
    requires forall k :: k in streamed ==> k in output && output[k] == streamed[k]
    ensures forall k :: k in at ==> k in all && all[k] == at[k]
  {
    StandsAmong(streamed, output, all, items);
    var some: map<int, nat> := map k | k in streamed :: all[k];
    PlacesKnown(streamed, at, items, some);
    MixedIncreases(streamed, at, items);
    StandsOnce(at, some);
    forall k | k in at ensures k in all && all[k] == at[k] {
      assert some[k] == all[k];
    }
  }

  /** Only one place has a new item's ID. */
  lemma OnlyPlace(streamed: map<int, RawItem>, at: map<int, nat>, items: seq<RawItem>, i: nat, q: nat)
    requires Mixed(streamed, at, items) && i < |items| && i !in at.Values && q < |items| && items[q] == items[i]
    ensures q == i
  {
    if q != i {
      assert SameID(items[if q < i then q else i], items[if q < i then i else q]);
    }
  }

  lemma FitsByIndex(streamed: map<int, RawItem>, at: map<int, nat>, i: nat, index: int)
    requires at.Keys == streamed.Keys && forall k :: k in at ==> (at[k] < i <==> k < index)
    requires || (index == i && i !in streamed)
             || ((forall k :: k in at ==> k < index) && (i in streamed || forall k :: k in at ==> k < i))
    ensures Fits(streamed, at, i)
  {
  }

  lemma IndexIs(streamed: map<int, RawItem>, at: map<int, nat>, items: seq<RawItem>, i: nat)
    requires Mixed(streamed, at, items) && i < |items| && i !in at.Values
    ensures var index, next := Index(streamed, items, i), Next(streamed.Keys);
            (index == i && i !in streamed) || (index >= next && (i in streamed || i >= next))
    ensures forall k :: k in at ==> k < Next(streamed.Keys)
  {
    AllReadAgain(streamed, at, items, i);
    assert Bounds(Next(streamed.Keys), streamed.Keys);
  }

  lemma StableStands(streamed: map<int, RawItem>, at: map<int, nat>, items: seq<RawItem>) returns (all: map<int, nat>)
    requires AllReadable(streamed) && Mixed(streamed, at, items) && Listed(Merged(streamed, items)) == items
    ensures Stands(all, Merged(streamed, items), items)
    ensures forall k :: k in at ==> k in all && all[k] == at[k]
  {
    var output := Merged(streamed, items);
    StreamedSound(streamed);
    PlaceAllKeeps(Streamed(streamed), streamed, items);
    all := ListedAt(output, Ascending(output.Keys));
    SameListSameStand(streamed, at, items, output, all);
  }

  /** The indexes below that of a new item are those of the streamed items before it. */
  lemma BelowIndex(at: map<int, nat>, output: map<int, RawItem>, all: map<int, nat>, items: seq<RawItem>, i: nat,
      index: int)
    requires Stands(all, output, items) && index in output && all[index] == i && i !in at.Values
    requires forall k :: k in at ==> k in all && all[k] == at[k]
    ensures forall k :: k in at ==> (at[k] < i <==> k < index)
  {
    forall k | k in at ensures at[k] < i <==> k < index {
      assert at[k] in at.Values;
    }
  }

  lemma StableFits(streamed: map<int, RawItem>, at: map<int, nat>, items: seq<RawItem>, i: nat)
    requires AllReadable(streamed) && Mixed(streamed, at, items) && Listed(Merged(streamed, items)) == items
    requires i < |items| && i !in at.Values
    ensures Fits(streamed, at, i)
  {
    var all := StableStands(streamed, at, items);
    IndexStays(streamed, at, items, i);
    var index := Index(streamed, items, i);
    OnlyPlace(streamed, at, items, i, all[index]);
    BelowIndex(at, Merged(streamed, items), all, items, i, index);
    IndexIs(streamed, at, items, i);
    FitsByIndex(streamed, at, i, index);
  }

  // --------------------------------------------------- an order that is fit stays

  ghost predicate AllFit(streamed: map<int, RawItem>, at: map<int, nat>, items: seq<RawItem>) {
    forall i: nat :: i < |items| && i !in at.Values ==> Fits(streamed, at, i)
  }

  /** The indexes of the items read back so far, in ascending order. */
  ghost predicate Follows(m: Merge, streamed: map<int, RawItem>, at: map<int, nat>, items: seq<RawItem>,
      keys: seq<int>) {
    && |keys| <= |items| && IsAscending(keys)
    && (forall p :: 0 <= p < |keys| ==> keys[p] in m.output && m.output[keys[p]] == items[p])
    && (forall x :: x in m.output ==> x in streamed || x in keys)
    && (forall k :: k in at && at[k] < |keys| ==> keys[at[k]] == k)
    && (forall k :: k in at && at[k] >= |keys| ==> forall p :: 0 <= p < |keys| ==> keys[p] < k)
  }

  /** No item has been moved yet, so that each new one is at its own place; or all that are left are new and move on. */
  ghost predicate Unmoved(m: Merge, streamed: map<int, RawItem>, at: map<int, nat>, keys: seq<int>) {
    && (forall p: nat :: p < |keys| && p !in at.Values ==> keys[p] == p)
    && (m.next == Next(streamed.Keys) || m.next <= |keys|)
  }

  ghost predicate Moving(m: Merge, streamed: map<int, RawItem>, at: map<int, nat>, keys: seq<int>) {
    && (forall k :: k in at ==> at[k] < |keys|)
    && |keys| < m.next
    && (forall x :: Next(streamed.Keys) <= x < m.next ==> x in m.output)
  }

  /** One more index: of a streamed item, or of a new one. */
  lemma OneMore(m: Merge, m': Merge, streamed: map<int, RawItem>, at: map<int, nat>, items: seq<RawItem>,
      keys: seq<int>, key: int)
    requires Follows(m, streamed, at, items, keys) && |keys| < |items|
    requires forall k :: k in m.output ==> k in m'.output && m'.output[k] == m.output[k]
    requires forall k :: k in m'.output ==> k in m.output || k == key
    requires key in m'.output && m'.output[key] == items[|keys|]
    requires forall p :: 0 <= p < |keys| ==> keys[p] < key
    requires forall k :: k in at && at[k] > |keys| ==> key < k
    requires forall k :: k in at && at[k] == |keys| ==> k == key
    ensures Follows(m', streamed, at, items, keys + [key])
  {
    var grown := keys + [key];
    assert grown[|keys|] == key;
    forall x | x in m'.output ensures x in streamed || x in grown {
      assert x in keys ==> x in grown;
    }
  }

  /** A streamed item comes back at its own index. */
  lemma StreamedFollows(m: Merge, streamed: map<int, RawItem>, at: map<int, nat>, items: seq<RawItem>, keys: seq<int>,
      key: int)
    requires Stands(at, streamed, items) && Follows(m, streamed, at, items, keys) && Unmoved(m, streamed, at, keys)
    requires key in at && at[key] == |keys| && key in m.output && m.output[key] == streamed[key]
    ensures Follows(m, streamed, at, items, keys + [key]) && Unmoved(m, streamed, at, keys + [key])
  {
    OneMore(m, m, streamed, at, items, keys, key);
    assert at[key] in at.Values;
  }

  /** A new item at a free place of its own number. */
  lemma NewStays(m: Merge, m': Merge, streamed: map<int, RawItem>, at: map<int, nat>, items: seq<RawItem>,
      keys: seq<int>)
    requires Stands(at, streamed, items) && Follows(m, streamed, at, items, keys) && Unmoved(m, streamed, at, keys)
    requires var n := |keys|;
             && n < |items| && n !in at.Values && n !in streamed && n !in m.output && Fits(streamed, at, n)
             && m'.output == m.output[n := items[n]] && m'.next == if n >= m.next then n + 1 else m.next
    ensures Follows(m', streamed, at, items, keys + [|keys|]) && Unmoved(m', streamed, at, keys + [|keys|])
  {
    var n := |keys|;
    forall p: nat | p < n ensures keys[p] < n {
      if p in at.Values {
        var k := PlaceOf(at, p);
      }
    }
    forall k | k in at ensures at[k] != n {
      assert at[k] in at.Values;
    }
    OneMore(m, m', streamed, at, items, keys, n);
  }

  /** A new item whose place is taken goes past all others. */
  lemma NewMoves(m: Merge, m': Merge, streamed: map<int, RawItem>, at: map<int, nat>, items: seq<RawItem>,
      keys: seq<int>)
    requires Stands(at, streamed, items) && Follows(m, streamed, at, items, keys) && Bounds(m.next, m.output.Keys)
    requires |keys| < |items| && forall k :: k in at ==> at[k] < |keys|
    requires m'.output == m.output[m.next := items[|keys|]] && m'.next == m.next + 1
    ensures Follows(m', streamed, at, items, keys + [m.next])
  {
    OneMore(m, m', streamed, at, items, keys, m.next);
  }

  /** Once items move on, the next new one finds its place taken too. */
  lemma MovingIsTaken(m: Merge, streamed: map<int, RawItem>, at: map<int, nat>, keys: seq<int>)
    requires Moving(m, streamed, at, keys) && at.Keys == streamed.Keys && Fits(streamed, at, |keys|)
    requires forall k :: k in streamed ==> k in m.output
    ensures |keys| in m.output
  {
    var n, next := |keys|, Next(streamed.Keys);
    if n < next {
      assert next - 1 in streamed;
      assert at[next - 1] < n;
    }
  }

  /** The first new item whose place is taken finds it streamed, and the end right after the streamed indexes. */
  lemma FirstTaken(m: Merge, streamed: map<int, RawItem>, at: map<int, nat>, items: seq<RawItem>, keys: seq<int>)
    requires Stands(at, streamed, items) && Follows(m, streamed, at, items, keys) && Unmoved(m, streamed, at, keys)
    requires |keys| in m.output && |keys| !in at.Values && Fits(streamed, at, |keys|) && m.next >= Next(streamed.Keys)
    ensures |keys| in streamed && m.next == Next(streamed.Keys) && forall k :: k in at ==> at[k] < |keys|
  {
    var n := |keys|;
    if n !in streamed {
      var p: nat :| p < n && keys[p] == n;
      var k := PlaceOf(at, p);
    }
    assert n < Next(streamed.Keys);
    assert at[n] in at.Values;
  }

  lemma ReadsNext(streamed: map<int, RawItem>, at: map<int, nat>, items: seq<RawItem>, n: nat)
    requires Mixed(streamed, at, items) && n < |items|
    ensures Reads(Again(streamed, items, n), Again(streamed, items, n + 1), streamed, at, items[n], n)
  {
    AllReadAgain(streamed, at, items, n);
    ReadOne(streamed, at, items, n);
  }

  lemma {:induction false} FitFollows(streamed: map<int, RawItem>, at: map<int, nat>, items: seq<RawItem>, n: nat)
    returns (keys: seq<int>)
    requires Mixed(streamed, at, items) && AllFit(streamed, at, items) && n <= |items|
    ensures |keys| == n && Follows(Again(streamed, items, n), streamed, at, items, keys)
    ensures Unmoved(Again(streamed, items, n), streamed, at, keys)
            || Moving(Again(streamed, items, n), streamed, at, keys)
  {
    if n == 0 {
      keys := [];
      assert items[..0] == [];
    } else {
      var before := FitFollows(streamed, at, items, n - 1);
      ReadsNext(streamed, at, items, n - 1);
      keys := NextFollows(Again(streamed, items, n - 1), Again(streamed, items, n), streamed, at, items, before);
    }
  }

  /** A new item at a free place: nothing has moved yet, or the place would be taken. */
  lemma FreeFollows(m: Merge, m': Merge, streamed: map<int, RawItem>, at: map<int, nat>, items: seq<RawItem>,
      keys: seq<int>)
    requires Stands(at, streamed, items) && Follows(m, streamed, at, items, keys) && |keys| < |items|
    requires Unmoved(m, streamed, at, keys) || Moving(m, streamed, at, keys)
    requires |keys| !in at.Values && |keys| !in m.output && Fits(streamed, at, |keys|)
    requires Reads(m, m', streamed, at, items[|keys|], |keys|)
    ensures Follows(m', streamed, at, items, keys + [|keys|]) && Unmoved(m', streamed, at, keys + [|keys|])
  {
    if Moving(m, streamed, at, keys) {
      MovingIsTaken(m, streamed, at, keys);
    }
    NewStays(m, m', streamed, at, items, keys);
  }

  /** A new item whose place is taken: from here on all are moved. */
  lemma TakenFollows(m: Merge, m': Merge, streamed: map<int, RawItem>, at: map<int, nat>, items: seq<RawItem>,
      keys: seq<int>)
    requires Stands(at, streamed, items) && Follows(m, streamed, at, items, keys) && |keys| < |items|
    requires Unmoved(m, streamed, at, keys) || Moving(m, streamed, at, keys)
    requires |keys| !in at.Values && |keys| in m.output && Fits(streamed, at, |keys|)
    requires Reads(m, m', streamed, at, items[|keys|], |keys|)
    ensures Follows(m', streamed, at, items, keys + [m.next]) && Moving(m', streamed, at, keys + [m.next])
  {
    if Unmoved(m, streamed, at, keys) {
      FirstTaken(m, streamed, at, items, keys);
    }
    NewMoves(m, m', streamed, at, items, keys);
  }

  lemma NextFollows(m: Merge, m': Merge, streamed: map<int, RawItem>, at: map<int, nat>, items: seq<RawItem>,
      keys: seq<int>)
    returns (keys': seq<int>)
    requires Stands(at, streamed, items) && Follows(m, streamed, at, items, keys) && |keys| < |items|
    requires Unmoved(m, streamed, at, keys) || Moving(m, streamed, at, keys)
    requires |keys| !in at.Values ==> Fits(streamed, at, |keys|)
    requires Reads(m, m', streamed, at, items[|keys|], |keys|)
    ensures |keys'| == |keys| + 1 && Follows(m', streamed, at, items, keys')
    ensures Unmoved(m', streamed, at, keys') || Moving(m', streamed, at, keys')
  {
    var n := |keys|;
    if n in at.Values {
      var k := PlaceOf(at, n);
      StreamedFollows(m, streamed, at, items, keys, k);
      keys' := keys + [k];
    } else if n !in m.output {
      FreeFollows(m, m', streamed, at, items, keys);
      keys' := keys + [n];
    } else {
      TakenFollows(m, m', streamed, at, items, keys);
      keys' := keys + [m.next];
    }
  }

  lemma FitIsStable(streamed: map<int, RawItem>, at: map<int, nat>, items: seq<RawItem>)
    requires Mixed(streamed, at, items) && AllFit(streamed, at, items)
    ensures Listed(Merged(streamed, items)) == items
  {
    var keys := FitFollows(streamed, at, items, |items|);
    assert items[..|items|] == items;
    var output := Merged(streamed, items);
    forall x | x in output ensures x in Elements(keys) {
      if x in streamed {
        assert keys[at[x]] == x;
      }
    }
    ListedIs(output, keys);
    assert Values(output, keys) == items;
  }

  /** A merged list of named items, with the places of its streamed ones. */
  lemma MergedIsMixed(body: Body, streamed: map<int, RawItem>, items: seq<RawItem>) returns (at: map<int, nat>)
    requires streamed != map[] && body.Document?
    requires Collect(body, streamed) == Success(body.(output := Items(items)))
    requires AllNamed(streamed) && forall i :: 0 <= i < |Terminal(body)| ==> Named(Terminal(body)[i])
    ensures Mixed(streamed, at, items)
  {
    at := MergeKeepsEveryItemAndID(body, streamed, body.(output := Items(items)));
    forall p: nat | p < |items| ensures Named(items[p]) {
      if p in at.Values {
        var k := PlaceOf(at, p);
      } else {
        assert items[p] in Terminal(body);
      }
    }
    forall p: nat | p < |items| && p !in at.Values ensures items[p].id.value !in IDs(streamed) {
      forall k | k in streamed ensures streamed[k].id != items[p].id {
        assert items[at[k]] == streamed[k] && at[k] in at.Values;
        assert SameID(items[at[k]], items[p]) ==> at[k] != p;
      }
    }
  }

  /**
   Every item has an ID: merging the result once more with the same streamed items
   changes nothing if and only if each item that was not streamed fits where it
   stands, told by the streamed indexes and by where the streamed items stand.
   */
  lemma NamedMergeIsStableExactlyIf(body: Body, streamed: map<int, RawItem>, at: map<int, nat>, items: seq<RawItem>)
    requires streamed != map[] && body.Document?
    requires Collect(body, streamed) == Success(body.(output := Items(items)))
    requires AllNamed(streamed) && forall i :: 0 <= i < |Terminal(body)| ==> Named(Terminal(body)[i])
    requires Stands(at, streamed, items)
    ensures Collect(Collect(body, streamed).value, streamed) == Collect(body, streamed) <==>
              forall i: nat :: i < |items| && i !in at.Values ==> Fits(streamed, at, i)
  {
    CollectedAgain(body, streamed);
    var known := MergedIsMixed(body, streamed, items);
    forall p | p in at.Values ensures p in known.Values {
      var k := PlaceOf(at, p);
      KnownPlace(streamed, known, items, k, p);
    }
    StandsOnce(known, at);
    if Listed(Merged(streamed, items)) == items {
      forall i: nat | i < |items| && i !in at.Values ensures Fits(streamed, at, i) {
        StableFits(streamed, at, items, i);
      }
    } else if AllFit(streamed, at, items) {
      FitIsStable(streamed, at, items);
    }
  }

  // ------------------------------------------------------------ an input that fails

  lemma FourElements(a: int, b: int, c: int, d: int)
    ensures Elements([a, b, c, d]) == {a, b, c, d}
  {
    var keys := [a, b, c, d];
    assert keys[0] == a && keys[1] == b && keys[2] == c && keys[3] == d;
  }

  lemma FourListed(a: int, b: int, c: int, d: int, w: RawItem, x: RawItem, y: RawItem, z: RawItem)
    requires a < b < c < d
    ensures Listed(map[a := w, b := x, c := y, d := z]) == [w, x, y, z]
  {
    FourElements(a, b, c, d);
    ListedIs(map[a := w, b := x, c := y, d := z], [a, b, c, d]);
  }

  lemma GapMerge(a: RawItem, b: RawItem, c: RawItem, d: RawItem)
    requires a.id == Some("a") && b.id == Some("b") && c.id == Some("c") && d.id == Some("d")
    ensures Merged(map[0 := a, 5 := b], [c, d]) == map[0 := a, 1 := d, 5 := b, 6 := c]
  {
    var streamed := map[0 := a, 5 := b];
    assert streamed[0] == a && streamed[5] == b;
    var m := Streamed(streamed);
    assert m.next == 6 by {
      assert 5 in streamed;
      assert Bounds(m.next, streamed.Keys);
    }
    assert m.ids == {"a", "b"};
    assert [c][..0] == [] && [c, d][..1] == [c];
    assert PlaceAll(m, [c]) == Place(m, 0, c);
  }

  lemma GapDoesNotFit(a: RawItem, b: RawItem)
    ensures !Fits(map[0 := a, 5 := b], map[0 := 0, 5 := 2], 3)
  {
    var at: map<int, nat> := map[0 := 0, 5 := 2];
    assert 5 in at && at[5] == 2;
  }

  lemma GapCollects(a: RawItem, b: RawItem, c: RawItem, d: RawItem, body: Body)
    requires a.id == Some("a") && b.id == Some("b") && c.id == Some("c") && d.id == Some("d")
    requires body.Document? && body.output == Items([c, d])
    ensures map[0 := a, 5 := b] != map[]
    ensures Collect(body, map[0 := a, 5 := b]) == Success(body.(output := Items([a, d, b, c])))
  {
    GapMerge(a, b, c, d);
    FourListed(0, 1, 5, 6, a, d, b, c);
    assert 0 in map[0 := a, 5 := b];
  }

  lemma OneUnfit(body: Body, streamed: map<int, RawItem>, at: map<int, nat>, items: seq<RawItem>, i: nat)
    requires streamed != map[] && body.Document?
    requires Collect(body, streamed) == Success(body.(output := Items(items)))
    requires AllNamed(streamed) && forall i :: 0 <= i < |Terminal(body)| ==> Named(Terminal(body)[i])
    requires Stands(at, streamed, items) && i < |items| && i !in at.Values && !Fits(streamed, at, i)
    ensures Collect(Collect(body, streamed).value, streamed) != Collect(body, streamed)
  {
    NamedMergeIsStableExactlyIf(body, streamed, at, items);
  }

  /** Items streamed at 0 and 5 and two terminal ones: the one moved past 5 does not fit where it ends up. */
  lemma NamedGapsBreakStability(a: RawItem, b: RawItem, c: RawItem, d: RawItem, rest: string)
    requires a.id == Some("a") && b.id == Some("b") && c.id == Some("c") && d.id == Some("d")
    ensures var body := Document("completed", Items([c, d]), None, rest);
            var streamed := map[0 := a, 5 := b];
            && Collect(body, streamed) == Success(body.(output := Items([a, d, b, c])))
            && Collect(body.(output := Items([a, d, b, c])), streamed) != Collect(body, streamed)
  {
    var body := Document("completed", Items([c, d]), None, rest);
    GapCollects(a, b, c, d, body);
    GapDoesNotFit(a, b);
    OneUnfit(body, map[0 := a, 5 := b], map[0 := 0, 5 := 2], [a, d, b, c], 3);
  }
}

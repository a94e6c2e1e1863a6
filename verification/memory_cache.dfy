/**
 The cache object: a map from keys to entries and a list of the same entries,
 most recently used first, changed together.
 */
module MemoryCache {
  import opened Wrappers
  import opened LruCache

  type Bytes = seq<bv8>

  type Line = Item<string, Bytes>

  const DEFAULT_MAX_ENTRIES := 4096

  class Entry {
    const key: string
    var value: Bytes
    var expiresAt: Option<int>

    constructor (key: string, value: Bytes, expiresAt: Option<int>)
      ensures this.key == key && this.value == value && this.expiresAt == expiresAt
    {
      this.key, this.value, this.expiresAt := key, value, expiresAt;
    }

    function ToItem(): Line
      reads this
    {
      Item(key, value, expiresAt)
    }
  }

  /** The map and the list hold the same entries, one per key. */
  ghost predicate Linked(lru: seq<Entry>, entries: map<string, Entry>, items: seq<Line>)
    reads lru
  {
    && |items| == |lru|
    && DistinctKeys(items)
    && entries.Keys == Keys(items)
    && (forall i :: 0 <= i < |lru| ==> lru[i].ToItem() == items[i])
    && (forall i :: 0 <= i < |lru| ==> items[i].key in entries && entries[items[i].key] == lru[i])
  }

  lemma RemovedAt<T>(s: seq<T>, i: nat)
    requires i < |s|
    ensures |Removed(s, i)| == |s| - 1
    ensures forall j :: 0 <= j < |s| - 1 ==> Removed(s, i)[j] == s[if j < i then j else j + 1]
  {
  }

  lemma LinkedRemoved(lru: seq<Entry>, entries: map<string, Entry>, items: seq<Line>, i: nat)
    requires Linked(lru, entries, items) && i < |lru|
    ensures Linked(Removed(lru, i), entries - {items[i].key}, Removed(items, i))
    ensures Removed(items, i) == Without(items, items[i].key)
    ensures Lookup(items, items[i].key) == Some(items[i])
  {
    RemovedAt(lru, i);
    RemovedAt(items, i);
    WithoutAt(items, i);
    FrontKeepsDistinct(items, items[i].key, items[i], i);
    KeysRemoved(items, i, items[i].key);
  }

  /** A key that is not in the list goes in front without meeting itself. */
  lemma FrontKeys(items: seq<Line>, front: Line)
    requires DistinctKeys(items) && front.key !in Keys(items)
    ensures DistinctKeys([front] + items) && Keys([front] + items) == {front.key} + Keys(items)
  {
    var grown := [front] + items;
    assert grown[1..] == items;
    KeysCons(grown);
    forall i, j | 0 <= i < j < |grown| ensures grown[i].key != grown[j].key {
      assert grown[j].key in Keys(items) by {
        assert items[j - 1].key == grown[j].key;
      }
    }
  }

  /** A new front entry for a key that is not listed. */
  lemma LinkedFront(lru: seq<Entry>, entries: map<string, Entry>, items: seq<Line>, e: Entry)
    requires Linked(lru, entries, items) && e.key !in entries
    ensures Linked([e] + lru, entries[e.key := e], [e.ToItem()] + items)
  {
    var grown, list, table := [e.ToItem()] + items, [e] + lru, entries[e.key := e];
    FrontKeys(items, e.ToItem());
    forall i | 0 <= i < |list|
      ensures list[i].ToItem() == grown[i] && grown[i].key in table && table[grown[i].key] == list[i]
    {
      if i > 0 {
        assert lru[i - 1].ToItem() == items[i - 1];
        assert items[i - 1].key in entries;
      }
    }
  }

  lemma LinkedMoved(lru: seq<Entry>, entries: map<string, Entry>, items: seq<Line>, i: nat)
    requires Linked(lru, entries, items) && i < |lru|
    ensures Linked([lru[i]] + Removed(lru, i), entries, [items[i]] + Removed(items, i))
    ensures Removed(items, i) == Without(items, items[i].key)
    ensures Lookup(items, items[i].key) == Some(items[i])
  {
    LinkedRemoved(lru, entries, items, i);
    assert lru[i].ToItem() == items[i];
    LinkedFront(Removed(lru, i), entries - {items[i].key}, Removed(items, i), lru[i]);
    assert (entries - {items[i].key})[items[i].key := lru[i]] == entries;
  }

  /** The entry under a key is in the list and holds what the list says about that key. */
  lemma EntryOf(lru: seq<Entry>, entries: map<string, Entry>, items: seq<Line>, key: string)
    requires Linked(lru, entries, items)
    ensures key in entries <==> Lookup(items, key).Some?
    ensures key in entries ==>
            entries[key].key == key && entries[key] in lru && entries[key].ToItem() == Lookup(items, key).value
  {
    LookupFinds(items, key);
    if key in entries {
      var i :| 0 <= i < |items| && items[i].key == key;
      assert lru[i].ToItem() == items[i];
      WithoutAt(items, i);
    }
  }

  /** The position of an element of the list. */
  function Position(lru: seq<Entry>, element: Entry): (i: nat)
    requires element in lru
    ensures i < |lru| && lru[i] == element
  {
    if lru[0] == element then 0 else 1 + Position(lru[1..], element)
  }

  lemma EntryCount(lru: seq<Entry>, entries: map<string, Entry>, items: seq<Line>)
    requires Linked(lru, entries, items)
    ensures |entries| == |lru|
  {
    KeysCount(items);
  }

  lemma SameKeys(a: seq<Line>, b: seq<Line>)
    requires |a| == |b| && forall i :: 0 <= i < |a| ==> a[i].key == b[i].key
    ensures Keys(a) == Keys(b)
    ensures DistinctKeys(a) ==> DistinctKeys(b)
  {
    assert forall k :: k in Keys(a) ==> exists i :: 0 <= i < |a| && a[i].key == k == b[i].key;
  }

  /** A new value in the front entry. */
  lemma LinkedRewritten(lru: seq<Entry>, entries: map<string, Entry>, items: seq<Line>, rewritten: seq<Line>)
    requires |items| == |lru| == |rewritten| && DistinctKeys(items) && entries.Keys == Keys(items)
    requires forall i :: 0 <= i < |lru| ==> items[i].key in entries && entries[items[i].key] == lru[i]
    requires forall i :: 0 <= i < |lru| ==> lru[i].ToItem() == rewritten[i] && rewritten[i].key == items[i].key
    ensures Linked(lru, entries, rewritten)
  {
    SameKeys(items, rewritten);
  }

  lemma OnlyAtFront(lru: seq<Entry>, entries: map<string, Entry>, items: seq<Line>)
    requires Linked(lru, entries, items) && lru != []
    ensures forall i :: 0 < i < |lru| ==> lru[i] != lru[0] && lru[i].ToItem() == items[i]
    ensures lru[0].key == items[0].key
  {
    assert lru[0].ToItem() == items[0];
    forall i | 0 < i < |lru| ensures lru[i] != lru[0] {
      assert lru[i].ToItem() == items[i];
    }
  }

  class MemoryConversationCache {
    const maxEntries: nat
    var entries: map<string, Entry>
    var lru: seq<Entry>
    var closed: bool
    /** The list as values. */
    ghost var items: seq<Line>

    ghost predicate Valid()
      reads this, lru
    {
      0 < maxEntries && |lru| <= maxEntries && Linked(lru, entries, items)
    }

    ghost function View(): Cache<string, Bytes>
      reads this
    {
      Cache(maxEntries, items, closed)
    }

    constructor (maxEntries: int)
      ensures Valid() && lru == []
      ensures View() == Empty(if maxEntries <= 0 then DEFAULT_MAX_ENTRIES else maxEntries)
    {
      this.maxEntries := if maxEntries <= 0 then DEFAULT_MAX_ENTRIES else maxEntries;
      entries, lru, closed := map[], [], false;
      items := [];
    }

    method MoveToFront(element: Entry)
      requires Linked(lru, entries, items) && element.key in entries && entries[element.key] == element
      modifies this`lru, this`items
      ensures Linked(lru, entries, items) && |lru| == |old(lru)| > 0 && lru[0] == element
      ensures Lookup(old(items), element.key).Some?
      ensures items == [Lookup(old(items), element.key).value] + Without(old(items), element.key)
    {
      EntryOf(lru, entries, items, element.key);
      var i := Position(lru, element);
      LinkedMoved(lru, entries, items, i);
      items, lru := [items[i]] + Removed(items, i), [element] + Removed(lru, i);
    }

    method Remove(element: Entry)
      requires Linked(lru, entries, items) && element.key in entries && entries[element.key] == element
      modifies this`entries, this`lru, this`items
      ensures Linked(lru, entries, items) && items == Without(old(items), element.key)
      ensures |lru| == |old(lru)| - 1
    {
      EntryOf(lru, entries, items, element.key);
      var i := Position(lru, element);
      LinkedRemoved(lru, entries, items, i);
      entries, items, lru := entries - {element.key}, Removed(items, i), Removed(lru, i);
    }

    method Get(key: string, now: int) returns (found: Found<Bytes>)
      requires Valid()
      modifies this`entries, this`lru, this`items
      ensures Valid() && (View(), found) == LruCache.Get(old(View()), key, now)
    {
      if closed {
        return ClosedError;
      }
      EntryOf(lru, entries, items, key);
      if key !in entries {
        return Miss;
      }
      var element := entries[key];
      if element.expiresAt.Some? && now > element.expiresAt.value {
        Remove(element);
        return Miss;
      }
      MoveToFront(element);
      return Hit(element.value);
    }

    method Set(key: string, value: Bytes, ttl: int, now: int) returns (failed: bool)
      requires Valid()
      modifies this`entries, this`lru, this`items, lru
      ensures Valid()
      ensures failed == closed && View() == LruCache.Set(old(View()), key, value, ttl, now)
    {
      if closed {
        return true;
      }
      var expiresAt := if ttl > 0 then Some(now + ttl) else None;
      EntryOf(lru, entries, items, key);
      if key in entries {
        Update(entries[key], value, expiresAt);
        return false;
      }
      LookupFinds(items, key);
      WithoutMissing(items, key);
      var element := new Entry(key, value, expiresAt);
      Insert(element);
      return false;
    }

    method Update(element: Entry, value: Bytes, expiresAt: Option<int>)
      requires Valid() && element.key in entries && entries[element.key] == element
      modifies this`lru, this`items, lru
      ensures Valid()
      ensures items == Bounded([Item(element.key, value, expiresAt)] + Without(old(items), element.key), maxEntries)
    {
      EntryOf(lru, entries, items, element.key);
      MoveToFront(element);
      Rewrite(element, value, expiresAt);
    }

    method Insert(element: Entry)
      requires Valid() && element.key !in entries
      modifies this`entries, this`lru, this`items
      ensures Valid() && items == Bounded([element.ToItem()] + old(items), maxEntries)
    {
      LinkedFront(lru, entries, items, element);
      entries, lru, items := entries[element.key := element], [element] + lru, [element.ToItem()] + items;
      Evict();
    }

    method Rewrite(element: Entry, value: Bytes, expiresAt: Option<int>)
      requires Linked(lru, entries, items) && lru != [] && lru[0] == element
      modifies this`items, element
      ensures Linked(lru, entries, items)
      ensures items == [Item(element.key, value, expiresAt)] + old(items)[1..]
    {
      ghost var before := items;
      OnlyAtFront(lru, entries, items);
      element.value := value;
      element.expiresAt := expiresAt;
      items := [Item(element.key, value, expiresAt)] + before[1..];
      LinkedRewritten(lru, entries, before, items);
    }

    /** Drop the least recently used entries until the bound holds. */
    method Evict()
      requires Linked(lru, entries, items) && maxEntries > 0
      modifies this`entries, this`lru, this`items
      ensures Valid() && items == Bounded(old(items), maxEntries)
    {
      ghost var all := items;
      EntryCount(lru, entries, items);
      while |entries| > maxEntries
        invariant Linked(lru, entries, items) && |entries| == |items|
        invariant items <= all && (|items| >= maxEntries || items == all)
      {
        RemoveBack();
      }
    }

    method RemoveBack()
      requires Linked(lru, entries, items) && lru != []
      modifies this`entries, this`lru, this`items
      ensures Linked(lru, entries, items) && |entries| == |items|
      ensures items == old(items)[..|old(items)| - 1]
    {
      var back := lru[|lru| - 1];
      assert back.ToItem() == items[|lru| - 1];
      WithoutAt(items, |items| - 1);
      Remove(back);
      EntryCount(lru, entries, items);
    }

    method Delete(key: string) returns (failed: bool)
      requires Valid()
      modifies this`entries, this`lru, this`items
      ensures Valid()
      ensures failed == closed && View() == LruCache.Delete(old(View()), key)
    {
      if closed {
        return true;
      }
      EntryOf(lru, entries, items, key);
      if key in entries {
        Remove(entries[key]);
      } else {
        LookupFinds(items, key);
        WithoutMissing(items, key);
      }
      return false;
    }

    method Close()
      requires Valid()
      modifies this
      ensures Valid() && View() == LruCache.Close(old(View()))
    {
      closed := true;
      entries, lru := map[], [];
      items := [];
    }
  }
}

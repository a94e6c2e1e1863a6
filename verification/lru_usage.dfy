/**
 When the cache still has a key, said without the list: each cached key knows which
 other keys were used since its own last use and are still cached. A key is pushed
 out by the use that brings these to as many as the cache has room for.
 */
module LruUsage {
  import opened Wrappers
  import opened LruCache

  datatype Use<K> = Use(since: set<K>, expiresAt: Option<int>)

  datatype Usage<K> = Shut | Open(uses: map<K, Use<K>>)

  /** The other keys after a use of `key`: it counts against each of them, and one at the bound goes. */
  function Counted<K(==)>(uses: map<K, Use<K>>, key: K, maxEntries: nat): map<K, Use<K>> {
    map k | k in uses && k != key && |uses[k].since + {key}| < maxEntries ::
      Use(uses[k].since + {key}, uses[k].expiresAt)
  }

  /** The other keys after `key` is gone: it counts against none of them any more. */
  function Uncounted<K(==)>(uses: map<K, Use<K>>, key: K): map<K, Use<K>> {
    map k | k in uses && k != key :: Use(uses[k].since - {key}, uses[k].expiresAt)
  }

  function Note<K(==), V>(usage: Usage<K>, maxEntries: nat, op: Op<K, V>): Usage<K> {
    if usage.Shut? then Shut
    else
      var uses := usage.uses;
      match op
      case GetOp(key, now) =>
        if key !in uses then usage
        else if uses[key].expiresAt.Some? && now > uses[key].expiresAt.value then Open(Uncounted(uses, key))
        else Open(Counted(uses, key, maxEntries)[key := Use({}, uses[key].expiresAt)])
      case SetOp(key, _, ttl, now) => Open(Counted(uses, key, maxEntries)[key := Use({}, Expiry(ttl, now))])
      case DeleteOp(key) => Open(Uncounted(uses, key))
      case CloseOp => Shut
  }

  function NoteAll<K(==), V>(usage: Usage<K>, maxEntries: nat, ops: seq<Op<K, V>>): Usage<K>
    decreases |ops|
  {
    if ops == [] then usage else NoteAll(Note(usage, maxEntries, ops[0]), maxEntries, ops[1..])
  }

  // ------------------------------------------------------------- the list agrees

  /** The keys ahead of a listed key are those used since. */
  ghost predicate TrackedAt<K, V>(items: seq<Item<K, V>>, uses: map<K, Use<K>>, i: int) {
    && 0 <= i < |items|
    && items[i].key in uses
    && uses[items[i].key] == Use(Keys(items[..i]), items[i].expiresAt)
  }

  ghost predicate Tracks<K, V>(items: seq<Item<K, V>>, uses: map<K, Use<K>>) {
    && uses.Keys == Keys(items)
    && (forall i :: 0 <= i < |items| ==> TrackedAt(items, uses, i))
  }

  ghost predicate Agrees<K, V>(c: Cache<K, V>, usage: Usage<K>) {
    && c.closed == usage.Shut?
    && (usage.Open? ==> Tracks(c.items, usage.uses))
  }

  function Origin(p: nat, j: nat): nat {
    if j < p then j else j + 1
  }

  lemma KeysAheadOf<K, V>(items: seq<Item<K, V>>, p: nat, j: nat)
    requires DistinctKeys(items) && p <= |items| && j < |Removed(items, p)|
    ensures Removed(items, p)[j] == items[Origin(p, j)]
    ensures Keys(Removed(items, p)[..j]) == Keys(items[..Origin(p, j)]) - (if p < |items| then {items[p].key} else {})
  {
    var rest := Removed(items, p);
    if j < p {
      assert rest[..j] == items[..j];
      assert p < |items| ==> items[p].key !in Keys(items[..j]);
    } else {
      assert rest[..j] == items[..p] + items[p + 1..j + 1];
      assert items[..j + 1] == items[..p] + ([items[p]] + items[p + 1..j + 1]);
      KeysJoin(items[..p], items[p + 1..j + 1]);
      KeysJoin(items[..p], [items[p]] + items[p + 1..j + 1]);
      KeysJoin([items[p]], items[p + 1..j + 1]);
      KeysOne(items[p]);
      assert items[p].key !in Keys(items[..p]) && items[p].key !in Keys(items[p + 1..j + 1]);
    }
  }

  lemma RemovalTracks<K, V>(items: seq<Item<K, V>>, uses: map<K, Use<K>>, key: K)
    requires DistinctKeys(items) && Tracks(items, uses)
    ensures Tracks(Without(items, key), Uncounted(uses, key))
  {
    var p := At(items, key);
    var rest := Removed(items, p);
    KeysRemoved(items, p, key);
    assert Uncounted(uses, key).Keys == Keys(rest);
    forall j | 0 <= j < |rest| ensures TrackedAt(rest, Uncounted(uses, key), j) {
      KeysAheadOf(items, p, j);
      assert TrackedAt(items, uses, Origin(p, j));
      assert rest[j].key in Keys(rest);
      assert p == |items| ==> key !in Keys(items[..j]);
    }
  }

  lemma FrontDistinct<K, V>(items: seq<Item<K, V>>, x: Item<K, V>, p: nat)
    requires DistinctKeys(items) && p <= |items|
    requires if p < |items| then items[p].key == x.key else x.key !in Keys(items)
    ensures DistinctKeys([x] + Removed(items, p))
  {
    assert p < |items| ==> items[p].key in Keys(items);
    FrontKeepsDistinct(items, x.key, x, p);
  }

  /** What stands at a place once x has been moved or put in front. */
  lemma AfterFront<K, V>(items: seq<Item<K, V>>, x: Item<K, V>, p: nat, j: nat)
    requires DistinctKeys(items) && p <= |items| && 0 < j <= |Removed(items, p)|
    requires if p < |items| then items[p].key == x.key else x.key !in Keys(items)
    ensures var all := [x] + Removed(items, p);
            && all[j] == items[Origin(p, j - 1)]
            && Keys(all[..j]) == Keys(items[..Origin(p, j - 1)]) + {x.key}
  {
    var rest := Removed(items, p);
    KeysAheadOf(items, p, j - 1);
    assert ([x] + rest)[..j] == [x] + rest[..j - 1];
    KeysJoin([x], rest[..j - 1]);
    KeysOne(x);
  }

  /** Each other key keeps its place, now counting x among those used since. */
  lemma FrontCounts<K, V>(items: seq<Item<K, V>>, uses: map<K, Use<K>>, x: Item<K, V>, p: nat, j: nat)
    requires DistinctKeys(items) && Tracks(items, uses) && p <= |items| && 0 < j <= |Removed(items, p)|
    requires if p < |items| then items[p].key == x.key else x.key !in Keys(items)
    ensures var all := [x] + Removed(items, p);
            && all[j].key in uses && all[j].key != x.key
            && uses[all[j].key].expiresAt == all[j].expiresAt
            && uses[all[j].key].since + {x.key} == Keys(all[..j])
            && |Keys(all[..j])| == j
  {
    AfterFront(items, x, p, j);
    FrontDistinct(items, x, p);
    KeysCount(([x] + Removed(items, p))[..j]);
    assert TrackedAt(items, uses, Origin(p, j - 1));
  }

  /** Where a listed key stands once x is in front. */
  lemma PlaceAfterFront<K, V>(items: seq<Item<K, V>>, x: Item<K, V>, p: nat, k: K) returns (j: nat)
    requires p <= |items| && k in Keys(items) && k != x.key && (p < |items| ==> items[p].key == x.key)
    ensures 0 < j <= |Removed(items, p)| && ([x] + Removed(items, p))[j].key == k
  {
    var o :| 0 <= o < |items| && items[o].key == k;
    j := if o < p then o + 1 else o;
    assert Removed(items, p)[j - 1] == items[o];
  }

  /** A key that is still counted is within the bound. */
  lemma CountedIsKept<K, V>(items: seq<Item<K, V>>, uses: map<K, Use<K>>, x: Item<K, V>, p: nat, maxEntries: nat, k: K)
    returns (j: nat)
    requires DistinctKeys(items) && Tracks(items, uses) && p <= |items| && maxEntries > 0
    requires if p < |items| then items[p].key == x.key else x.key !in Keys(items)
    requires k in Counted(uses, x.key, maxEntries)
    ensures 0 < j <= |Removed(items, p)| && j < maxEntries && ([x] + Removed(items, p))[j].key == k
  {
    j := PlaceAfterFront(items, x, p, k);
    FrontCounts(items, uses, x, p, j);
  }

  lemma FrontKeys<K, V>(items: seq<Item<K, V>>, uses: map<K, Use<K>>, x: Item<K, V>, p: nat, maxEntries: nat)
    requires DistinctKeys(items) && Tracks(items, uses) && p <= |items| && maxEntries > 0
    requires if p < |items| then items[p].key == x.key else x.key !in Keys(items)
    ensures Keys(Bounded([x] + Removed(items, p), maxEntries)) == Counted(uses, x.key, maxEntries).Keys + {x.key}
  {
    var all := [x] + Removed(items, p);
    var kept := Bounded(all, maxEntries);
    assert kept[0].key == x.key;
    forall k | k in Keys(kept) && k != x.key ensures k in Counted(uses, x.key, maxEntries) {
      var j :| 0 <= j < |kept| && kept[j].key == k;
      FrontCounts(items, uses, x, p, j);
    }
    forall k | k in Counted(uses, x.key, maxEntries) ensures k in Keys(kept) {
      var j := CountedIsKept(items, uses, x, p, maxEntries, k);
      assert kept[j].key == k;
    }
  }

  lemma FrontTrackedAt<K, V>(items: seq<Item<K, V>>, uses: map<K, Use<K>>, x: Item<K, V>, p: nat, maxEntries: nat,
      j: nat)
    requires DistinctKeys(items) && Tracks(items, uses) && p <= |items| && maxEntries > 0
    requires if p < |items| then items[p].key == x.key else x.key !in Keys(items)
    requires j <= |Removed(items, p)| && j < maxEntries
    ensures TrackedAt(Bounded([x] + Removed(items, p), maxEntries),
                      Counted(uses, x.key, maxEntries)[x.key := Use({}, x.expiresAt)], j)
  {
    var all := [x] + Removed(items, p);
    assert Bounded(all, maxEntries)[..j] == all[..j];
    if j > 0 {
      FrontCounts(items, uses, x, p, j);
    }
  }

  lemma FrontTracks<K, V>(items: seq<Item<K, V>>, uses: map<K, Use<K>>, x: Item<K, V>, maxEntries: nat)
    requires DistinctKeys(items) && Tracks(items, uses) && maxEntries > 0
    ensures Tracks(Bounded([x] + Without(items, x.key), maxEntries),
                   Counted(uses, x.key, maxEntries)[x.key := Use({}, x.expiresAt)])
  {
    var p := At(items, x.key);
    var kept := Bounded([x] + Removed(items, p), maxEntries);
    var after := Counted(uses, x.key, maxEntries)[x.key := Use({}, x.expiresAt)];
    FrontKeys(items, uses, x, p, maxEntries);
    forall j | 0 <= j < |kept| ensures TrackedAt(kept, after, j) {
      FrontTrackedAt(items, uses, x, p, maxEntries, j);
    }
  }

  lemma GetAgrees<K, V>(c: Cache<K, V>, uses: map<K, Use<K>>, op: Op<K, V>)
    requires Inv(c) && !c.closed && Tracks(c.items, uses) && op.GetOp?
    ensures Agrees(Get(c, op.key, op.now).0, Note(Open(uses), c.maxEntries, op))
  {
    var key, now := op.key, op.now;
    var p := At(c.items, key);
    if p < |c.items| {
      assert TrackedAt(c.items, uses, p);
      if Expired(c.items[p], now) {
        RemovalTracks(c.items, uses, key);
      } else {
        FrontTracks(c.items, uses, c.items[p], c.maxEntries);
        WithinBound(c, c.items[p], p);
      }
    }
  }

  /** Moving a listed entry to the front pushes nothing out. */
  lemma WithinBound<K, V>(c: Cache<K, V>, x: Item<K, V>, p: nat)
    requires Inv(c) && p < |c.items| && Without(c.items, x.key) == Removed(c.items, p)
    ensures Bounded([x] + Without(c.items, x.key), c.maxEntries) == [x] + Without(c.items, x.key)
  {
  }

  lemma StepAgrees<K, V>(c: Cache<K, V>, usage: Usage<K>, op: Op<K, V>)
    requires Inv(c) && Agrees(c, usage)
    ensures Agrees(Apply(c, op), Note(usage, c.maxEntries, op))
  {
    if usage.Open? {
      match op
      case GetOp(_, _) => GetAgrees(c, usage.uses, op);
      case SetOp(key, value, ttl, now) =>
        FrontTracks(c.items, usage.uses, Item(key, value, Expiry(ttl, now)), c.maxEntries);
      case DeleteOp(key) => RemovalTracks(c.items, usage.uses, key);
      case CloseOp =>
    }
  }

  lemma {:induction false} RunAgrees<K, V>(c: Cache<K, V>, usage: Usage<K>, ops: seq<Op<K, V>>)
    requires Inv(c) && Agrees(c, usage)
    ensures Agrees(Run(c, ops), NoteAll(usage, c.maxEntries, ops))
    decreases |ops|
  {
    if ops != [] {
      ApplyKeeps(c, ops[0]);
      StepAgrees(c, usage, ops[0]);
      RunAgrees(Apply(c, ops[0]), Note(usage, c.maxEntries, ops[0]), ops[1..]);
    }
  }

  /**
   Exactly when a key is found, over every history: the cache is open, the key was
   used and not removed since, with fewer than maxEntries other cached keys used
   after it at any time, and it has not expired.
   */
  lemma FoundExactlyIf<K, V>(maxEntries: nat, ops: seq<Op<K, V>>, k: K, now: int)
    requires maxEntries > 0
    ensures var usage := NoteAll(Open(map[]), maxEntries, ops);
            Get(Run(Empty(maxEntries), ops), k, now).1.Hit? <==>
              && usage.Open?
              && k in usage.uses
              && (usage.uses[k].expiresAt.Some? ==> now <= usage.uses[k].expiresAt.value)
  {
    var c: Cache<K, V> := Empty(maxEntries);
    var usage := NoteAll(Open(map[]), maxEntries, ops);
    assert Tracks(c.items, map[]);
    RunAgrees(c, Open(map[]), ops);
    RunKeeps(c, ops);
    var last := Run(c, ops);
    LookupFinds(last.items, k);
    if usage.Open? && k in usage.uses {
      var p := At(last.items, k);
      assert TrackedAt(last.items, usage.uses, p);
    }
  }
}

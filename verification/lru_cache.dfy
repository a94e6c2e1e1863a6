/**
 What the in-memory conversation cache does (providers/codex/conversation_cache.go):
 a list of entries, most recently used first, bounded and with expiry times.
 */
module LruCache {
  import opened Wrappers

  datatype Item<K, V> = Item(key: K, value: V, expiresAt: Option<int>)

  datatype Cache<K, V> = Cache(maxEntries: nat, items: seq<Item<K, V>>, closed: bool)

  datatype Found<V> = ClosedError | Miss | Hit(value: V)

  function Lookup<K(==), V>(items: seq<Item<K, V>>, key: K): Option<Item<K, V>> {
    if items == [] then None else if items[0].key == key then Some(items[0]) else Lookup(items[1..], key)
  }

  function Without<K(==), V>(items: seq<Item<K, V>>, key: K): seq<Item<K, V>> {
    if items == [] then [] else (if items[0].key == key then [] else [items[0]]) + Without(items[1..], key)
  }

  function Keys<K(==), V>(items: seq<Item<K, V>>): set<K> {
    set i | 0 <= i < |items| :: items[i].key
  }

  predicate Expired<K(==), V>(item: Item<K, V>, now: int) {
    item.expiresAt.Some? && now > item.expiresAt.value
  }

  function Expiry(ttl: int, now: int): Option<int> {
    if ttl > 0 then Some(now + ttl) else None
  }

  function Get<K(==), V>(c: Cache<K, V>, key: K, now: int): (Cache<K, V>, Found<V>) {
    if c.closed then (c, ClosedError)
    else
      match Lookup(c.items, key)
      case None => (c, Miss)
      case Some(item) =>
        if Expired(item, now) then (c.(items := Without(c.items, key)), Miss)
        else (c.(items := [item] + Without(c.items, key)), Hit(item.value))
  }

  function Bounded<K(==), V>(items: seq<Item<K, V>>, maxEntries: nat): seq<Item<K, V>> {
    if |items| <= maxEntries then items else items[..maxEntries]
  }

  function Set<K(==), V>(c: Cache<K, V>, key: K, value: V, ttl: int, now: int): Cache<K, V> {
    if c.closed then c
    else c.(items := Bounded([Item(key, value, Expiry(ttl, now))] + Without(c.items, key), c.maxEntries))
  }

  function Delete<K(==), V>(c: Cache<K, V>, key: K): Cache<K, V> {
    if c.closed then c else c.(items := Without(c.items, key))
  }

  function Close<K(==), V>(c: Cache<K, V>): Cache<K, V> {
    c.(items := [], closed := true)
  }

  datatype Op<K, V> =
    | GetOp(key: K, now: int)
    | SetOp(key: K, value: V, ttl: int, now: int)
    | DeleteOp(key: K)
    | CloseOp

  function Apply<K(==), V>(c: Cache<K, V>, op: Op<K, V>): Cache<K, V> {
    match op
    case GetOp(key, now) => Get(c, key, now).0
    case SetOp(key, value, ttl, now) => Set(c, key, value, ttl, now)
    case DeleteOp(key) => Delete(c, key)
    case CloseOp => Close(c)
  }

  function Run<K(==), V>(c: Cache<K, V>, ops: seq<Op<K, V>>): Cache<K, V>
    decreases |ops|
  {
    if ops == [] then c else Run(Apply(c, ops[0]), ops[1..])
  }

  // ---------------------------------------------------------------- invariant

  ghost predicate DistinctKeys<K, V>(items: seq<Item<K, V>>) {
    forall i, j :: 0 <= i < j < |items| ==> items[i].key != items[j].key
  }

  ghost predicate Inv<K, V>(c: Cache<K, V>) {
    c.maxEntries > 0 && |c.items| <= c.maxEntries && DistinctKeys(c.items)
  }

  lemma {:induction false} LookupFinds<K, V>(items: seq<Item<K, V>>, key: K)
    ensures Lookup(items, key).Some? <==> key in Keys(items)
    ensures Lookup(items, key).Some? ==> Lookup(items, key).value in items && Lookup(items, key).value.key == key
  {
    if items != [] && items[0].key != key {
      LookupFinds(items[1..], key);
      KeysCons(items);
    }
  }

  lemma KeysCons<K, V>(items: seq<Item<K, V>>)
    requires items != []
    ensures Keys(items) == {items[0].key} + Keys(items[1..])
  {
    forall k | k in Keys(items) ensures k in {items[0].key} + Keys(items[1..]) {
      var i :| 0 <= i < |items| && items[i].key == k;
      assert i > 0 ==> items[1..][i - 1].key == k;
    }
    forall k | k in Keys(items[1..]) ensures k in Keys(items) {
      var i :| 0 <= i < |items[1..]| && items[1..][i].key == k;
      assert items[i + 1].key == k;
    }
  }

  lemma {:induction false} KeysJoin<K, V>(a: seq<Item<K, V>>, b: seq<Item<K, V>>)
    ensures Keys(a + b) == Keys(a) + Keys(b)
  {
    if a == [] {
      assert a + b == b;
    } else {
      KeysJoin(a[1..], b);
      KeysCons(a);
      KeysCons(a + b);
      assert (a + b)[1..] == a[1..] + b;
    }
  }

  lemma KeysOne<K, V>(x: Item<K, V>)
    ensures Keys([x]) == {x.key}
  {
    assert [x][0].key == x.key;
  }

  /** With distinct keys, removing a key removes its one position. */
  lemma {:induction false} WithoutAt<K, V>(items: seq<Item<K, V>>, i: nat)
    requires DistinctKeys(items) && i < |items|
    ensures Without(items, items[i].key) == items[..i] + items[i + 1..]
    ensures Lookup(items, items[i].key) == Some(items[i])
  {
    if i == 0 {
      assert forall j :: 0 <= j < |items[1..]| ==> items[1..][j].key == items[j + 1].key != items[0].key;
      WithoutMissing(items[1..], items[0].key);
    } else {
      var tail := items[1..];
      WithoutAt(tail, i - 1);
      assert tail[i - 1] == items[i] && items[0].key != items[i].key;
      assert [items[0]] + (tail[..i - 1] + tail[i..]) == items[..i] + items[i + 1..];
    }
  }

  lemma {:induction false} WithoutMissing<K, V>(items: seq<Item<K, V>>, key: K)
    requires key !in Keys(items)
    ensures Without(items, key) == items
  {
    if items != [] {
      KeysCons(items);
      WithoutMissing(items[1..], key);
    }
  }

  /** Removal by key, whether or not it is present. */
  lemma WithoutShape<K, V>(items: seq<Item<K, V>>, key: K) returns (i: nat)
    requires DistinctKeys(items)
    ensures i <= |items|
    ensures i < |items| ==> items[i].key == key && Without(items, key) == items[..i] + items[i + 1..]
    ensures i == |items| ==> Without(items, key) == items
    ensures key in Keys(items) <==> i < |items|
  {
    if key in Keys(items) {
      i :| 0 <= i < |items| && items[i].key == key;
      WithoutAt(items, i);
    } else {
      WithoutMissing(items, key);
      i := |items|;
    }
  }

  function Removed<T>(s: seq<T>, p: nat): (rest: seq<T>)
    ensures |rest| == if p < |s| then |s| - 1 else |s|
  {
    if p < |s| then s[..p] + s[p + 1..] else s
  }

  /** Where a key is, if it is there. */
  lemma At<K, V>(items: seq<Item<K, V>>, key: K) returns (p: nat)
    requires DistinctKeys(items)
    ensures p <= |items| && Without(items, key) == Removed(items, p)
    ensures p < |items| ==> items[p].key == key && Lookup(items, key) == Some(items[p])
    ensures p == |items| ==> key !in Keys(items) && Lookup(items, key) == None
  {
    p := WithoutShape(items, key);
    LookupFinds(items, key);
    if p < |items| {
      WithoutAt(items, p);
    }
  }

  lemma KeysRemoved<K, V>(items: seq<Item<K, V>>, p: nat, key: K)
    requires DistinctKeys(items) && p <= |items|
    requires if p < |items| then items[p].key == key else key !in Keys(items)
    ensures Keys(Removed(items, p)) == Keys(items) - {key}
  {
    if p < |items| {
      assert items == items[..p] + ([items[p]] + items[p + 1..]);
      KeysJoin(items[..p], items[p + 1..]);
      KeysJoin(items[..p], [items[p]] + items[p + 1..]);
      KeysJoin([items[p]], items[p + 1..]);
      KeysOne(items[p]);
      assert key !in Keys(items[..p]) && key !in Keys(items[p + 1..]);
    }
  }

  lemma FrontKeepsDistinct<K, V>(items: seq<Item<K, V>>, key: K, front: Item<K, V>, i: nat)
    requires DistinctKeys(items) && front.key == key
    requires i <= |items| && (i < |items| ==> items[i].key == key) && (key in Keys(items) <==> i < |items|)
    ensures var rest := if i < |items| then items[..i] + items[i + 1..] else items;
            DistinctKeys(rest) && DistinctKeys([front] + rest)
  {
    var rest := if i < |items| then items[..i] + items[i + 1..] else items;
    forall j | 0 <= j < |rest| ensures rest[j].key != key {
      var o := if j < i then j else j + 1;
      assert rest[j] == items[o];
      assert i == |items| ==> items[j].key in Keys(items);
    }
  }

  lemma ApplyKeeps<K, V>(c: Cache<K, V>, op: Op<K, V>)
    requires Inv(c)
    ensures Inv(Apply(c, op))
  {
    match op
    case GetOp(key, now) =>
      var i := WithoutShape(c.items, key);
      LookupFinds(c.items, key);
      if i < |c.items| {
        FrontKeepsDistinct(c.items, key, Lookup(c.items, key).value, i);
      }
    case SetOp(key, value, ttl, now) =>
      var i := WithoutShape(c.items, key);
      FrontKeepsDistinct(c.items, key, Item(key, value, Expiry(ttl, now)), i);
    case DeleteOp(key) =>
      var i := WithoutShape(c.items, key);
      if i < |c.items| {
        FrontKeepsDistinct(c.items, key, c.items[i], i);
      }
    case CloseOp =>
  }

  lemma {:induction false} RunKeeps<K, V>(c: Cache<K, V>, ops: seq<Op<K, V>>)
    requires Inv(c)
    ensures Inv(Run(c, ops))
    decreases |ops|
  {
    if ops != [] {
      ApplyKeeps(c, ops[0]);
      RunKeeps(Apply(c, ops[0]), ops[1..]);
    }
  }

  // ----------------------------------------------------------------- survival

  /** The key an operation moves to the front: one that is set, or read while it is live. */
  function Used<K(==), V>(c: Cache<K, V>, op: Op<K, V>): Option<K> {
    match op
    case GetOp(key, now) => if Get(c, key, now).1.Hit? then Some(key) else None
    case SetOp(key, _, _, _) => if c.closed then None else Some(key)
    case _ => None
  }

  /** The other keys used since the last use of k. */
  function Others<K(==), V>(c: Cache<K, V>, op: Op<K, V>, k: K, seen: set<K>): set<K> {
    match Used(c, op)
    case None => seen
    case Some(key) => if key == k then {} else seen + {key}
  }

  predicate Drops<K(==), V>(c: Cache<K, V>, op: Op<K, V>, k: K) {
    || op == CloseOp
    || op == DeleteOp(k)
    || (op.GetOp? && op.key == k && Lookup(c.items, k).Some? && Expired(Lookup(c.items, k).value, op.now))
  }

  /**
   No operation deletes k, reads it expired or closes the cache, and fewer than
   maxEntries others are used since its own last use.
   */
  predicate Undisturbed<K(==), V>(c: Cache<K, V>, ops: seq<Op<K, V>>, k: K, seen: set<K>)
    decreases |ops|
  {
    ops == [] ||
    (&& !Drops(c, ops[0], k)
     && |Others(c, ops[0], k, seen)| < c.maxEntries
     && Undisturbed(Apply(c, ops[0]), ops[1..], k, Others(c, ops[0], k, seen)))
  }

  function LastSet<K(==), V>(ops: seq<Op<K, V>>, k: K, value: V): V {
    if ops == [] then value
    else LastSet(ops[1..], k, if ops[0].SetOp? && ops[0].key == k then ops[0].value else value)
  }

  /** k is at position p with its last value, and only keys in seen are ahead of it. */
  ghost predicate HeldAt<K, V>(c: Cache<K, V>, k: K, value: V, seen: set<K>, p: nat) {
    && p < |c.items| && c.items[p].key == k && c.items[p].value == value
    && k !in seen
    && (forall i :: 0 <= i < p ==> c.items[i].key in seen)
  }

  lemma {:induction false} KeysCount<K, V>(items: seq<Item<K, V>>)
    requires DistinctKeys(items)
    ensures |Keys(items)| == |items|
  {
    if items == [] {
      assert Keys(items) == {};
    } else {
      KeysCount(items[1..]);
      KeysCons(items);
      assert items[0].key !in Keys(items[1..]);
    }
  }

  /** An operation on k itself brings it to the front. */
  lemma OwnOpHolds<K, V>(c: Cache<K, V>, op: Op<K, V>, k: K, value: V, seen: set<K>, p: nat)
    requires Inv(c) && !c.closed && HeldAt(c, k, value, seen, p) && (op.GetOp? || op.SetOp?) && op.key == k
             && !Drops(c, op, k)
    ensures !Apply(c, op).closed
    ensures HeldAt(Apply(c, op), k, if op.SetOp? then op.value else value, {}, 0) && Others(c, op, k, seen) == {}
  {
    WithoutAt(c.items, p);
  }

  lemma WithoutHolds<K, V>(c: Cache<K, V>, key: K, k: K, value: V, seen: set<K>, p: nat) returns (p': nat)
    requires Inv(c) && HeldAt(c, k, value, seen, p) && key != k
    ensures HeldAt(c.(items := Without(c.items, key)), k, value, seen, p')
  {
    var i := WithoutShape(c.items, key);
    p' := if i < p then p - 1 else p;
  }

  lemma FrontHolds<K, V>(c: Cache<K, V>, front: Item<K, V>, k: K, value: V, seen: set<K>, p: nat) returns (p': nat)
    requires Inv(c) && HeldAt(c, k, value, seen, p) && front.key != k && |seen + {front.key}| < c.maxEntries
    ensures HeldAt(c.(items := Bounded([front] + Without(c.items, front.key), c.maxEntries)), k, value,
            seen + {front.key}, p')
  {
    var i := WithoutShape(c.items, front.key);
    AheadInserted(c, front.key, k, value, seen, p, i);
    InsertFrontHolds(c, front, k, value, seen, p, i);
    p' := if i < p then p else p + 1;
  }

  /** A read of another key: a hit moves it to the front, an expired entry goes, a miss changes nothing. */
  lemma OtherGetHolds<K, V>(c: Cache<K, V>, key: K, now: int, k: K, value: V, seen: set<K>, p: nat) returns (p': nat)
    requires Inv(c) && !c.closed && HeldAt(c, k, value, seen, p) && key != k
    requires |Others(c, GetOp(key, now), k, seen)| < c.maxEntries
    ensures !Get(c, key, now).0.closed && HeldAt(Get(c, key, now).0, k, value, Others(c, GetOp(key, now), k, seen), p')
  {
    LookupFinds(c.items, key);
    p' := p;
    if Lookup(c.items, key).Some? {
      var item := Lookup(c.items, key).value;
      if Expired(item, now) {
        p' := WithoutHolds(c, key, k, value, seen, p);
      } else {
        p' := FrontHolds(c, item, k, value, seen, p);
        var i := WithoutShape(c.items, key);
      }
    }
  }

  lemma ApplyHolds<K, V>(c: Cache<K, V>, op: Op<K, V>, k: K, value: V, seen: set<K>, p: nat)
    returns (p': nat)
    requires Inv(c) && !c.closed && HeldAt(c, k, value, seen, p)
    requires !Drops(c, op, k) && |Others(c, op, k, seen)| < c.maxEntries
    ensures !Apply(c, op).closed
    ensures HeldAt(Apply(c, op), k, LastSet([op], k, value), Others(c, op, k, seen), p')
  {
    assert [op][1..] == [];
    match op
    case GetOp(key, now) =>
      if key == k {
        OwnOpHolds(c, op, k, value, seen, p);
        p' := 0;
      } else {
        p' := OtherGetHolds(c, key, now, k, value, seen, p);
      }
    case SetOp(key, stored, ttl, now) =>
      if key == k {
        OwnOpHolds(c, op, k, value, seen, p);
        p' := 0;
      } else {
        p' := FrontHolds(c, Item(key, stored, Expiry(ttl, now)), k, value, seen, p);
      }
    case DeleteOp(key) => p' := WithoutHolds(c, key, k, value, seen, p);
  }

  /** Another key moving to the front shifts k back by at most one place. */
  lemma InsertFrontHolds<K, V>(c: Cache<K, V>, front: Item<K, V>, k: K, value: V, seen: set<K>, p: nat, i: nat)
    requires HeldAt(c, k, value, seen, p) && front.key != k && |c.items| <= c.maxEntries
    requires i <= |c.items| && i != p && (i >= p ==> p + 1 < c.maxEntries)
    ensures var rest := if i < |c.items| then c.items[..i] + c.items[i + 1..] else c.items;
            HeldAt(c.(items := Bounded([front] + rest, c.maxEntries)), k, value, seen + {front.key},
                   if i < p then p else p + 1)
  {
    var rest := if i < |c.items| then c.items[..i] + c.items[i + 1..] else c.items;
    var q := if i < p then p - 1 else p;
    assert rest[q] == c.items[p];
    assert forall j :: 0 <= j < q ==> rest[j] == c.items[if j < i then j else j + 1];
  }

  /** A used key that was not ahead of k before still leaves room for k. */
  lemma AheadInserted<K, V>(c: Cache<K, V>, key: K, k: K, value: V, seen: set<K>, p: nat, i: nat)
    requires Inv(c) && HeldAt(c, k, value, seen, p) && key != k
    requires i <= |c.items| && (i < |c.items| ==> c.items[i].key == key) && (key in Keys(c.items) <==> i < |c.items|)
    requires |seen + {key}| < c.maxEntries
    ensures i >= p ==> p + 1 < c.maxEntries
  {
    if i >= p {
      var ahead := Keys(c.items[..p]);
      KeysCount(c.items[..p]);
      assert key !in ahead;
      assert ahead + {key} <= seen + {key};
      SubsetSize(ahead + {key}, seen + {key});
    }
  }

  lemma {:induction false} Survives<K, V>(c: Cache<K, V>, ops: seq<Op<K, V>>, k: K, value: V, seen: set<K>, p: nat)
    requires Inv(c) && !c.closed && HeldAt(c, k, value, seen, p)
    requires Undisturbed(c, ops, k, seen)
    ensures Lookup(Run(c, ops).items, k).Some?
    ensures Lookup(Run(c, ops).items, k).value.value == LastSet(ops, k, value)
    decreases |ops|
  {
    if ops == [] {
      WithoutAt(c.items, p);
    } else {
      ApplyKeeps(c, ops[0]);
      var p' := ApplyHolds(c, ops[0], k, value, seen, p);
      assert [ops[0]][1..] == [];
      assert LastSet(ops, k, value) == LastSet(ops[1..], k, LastSet([ops[0]], k, value));
      Survives(Apply(c, ops[0]), ops[1..], k, LastSet([ops[0]], k, value), Others(c, ops[0], k, seen), p');
    }
  }

  function Empty<K(==), V>(maxEntries: nat): Cache<K, V> {
    Cache(maxEntries, [], false)
  }

  /**
   After any history, a key just set stays cached with its last value through any
   further operations that do not drop it, while fewer than maxEntries distinct
   other keys are used between its own uses.
   */
  lemma RecentlyUsedKeysSurvive<K, V>(maxEntries: nat, before: seq<Op<K, V>>, k: K, value: V, ttl: int, now: int,
      after: seq<Op<K, V>>)
    requires maxEntries > 0
    requires !Run(Empty(maxEntries), before).closed
    requires Undisturbed(Set(Run(Empty(maxEntries), before), k, value, ttl, now), after, k, {})
    ensures var c := Run(Set(Run(Empty(maxEntries), before), k, value, ttl, now), after);
            Lookup(c.items, k).Some? && Lookup(c.items, k).value.value == LastSet(after, k, value)
  {
    RunKeeps(Empty(maxEntries), before);
    var c := Run(Empty(maxEntries), before);
    MaxFixed(Empty(maxEntries), before);
    ApplyKeeps(c, SetOp(k, value, ttl, now));
    Survives(Set(c, k, value, ttl, now), after, k, value, {}, 0);
  }

  lemma {:induction false} MaxFixed<K, V>(c: Cache<K, V>, ops: seq<Op<K, V>>)
    ensures Run(c, ops).maxEntries == c.maxEntries
    decreases |ops|
  {
    if ops != [] {
      MaxFixed(Apply(c, ops[0]), ops[1..]);
    }
  }

  /** The bound is exact: maxEntries other keys set since push any key out. */
  lemma {:induction false} FullTurnoverEvicts<K, V>(c: Cache<K, V>, ops: seq<Op<K, V>>, k: K)
    requires Inv(c) && !c.closed && |ops| == c.maxEntries
    requires forall i :: 0 <= i < |ops| ==> ops[i].SetOp? && ops[i].key != k
    requires forall i, j :: 0 <= i < j < |ops| ==> ops[i].key != ops[j].key
    ensures Lookup(Run(c, ops).items, k) == None
  {
    assert c.items[..0] == [];
    LatestFirst(c, ops, 0, ops);
    RunKeeps(c, ops);
    MaxFixed(c, ops);
    var items := Run(c, ops).items;
    LookupFinds(items, k);
  }

  /** After distinct keys are set one after another, they head the list, latest first. */
  lemma {:induction false} LatestFirst<K, V>(c: Cache<K, V>, rest: seq<Op<K, V>>, n: nat, all: seq<Op<K, V>>)
    requires Inv(c) && !c.closed && n <= |c.items| && |all| == c.maxEntries && n <= |all| && rest == all[n..]
    requires forall i :: 0 <= i < |all| ==> all[i].SetOp?
    requires forall i, j :: 0 <= i < j < |all| ==> all[i].key != all[j].key
    requires forall i :: 0 <= i < n ==> c.items[i].key == all[n - 1 - i].key
    ensures |Run(c, rest).items| >= |all|
    ensures forall i :: 0 <= i < |all| ==> Run(c, rest).items[i].key == all[|all| - 1 - i].key
    decreases |rest|
  {
    if rest != [] {
      ApplyKeeps(c, rest[0]);
      var i := WithoutShape(c.items, rest[0].key);
      assert rest[0] == all[n] && rest[1..] == all[n + 1..];
      assert i >= n;
      LatestFirst(Apply(c, rest[0]), rest[1..], n + 1, all);
    }
  }

  // --------------------------------------------------- agreement with a plain map

  function ApplyMap<K(==), V>(m: map<K, V>, op: Op<K, V>): map<K, V> {
    match op
    case SetOp(key, value, _, _) => m[key := value]
    case DeleteOp(key) => m - {key}
    case _ => m
  }

  function RunMap<K(==), V>(m: map<K, V>, ops: seq<Op<K, V>>): map<K, V>
    decreases |ops|
  {
    if ops == [] then m else RunMap(ApplyMap(m, ops[0]), ops[1..])
  }

  ghost predicate SameContents<K(!new), V>(items: seq<Item<K, V>>, m: map<K, V>) {
    && (forall k :: k in m <==> Lookup(items, k).Some?)
    && (forall k :: k in m ==> Lookup(items, k).value.value == m[k])
  }

  predicate Lasting<K(==), V>(op: Op<K, V>) {
    !op.CloseOp? && (op.SetOp? ==> op.ttl <= 0)
  }

  lemma {:induction false} LookupAppend<K, V>(a: seq<Item<K, V>>, b: seq<Item<K, V>>, key: K)
    ensures Lookup(a + b, key) == if Lookup(a, key).Some? then Lookup(a, key) else Lookup(b, key)
  {
    if a == [] {
      assert a + b == b;
    } else {
      assert (a + b)[0] == a[0] && (a + b)[1..] == a[1..] + b;
      LookupAppend(a[1..], b, key);
    }
  }

  lemma {:induction false} LookupWithout<K, V>(items: seq<Item<K, V>>, key: K, k: K)
    ensures Lookup(Without(items, key), k) == if k == key then None else Lookup(items, k)
  {
    if items != [] {
      LookupWithout(items[1..], key, k);
      assert [] + Without(items[1..], key) == Without(items[1..], key);
      assert ([items[0]] + Without(items[1..], key))[1..] == Without(items[1..], key);
    }
  }

  ghost predicate Plain<K, V>(items: seq<Item<K, V>>, keys: set<K>) {
    Keys(items) <= keys && forall i :: 0 <= i < |items| ==> items[i].expiresAt == None
  }

  lemma PlainPart<K, V>(items: seq<Item<K, V>>, part: seq<Item<K, V>>, keys: set<K>)
    requires Plain(items, keys) && forall x :: x in part ==> x in items
    ensures Plain(part, keys)
  {
    forall i | 0 <= i < |part| ensures part[i].key in keys && part[i].expiresAt == None {
      assert part[i] in part;
      var j :| 0 <= j < |items| && items[j] == part[i];
      assert items[j].key in Keys(items);
    }
  }

  lemma PlainFront<K, V>(front: Item<K, V>, items: seq<Item<K, V>>, maxEntries: nat, keys: set<K>)
    requires Plain(items, keys) && front.key in keys && front.expiresAt == None
    ensures Plain(Bounded([front] + items, maxEntries), keys)
  {
    var all := [front] + items;
    assert Plain(all, keys) by {
      forall i | 0 <= i < |all| ensures all[i].key in keys {
        assert i > 0 ==> items[i - 1].key in Keys(items);
      }
    }
    PlainPart(all, Bounded(all, maxEntries), keys);
  }

  lemma ApplyStaysPlain<K, V>(c: Cache<K, V>, op: Op<K, V>, keys: set<K>)
    requires Inv(c) && !c.closed && Plain(c.items, keys) && Lasting(op) && (op.SetOp? ==> op.key in keys)
    ensures Plain(Apply(c, op).items, keys)
  {
    var i := WithoutShape(c.items, op.key);
    PlainPart(c.items, Without(c.items, op.key), keys);
    LookupFinds(c.items, op.key);
    match op
    case GetOp(key, now) =>
      if Lookup(c.items, key).Some? {
        assert key in Keys(c.items) && i < |c.items|;
        PlainFront(Lookup(c.items, key).value, Without(c.items, key), |c.items| + 1, keys);
      }
    case SetOp(key, value, ttl, now) =>
      PlainFront(Item(key, value, None), Without(c.items, key), c.maxEntries, keys);
    case DeleteOp(_) =>
  }

  /** While the keys ever set fit and none expires, the cache is the map of its last writes. */
  lemma {:induction false} UnboundedCacheIsAMap<K(!new), V>(c: Cache<K, V>, m: map<K, V>, ops: seq<Op<K, V>>,
      keys: set<K>)
    requires Inv(c) && !c.closed && SameContents(c.items, m)
    requires |keys| <= c.maxEntries && Plain(c.items, keys)
    requires forall i :: 0 <= i < |ops| ==> Lasting(ops[i]) && (ops[i].SetOp? ==> ops[i].key in keys)
    ensures SameContents(Run(c, ops).items, RunMap(m, ops))
    decreases |ops|
  {
    if ops != [] {
      var op := ops[0];
      ApplyKeeps(c, op);
      ApplyStaysPlain(c, op, keys);
      SetFits(c, op, keys);
      ApplyAgrees(c, m, op);
      UnboundedCacheIsAMap(Apply(c, op), ApplyMap(m, op), ops[1..], keys);
    }
  }

  lemma SetFits<K, V>(c: Cache<K, V>, op: Op<K, V>, keys: set<K>)
    requires Inv(c) && Plain(c.items, keys) && |keys| <= c.maxEntries && (op.SetOp? ==> op.key in keys)
    ensures op.SetOp? ==> |[Item(op.key, op.value, None)] + Without(c.items, op.key)| <= c.maxEntries
  {
    if op.SetOp? {
      var i := WithoutShape(c.items, op.key);
      FitsWithout(c, op.key, keys, i);
    }
  }

  lemma FitsWithout<K, V>(c: Cache<K, V>, key: K, keys: set<K>, i: nat)
    requires Inv(c) && Keys(c.items) <= keys && key in keys && |keys| <= c.maxEntries
    requires i <= |c.items| && (key in Keys(c.items) <==> i < |c.items|)
    ensures i == |c.items| ==> |c.items| < c.maxEntries
  {
    if i == |c.items| {
      KeysCount(c.items);
      SubsetSize(Keys(c.items) + {key}, keys);
    }
  }

  lemma ApplyAgrees<K(!new), V>(c: Cache<K, V>, m: map<K, V>, op: Op<K, V>)
    requires Inv(c) && !c.closed && SameContents(c.items, m) && Lasting(op)
    requires forall i :: 0 <= i < |c.items| ==> c.items[i].expiresAt == None
    requires op.SetOp? ==> |[Item(op.key, op.value, None)] + Without(c.items, op.key)| <= c.maxEntries
    ensures SameContents(Apply(c, op).items, ApplyMap(m, op))
  {
    forall k ensures Lookup(Apply(c, op).items, k).Some? <==> k in ApplyMap(m, op)
             ensures k in ApplyMap(m, op) ==> Lookup(Apply(c, op).items, k).value.value == ApplyMap(m, op)[k]
    {
      LookupWithout(c.items, op.key, k);
      LookupFinds(c.items, op.key);
      if op.SetOp? {
        LookupAppend([Item(op.key, op.value, None)], Without(c.items, op.key), k);
      } else if op.GetOp? && Lookup(c.items, op.key).Some? {
        LookupAppend([Lookup(c.items, op.key).value], Without(c.items, op.key), k);
      }
    }
  }

  // ------------------------------------------------------- a hit is the last write

  /** What was last stored under a key, with its expiry. */
  datatype Stored<V> = Stored(value: V, expiresAt: Option<int>)

  function Write<K(==), V>(m: map<K, Stored<V>>, op: Op<K, V>): map<K, Stored<V>> {
    match op
    case SetOp(key, value, ttl, now) => m[key := Stored(value, Expiry(ttl, now))]
    case DeleteOp(key) => m - {key}
    case _ => m
  }

  function Writes<K(==), V>(m: map<K, Stored<V>>, ops: seq<Op<K, V>>): map<K, Stored<V>>
    decreases |ops|
  {
    if ops == [] then m else Writes(Write(m, ops[0]), ops[1..])
  }

  ghost predicate HoldsWrites<K, V>(items: seq<Item<K, V>>, m: map<K, Stored<V>>) {
    forall i :: 0 <= i < |items| ==> items[i].key in m && m[items[i].key] == Stored(items[i].value, items[i].expiresAt)
  }

  lemma WithoutHoldsWrites<K, V>(items: seq<Item<K, V>>, m: map<K, Stored<V>>, key: K, m': map<K, Stored<V>>)
    requires DistinctKeys(items) && HoldsWrites(items, m)
    requires forall k :: k != key && k in m ==> k in m' && m'[k] == m[k]
    ensures HoldsWrites(Without(items, key), m')
  {
    var i := WithoutShape(items, key);
    assert forall j :: 0 <= j < |items| && j != i ==> items[j].key != key;
  }

  lemma ApplyHoldsWrites<K, V>(c: Cache<K, V>, m: map<K, Stored<V>>, op: Op<K, V>)
    requires Inv(c) && HoldsWrites(c.items, m) && (c.closed ==> c.items == [])
    ensures HoldsWrites(Apply(c, op).items, Write(m, op))
  {
    if !op.CloseOp? {
      WithoutHoldsWrites(c.items, m, op.key, Write(m, op));
      LookupFinds(c.items, op.key);
    }
  }

  lemma {:induction false} RunHoldsWrites<K, V>(c: Cache<K, V>, m: map<K, Stored<V>>, ops: seq<Op<K, V>>)
    requires Inv(c) && HoldsWrites(c.items, m) && (c.closed ==> c.items == [])
    ensures HoldsWrites(Run(c, ops).items, Writes(m, ops))
    decreases |ops|
  {
    if ops != [] {
      ApplyKeeps(c, ops[0]);
      ApplyHoldsWrites(c, m, ops[0]);
      RunHoldsWrites(Apply(c, ops[0]), Write(m, ops[0]), ops[1..]);
    }
  }

  /**
   Over every history, with eviction and expiry: a hit is the value last set under the
   key, not deleted since and not expired.
   */
  lemma HitsAreLastWrites<K, V>(maxEntries: nat, ops: seq<Op<K, V>>, k: K, now: int, value: V)
    requires maxEntries > 0 && Get(Run(Empty(maxEntries), ops), k, now).1 == Hit(value)
    ensures var m := Writes(map[], ops);
            k in m && m[k].value == value && (m[k].expiresAt.Some? ==> now <= m[k].expiresAt.value)
  {
    RunHoldsWrites(Empty(maxEntries), map[], ops);
    LookupFinds(Run(Empty(maxEntries), ops).items, k);
  }

  /**
   After every history an open cache yields what was just set under a key, until the
   lifetime given has passed; a lifetime that is not positive never passes.
   */
  lemma EntryLivesItsTime<K, V>(maxEntries: nat, ops: seq<Op<K, V>>, k: K, value: V, ttl: int, now: int, later: int)
    requires maxEntries > 0 && !Run(Empty(maxEntries), ops).closed
    ensures Get(Set(Run(Empty(maxEntries), ops), k, value, ttl, now), k, later).1 ==
            if ttl > 0 && later > now + ttl then Miss else Hit(value)
  {
    var c: Cache<K, V> := Run(Empty(maxEntries), ops);
    RunKeeps(Empty(maxEntries), ops);
    var items := Set(c, k, value, ttl, now).items;
    assert c.maxEntries > 0 && items[0] == Item(k, value, Expiry(ttl, now));
    assert Lookup(items, k) == Some(items[0]);
  }

  /** A closed cache answers with an error whatever is asked, and stays closed. */
  lemma {:induction false} ClosedStaysClosed<K, V>(c: Cache<K, V>, ops: seq<Op<K, V>>, k: K, now: int)
    ensures Run(Close(c), ops).closed && Get(Run(Close(c), ops), k, now).1 == ClosedError
  {
    RunStaysClosed(Close(c), ops);
  }

  lemma {:induction false} RunStaysClosed<K, V>(c: Cache<K, V>, ops: seq<Op<K, V>>)
    requires c.closed
    ensures Run(c, ops).closed
    decreases |ops|
  {
    if ops != [] {
      RunStaysClosed(Apply(c, ops[0]), ops[1..]);
    }
  }
}

/**
 How thread choice uses the bounded cache (providers/codex/conversation_registry.go
 over conversation_cache.go). Agreement with replay needs to know, for a lineage entry
 that is found, whether its thread has gone on, and the thread's head entry tells. This
 shows which histories of lookups and saves keep that head at hand, and which do not.
 */
module LineageCache {
  import opened Wrappers
  import opened LruCache
  import opened LruUsage
  import Lineage

  type Key = Lineage.Key

  type Checkpoint = Lineage.Checkpoint

  type Entry = Item<Key, Checkpoint>

  type Store = Cache<Key, Checkpoint>

  // ---------------------------------------------------------------- what one turn does

  /**
   A new turn looks up its lineage or its session and then that thread's head. A
   lookup for tool results, or of a thread on which a turn is running, reads no head.
   A finished turn saves all three entries.
   */
  datatype TurnOp =
    | LookUp(key: Key, at: int, headAt: int)
    | Peek(key: Key, at: int)
    | SaveTurn(checkpoint: Checkpoint, scope: string, at: int, headAt: int, scopeAt: int)

  function HeadOf(checkpoint: Checkpoint): Key {
    Lineage.HeadKey(checkpoint.thread)
  }

  function LineageOf(checkpoint: Checkpoint): Key {
    Lineage.LineageKey(checkpoint.historyHash)
  }

  function LookUpIn(c: Store, key: Key, at: int, headAt: int): Store {
    var (c', found) := Get(c, key, at);
    if found.Hit? then Get(c', HeadOf(found.value), headAt).0 else c'
  }

  function SaveIn(c: Store, ttl: int, op: TurnOp): Store
    requires op.SaveTurn?
  {
    var lineage := Set(c, LineageOf(op.checkpoint), op.checkpoint, ttl, op.at);
    var saved := Set(lineage, HeadOf(op.checkpoint), op.checkpoint, ttl, op.headAt);
    if op.scope != "" then Set(saved, Lineage.SessionKey(op.scope), op.checkpoint, ttl, op.scopeAt) else saved
  }

  function ApplyTurn(c: Store, ttl: int, op: TurnOp): Store {
    match op
    case LookUp(key, at, headAt) => LookUpIn(c, key, at, headAt)
    case Peek(key, at) => Get(c, key, at).0
    case SaveTurn(_, _, _, _, _) => SaveIn(c, ttl, op)
  }

  /** The clock never runs backwards, and a lookup is of a lineage or a session. */
  predicate Clocked(op: TurnOp, now: int) {
    match op
    case LookUp(key, at, headAt) => now <= at <= headAt && !key.HeadKey?
    case Peek(key, at) => now <= at && !key.HeadKey?
    case SaveTurn(_, _, at, headAt, scopeAt) => now <= at <= headAt <= scopeAt
  }

  function After(op: TurnOp): int {
    match op
    case LookUp(_, _, headAt) => headAt
    case Peek(_, at) => at
    case SaveTurn(_, _, _, _, scopeAt) => scopeAt
  }

  function RunTurns(c: Store, ttl: int, ops: seq<TurnOp>): Store
    decreases |ops|
  {
    if ops == [] then c else ApplyTurn(RunTurns(c, ttl, ops[..|ops| - 1]), ttl, ops[|ops| - 1])
  }

  function Clock(ops: seq<TurnOp>): int {
    if ops == [] then 0 else After(ops[|ops| - 1])
  }

  predicate AllClocked(ops: seq<TurnOp>) {
    forall i :: 0 <= i < |ops| ==> Clocked(ops[i], Clock(ops[..i]))
  }

  /** The lineage entries read without their head since they were last saved. */
  function Peeked(ops: seq<TurnOp>): set<Key> {
    if ops == [] then {}
    else
      var before := Peeked(ops[..|ops| - 1]);
      match ops[|ops| - 1]
      case Peek(key, _) => before + {key}
      case SaveTurn(checkpoint, _, _, _, _) => before - {LineageOf(checkpoint)}
      case _ => before
  }

  // -------------------------------------------------------------------- the invariant

  predicate Outlives(a: Entry, b: Entry) {
    a.expiresAt.Some? ==> b.expiresAt.Some? && b.expiresAt.value <= a.expiresAt.value
  }

  predicate Covers(head: Entry, item: Entry) {
    head.key == HeadOf(item.value) && Outlives(head, item)
  }

  ghost predicate CoveredAt(items: seq<Entry>, i: nat)
    requires i < |items|
  {
    exists j :: 0 <= j < i && Covers(items[j], items[i])
  }

  predicate Live(item: Entry, now: int) {
    item.key.LineageKey? && !Expired(item, now)
  }

  /**
   Each live lineage entry, except under `spared`, has its thread's head used more
   recently and expiring no earlier.
   */
  ghost predicate Covered(items: seq<Entry>, now: int, spared: set<Key>) {
    forall i :: 0 <= i < |items| && Live(items[i], now) && items[i].key !in spared ==> CoveredAt(items, i)
  }

  /** Nothing expires later than a write of this moment would. */
  ghost predicate Within(items: seq<Entry>, ttl: int, now: int) {
    forall i :: 0 <= i < |items| ==>
      if ttl > 0 then items[i].expiresAt.Some? && items[i].expiresAt.value <= now + ttl else items[i].expiresAt == None
  }

  ghost predicate Sound(c: Store, ttl: int, now: int, spared: set<Key>) {
    Inv(c) && !c.closed && Covered(c.items, now, spared) && Within(c.items, ttl, now)
  }

  lemma CoveredLater(items: seq<Entry>, now: int, later: int, spared: set<Key>)
    requires Covered(items, now, spared) && now <= later
    ensures Covered(items, later, spared)
  {
    forall i | 0 <= i < |items| && Live(items[i], later) && items[i].key !in spared ensures CoveredAt(items, i) {
      assert Live(items[i], now);
    }
  }

  lemma WithinLater(items: seq<Entry>, ttl: int, now: int, later: int)
    requires Within(items, ttl, now) && now <= later
    ensures Within(items, ttl, later)
  {
  }

  lemma SoundLater(c: Store, ttl: int, now: int, later: int, spared: set<Key>)
    requires Sound(c, ttl, now, spared) && now <= later
    ensures Sound(c, ttl, later, spared)
  {
    CoveredLater(c.items, now, later, spared);
    WithinLater(c.items, ttl, now, later);
  }

  lemma CoveredPrefix(items: seq<Entry>, n: nat, now: int, spared: set<Key>)
    requires n <= |items| && Covered(items, now, spared)
    ensures Covered(items[..n], now, spared)
  {
    forall i | 0 <= i < n && Live(items[i], now) && items[i].key !in spared ensures CoveredAt(items[..n], i) {
      assert CoveredAt(items, i);
      var j :| 0 <= j < i && Covers(items[j], items[i]);
      assert Covers(items[..n][j], items[..n][i]);
    }
  }

  /** An entry moved or put in front; what stood under its key covered no more than it does. */
  lemma CoveredFront(items: seq<Entry>, p: nat, x: Entry, now: int, spared: set<Key>)
    requires p <= |items| && Covered(items, now, spared)
    requires p < |items| ==> forall i :: 0 <= i < |items| && Covers(items[p], items[i]) ==> Covers(x, items[i])
    ensures Covered([x] + Removed(items, p), now, spared + {x.key})
  {
    var all := [x] + Removed(items, p);
    forall i | 0 <= i < |all| && Live(all[i], now) && all[i].key !in spared + {x.key} ensures CoveredAt(all, i) {
      var o := if i - 1 < p then i - 1 else i;
      assert i > 0 && all[i] == items[o];
      assert CoveredAt(items, o);
      var j :| 0 <= j < o && Covers(items[j], items[o]);
      if j == p {
        assert Covers(all[0], all[i]);
      } else {
        var j' := if j < p then j + 1 else j;
        assert all[j'] == items[j] && Covers(all[j'], all[i]);
      }
    }
  }

  /** An expired entry that is dropped covered nothing live. */
  lemma CoveredDrop(items: seq<Entry>, p: nat, now: int, spared: set<Key>)
    requires p < |items| && Expired(items[p], now) && Covered(items, now, spared)
    ensures Covered(Removed(items, p), now, spared)
  {
    var rest := Removed(items, p);
    forall i | 0 <= i < |rest| && Live(rest[i], now) && rest[i].key !in spared ensures CoveredAt(rest, i) {
      var o := if i < p then i else i + 1;
      assert rest[i] == items[o];
      assert CoveredAt(items, o);
      var j :| 0 <= j < o && Covers(items[j], items[o]);
      assert j != p;
      assert rest[if j < p then j else j - 1] == items[j] && Covers(rest[if j < p then j else j - 1], rest[i]);
    }
  }

  /** Only lineage entries need to be spared. */
  lemma SparedNot(items: seq<Entry>, now: int, spared: set<Key>, key: Key)
    requires Covered(items, now, spared + {key}) && !key.LineageKey?
    ensures Covered(items, now, spared)
  {
    forall i | 0 <= i < |items| && Live(items[i], now) && items[i].key !in spared ensures CoveredAt(items, i) {
      assert items[i].key != key;
    }
  }

  // ------------------------------------------------------------------------ the steps

  lemma GetKeeps(c: Store, key: Key, now: int, spared: set<Key>)
    requires Inv(c) && !c.closed && Covered(c.items, now, spared)
    ensures var (c', found) := Get(c, key, now);
            Inv(c') && !c'.closed && Covered(c'.items, now, if found.Hit? then spared + {key} else spared)
  {
    var op: Op<Key, Checkpoint> := GetOp(key, now);
    ApplyKeeps(c, op);
    var p := At(c.items, key);
    if p < |c.items| {
      if Expired(c.items[p], now) {
        CoveredDrop(c.items, p, now, spared);
      } else {
        CoveredFront(c.items, p, c.items[p], now, spared);
      }
    }
  }

  lemma GetWithin(c: Store, key: Key, now: int, ttl: int, at: int)
    requires Inv(c) && Within(c.items, ttl, at)
    ensures Within(Get(c, key, now).0.items, ttl, at)
  {
    var p := At(c.items, key);
  }

  /** A read of anything but a lineage entry spares nothing new. */
  lemma PlainGetKeeps(c: Store, ttl: int, key: Key, now: int, spared: set<Key>)
    requires Sound(c, ttl, now, spared) && !key.LineageKey?
    ensures Sound(Get(c, key, now).0, ttl, now, spared)
  {
    GetKeeps(c, key, now, spared);
    GetWithin(c, key, now, ttl, now);
    if Get(c, key, now).1.Hit? {
      SparedNot(Get(c, key, now).0.items, now, spared, key);
    }
  }

  lemma PeekKeeps(c: Store, ttl: int, key: Key, now: int, spared: set<Key>)
    requires Sound(c, ttl, now, spared)
    ensures Sound(Get(c, key, now).0, ttl, now, spared + {key})
  {
    GetKeeps(c, key, now, spared);
    GetWithin(c, key, now, ttl, now);
  }

  /** Whether the head of the thread found is still there, and no earlier to expire than what named it. */
  ghost predicate HeadStays(items: seq<Entry>, item: Entry) {
    && Lookup(items, HeadOf(item.value)).Some?
    && Outlives(Lookup(items, HeadOf(item.value)).value, item)
  }

  lemma FoundHasHead(c: Store, key: Key, now: int, spared: set<Key>)
    requires Inv(c) && !c.closed && Covered(c.items, now, spared)
    requires key.LineageKey? && key !in spared && Get(c, key, now).1.Hit?
    ensures HeadStays(c.items, Lookup(c.items, key).value)
    ensures HeadStays(Get(c, key, now).0.items, Lookup(c.items, key).value)
    ensures Get(c, key, now).0.items[0] == Lookup(c.items, key).value
  {
    var p := At(c.items, key);
    assert CoveredAt(c.items, p);
    var j :| 0 <= j < p && Covers(c.items[j], c.items[p]);
    WithoutAt(c.items, j);
    LookupWithout(c.items, key, c.items[j].key);
    LookupAppend([c.items[p]], Without(c.items, key), c.items[j].key);
  }

  /** Reading the head afterwards puts it in front of the entry that named it, or finds both expired. */
  lemma HeadReadKeeps(c: Store, ttl: int, item: Entry, now: int, spared: set<Key>)
    requires Sound(c, ttl, now, spared + {item.key}) && c.items != [] && c.items[0] == item
    requires HeadStays(c.items, item) && item.key.LineageKey?
    ensures Sound(Get(c, HeadOf(item.value), now).0, ttl, now, spared)
  {
    var head := HeadOf(item.value);
    PlainGetKeeps(c, ttl, head, now, spared + {item.key});
    var c' := Get(c, head, now).0;
    var p := At(c.items, head);
    var found := c.items[p];
    forall i | 0 <= i < |c'.items| && Live(c'.items[i], now) && c'.items[i].key !in spared
      ensures CoveredAt(c'.items, i)
    {
      if c'.items[i].key == item.key {
        assert p > 0 && !Expired(found, now) && c'.items[0] == found;
        assert i > 0 && c'.items[1] == item;
        assert Covers(c'.items[0], c'.items[1]);
        assert i == 1;
      } else {
        assert c'.items[i].key !in spared + {item.key};
      }
    }
  }

  lemma LookUpKeeps(c: Store, ttl: int, key: Key, at: int, headAt: int, spared: set<Key>)
    requires Sound(c, ttl, at, spared) && at <= headAt && !key.HeadKey?
    ensures Sound(LookUpIn(c, key, at, headAt), ttl, headAt, spared)
  {
    var (c1, found) := Get(c, key, at);
    if !key.LineageKey? {
      PlainGetKeeps(c, ttl, key, at, spared);
      SoundLater(c1, ttl, at, headAt, spared);
      if found.Hit? {
        PlainGetKeeps(c1, ttl, HeadOf(found.value), headAt, spared);
      }
    } else if found.Hit? {
      PeekKeeps(c, ttl, key, at, spared);
      SoundLater(c1, ttl, at, headAt, spared + {key});
      if key in spared {
        assert spared + {key} == spared;
        PlainGetKeeps(c1, ttl, HeadOf(found.value), headAt, spared);
      } else {
        FoundHasHead(c, key, at, spared);
        LookupFinds(c.items, key);
        HeadReadKeeps(c1, ttl, Lookup(c.items, key).value, headAt, spared);
      }
    } else {
      GetKeeps(c, key, at, spared);
      GetWithin(c, key, at, ttl, at);
      SoundLater(c1, ttl, at, headAt, spared);
    }
  }

  lemma SetKeeps(c: Store, key: Key, value: Checkpoint, ttl: int, now: int, spared: set<Key>)
    requires Sound(c, ttl, now, spared)
    ensures var c' := Set(c, key, value, ttl, now);
            && Sound(c', ttl, now, spared + {key})
            && c'.items != [] && c'.items[0] == Item(key, value, Expiry(ttl, now))
            && (c.items != [] && c.items[0].key != key && |c'.items| > 1 ==> c'.items[1] == c.items[0])
  {
    var op: Op<Key, Checkpoint> := SetOp(key, value, ttl, now);
    ApplyKeeps(c, op);
    var x := Item(key, value, Expiry(ttl, now));
    var p := At(c.items, key);
    var all := [x] + Without(c.items, key);
    CoveredFront(c.items, p, x, now, spared);
    CoveredPrefix(all, if |all| <= c.maxEntries then |all| else c.maxEntries, now, spared + {key});
    assert all[..|all|] == all;
  }

  /** The head written after a lineage entry covers it, and what the old head covered. */
  lemma HeadWriteKeeps(c: Store, ttl: int, lineage: Key, value: Checkpoint, at: int, now: int, spared: set<Key>)
    requires Sound(c, ttl, now, spared + {lineage}) && at <= now
    requires lineage.LineageKey? && c.items != [] && c.items[0] == Item(lineage, value, Expiry(ttl, at))
    ensures Sound(Set(c, HeadOf(value), value, ttl, now), ttl, now, spared - {lineage})
  {
    var head := HeadOf(value);
    var c' := Set(c, head, value, ttl, now);
    SetKeeps(c, head, value, ttl, now, spared + {lineage});
    forall i | 0 <= i < |c'.items| && Live(c'.items[i], now) && c'.items[i].key !in spared - {lineage}
      ensures CoveredAt(c'.items, i)
    {
      if c'.items[i].key == lineage {
        assert i > 0 && c'.items[1].key == lineage;
        assert i == 1;
        assert Covers(c'.items[0], c'.items[1]);
      } else {
        assert c'.items[i].key !in spared + {lineage} + {head};
      }
    }
  }

  lemma SaveKeeps(c: Store, ttl: int, op: TurnOp, now: int, spared: set<Key>)
    requires op.SaveTurn? && Sound(c, ttl, now, spared) && Clocked(op, now)
    ensures Sound(SaveIn(c, ttl, op), ttl, op.scopeAt, spared - {LineageOf(op.checkpoint)})
  {
    var lineage, rest := LineageOf(op.checkpoint), spared - {LineageOf(op.checkpoint)};
    SoundLater(c, ttl, now, op.at, spared);
    SetKeeps(c, lineage, op.checkpoint, ttl, op.at, spared);
    var c1 := Set(c, lineage, op.checkpoint, ttl, op.at);
    SoundLater(c1, ttl, op.at, op.headAt, spared + {lineage});
    HeadWriteKeeps(c1, ttl, lineage, op.checkpoint, op.at, op.headAt, spared);
    var c2 := Set(c1, HeadOf(op.checkpoint), op.checkpoint, ttl, op.headAt);
    SoundLater(c2, ttl, op.headAt, op.scopeAt, rest);
    if op.scope != "" {
      var session := Lineage.SessionKey(op.scope);
      SetKeeps(c2, session, op.checkpoint, ttl, op.scopeAt, rest);
      SparedNot(Set(c2, session, op.checkpoint, ttl, op.scopeAt).items, op.scopeAt, rest, session);
    }
  }

  lemma TurnKeeps(c: Store, ttl: int, op: TurnOp, now: int, spared: set<Key>)
    requires Sound(c, ttl, now, spared) && Clocked(op, now)
    ensures op.LookUp? ==> Sound(ApplyTurn(c, ttl, op), ttl, After(op), spared)
    ensures op.Peek? ==> Sound(ApplyTurn(c, ttl, op), ttl, After(op), spared + {op.key})
    ensures op.SaveTurn? ==> Sound(ApplyTurn(c, ttl, op), ttl, After(op), spared - {LineageOf(op.checkpoint)})
  {
    match op
    case LookUp(key, at, headAt) =>
      SoundLater(c, ttl, now, at, spared);
      LookUpKeeps(c, ttl, key, at, headAt, spared);
    case Peek(key, at) =>
      SoundLater(c, ttl, now, at, spared);
      PeekKeeps(c, ttl, key, at, spared);
    case SaveTurn(_, _, _, _, _) =>
      SaveKeeps(c, ttl, op, now, spared);
  }

  lemma {:induction false} TurnsKeepSound(maxEntries: nat, ttl: int, ops: seq<TurnOp>)
    requires maxEntries > 0 && AllClocked(ops)
    ensures Sound(RunTurns(Empty(maxEntries), ttl, ops), ttl, Clock(ops), Peeked(ops))
    decreases |ops|
  {
    if ops != [] {
      var before, last := ops[..|ops| - 1], ops[|ops| - 1];
      assert forall i :: 0 <= i < |before| ==> before[i] == ops[i] && before[..i] == ops[..i];
      TurnsKeepSound(maxEntries, ttl, before);
      TurnKeeps(RunTurns(Empty(maxEntries), ttl, before), ttl, last, Clock(before), Peeked(before));
    }
  }

  /**
   Over every history of whole lookups and saves, whatever the bound and the lifetime:
   a lineage entry that is found, and was not read without its head since it was last
   saved, has the head of its thread beside it, so that reading this head next finds
   it unless it expires in between.
   */
  lemma LineageKeepsItsHead(
    maxEntries: nat, ttl: int, ops: seq<TurnOp>, key: Key, at: int, headAt: int, value: Checkpoint
  )
    requires maxEntries > 0 && AllClocked(ops) && Clock(ops) <= at <= headAt
    requires key.LineageKey? && key !in Peeked(ops)
    requires Get(RunTurns(Empty(maxEntries), ttl, ops), key, at).1 == Hit(value)
    ensures var c := Get(RunTurns(Empty(maxEntries), ttl, ops), key, at).0;
            var head := Lookup(c.items, HeadOf(value));
            && head.Some?
            && !Expired(head.value, at)
            && (Get(c, HeadOf(value), headAt).1.Hit? <==> !Expired(head.value, headAt))
  {
    TurnsKeepSound(maxEntries, ttl, ops);
    var c := RunTurns(Empty(maxEntries), ttl, ops);
    CoveredLater(c.items, Clock(ops), at, Peeked(ops));
    FoundHasHead(c, key, at, Peeked(ops));
  }

  // ----------------------------------------------------------- where the head is lost

  lemma {:induction false} RunOneMore(c: Store, ops: seq<Op<Key, Checkpoint>>, op: Op<Key, Checkpoint>)
    ensures Run(c, ops + [op]) == Apply(Run(c, ops), op)
    decreases |ops|
  {
    if ops == [] {
      assert ([] + [op])[1..] == [];
    } else {
      assert (ops + [op])[0] == ops[0] && (ops + [op])[1..] == ops[1..] + [op];
      RunOneMore(Apply(c, ops[0]), ops[1..], op);
    }
  }

  /**
   Exactly when the head is found, over every interleaving of single reads and writes
   of any number of streams, with a lineage entry found last: when it was used, not
   removed since, with fewer than maxEntries other cached entries used after it at any
   time, and has not expired.
   */
  lemma HeadFoundExactlyIf(
    maxEntries: nat, ops: seq<Op<Key, Checkpoint>>, key: Key, at: int, headAt: int, value: Checkpoint
  )
    requires maxEntries > 0 && Get(Run(Empty(maxEntries), ops), key, at).1 == Hit(value)
    ensures var c := Get(Run(Empty(maxEntries), ops), key, at).0;
            var usage := NoteAll(Open(map[]), maxEntries, ops + [GetOp(key, at)]);
            Get(c, HeadOf(value), headAt).1.Hit? <==>
              && usage.Open?
              && HeadOf(value) in usage.uses
              && (usage.uses[HeadOf(value)].expiresAt.Some? ==> headAt <= usage.uses[HeadOf(value)].expiresAt.value)
  {
    RunOneMore(Empty(maxEntries), ops, GetOp(key, at));
    FoundExactlyIf(maxEntries, ops + [GetOp(key, at)], HeadOf(value), headAt);
  }

  lemma RunSnoc(c: Store, ttl: int, ops: seq<TurnOp>, op: TurnOp)
    ensures RunTurns(c, ttl, ops + [op]) == ApplyTurn(RunTurns(c, ttl, ops), ttl, op)
    ensures Clocked(op, Clock(ops)) && AllClocked(ops) ==> AllClocked(ops + [op])
  {
    assert (ops + [op])[..|ops|] == ops;
    forall i | 0 <= i <= |ops| && Clocked(op, Clock(ops)) && AllClocked(ops)
      ensures Clocked((ops + [op])[i], Clock((ops + [op])[..i]))
    {
      assert i < |ops| ==> (ops + [op])[..i] == ops[..i];
    }
  }

  /** A write of a key that is not listed. */
  lemma SetNew(c: Store, key: Key, value: Checkpoint)
    requires !c.closed && forall i :: 0 <= i < |c.items| ==> c.items[i].key != key
    ensures Set(c, key, value, 0, 0).items == Bounded([Listed(key, value)] + c.items, c.maxEntries)
  {
    WithoutMissing(c.items, key);
  }

  /** A write of the key at a place. */
  lemma SetAt(c: Store, i: nat, value: Checkpoint)
    requires !c.closed && DistinctKeys(c.items) && i < |c.items|
    ensures Set(c, c.items[i].key, value, 0, 0).items ==
              Bounded([Listed(c.items[i].key, value)] + Removed(c.items, i), c.maxEntries)
  {
    WithoutAt(c.items, i);
  }

  lemma GetAt(c: Store, i: nat)
    requires !c.closed && DistinctKeys(c.items) && i < |c.items| && c.items[i].expiresAt == None
    ensures Get(c, c.items[i].key, 0) ==
              (c.(items := [c.items[i]] + Removed(c.items, i)), Hit(c.items[i].value))
  {
    WithoutAt(c.items, i);
  }

  lemma GetMissing(c: Store, key: Key)
    requires !c.closed && forall i :: 0 <= i < |c.items| ==> c.items[i].key != key
    ensures Get(c, key, 0).1 == Miss
  {
    LookupFinds(c.items, key);
  }

  function TurnOf(thread: nat, text: string): Checkpoint {
    var answer := Lineage.Message(Lineage.ASSISTANT, text, "", []);
    Lineage.Checkpoint(thread, None, Lineage.Digest("", "", "", [answer], []))
  }

  function Listed(key: Key, checkpoint: Checkpoint): Entry {
    Item(key, checkpoint, None)
  }

  const A := TurnOf(0, "a")
  const B := TurnOf(0, "b")
  const C := TurnOf(1, "c")

  const TWO_TURNS := [] + [SaveTurn(A, "", 0, 0, 0)] + [SaveTurn(B, "", 0, 0, 0)]

  /** Two turns on thread 0, the first one's entry read for tool results, and that turn saved on thread 1. */
  const PEEKED := TWO_TURNS + [Peek(LineageOf(A), 0)] + [SaveTurn(C, "", 0, 0, 0)]

  lemma SaveTwice()
    ensures var first := SaveIn(Empty(3), 0, SaveTurn(A, "", 0, 0, 0));
            && first == Cache(3, [Listed(HeadOf(A), A), Listed(LineageOf(A), A)], false)
            && SaveIn(first, 0, SaveTurn(B, "", 0, 0, 0)) ==
                 Cache(3, [Listed(HeadOf(B), B), Listed(LineageOf(B), B), Listed(LineageOf(A), A)], false)
  {
    var h, l, m := Listed(HeadOf(A), A), Listed(LineageOf(A), A), Listed(LineageOf(B), B);
    SetNew(Empty(3), LineageOf(A), A);
    SetNew(Cache(3, [l], false), HeadOf(A), A);
    SetNew(Cache(3, [h, l], false), LineageOf(B), B);
    SetAt(Cache(3, [m, h, l], false), 1, B);
  }

  lemma TwoTurns()
    ensures AllClocked(TWO_TURNS)
    ensures RunTurns(Empty(3), 0, TWO_TURNS) ==
              Cache(3, [Listed(HeadOf(B), B), Listed(LineageOf(B), B), Listed(LineageOf(A), A)], false)
  {
    SaveTwice();
    RunSnoc(Empty(3), 0, [], SaveTurn(A, "", 0, 0, 0));
    RunSnoc(Empty(3), 0, [] + [SaveTurn(A, "", 0, 0, 0)], SaveTurn(B, "", 0, 0, 0));
  }

  lemma PeekAndSave()
    ensures var c := Cache(3, [Listed(HeadOf(B), B), Listed(LineageOf(B), B), Listed(LineageOf(A), A)], false);
            SaveIn(Get(c, LineageOf(A), 0).0, 0, SaveTurn(C, "", 0, 0, 0)) ==
              Cache(3, [Listed(HeadOf(C), C), Listed(LineageOf(C), C), Listed(LineageOf(A), A)], false)
  {
    var h, m, l := Listed(HeadOf(B), B), Listed(LineageOf(B), B), Listed(LineageOf(A), A);
    var n := Listed(LineageOf(C), C);
    GetAt(Cache(3, [h, m, l], false), 2);
    assert [l] + Removed([h, m, l], 2) == [l, h, m];
    SetNew(Cache(3, [l, h, m], false), LineageOf(C), C);
    assert Bounded([n] + [l, h, m], 3) == [n, l, h];
    SetNew(Cache(3, [n, l, h], false), HeadOf(C), C);
    assert Bounded([Listed(HeadOf(C), C)] + [n, l, h], 3) == [Listed(HeadOf(C), C), n, l];
  }

  /**
   A lookup for tool results moves the lineage entry to the front without its head, so
   in a cache of three the head goes first; a new turn from that entry then finds no
   head and continues a thread that has gone on.
   */
  lemma PeekedLineageOutlivesItsHead()
    ensures AllClocked(PEEKED)
    ensures var c := RunTurns(Empty(3), 0, PEEKED);
            var (c', found) := Get(c, LineageOf(A), 0);
            found == Hit(A) && Get(c', HeadOf(A), 0).1 == Miss
  {
    TwoTurns();
    PeekAndSave();
    RunSnoc(Empty(3), 0, TWO_TURNS, Peek(LineageOf(A), 0));
    RunSnoc(Empty(3), 0, TWO_TURNS + [Peek(LineageOf(A), 0)], SaveTurn(C, "", 0, 0, 0));
    var g, n, l := Listed(HeadOf(C), C), Listed(LineageOf(C), C), Listed(LineageOf(A), A);
    GetAt(Cache(3, [g, n, l], false), 2);
    assert [l] + Removed([g, n, l], 2) == [l, g, n];
    GetMissing(Cache(3, [l, g, n], false), HeadOf(A));
  }

  /**
   A save that comes between the two reads of one lookup can push the head out too: in
   a cache of two, the entry of another turn takes the place of a head that was there.
   */
  lemma SaveBetweenReadsLosesHead()
    ensures var c := SaveIn(Empty(2), 0, SaveTurn(A, "", 0, 0, 0));
            var (c', found) := Get(c, LineageOf(A), 0);
            && found == Hit(A) && Lookup(c'.items, HeadOf(A)).Some?
            && Get(Set(c', LineageOf(C), C, 0, 0), HeadOf(A), 0).1 == Miss
  {
    var h, l, n := Listed(HeadOf(A), A), Listed(LineageOf(A), A), Listed(LineageOf(C), C);
    SetNew(Empty(2), LineageOf(A), A);
    SetNew(Cache(2, [l], false), HeadOf(A), A);
    GetAt(Cache(2, [h, l], false), 1);
    assert [l] + Removed([h, l], 1) == [l, h];
    LookupFinds([l, h], HeadOf(A));
    assert [l, h][1].key in Keys([l, h]);
    SetNew(Cache(2, [l, h], false), LineageOf(C), C);
    assert Bounded([n] + [l, h], 2) == [n, l];
    GetMissing(Cache(2, [n, l], false), HeadOf(A));
  }
}

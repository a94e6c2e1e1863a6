/**
 Thread choice on the bounded cache itself: the reads and writes of each request are
 the cache's own, with its clock, and what the cache holds is the map the choice was
 proved about, with entries forgotten before and after each request.
 */
module LineageBounded {
  import opened Wrappers
  import opened Lineage
  import opened LineageTheorems
  import Lru = LruCache
  import Use = LineageCache

  type Entries = seq<Use.Entry>

  /** When a request reads its entry and the head, and when its turn saves the three entries. */
  datatype Times = Times(at: int, headAt: int, saveAt: int, saveHeadAt: int, saveScopeAt: int)

  predicate InOrder(t: Times, now: int) {
    now <= t.at <= t.headAt <= t.saveAt <= t.saveHeadAt <= t.saveScopeAt
  }

  /** What the cache would still give at a moment. */
  function Held(items: Entries, now: int, k: Key): Option<Checkpoint> {
    var item := Lru.Lookup(items, k);
    if item.Some? && !Lru.Expired(item.value, now) then Some(item.value.value) else None
  }

  function Contents(items: Entries, now: int): map<Key, Checkpoint> {
    map k | k in Lru.Keys(items) && Held(items, now, k).Some? :: Held(items, now, k).value
  }

  /** The provider with its bounded cache; `world.cache` is what the store holds now. */
  datatype Bounded = Bounded(world: World, store: Use.Store, now: int)

  function Begin(config: Config, maxEntries: nat): Bounded {
    Bounded(Start(config), Lru.Empty(maxEntries), 0)
  }

  function Read(c: Use.Store, key: Option<Key>, at: int): (Use.Store, Option<Checkpoint>) {
    if key.None? then (c, None)
    else
      var (c', found) := Lru.Get(c, key.value, at);
      (c', if found.Hit? then Some(found.value) else None)
  }

  /** The head is read for a new turn, when a checkpoint was found whose thread is idle. */
  function HeadRead(w: World, r: Request, found: Option<Checkpoint>): Option<Key> {
    if found.None? || Continuation(r) || found.value.thread in w.active then None
    else Some(HeadKey(found.value.thread))
  }

  function ReadBoth(b: Bounded, r: Request, t: Times): (Use.Store, Option<Checkpoint>, Option<Checkpoint>) {
    var (c1, found) := Read(b.store, InferKey(b.world.config, r), t.at);
    var (c2, head) := Read(c1, HeadRead(b.world, r, found), t.headAt);
    (c2, found, head)
  }

  predicate Accepted(r: Request) {
    UserTurn(r) || Continuation(r)
  }

  /** The cache once the turn has saved, and the map a cache without bound would be. */
  function Written(c: Use.Store, r: Request, saved: Option<Checkpoint>, ttl: int, t: Times): Use.Store {
    if saved.None? then c
    else Use.SaveIn(c, ttl, Use.SaveTurn(saved.value, Scope(r), t.saveAt, t.saveHeadAt, t.saveScopeAt))
  }

  function Remembered(cache: map<Key, Checkpoint>, r: Request, saved: Option<Checkpoint>): map<Key, Checkpoint> {
    if saved.None? then cache else Stored(cache, Scope(r), saved.value)
  }

  function ServeBounded(b: Bounded, r: Request, o: Outcome, ttl: int, t: Times): Bounded {
    if !Accepted(r) then b
    else
      var (c2, found, head) := ReadBoth(b, r, t);
      var saved :=
        if Resumes(b.world, r, found) then None
        else
          var (w', chosen) := ChooseFrom(b.world, r, o, found, head);
          Checkpointed(w', chosen, r, o);
      var c3 := Written(c2, r, saved, ttl, t);
      var world := ServeFrom(b.world, r, o, found, head);
      Bounded(world.(cache := Contents(c3.items, t.saveScopeAt)), c3, t.saveScopeAt)
  }

  datatype BoundedEvent = Asked(request: Request, outcome: Outcome, times: Times) | Closed(thread: nat)

  function StepBounded(b: Bounded, ttl: int, e: BoundedEvent): Bounded {
    match e
    case Asked(r, o, t) => ServeBounded(b, r, o, ttl, t)
    case Closed(thread) => b.(world := Step(b.world, ThreadClosed(thread)))
  }

  function RunBounded(b: Bounded, ttl: int, events: seq<BoundedEvent>): Bounded {
    if events == [] then b else StepBounded(RunBounded(b, ttl, events[..|events| - 1]), ttl, events[|events| - 1])
  }

  // ----------------------------------------------- the same run with entries forgotten

  /**
   What the reads of a request have left of the cache: what is alive when the entry is
   read, less a head that is not when it is.
   */
  function Seen(b: Bounded, r: Request, t: Times): map<Key, Checkpoint> {
    var live := Contents(b.store.items, t.at);
    var (c1, found) := Read(b.store, InferKey(b.world.config, r), t.at);
    var key := HeadRead(b.world, r, found);
    if key.Some? && Held(c1.items, t.headAt, key.value).None? then live - {key.value} else live
  }

  function Before(b: Bounded, r: Request, t: Times): World {
    Forget(b.world, b.world.cache.Keys - Seen(b, r, t).Keys)
  }

  /** The events of the unbounded world that a step amounts to. */
  function Traced(b: Bounded, ttl: int, e: BoundedEvent): seq<Event> {
    match e
    case Closed(thread) => [ThreadClosed(thread)]
    case Asked(r, o, t) =>
      if !Accepted(r) then []
      else
        var w := Serve(Before(b, r, t), r, o);
        [Forgotten(b.world.cache.Keys - Seen(b, r, t).Keys), Served(r, o),
         Forgotten(w.cache.Keys - ServeBounded(b, r, o, ttl, t).world.cache.Keys)]
  }

  function Trace(b: Bounded, ttl: int, events: seq<BoundedEvent>): seq<Event> {
    if events == [] then []
    else
      var before := events[..|events| - 1];
      Trace(b, ttl, before) + Traced(RunBounded(b, ttl, before), ttl, events[|events| - 1])
  }

  predicate Timely(b: Bounded, e: BoundedEvent) {
    e.Asked? ==> InOrder(e.times, b.now)
  }

  predicate AllTimely(b: Bounded, ttl: int, events: seq<BoundedEvent>) {
    events == [] ||
    var before := events[..|events| - 1];
    AllTimely(b, ttl, before) && Timely(RunBounded(b, ttl, before), events[|events| - 1])
  }

  ghost predicate Mirrors(b: Bounded) {
    && Lru.Inv(b.store) && !b.store.closed
    && b.world.active == {}
    && b.world.cache == Contents(b.store.items, b.now)
  }

  // ------------------------------------------------------------- reads and writes

  lemma ReadLeaves(c: Use.Store, key: Option<Key>, at: int, k: Key)
    requires Lru.Inv(c) && !c.closed
    ensures var (c', found) := Read(c, key, at);
            && found == (if key.Some? then Held(c.items, at, key.value) else None)
            && Lru.Lookup(c'.items, k) ==
                 (if key == Some(k) && Held(c.items, at, k).None? then None else Lru.Lookup(c.items, k))
  {
    if key.Some? {
      var p := Lru.At(c.items, key.value);
      Lru.LookupWithout(c.items, key.value, k);
      if p < |c.items| {
        Lru.LookupAppend([c.items[p]], Lru.Without(c.items, key.value), k);
      }
    }
  }

  lemma ReadKeepsInv(c: Use.Store, key: Option<Key>, at: int)
    requires Lru.Inv(c) && !c.closed
    ensures Lru.Inv(Read(c, key, at).0) && !Read(c, key, at).0.closed
  {
    if key.Some? {
      var op: Lru.Op<Key, Checkpoint> := Lru.GetOp(key.value, at);
      Lru.ApplyKeeps(c, op);
    }
  }

  /** What is found in a beginning of a list is found in the list. */
  lemma FoundInPart(items: Entries, n: nat, k: Key)
    requires n <= |items|
    ensures Lru.Lookup(items[..n], k).Some? ==> Lru.Lookup(items, k) == Lru.Lookup(items[..n], k)
  {
    Lru.LookupAppend(items[..n], items[n..], k);
    assert items[..n] + items[n..] == items;
  }

  lemma FrontLookup(items: Entries, x: Use.Entry, k: Key)
    ensures Lru.Lookup([x] + Lru.Without(items, x.key), k) == if k == x.key then Some(x) else Lru.Lookup(items, k)
  {
    Lru.LookupWithout(items, x.key, k);
    Lru.LookupAppend([x], Lru.Without(items, x.key), k);
    assert [x][1..] == [];
  }

  lemma WriteLeaves(c: Use.Store, key: Key, value: Checkpoint, ttl: int, now: int, k: Key)
    requires Lru.Inv(c) && !c.closed
    ensures var c' := Lru.Set(c, key, value, ttl, now);
            && Lru.Inv(c') && !c'.closed
            && (Lru.Lookup(c'.items, k).Some? ==>
                  Lru.Lookup(c'.items, k) ==
                    if k == key then Some(Lru.Item(key, value, Lru.Expiry(ttl, now))) else Lru.Lookup(c.items, k))
  {
    var op: Lru.Op<Key, Checkpoint> := Lru.SetOp(key, value, ttl, now);
    Lru.ApplyKeeps(c, op);
    var x := Lru.Item(key, value, Lru.Expiry(ttl, now));
    FrontLookup(c.items, x, k);
    var all := [x] + Lru.Without(c.items, key);
    if |all| > c.maxEntries {
      FoundInPart(all, c.maxEntries, k);
    }
  }

  /** What is found after a save was saved by it or there before. */
  lemma SaveLeaves(c: Use.Store, ttl: int, op: Use.TurnOp, k: Key)
    requires Lru.Inv(c) && !c.closed && op.SaveTurn?
    ensures var c' := Use.SaveIn(c, ttl, op);
            && Lru.Inv(c') && !c'.closed
            && (Lru.Lookup(c'.items, k).Some? ==>
                  if k == Use.LineageOf(op.checkpoint) || k == Use.HeadOf(op.checkpoint)
                     || (op.scope != "" && k == SessionKey(op.scope))
                  then Lru.Lookup(c'.items, k).value.value == op.checkpoint
                  else Lru.Lookup(c'.items, k) == Lru.Lookup(c.items, k))
  {
    var c1 := Lru.Set(c, Use.LineageOf(op.checkpoint), op.checkpoint, ttl, op.at);
    var c2 := Lru.Set(c1, Use.HeadOf(op.checkpoint), op.checkpoint, ttl, op.headAt);
    WriteLeaves(c, Use.LineageOf(op.checkpoint), op.checkpoint, ttl, op.at, k);
    WriteLeaves(c1, Use.HeadOf(op.checkpoint), op.checkpoint, ttl, op.headAt, k);
    if op.scope != "" {
      WriteLeaves(c2, SessionKey(op.scope), op.checkpoint, ttl, op.scopeAt, k);
    }
  }

  lemma ContentsOf(items: Entries, now: int, k: Key)
    ensures k in Contents(items, now) <==> Held(items, now, k).Some?
    ensures k in Contents(items, now) ==> Contents(items, now)[k] == Held(items, now, k).value
  {
    Lru.LookupFinds(items, k);
  }

  // --------------------------------------------------------------- the simulation

  lemma FirstRead(b: Bounded, r: Request, t: Times)
    requires Mirrors(b)
    ensures var (c1, found) := Read(b.store, InferKey(b.world.config, r), t.at);
            && Lru.Inv(c1) && !c1.closed
            && found == Infer(b.world.(cache := Seen(b, r, t)), r)
  {
    var key := InferKey(b.world.config, r);
    ReadKeepsInv(b.store, key, t.at);
    if key.Some? {
      ReadLeaves(b.store, key, t.at, key.value);
      ContentsOf(b.store.items, t.at, key.value);
    }
  }

  lemma SecondRead(b: Bounded, r: Request, t: Times, h: Key)
    requires Mirrors(b) && InOrder(t, b.now) && h.HeadKey?
    requires HeadRead(b.world, r, Read(b.store, InferKey(b.world.config, r), t.at).1) == Some(h)
    ensures var c1 := Read(b.store, InferKey(b.world.config, r), t.at).0;
            Read(c1, Some(h), t.headAt).1 == if h in Seen(b, r, t) then Some(Seen(b, r, t)[h]) else None
  {
    var key := InferKey(b.world.config, r);
    var c1 := Read(b.store, key, t.at).0;
    ReadKeepsInv(b.store, key, t.at);
    ReadLeaves(b.store, key, t.at, h);
    ReadLeaves(c1, Some(h), t.headAt, h);
    ContentsOf(b.store.items, t.at, h);
  }

  lemma BothReads(b: Bounded, r: Request, t: Times)
    requires Mirrors(b) && InOrder(t, b.now)
    ensures var (c2, found, head) := ReadBoth(b, r, t);
            var w := b.world.(cache := Seen(b, r, t));
            && Lru.Inv(c2) && !c2.closed
            && found == Infer(w, r)
            && (!Continuation(r) ==> head == Head(w, found))
  {
    FirstRead(b, r, t);
    var (c1, found) := Read(b.store, InferKey(b.world.config, r), t.at);
    var h := HeadRead(b.world, r, found);
    ReadKeepsInv(c1, h, t.headAt);
    if h.Some? {
      SecondRead(b, r, t, h.value);
    }
  }

  /** Reading only loses entries. */
  lemma SeenIsForgotten(b: Bounded, r: Request, t: Times)
    requires Mirrors(b) && InOrder(t, b.now)
    ensures Before(b, r, t) == b.world.(cache := Seen(b, r, t))
  {
    var seen := Seen(b, r, t);
    forall k | k in seen ensures k in b.world.cache && b.world.cache[k] == seen[k] {
      ContentsOf(b.store.items, t.at, k);
      ContentsOf(b.store.items, b.now, k);
    }
    assert b.world.cache - (b.world.cache.Keys - seen.Keys) == seen;
  }

  /** The choice and the turn do not look at the cache beyond what was read. */
  lemma PrepareAnyCache(w: World, cache: map<Key, Checkpoint>, resolved: Option<nat>, r: Request, o: Outcome)
    ensures var (w', chosen) := Prepare(w, resolved, r, o);
            Prepare(w.(cache := cache), resolved, r, o) == (w'.(cache := cache), chosen)
  {
  }

  lemma ResolveAnyCache(w: World, cache: map<Key, Checkpoint>, c: Checkpoint, head: Option<Checkpoint>, o: Outcome)
    ensures var (w', resolved) := Resolve(w, c, head, o);
            Resolve(w.(cache := cache), c, head, o) == (w'.(cache := cache), resolved)
  {
  }

  lemma ChooseAnyCache(w: World, cache: map<Key, Checkpoint>, r: Request, o: Outcome,
                       found: Option<Checkpoint>, head: Option<Checkpoint>)
    ensures var (w', chosen) := ChooseFrom(w, r, o, found, head);
            ChooseFrom(w.(cache := cache), r, o, found, head) == (w'.(cache := cache), chosen)
  {
    PrepareAnyCache(w, cache, None, r, o);
    if found.Some? {
      ResolveAnyCache(w, cache, found.value, head, o);
      var (w', resolved) := Resolve(w, found.value, head, o);
      PrepareAnyCache(w', cache, resolved, r, o);
    }
  }

  lemma FinishAnyCache(w: World, cache: map<Key, Checkpoint>, chosen: Option<nat>, r: Request, o: Outcome)
    ensures Finish(w.(cache := cache), chosen, r, o) ==
              Finish(w, chosen, r, o).(cache := Remembered(cache, r, Checkpointed(w, chosen, r, o)))
  {
  }

  /** The thread a request gets on the bounded cache is the one it would get from what its reads see. */
  lemma ChoosesAsSeen(b: Bounded, r: Request, o: Outcome, t: Times)
    requires Mirrors(b) && InOrder(t, b.now)
    ensures var (c2, found, head) := ReadBoth(b, r, t);
            var (w', chosen) := ChooseFrom(b.world, r, o, found, head);
            Choose(Before(b, r, t), r, o) == (w'.(cache := Seen(b, r, t)), chosen)
  {
    var (c2, found, head) := ReadBoth(b, r, t);
    BothReads(b, r, t);
    SeenIsForgotten(b, r, t);
    ChooseAnyCache(b.world, Seen(b, r, t), r, o, found, head);
  }

  lemma LeftIsSeen(b: Bounded, r: Request, t: Times, now: int, k: Key)
    requires Mirrors(b) && InOrder(t, b.now) && t.headAt <= now
    requires Held(ReadBoth(b, r, t).0.items, now, k).Some?
    ensures k in Seen(b, r, t) && Seen(b, r, t)[k] == Held(ReadBoth(b, r, t).0.items, now, k).value
  {
    var key := InferKey(b.world.config, r);
    var (c1, found) := Read(b.store, key, t.at);
    ReadKeepsInv(b.store, key, t.at);
    ReadLeaves(b.store, key, t.at, k);
    ReadLeaves(c1, HeadRead(b.world, r, found), t.headAt, k);
    ContentsOf(b.store.items, t.at, k);
  }

  lemma WrittenKeepsInv(c: Use.Store, r: Request, saved: Option<Checkpoint>, ttl: int, t: Times)
    requires Lru.Inv(c) && !c.closed
    ensures Lru.Inv(Written(c, r, saved, ttl, t)) && !Written(c, r, saved, ttl, t).closed
  {
    if saved.Some? {
      SaveLeaves(c, ttl, Use.SaveTurn(saved.value, Scope(r), t.saveAt, t.saveHeadAt, t.saveScopeAt), HeadKey(0));
    }
  }

  /** What is found after the writes was found before them or was written. */
  lemma WrittenIsRemembered(c: Use.Store, seen: map<Key, Checkpoint>, r: Request, t: Times, ttl: int,
      saved: Option<Checkpoint>, k: Key)
    requires Lru.Inv(c) && !c.closed
    requires Held(c.items, t.saveScopeAt, k).Some? ==> k in seen && seen[k] == Held(c.items, t.saveScopeAt, k).value
    requires Held(Written(c, r, saved, ttl, t).items, t.saveScopeAt, k).Some?
    ensures k in Remembered(seen, r, saved)
    ensures Remembered(seen, r, saved)[k] == Held(Written(c, r, saved, ttl, t).items, t.saveScopeAt, k).value
  {
    if saved.Some? {
      SaveLeaves(c, ttl, Use.SaveTurn(saved.value, Scope(r), t.saveAt, t.saveHeadAt, t.saveScopeAt), k);
    }
  }

  lemma LeftIsRemembered(b: Bounded, r: Request, t: Times, ttl: int, saved: Option<Checkpoint>, k: Key)
    requires Mirrors(b) && InOrder(t, b.now)
    requires Held(Written(ReadBoth(b, r, t).0, r, saved, ttl, t).items, t.saveScopeAt, k).Some?
    ensures k in Remembered(Seen(b, r, t), r, saved)
    ensures Remembered(Seen(b, r, t), r, saved)[k] ==
              Held(Written(ReadBoth(b, r, t).0, r, saved, ttl, t).items, t.saveScopeAt, k).value
  {
    BothReads(b, r, t);
    if Held(ReadBoth(b, r, t).0.items, t.saveScopeAt, k).Some? {
      LeftIsSeen(b, r, t, t.saveScopeAt, k);
    }
    WrittenIsRemembered(ReadBoth(b, r, t).0, Seen(b, r, t), r, t, ttl, saved, k);
  }

  /** What the request leaves in the store is some of what it would leave in an unbounded map. */
  lemma SavesSome(b: Bounded, r: Request, t: Times, ttl: int, saved: Option<Checkpoint>)
    requires Mirrors(b) && InOrder(t, b.now)
    ensures var whole := Remembered(Seen(b, r, t), r, saved);
            var left := Contents(Written(ReadBoth(b, r, t).0, r, saved, ttl, t).items, t.saveScopeAt);
            whole - (whole.Keys - left.Keys) == left
  {
    var whole := Remembered(Seen(b, r, t), r, saved);
    var c3 := Written(ReadBoth(b, r, t).0, r, saved, ttl, t);
    var left := Contents(c3.items, t.saveScopeAt);
    forall k | k in left ensures k in whole && whole[k] == left[k] {
      ContentsOf(c3.items, t.saveScopeAt, k);
      LeftIsRemembered(b, r, t, ttl, saved, k);
    }
  }

  /** One request on the bounded cache is a request of the unbounded world with entries forgotten before and after. */
  lemma ServeSimulates(b: Bounded, r: Request, o: Outcome, ttl: int, t: Times)
    requires Mirrors(b) && InOrder(t, b.now) && Accepted(r)
    ensures var b' := ServeBounded(b, r, o, ttl, t);
            var w := Serve(Before(b, r, t), r, o);
            && Mirrors(b') && b'.now == t.saveScopeAt
            && b'.world == Forget(w, w.cache.Keys - b'.world.cache.Keys)
  {
    var (c2, found, head) := ReadBoth(b, r, t);
    BothReads(b, r, t);
    SeenIsForgotten(b, r, t);
    ChoosesAsSeen(b, r, o, t);
    var (w', chosen) := ChooseFrom(b.world, r, o, found, head);
    FinishAnyCache(w', Seen(b, r, t), chosen, r, o);
    WrittenKeepsInv(c2, r, Checkpointed(w', chosen, r, o), ttl, t);
    SavesSome(b, r, t, ttl, Checkpointed(w', chosen, r, o));
    ChooseKeepsActive(b.world, r, o, found, head);
    FinishKeepsRest(w', chosen, r, o);
  }

  lemma ChooseKeepsActive(w: World, r: Request, o: Outcome, found: Option<Checkpoint>, head: Option<Checkpoint>)
    ensures ChooseFrom(w, r, o, found, head).0.active == w.active
  {
  }

  lemma {:induction false} RunJoin(w: World, a: seq<Event>, b: seq<Event>)
    ensures Run(w, a + b) == Run(Run(w, a), b)
  {
    if b == [] {
      assert a + b == a;
    } else {
      assert (a + b)[..|a + b| - 1] == a + b[..|b| - 1];
      RunJoin(w, a, b[..|b| - 1]);
    }
  }

  lemma StepSimulates(b: Bounded, ttl: int, e: BoundedEvent)
    requires Mirrors(b) && Timely(b, e)
    ensures Mirrors(StepBounded(b, ttl, e))
    ensures Run(b.world, Traced(b, ttl, e)) == StepBounded(b, ttl, e).world
  {
    match e
    case Closed(thread) => RunSnoc(b.world, [], ThreadClosed(thread));
    case Asked(r, o, t) =>
      if Accepted(r) {
        ServeSimulates(b, r, o, ttl, t);
        ThreeEvents(b.world, Traced(b, ttl, e));
      }
  }

  lemma ThreeEvents(w: World, events: seq<Event>)
    requires |events| == 3
    ensures Run(w, events) == Step(Step(Step(w, events[0]), events[1]), events[2])
  {
    RunSnoc(w, [], events[0]);
    RunSnoc(w, [] + [events[0]], events[1]);
    RunSnoc(w, [] + [events[0]] + [events[1]], events[2]);
    assert [] + [events[0]] + [events[1]] + [events[2]] == events;
  }

  /** Every run on the bounded cache is a run of the unbounded world in which entries are forgotten. */
  lemma {:induction false} BoundedRunIsTraced(b: Bounded, ttl: int, events: seq<BoundedEvent>)
    requires Mirrors(b) && AllTimely(b, ttl, events)
    ensures Mirrors(RunBounded(b, ttl, events))
    ensures Run(b.world, Trace(b, ttl, events)) == RunBounded(b, ttl, events).world
  {
    if events != [] {
      var before, last := events[..|events| - 1], events[|events| - 1];
      BoundedRunIsTraced(b, ttl, before);
      StepSimulates(RunBounded(b, ttl, before), ttl, last);
      RunJoin(b.world, Trace(b, ttl, before), Traced(RunBounded(b, ttl, before), ttl, last));
    }
  }

  lemma BeginMirrors(config: Config, maxEntries: nat)
    requires maxEntries > 0
    ensures Mirrors(Begin(config, maxEntries))
  {
    var empty: Entries := [];
    assert Lru.Keys(empty) == {};
    assert Contents(empty, 0) == map[];
  }

  // ------------------------------------------------------------------ the theorems

  /** The thread a request gets on the bounded cache. */
  function ChooseBounded(b: Bounded, r: Request, o: Outcome, t: Times): (World, Option<nat>) {
    var (c2, found, head) := ReadBoth(b, r, t);
    ChooseFrom(b.world, r, o, found, head)
  }

  /**
   Over every run on the bounded cache whose requests keep, with any bound, lifetime
   and clock: the thread chosen for a plain request agrees with replaying its history
   if and only if the request keeps in what its own reads see of the cache.
   */
  lemma BoundedReplaysExactlyIf(
    config: Config, maxEntries: nat, ttl: int, events: seq<BoundedEvent>, r: Request, o: Outcome, t: Times
  )
    requires maxEntries > 0 && AllTimely(Begin(config, maxEntries), ttl, events)
    requires Faithful(Start(config), Trace(Begin(config, maxEntries), ttl, events)) && Plain(r)
    requires InOrder(t, RunBounded(Begin(config, maxEntries), ttl, events).now)
    ensures var b := RunBounded(Begin(config, maxEntries), ttl, events);
            var (w', chosen) := ChooseBounded(b, r, o, t);
            chosen.Some? ==>
              && chosen.value in w'.threads
              && (Replays(w'.threads[chosen.value], r) <==> Keeps(Before(b, r, t), r, o))
  {
    var start := Begin(config, maxEntries);
    var b := RunBounded(start, ttl, events);
    var trace := Trace(start, ttl, events);
    BeginMirrors(config, maxEntries);
    BoundedRunIsTraced(start, ttl, events);
    ChoosesAsSeen(b, r, o, t);
    var lost := Forgotten(b.world.cache.Keys - Seen(b, r, t).Keys);
    RunSnoc(Start(config), trace, lost);
    ReplaysExactlyIf(config, trace + [lost], r, o);
  }

  /** The head that a lookup would find with its checkpoint is still there when it is read. */
  predicate HeadSteady(b: Bounded, r: Request, t: Times) {
    var (c1, found) := Read(b.store, InferKey(b.world.config, r), t.at);
    var key := HeadRead(b.world, r, found);
    key.Some? && Held(c1.items, t.at, key.value).Some? ==> Held(c1.items, t.headAt, key.value).Some?
  }

  /** A lookup for tool results finds nothing, so that no entry is moved up without its head. */
  predicate NoPeek(b: Bounded, r: Request, t: Times) {
    Continuation(r) ==> Read(b.store, InferKey(b.world.config, r), t.at).1.None?
  }

  /** A request no session decides, whose lookup keeps entry and head together. */
  ghost predicate CalmRequest(b: Bounded, r: Request, t: Times) {
    && InOrder(t, b.now)
    && Resolvable(Before(b, r, t), r)
    && NoPeek(b, r, t) && HeadSteady(b, r, t)
  }

  ghost predicate Calm(b: Bounded, e: BoundedEvent) {
    e.Asked? ==> CalmRequest(b, e.request, e.times) && e.outcome.answer != ""
  }

  ghost predicate AllCalm(b: Bounded, ttl: int, events: seq<BoundedEvent>) {
    events == [] ||
    var before := events[..|events| - 1];
    AllCalm(b, ttl, before) && Calm(RunBounded(b, ttl, before), events[|events| - 1])
  }

  /** Every lineage entry that is held has its thread's head held beside it. */
  ghost predicate HeadsHeld(cache: map<Key, Checkpoint>) {
    forall k :: k in cache && k.LineageKey? ==> HeadKey(cache[k].thread) in cache
  }

  lemma HeadIsHeld(c: Use.Store, ttl: int, now: int, k: Key)
    requires Use.Sound(c, ttl, now, {}) && k.LineageKey? && Held(c.items, now, k).Some?
    ensures Held(c.items, now, HeadKey(Held(c.items, now, k).value.thread)).Some?
  {
    var p := Lru.At(c.items, k);
    assert Use.CoveredAt(c.items, p);
    var j :| 0 <= j < p && Use.Covers(c.items[j], c.items[p]);
    Lru.WithoutAt(c.items, j);
  }

  lemma SoundHoldsHeads(c: Use.Store, ttl: int, now: int)
    requires Use.Sound(c, ttl, now, {})
    ensures HeadsHeld(Contents(c.items, now))
  {
    var cache := Contents(c.items, now);
    forall k | k in cache && k.LineageKey? ensures HeadKey(cache[k].thread) in cache {
      ContentsOf(c.items, now, k);
      HeadIsHeld(c, ttl, now, k);
      ContentsOf(c.items, now, HeadKey(cache[k].thread));
    }
  }

  /** Where every lineage entry that stays keeps its head, forgetting is orderly. */
  lemma HeldHeadsAreOrderly(w: World, left: map<Key, Checkpoint>)
    requires HeadsHeld(left) && w.cache - (w.cache.Keys - left.Keys) == left
    ensures Orderly(w, w.cache.Keys - left.Keys)
  {
    forall k | k in w.cache && k !in w.cache.Keys - left.Keys ensures k in left && left[k] == w.cache[k] {
      assert k in w.cache - (w.cache.Keys - left.Keys);
    }
  }

  lemma CalmSeen(b: Bounded, r: Request, t: Times)
    requires Mirrors(b) && CalmRequest(b, r, t)
    ensures Seen(b, r, t) == Contents(b.store.items, t.at)
  {
    var key := InferKey(b.world.config, r);
    var (c1, found) := Read(b.store, key, t.at);
    var head := HeadRead(b.world, r, found);
    if head.Some? {
      ReadLeaves(b.store, key, t.at, head.value);
      ContentsOf(b.store.items, t.at, head.value);
    }
  }

  lemma CalmReads(b: Bounded, r: Request, t: Times, ttl: int)
    requires Mirrors(b) && Use.Sound(b.store, ttl, b.now, {}) && CalmRequest(b, r, t)
    ensures Use.Sound(ReadBoth(b, r, t).0, ttl, t.headAt, {})
  {
    var key := InferKey(b.world.config, r);
    Use.SoundLater(b.store, ttl, b.now, t.at, {});
    if key.None? {
      Use.SoundLater(b.store, ttl, t.at, t.headAt, {});
    } else {
      Use.LookUpKeeps(b.store, ttl, key.value, t.at, t.headAt, {});
    }
  }

  lemma CalmServe(b: Bounded, r: Request, o: Outcome, ttl: int, t: Times)
    requires Mirrors(b) && Use.Sound(b.store, ttl, b.now, {}) && CalmRequest(b, r, t)
    ensures Use.Sound(ServeBounded(b, r, o, ttl, t).store, ttl, t.saveScopeAt, {})
  {
    CalmReads(b, r, t, ttl);
    var (c2, found, head) := ReadBoth(b, r, t);
    Use.SoundLater(c2, ttl, t.headAt, t.saveScopeAt, {});
    var (w', chosen) := ChooseFrom(b.world, r, o, found, head);
    var saved := Checkpointed(w', chosen, r, o);
    if saved.Some? {
      var op := Use.SaveTurn(saved.value, Scope(r), t.saveAt, t.saveHeadAt, t.saveScopeAt);
      Use.SaveKeeps(c2, ttl, op, t.headAt, {});
      assert {} - {Use.LineageOf(op.checkpoint)} == {};
    }
  }

  lemma CalmIsOrdinary(b: Bounded, r: Request, o: Outcome, ttl: int, t: Times)
    requires Mirrors(b) && Use.Sound(b.store, ttl, b.now, {}) && CalmRequest(b, r, t)
    ensures Orderly(b.world, b.world.cache.Keys - Seen(b, r, t).Keys)
    ensures var w := Serve(Before(b, r, t), r, o);
            Orderly(w, w.cache.Keys - ServeBounded(b, r, o, ttl, t).world.cache.Keys)
  {
    CalmSeen(b, r, t);
    SeenIsForgotten(b, r, t);
    Use.SoundLater(b.store, ttl, b.now, t.at, {});
    SoundHoldsHeads(b.store, ttl, t.at);
    HeldHeadsAreOrderly(b.world, Seen(b, r, t));
    var b' := ServeBounded(b, r, o, ttl, t);
    ServeSimulates(b, r, o, ttl, t);
    CalmServe(b, r, o, ttl, t);
    SoundHoldsHeads(b'.store, ttl, t.saveScopeAt);
    HeldHeadsAreOrderly(Serve(Before(b, r, t), r, o), b'.world.cache);
  }

  lemma OrdinaryThree(w: World, events: seq<Event>, next: seq<Event>)
    requires AllOrdinary(w, events) && |next| == 3
    requires var v := Run(w, events);
             && Ordinary(v, next[0]) && Ordinary(Step(v, next[0]), next[1])
             && Ordinary(Step(Step(v, next[0]), next[1]), next[2])
    ensures AllOrdinary(w, events + next)
  {
    RunSnoc(w, events, next[0]);
    OrdinarySnoc(w, events, next[0]);
    RunSnoc(w, events + [next[0]], next[1]);
    OrdinarySnoc(w, events + [next[0]], next[1]);
    OrdinarySnoc(w, events + [next[0]] + [next[1]], next[2]);
    assert events + [next[0]] + [next[1]] + [next[2]] == events + next;
  }

  lemma {:induction false} CalmRuns(config: Config, maxEntries: nat, ttl: int, events: seq<BoundedEvent>)
    requires maxEntries > 0 && AllCalm(Begin(config, maxEntries), ttl, events)
    ensures var start := Begin(config, maxEntries);
            var b := RunBounded(start, ttl, events);
            && AllTimely(start, ttl, events)
            && AllOrdinary(Start(config), Trace(start, ttl, events))
            && Mirrors(b) && Use.Sound(b.store, ttl, b.now, {})
            && Run(Start(config), Trace(start, ttl, events)) == b.world
  {
    var start := Begin(config, maxEntries);
    BeginMirrors(config, maxEntries);
    if events != [] {
      var before, last := events[..|events| - 1], events[|events| - 1];
      CalmRuns(config, maxEntries, ttl, before);
      BoundedRunIsTraced(start, ttl, events);
      var b := RunBounded(start, ttl, before);
      match last
      case Closed(thread) => OrdinarySnoc(Start(config), Trace(start, ttl, before), ThreadClosed(thread));
      case Asked(r, o, t) =>
        ServeSimulates(b, r, o, ttl, t);
        CalmServe(b, r, o, ttl, t);
        CalmIsOrdinary(b, r, o, ttl, t);
        OrdinaryThree(Start(config), Trace(start, ttl, before), Traced(b, ttl, last));
    }
  }

  /**
   Over every run on the bounded cache, with any bound, lifetime and clock, of requests
   that no session decides, answered with text, where no lookup for tool results finds
   an entry and no head expires between the two reads of a lookup: the thread a request
   gets holds exactly what replaying its history would build.
   */
  lemma BoundedCacheRefinesReplay(
    config: Config, maxEntries: nat, ttl: int, events: seq<BoundedEvent>, r: Request, o: Outcome, t: Times
  )
    requires maxEntries > 0 && AllCalm(Begin(config, maxEntries), ttl, events)
    requires CalmRequest(RunBounded(Begin(config, maxEntries), ttl, events), r, t)
    ensures var b := RunBounded(Begin(config, maxEntries), ttl, events);
            var (w', chosen) := ChooseBounded(b, r, o, t);
            chosen.Some? ==> chosen.value in w'.threads && Replays(w'.threads[chosen.value], r)
  {
    var start := Begin(config, maxEntries);
    CalmRuns(config, maxEntries, ttl, events);
    var b, trace := RunBounded(start, ttl, events), Trace(start, ttl, events);
    var lost := Forgotten(b.world.cache.Keys - Seen(b, r, t).Keys);
    CalmIsOrdinary(b, r, o, ttl, t);
    OrdinarySnoc(Start(config), trace, lost);
    RunSnoc(Start(config), trace, lost);
    LineageRefinesReplay(config, trace + [lost], r, o);
    ChoosesAsSeen(b, r, o, t);
  }
}

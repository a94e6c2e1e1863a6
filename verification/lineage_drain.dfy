/**
 A turn that has completed and whose stream is still being read: its thread is no
 longer busy and its checkpoint not saved yet. Agreement with replay holds over every
 run in which no request comes for a thread in that state, and fails in one where it does.
 */
module LineageDrain {
  import opened Wrappers
  import opened Lineage
  import opened LineageOpen
  import opened LineageReplay
  import T = LineageTheorems
  import L = LineageLimits

  /** A turn on the thread has completed and its stream was not read to the end. */
  ghost predicate Undrained(s: Open, thread: nat) {
    exists n :: n in s.ended && s.ended[n].thread == thread
  }

  ghost predicate Known(s: Open, c: Checkpoint) {
    T.Moved(s.world, c) || T.Whole(s.world, c) || Undrained(s, c.thread)
  }

  /** Only an undrained turn can be unknown to the entries of its thread. */
  ghost predicate AllKnown(s: Open) {
    forall k :: k in s.world.cache && k.LineageKey? ==> Known(s, s.world.cache[k])
  }

  function HistoryOf(stream: Stream): seq<Message> {
    stream.turn.request.messages + [Assistant(stream.answer)]
  }

  /** The thread of an undrained turn holds that turn last. */
  ghost predicate LastOn(s: Open, stream: Stream) {
    && stream.answer != "" && stream.thread !in s.turns && stream.thread in s.world.threads
    && |s.world.threads[stream.thread].items| == |Items(HistoryOf(stream))|
  }

  ghost predicate EndedLast(s: Open) {
    && (forall n :: n in s.ended ==> LastOn(s, s.ended[n]))
    && (forall n, m :: n in s.ended && m in s.ended && s.ended[n].thread == s.ended[m].thread ==> n == m)
  }

  /**
   Requests that no session decides and that do not find the thread of an undrained
   turn, answers with text, no turn given up, and heads forgotten in order.
   */
  ghost predicate Ordinary(s: Open, e: Event) {
    match e
    case Began(r, o) =>
      && T.Resolvable(s.world, r)
      && (Continuation(r) || Infer(s.world, r).None? || !Undrained(s, Infer(s.world, r).value.thread))
    case Handed(_, _, _) => false
    case Completed(_, answer) => answer != ""
    case Drained(_) => true
    case Broke(thread) => thread !in s.turns
    case Closed(thread) => thread !in s.turns
    case Lost(keys) =>
      forall k :: k in s.world.cache && k.LineageKey? && k !in keys && HeadKey(s.world.cache[k].thread) in keys ==>
        var c := s.world.cache[k];
        c.thread in s.world.active || Undrained(s, c.thread) || T.Whole(s.world, c)
  }

  ghost predicate AllOrdinary(config: Config, events: seq<Event>)
    decreases |events|
  {
    events == [] ||
    var before := events[..|events| - 1];
    AllOrdinary(config, before) && Ordinary(Run(Initial(config), before), events[|events| - 1])
  }

  // ----------------------------------------------------------------------- the steps

  lemma KnownKeeps(s: Open, r: Request, o: Outcome)
    requires AllKnown(s) && Ordinary(s, Began(r, o))
    ensures T.Keeps(s.world, r, o)
  {
  }

  /** Nothing changes for a checkpoint whose thread and head are as they were. */
  lemma StaysKnown(s: Open, s': Open, c: Checkpoint)
    requires Known(s, c)
    requires c.thread in s.world.threads ==>
               c.thread in s'.world.threads && s'.world.threads[c.thread] == s.world.threads[c.thread]
    requires Load(s'.world, HeadKey(c.thread)) == Load(s.world, HeadKey(c.thread))
    requires c.thread in s.world.active ==> c.thread in s'.world.active
    requires Undrained(s, c.thread) ==> Undrained(s', c.thread)
    ensures Known(s', c)
  {
  }

  lemma BeginOnKnown(s: Open, w: World, chosen: Option<nat>, r: Request, o: Outcome)
    requires AllKnown(s) && EndedLast(s) && T.ThreadsKept(s.world, w)
    requires chosen.Some? ==> !Undrained(s, chosen.value)
    ensures AllKnown(BeginOn(s.(world := w), chosen, r, o)) && EndedLast(BeginOn(s.(world := w), chosen, r, o))
  {
    var s' := BeginOn(s.(world := w), chosen, r, o);
    assert s'.ended == s.ended;
    forall k | k in s'.world.cache && k.LineageKey? ensures Known(s', s'.world.cache[k]) {
      var c := s.world.cache[k];
      assert Known(s, c);
      if s'.world.active == s.world.active || chosen != Some(c.thread) {
        StaysKnown(s, s', c);
      }
    }
    forall n | n in s'.ended ensures LastOn(s', s'.ended[n]) {
      assert LastOn(s, s.ended[n]);
    }
  }

  lemma ChosenIsDrained(s: Open, r: Request, o: Outcome)
    requires Inv(s) && EndedLast(s) && AllKnown(s) && Ordinary(s, Began(r, o))
    ensures Choose(s.world, r, o).1.Some? ==> !Undrained(s, Choose(s.world, r, o).1.value)
    ensures T.ThreadsKept(s.world, Choose(s.world, r, o).0)
  {
    KnownKeeps(s, r, o);
    T.ChosenReplaysExactlyIf(s.world, r, o);
    var chosen := Choose(s.world, r, o).1;
    if chosen.Some? && chosen.value !in s.world.threads {
      assert forall n :: n in s.ended ==> LastOn(s, s.ended[n]);
    }
  }

  lemma BeginKnown(s: Open, r: Request, o: Outcome)
    requires Inv(s) && EndedLast(s) && AllKnown(s) && Ordinary(s, Began(r, o))
    ensures AllKnown(Begin(s, r, o)) && EndedLast(Begin(s, r, o))
  {
    BeginCases(s, r, o);
    if (UserTurn(r) || Continuation(r)) && !Resumes(s.world, r, Infer(s.world, r)) {
      ChosenIsDrained(s, r, o);
      BeginOnKnown(s, Choose(s.world, r, o).0, Choose(s.world, r, o).1, r, o);
    }
  }

  /** What completing a turn leaves, as the other checkpoints see it. */
  ghost predicate Completes(s: Open, s': Open, thread: nat, stream: Stream) {
    && s'.world.cache == s.world.cache && s'.world.active == s.world.active - {thread}
    && s'.turns == s.turns - {thread}
    && stream.turn.number !in s.ended && s'.ended == s.ended[stream.turn.number := stream]
    && s'.world.threads.Keys == s.world.threads.Keys
    && (forall id :: id in s.world.threads && id != thread ==> s'.world.threads[id] == s.world.threads[id])
    && stream.thread == thread && LastOn(s', stream)
  }

  lemma CompletingIs(s: Open, thread: nat, answer: string)
    requires Inv(s) && answer != "" && thread in s.turns
    ensures Completes(s, Complete(s, thread, answer), thread, Stream(thread, s.turns[thread], answer))
  {
    var t' := CompletedThread(s.world.threads[thread], s.turns[thread], answer);
    assert Complete(s, thread, answer).world.threads == s.world.threads[thread := t'];
  }

  lemma CompletedKnown(s: Open, s': Open, thread: nat, stream: Stream)
    requires AllKnown(s) && Completes(s, s', thread, stream)
    ensures AllKnown(s')
  {
    forall k | k in s'.world.cache && k.LineageKey? ensures Known(s', s'.world.cache[k]) {
      var c := s.world.cache[k];
      assert Known(s, c);
      assert s'.ended[stream.turn.number].thread == thread;
      if c.thread != thread {
        UndrainedStays(s, s', c.thread);
        StaysKnown(s, s', c);
      }
    }
  }

  lemma CompletedLast(s: Open, s': Open, thread: nat, stream: Stream)
    requires EndedLast(s) && Completes(s, s', thread, stream) && thread in s.turns
    ensures EndedLast(s')
  {
    forall n | n in s.ended ensures s.ended[n].thread != thread && LastOn(s', s.ended[n]) {
      assert LastOn(s, s.ended[n]);
    }
  }

  lemma UndrainedStays(s: Open, s': Open, thread: nat)
    requires forall n :: n in s.ended && s.ended[n].thread == thread ==> n in s'.ended && s'.ended[n] == s.ended[n]
    ensures Undrained(s, thread) ==> Undrained(s', thread)
  {
  }

  lemma DrainIs(s: Open, n: nat)
    requires n in s.ended && s.ended[n].answer != "" && s.world.config.caching
    ensures var s', stream := Drain(s, n), s.ended[n];
            && s'.world.threads == s.world.threads && s'.world.active == s.world.active && s'.turns == s.turns
            && s'.ended == s.ended - {n}
            && (forall t :: t != stream.thread ==> Load(s'.world, HeadKey(t)) == Load(s.world, HeadKey(t)))
            && HeadKey(stream.thread) in s'.world.cache
            && s'.world.cache[HeadKey(stream.thread)].historyHash ==
                 HistoryHash(s.world.config, stream.turn.request, HistoryOf(stream))
  {
  }

  /** A saved turn is its thread's last, and its head entry tells of every other entry. */
  lemma DrainedKnown(s: Open, n: nat, k: Key)
    requires T.Inv(s.world) && EndedLast(s) && AllKnown(s) && n in s.ended && s.world.config.caching
    requires k in s.world.cache && k.LineageKey? && k in Drain(s, n).world.cache
    requires Drain(s, n).world.cache[k] == s.world.cache[k]
    requires k.hash != HistoryHash(s.world.config, s.ended[n].turn.request, HistoryOf(s.ended[n]))
    ensures Known(Drain(s, n), s.world.cache[k])
  {
    var s', c := Drain(s, n), s.world.cache[k];
    assert LastOn(s, s.ended[n]);
    DrainIs(s, n);
    assert Known(s, c) && T.Fits(k, c);
    if c.thread != s.ended[n].thread {
      UndrainedStays(s, s', c.thread);
      StaysKnown(s, s', c);
    }
  }

  lemma DrainKnown(s: Open, n: nat)
    requires Inv(s) && EndedLast(s) && AllKnown(s) && n in s.ended && s.world.config.caching
    ensures AllKnown(Drain(s, n))
  {
    var s', stream := Drain(s, n), s.ended[n];
    var saved := Saved(s.world.config, stream.turn.request, Assistant(stream.answer), stream.thread,
                       TurnOf(stream.turn));
    assert LastOn(s, stream);
    forall k | k in s'.world.cache && k.LineageKey? ensures Known(s', s'.world.cache[k]) {
      if k == LineageKey(saved.historyHash) {
        assert T.Whole(s'.world, saved);
      } else {
        DrainedKnown(s, n, k);
      }
    }
  }

  lemma DrainLast(s: Open, n: nat)
    requires EndedLast(s) && n in s.ended
    ensures EndedLast(Drain(s, n))
  {
    var s' := Drain(s, n);
    forall m | m in s'.ended ensures LastOn(s', s'.ended[m]) {
      assert LastOn(s, s.ended[m]);
    }
  }

  lemma LostKnown(s: Open, keys: set<Key>)
    requires AllKnown(s) && EndedLast(s) && Ordinary(s, Lost(keys))
    ensures AllKnown(Step(s, Lost(keys))) && EndedLast(Step(s, Lost(keys)))
  {
    var s' := Step(s, Lost(keys));
    forall k | k in s'.world.cache && k.LineageKey? ensures Known(s', s'.world.cache[k]) {
      var c := s.world.cache[k];
      assert Known(s, c);
      UndrainedStays(s, s', c.thread);
      if HeadKey(c.thread) !in keys {
        StaysKnown(s, s', c);
      }
    }
    forall m | m in s'.ended ensures LastOn(s', s'.ended[m]) {
      assert LastOn(s, s.ended[m]);
    }
  }

  lemma StepKnown(s: Open, e: Event)
    requires Inv(s) && EndedLast(s) && AllKnown(s) && Ordinary(s, e)
    ensures InScope(s, e) && AllKnown(Step(s, e)) && EndedLast(Step(s, e))
  {
    match e
    case Began(r, o) =>
      KnownKeeps(s, r, o);
      BeginKnown(s, r, o);
    case Completed(thread, answer) =>
      if thread in s.turns {
        CompletingIs(s, thread, answer);
        CompletedKnown(s, Complete(s, thread, answer), thread, Stream(thread, s.turns[thread], answer));
        CompletedLast(s, Complete(s, thread, answer), thread, Stream(thread, s.turns[thread], answer));
      }
    case Drained(n) =>
      if n in s.ended {
        DrainLast(s, n);
        if s.world.config.caching {
          DrainKnown(s, n);
        }
      }
    case Lost(keys) => LostKnown(s, keys);
    case Broke(thread) => NothingBroke(s, thread);
    case Closed(thread) => NothingBroke(s, thread);
  }

  lemma NothingBroke(s: Open, thread: nat)
    requires Fine(s) && thread !in s.turns && AllKnown(s) && EndedLast(s)
    ensures Break(s, thread) == s
    ensures AllKnown(Step(s, Closed(thread))) && EndedLast(Step(s, Closed(thread)))
  {
    assert s.world.active - {thread} == s.world.active && s.world.waiting - {thread} == s.world.waiting;
    assert s.turns - {thread} == s.turns;
    var s' := Step(s, Closed(thread));
    forall k | k in s'.world.cache && k.LineageKey? ensures Known(s', s'.world.cache[k]) {
      assert Known(s, s.world.cache[k]);
      UndrainedStays(s, s', s.world.cache[k].thread);
      StaysKnown(s, s', s.world.cache[k]);
    }
    forall m | m in s'.ended ensures LastOn(s', s'.ended[m]) {
      assert LastOn(s, s.ended[m]);
    }
  }

  lemma {:induction false} RunKnown(config: Config, events: seq<Event>)
    requires AllOrdinary(config, events)
    ensures Faithful(config, events)
    ensures var s := Run(Initial(config), events);
            Inv(s) && s.world.config == config && AllKnown(s) && EndedLast(s)
    decreases |events|
  {
    if events == [] {
      RunReplays(config, []);
    } else {
      var before := events[..|events| - 1];
      RunKnown(config, before);
      StepKnown(Run(Initial(config), before), events[|events| - 1]);
      RunReplays(config, events);
    }
  }

  // --------------------------------------------------------------------- the theorem

  /**
   Over every run of ordinary requests whose turns stay open as long as they like: a
   request that no session decides and that does not find the thread of an undrained
   turn gets a thread that replays its history and is not busy, and existing threads
   are untouched.
   */
  lemma OpenRefinesReplay(config: Config, events: seq<Event>, r: Request, o: Outcome)
    requires AllOrdinary(config, events) && Ordinary(Run(Initial(config), events), Began(r, o))
    ensures var w := Run(Initial(config), events).world;
            var (w', chosen) := Choose(w, r, o);
            && (chosen.Some? ==>
                  chosen.value in w'.threads && chosen.value !in w.active && T.Replays(w'.threads[chosen.value], r))
            && (forall id :: id in w.threads ==> id in w'.threads && w'.threads[id] == w.threads[id])
  {
    RunKnown(config, events);
    KnownKeeps(Run(Initial(config), events), r, o);
    OpenReplaysExactlyIf(config, events, r, o);
  }

  // ------------------------------------------------------------- an undrained turn

  /** A turn that was read to its end, and a second one on the same thread that was not yet. */
  const READ := [] + [Began(L.FIRST, L.ALL_OK)] + [Completed(0, "hi")] + [Drained(0)]

  const UNREAD := READ + [Began(L.SECOND, L.ALL_OK)] + [Completed(0, "hi")]

  lemma OrdinarySnoc(config: Config, events: seq<Event>, e: Event)
    ensures AllOrdinary(config, events + [e]) <==>
              AllOrdinary(config, events) && Ordinary(Run(Initial(config), events), e)
    ensures Run(Initial(config), events + [e]) == Step(Run(Initial(config), events), e)
  {
    assert (events + [e])[..|events|] == events;
  }

  lemma FirstBegins(config: Config)
    requires config.caching
    ensures var s := Begin(Initial(config), L.FIRST, L.ALL_OK);
            && T.Resolvable(Initial(config).world, L.FIRST) && Infer(Initial(config).world, L.FIRST).None?
            && s.turns == map[0 := Turn(L.FIRST, 0, true)] && s.ended == map[]
            && s.world.threads.Keys == {0} && s.world.waiting == {}
            && Drain(Complete(s, 0, "hi"), 0).world == Serve(T.Start(config), L.FIRST, L.ALL_OK)
  {
    L.FirstTurn(config);
    assert Initial(config).world == T.Start(config);
    assert History(L.FIRST) == [];
    ServeIsBeginCompleteDrain(Initial(config), L.FIRST, L.ALL_OK);
  }

  lemma ReadRun(config: Config)
    requires config.caching
    ensures AllOrdinary(config, READ)
    ensures var s := Run(Initial(config), READ);
            && s.world == Serve(T.Start(config), L.FIRST, L.ALL_OK)
            && s.turns == map[] && s.ended == map[]
  {
    FirstBegins(config);
    OrdinarySnoc(config, [], Began(L.FIRST, L.ALL_OK));
    OrdinarySnoc(config, [] + [Began(L.FIRST, L.ALL_OK)], Completed(0, "hi"));
    OrdinarySnoc(config, [] + [Began(L.FIRST, L.ALL_OK)] + [Completed(0, "hi")], Drained(0));
    assert map[0 := Turn(L.FIRST, 0, true)] - {0} == map[];
    var stream := Stream(0, Turn(L.FIRST, 0, true), "hi");
    assert map[][0 := stream] - {0} == map[];
  }

  /** The second turn runs on the first one's thread and completes; nothing tells the entry of the first turn. */
  lemma SecondCompletes(s: Open, config: Config, c: Checkpoint)
    requires Inv(s) && AllKnown(s) && config.caching && s.world.config == config
    requires s.turns == map[] && s.ended == map[] && s.world.loaded == {0} && s.world.active == {}
    requires c.thread == 0 && s.world.cache == map[L.FirstKey(config) := c, HeadKey(0) := c]
    ensures Ordinary(s, Began(L.SECOND, L.ALL_OK))
    ensures var s' := Complete(Begin(s, L.SECOND, L.ALL_OK), 0, "hi");
            && s'.world.cache == s.world.cache && s'.world.loaded == {0} && s'.world.active == {}
            && s'.world.config == config && Undrained(s', 0) && !T.Whole(s'.world, c)
  {
    L.FollowsFirst(s.world, config, L.SECOND);
    L.Continued(s.world, L.SECOND, L.ALL_OK);
    BeginCases(s, L.SECOND, L.ALL_OK);
    assert Known(s, c) by {
      assert s.world.cache[L.FirstKey(config)] == c;
    }
    assert T.Truthful(s.world, c) by {
      assert s.world.cache[L.FirstKey(config)] == c;
    }
    var s' := Complete(Begin(s, L.SECOND, L.ALL_OK), 0, "hi");
    assert s'.ended[s.world.nextTurn].thread == 0;
    assert s'.world.threads[0].items
        == s.world.threads[0].items + InputItems(L.SECOND) + MessageItems(Assistant("hi"));
    assert |MessageItems(Assistant("hi"))| == 1;
  }

  /**
   Were a request sent while the answer of a completed turn is still being read, and did
   it branch off an earlier turn of that thread, it would be put on the thread though it
   has gone on: such a run, from the start, of otherwise ordinary requests.
   */
  lemma UndrainedTurnIsContinued(config: Config)
    requires config.caching
    ensures AllOrdinary(config, UNREAD)
    ensures var s := Run(Initial(config), UNREAD);
            && T.Resolvable(s.world, L.OTHER) && Undrained(s, 0)
            && Choose(s.world, L.OTHER, L.ALL_OK) == (s.world, Some(0))
            && 0 in s.world.threads && !T.Replays(s.world.threads[0], L.OTHER)
  {
    ReadRun(config);
    L.FirstTurn(config);
    RunKnown(config, READ);
    var s, c := Run(Initial(config), READ), Checkpoint(0, Some(0), L.FirstKey(config).hash);
    SecondCompletes(s, config, c);
    OrdinarySnoc(config, READ, Began(L.SECOND, L.ALL_OK));
    OrdinarySnoc(config, READ + [Began(L.SECOND, L.ALL_OK)], Completed(0, "hi"));
    RunKnown(config, UNREAD);
    var w := Run(Initial(config), UNREAD).world;
    L.FollowsFirst(w, config, L.OTHER);
    L.Continued(w, L.OTHER, L.ALL_OK);
    L.NotWhole(w, L.OTHER);
  }
}

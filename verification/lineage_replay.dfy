/**
 Agreement with replay while turns stay open: requests come in while other turns run,
 and while the streams of completed turns are still being read.
 */
module LineageReplay {
  import opened Wrappers
  import opened Lineage
  import opened LineageOpen
  import T = LineageTheorems
  import L = LineageLimits

  // ------------------------------------------------------------------ the invariant

  /** What the thread of a running turn holds: the request's history and its input. */
  ghost predicate Running(t: Thread, turn: Turn) {
    var r := turn.request;
    && T.Plain(r) && t.items == Items(History(r)) + InputItems(r)
    && t.instructions == Instructions(r.messages) && turn.number !in t.marks
  }

  /** What the thread of a completed turn begins with: the request's history and its answer, where the turn ends. */
  ghost predicate Ran(t: Thread, stream: Stream) {
    var history := stream.turn.request.messages + [Assistant(stream.answer)];
    && T.Plain(stream.turn.request)
    && Items(history) <= t.items && t.instructions == Instructions(history)
    && T.MarkHolds(t, stream.turn.number, Items(history))
  }

  ghost predicate TurnsReplay(s: Open) {
    && (forall t :: t in s.turns ==> t in s.world.threads && Running(s.world.threads[t], s.turns[t]))
    && (forall n :: n in s.ended ==>
         s.ended[n].thread in s.world.threads && Ran(s.world.threads[s.ended[n].thread], s.ended[n]))
  }

  ghost predicate Inv(s: Open) {
    Fine(s) && T.Inv(s.world) && s.world.waiting == {} && TurnsReplay(s)
  }

  /** A thread that goes on: nothing is taken back. */
  ghost predicate Grows(t: Thread, t': Thread) {
    && t'.instructions == t.instructions && t.items <= t'.items
    && forall turn :: turn in t.marks && t.marks[turn] <= |t.items| ==>
         turn in t'.marks && t'.marks[turn] == t.marks[turn]
  }

  ghost predicate AllGrow(w: World, w': World) {
    forall id :: id in w.threads ==> id in w'.threads && Grows(w.threads[id], w'.threads[id])
  }

  lemma GrownMark(t: Thread, t': Thread, turn: nat, items: seq<Item>)
    requires Grows(t, t') && T.MarkHolds(t, turn, items)
    ensures T.MarkHolds(t', turn, items)
  {
    assert t'.items[..t.marks[turn]] == t.items[..t.marks[turn]];
  }

  lemma GrownTruth(w: World, w': World, c: Checkpoint)
    requires AllGrow(w, w') && w'.config == w.config && T.Truthful(w, c)
    ensures T.Truthful(w', c)
  {
    if c.turn.Some? {
      GrownMark(w.threads[c.thread], w'.threads[c.thread], c.turn.value, Items(c.historyHash.messages));
    }
  }

  /** Old entries stay true when threads only grow. */
  lemma GrownInv(w: World, w': World)
    requires T.Inv(w) && AllGrow(w, w') && w'.config == w.config && T.Numbered(w')
    requires forall k :: k in w'.cache ==> k in w.cache && w'.cache[k] == w.cache[k]
    ensures T.Inv(w')
  {
    forall k | k in w'.cache ensures T.Fits(k, w'.cache[k]) && T.Truthful(w', w'.cache[k]) {
      GrownTruth(w, w', w.cache[k]);
    }
  }

  lemma GrownRan(t: Thread, t': Thread, stream: Stream)
    requires Ran(t, stream) && Grows(t, t')
    ensures Ran(t', stream)
  {
    GrownMark(t, t', stream.turn.number, Items(stream.turn.request.messages + [Assistant(stream.answer)]));
  }

  lemma FineIsNumbered(s: Open)
    requires Fine(s)
    ensures T.Numbered(s.world)
  {
    forall id, turn | id in s.world.threads && turn in s.world.threads[id].marks ensures turn < s.world.nextTurn {
      assert Marked(s.world.threads[id], s.world.nextTurn);
    }
  }

  // ----------------------------------------------------------------------- the steps

  /** Requests that agree with replay so far, and no turn hands out calls. */
  predicate InScope(s: Open, e: Event) {
    match e
    case Began(r, o) => T.Plain(r) && T.Keeps(s.world, r, o)
    case Handed(_, _, _) => false
    case _ => true
  }

  predicate Faithful(config: Config, events: seq<Event>)
    decreases |events|
  {
    events == [] ||
    var before := events[..|events| - 1];
    Faithful(config, before) && InScope(Run(Initial(config), before), events[|events| - 1])
  }

  lemma OpeningReplays(w: World, thread: nat, r: Request)
    requires thread in w.threads && T.Plain(r) && T.Replays(w.threads[thread], r)
    requires T.Numbered(w)
    ensures AllGrow(w, Opened(w, thread, r))
    ensures forall named :: Running(Opened(w, thread, r).threads[thread], Turn(r, w.nextTurn, named))
  {
  }

  lemma BeginOnReplays(s: Open, w: World, chosen: Option<nat>, r: Request, o: Outcome)
    requires Inv(s) && T.Plain(r) && T.ThreadsKept(s.world, w) && Fine(BeginOn(s.(world := w), chosen, r, o))
    requires w.waiting == s.world.waiting
    requires chosen.Some? ==> chosen.value in w.threads && T.Replays(w.threads[chosen.value], r)
    ensures Inv(BeginOn(s.(world := w), chosen, r, o))
  {
    var s' := BeginOn(s.(world := w), chosen, r, o);
    T.KeptThreadsKeepInv(s.world, w);
    FineIsNumbered(s');
    if Runs(w, chosen, o) {
      OpeningReplays(w, chosen.value, r);
      GrownInv(w, s'.world);
      forall n | n in s'.ended ensures Ran(s'.world.threads[s'.ended[n].thread], s'.ended[n]) {
        GrownRan(w.threads[s.ended[n].thread], s'.world.threads[s.ended[n].thread], s.ended[n]);
      }
    }
  }

  lemma BeginReplays(s: Open, r: Request, o: Outcome)
    requires Inv(s) && T.Plain(r) && T.Keeps(s.world, r, o)
    ensures Inv(Begin(s, r, o))
  {
    BeginCases(s, r, o);
    BeginKeeps(s, r, o);
    if (UserTurn(r) || Continuation(r)) && !Resumes(s.world, r, Infer(s.world, r)) {
      T.ChosenReplaysExactlyIf(s.world, r, o);
      ChoosingStartsNothing(s.world, r, o);
      BeginOnReplays(s, Choose(s.world, r, o).0, Choose(s.world, r, o).1, r, o);
    }
  }

  lemma CompletedThread(t: Thread, turn: Turn, answer: string) returns (t': Thread)
    requires Running(t, turn)
    ensures t' == (var items := t.items + MessageItems(Assistant(answer));
                   t.(items := items, marks := t.marks[turn.number := |items|]))
    ensures Grows(t, t') && t'.items == Items(turn.request.messages + [Assistant(answer)])
    ensures forall thread :: Ran(t', Stream(thread, turn, answer))
  {
    var items := t.items + MessageItems(Assistant(answer));
    t' := t.(items := items, marks := t.marks[turn.number := |items|]);
    T.ExtendedItems(turn.request, answer);
    assert t'.items[..|items|] == items;
  }

  lemma EndedStayTrue(s: Open, w: World, n: nat)
    requires TurnsReplay(s) && AllGrow(s.world, w) && n in s.ended
    ensures s.ended[n].thread in w.threads && Ran(w.threads[s.ended[n].thread], s.ended[n])
  {
    GrownRan(s.world.threads[s.ended[n].thread], w.threads[s.ended[n].thread], s.ended[n]);
  }

  lemma CompletedGrows(s: Open, thread: nat, answer: string)
    requires TurnsReplay(s) && thread in s.turns && thread !in s.world.waiting
    ensures var s', turn := Complete(s, thread, answer), s.turns[thread];
            && AllGrow(s.world, s'.world)
            && Ran(s'.world.threads[thread], Stream(thread, turn, answer))
            && s'.ended == s.ended[turn.number := Stream(thread, turn, answer)] && s'.turns == s.turns - {thread}
            && forall id :: id in s.world.threads && id != thread ==> s'.world.threads[id] == s.world.threads[id]
  {
    var t' := CompletedThread(s.world.threads[thread], s.turns[thread], answer);
    assert Complete(s, thread, answer).world.threads == s.world.threads[thread := t'];
  }

  lemma CompletedReplays(s: Open, thread: nat, answer: string)
    requires TurnsReplay(s) && thread in s.turns && thread !in s.world.waiting
    ensures AllGrow(s.world, Complete(s, thread, answer).world) && TurnsReplay(Complete(s, thread, answer))
  {
    var s' := Complete(s, thread, answer);
    CompletedGrows(s, thread, answer);
    forall n | n in s'.ended
      ensures s'.ended[n].thread in s'.world.threads && Ran(s'.world.threads[s'.ended[n].thread], s'.ended[n])
    {
      if n != s.turns[thread].number {
        EndedStayTrue(s, s'.world, n);
      }
    }
  }

  lemma CompleteReplays(s: Open, thread: nat, answer: string)
    requires Inv(s)
    ensures Inv(Complete(s, thread, answer))
  {
    var s' := Complete(s, thread, answer);
    CompleteKeeps(s, thread, answer);
    if s' != s {
      FineIsNumbered(s');
      CompletedReplays(s, thread, answer);
      GrownInv(s.world, s'.world);
    }
  }

  /** A drained turn's checkpoint tells the truth, though its thread may have gone on. */
  lemma StreamIsTrue(s: Open, n: nat)
    requires Inv(s) && n in s.ended && s.ended[n].answer != ""
    ensures T.Truthful(s.world, Saved(s.world.config, s.ended[n].turn.request, Assistant(s.ended[n].answer),
                                      s.ended[n].thread, TurnOf(s.ended[n].turn)))
  {
  }

  lemma SavingStaysTrue(w: World, r: Request, answer: string, thread: nat, turn: Option<nat>)
    requires T.Inv(w) && (answer != "" ==> T.Truthful(w, Saved(w.config, r, Assistant(answer), thread, turn)))
    ensures T.Inv(Save(w, r, Assistant(answer), thread, turn))
  {
    var w', c := Save(w, r, Assistant(answer), thread, turn), Saved(w.config, r, Assistant(answer), thread, turn);
    forall k | k in w'.cache ensures T.Fits(k, w'.cache[k]) && T.Truthful(w', w'.cache[k]) {
      assert w'.cache[k] == c || (k in w.cache && w'.cache[k] == w.cache[k] && T.Truthful(w, w.cache[k]));
    }
  }

  lemma SameThreadsReplay(s: Open, s': Open)
    requires TurnsReplay(s) && s'.world.threads == s.world.threads && s'.turns == s.turns
    requires forall n :: n in s'.ended ==> n in s.ended && s'.ended[n] == s.ended[n]
    ensures TurnsReplay(s')
  {
  }

  lemma DrainReplays(s: Open, n: nat)
    requires Inv(s) && n in s.ended
    ensures T.Inv(Drain(s, n).world) && TurnsReplay(Drain(s, n)) && Drain(s, n).world.waiting == {}
  {
    var stream := s.ended[n];
    if stream.answer != "" {
      StreamIsTrue(s, n);
    }
    SavingStaysTrue(s.world, stream.turn.request, stream.answer, stream.thread, TurnOf(stream.turn));
    SameThreadsReplay(s, Drain(s, n));
  }

  lemma StepReplays(s: Open, e: Event)
    requires Inv(s) && InScope(s, e)
    ensures Inv(Step(s, e))
  {
    StepKeepsFine(s, e);
    match e
    case Began(r, o) => BeginReplays(s, r, o);
    case Completed(thread, answer) => CompleteReplays(s, thread, answer);
    case Drained(n) =>
      if n in s.ended {
        DrainReplays(s, n);
      }
    case _ =>
      FineIsNumbered(Step(s, e));
      GrownInv(s.world, Step(s, e).world);
  }

  lemma {:induction false} RunReplays(config: Config, events: seq<Event>)
    requires Faithful(config, events)
    ensures Inv(Run(Initial(config), events)) && Run(Initial(config), events).world.config == config
    decreases |events|
  {
    ConfigStays(config, events);
    if events != [] {
      RunReplays(config, events[..|events| - 1]);
      StepReplays(Run(Initial(config), events[..|events| - 1]), events[|events| - 1]);
    }
  }

  /**
   Over every run in which turns stay open and drain in any order, of requests that keep,
   with anything forgotten, broken or closed in between: the thread chosen for a plain
   request holds what replaying its history would build if and only if the request
   keeps, and no thread that existed is touched by choosing.
   */
  lemma OpenReplaysExactlyIf(config: Config, events: seq<Event>, r: Request, o: Outcome)
    requires Faithful(config, events) && T.Plain(r)
    ensures var w := Run(Initial(config), events).world;
            var (w', chosen) := Choose(w, r, o);
            && (chosen.Some? ==>
                  && chosen.value in w'.threads && chosen.value !in w.active
                  && (T.Replays(w'.threads[chosen.value], r) <==> T.Keeps(w, r, o)))
            && (forall id :: id in w.threads ==> id in w'.threads && w'.threads[id] == w.threads[id])
  {
    RunReplays(config, events);
    T.ChosenReplaysExactlyIf(Run(Initial(config), events).world, r, o);
    ChoosingAdds(Run(Initial(config), events).world, r, o);
  }

  /**
   In every such world all requests that no session decides replay, whatever the server
   answers, if and only if each lineage entry is on a busy thread, or has a head entry
   that tells of another turn, or is still its thread's whole transcript.
   */
  lemma OpenAgreesExactlyIf(config: Config, events: seq<Event>)
    requires Faithful(config, events)
    ensures var w := Run(Initial(config), events).world;
            L.Agrees(w) <==>
              forall k :: k in w.cache && k.LineageKey? ==>
                var c := w.cache[k];
                || c.thread in w.active
                || (HeadKey(c.thread) in w.cache && w.cache[HeadKey(c.thread)].historyHash != c.historyHash)
                || T.Whole(w, c)
  {
    RunReplays(config, events);
    L.AgreesWorld(Run(Initial(config), events).world);
  }
}

/**
 Where agreement with replay ends, and exactly where: heads that are forgotten,
 turns without an answer, and sessions.
 */
module LineageLimits {
  import opened Wrappers
  import opened Lineage
  import opened LineageTheorems

  /** Whatever the server answers, every request that no session decides gets a thread that replays its history. */
  ghost predicate Agrees(w: World) {
    forall r, o :: Resolvable(w, r) && Choose(w, r, o).1.Some? ==>
      var (w', chosen) := Choose(w, r, o);
      chosen.value in w'.threads && Replays(w'.threads[chosen.value], r)
  }

  const ALL_OK := Outcome(true, false, true, true, true, true, true, true, "hi", true)

  function User(text: string): Message {
    Message(USER, text, "", [])
  }

  /** A new message after a saved history. */
  function Branch(hash: Digest, text: string): Request {
    Request(hash.messages + [User(text)], hash.model, hash.cwd, hash.scope, "", "", hash.tools, None, true)
  }

  lemma BranchFinds(w: World, k: Key, text: string)
    requires Inv(w) && k in w.cache && k.LineageKey?
    ensures var r := Branch(k.hash, text);
            Resolvable(w, r) && AnsweredHistory(r) && !Continuation(r) && Infer(w, r) == Some(w.cache[k])
  {
    var r := Branch(k.hash, text);
    assert Fits(k, w.cache[k]) && Truthful(w, w.cache[k]);
    assert UserTurn(r);
    UserTurnParent(r);
    assert History(r) == k.hash.messages;
    assert AnsweredBefore(k.hash.messages) by {
      assert k.hash.messages[|k.hash.messages| - 1].role == ASSISTANT;
    }
    assert HistoryHash(w.config, r, k.hash.messages) == k.hash;
  }

  lemma AgreesWorld(w: World)
    requires Inv(w)
    ensures Agrees(w) <==> Settled(w)
  {
    if Settled(w) {
      forall r, o | Resolvable(w, r) && Choose(w, r, o).1.Some?
        ensures var (w', chosen) := Choose(w, r, o);
                chosen.value in w'.threads && Replays(w'.threads[chosen.value], r)
      {
        SettledKeeps(w, r, o);
        ChosenReplaysExactlyIf(w, r, o);
      }
    } else {
      var k :| k in w.cache && k.LineageKey? && !Moved(w, w.cache[k]) && !Whole(w, w.cache[k]);
      assert Truthful(w, w.cache[k]);
      var r := Branch(k.hash, "");
      BranchFinds(w, k, "");
      ChosenReplaysExactlyIf(w, r, ALL_OK);
      assert Choose(w, r, ALL_OK).1.Some?;
    }
  }

  /**
   In every world a faithful run reaches, each request that no session decides gets a
   thread that replays its history if and only if each lineage entry either has a head
   entry that tells of a later turn or belongs to a thread that has not grown since.
   */
  lemma AgreesExactlyIf(config: Config, events: seq<Event>)
    requires Faithful(Start(config), events)
    ensures Agrees(Run(Start(config), events)) <==> Settled(Run(Start(config), events))
  {
    RunKeepsInv(config, events);
    AgreesWorld(Run(Start(config), events));
  }

  /**
   Eviction and expiry are harmless exactly when each lineage entry whose head goes and
   that stays is still its whole thread.
   */
  lemma ForgettingKeepsAgreementExactlyIf(config: Config, events: seq<Event>, keys: set<Key>)
    requires Faithful(Start(config), events) && Agrees(Run(Start(config), events))
    ensures var w := Run(Start(config), events);
            Agrees(Forget(w, keys)) <==>
              forall k :: k in w.cache && k.LineageKey? && k !in keys && HeadKey(w.cache[k].thread) in keys ==>
                Whole(w, w.cache[k])
  {
    RunKeepsInv(config, events);
    var w := Run(Start(config), events);
    AgreesWorld(w);
    StepKeepsInv(w, Forgotten(keys));
    AgreesWorld(Forget(w, keys));
    ForgettingSettles(w, keys);
  }

  // ------------------------------------------------------------------ a lost head

  function Ask(messages: seq<Message>): Request {
    Request(messages, "", "", "", "", "", [], None, true)
  }

  const FIRST := Ask([User("hello")])
  const SECOND := Ask([User("hello"), Assistant("hi"), User("more")])
  const OTHER := Ask([User("hello"), Assistant("hi"), User("other")])
  const OPENING := [] + [Served(FIRST, ALL_OK)]
  const TALK := OPENING + [Served(SECOND, ALL_OK)]

  const FIRST_ANSWERED := [User("hello"), Assistant("hi")]

  /** The entry the first turn saved. */
  function FirstKey(config: Config): Key {
    LineageKey(HistoryHash(config, FIRST, FIRST_ANSWERED))
  }

  /** A lineage entry for the first turn, on thread 0, which is the whole thread. */
  lemma FirstTurn(config: Config)
    requires config.caching
    ensures Plain(FIRST) && Infer(Start(config), FIRST).None?
    ensures var w := Serve(Start(config), FIRST, ALL_OK);
            var hash := HistoryHash(config, FIRST, FIRST_ANSWERED);
            var c := Checkpoint(0, Some(0), hash);
            && w.config == config && w.loaded == {0} && w.active == {} && w.threads.Keys == {0}
            && w.cache == map[LineageKey(hash) := c, HeadKey(0) := c]
  {
    assert History(FIRST) == [];
    assert !AnsweredBefore([]);
    assert FIRST.messages + [Assistant("hi")] == FIRST_ANSWERED;
  }

  lemma FollowsFirst(w: World, config: Config, r: Request)
    requires config.caching && w.config == config && (r == SECOND || r == OTHER)
    requires FirstKey(config) in w.cache
    ensures Plain(r) && AnsweredHistory(r)
    ensures Infer(w, r) == Some(w.cache[FirstKey(config)])
  {
    UserTurnParent(r);
    assert History(r) == FIRST_ANSWERED;
    assert FIRST_ANSWERED[1].role == ASSISTANT;
  }

  lemma OpeningRun(config: Config)
    requires config.caching
    ensures AllOrdinary(Start(config), OPENING)
    ensures Run(Start(config), OPENING) == Serve(Start(config), FIRST, ALL_OK)
  {
    FirstTurn(config);
    RunSnoc(Start(config), [], Served(FIRST, ALL_OK));
    OrdinarySnoc(Start(config), [], Served(FIRST, ALL_OK));
  }

  lemma TalkRun(config: Config)
    requires config.caching
    ensures AllOrdinary(Start(config), TALK)
    ensures Run(Start(config), TALK) == Serve(Run(Start(config), OPENING), SECOND, ALL_OK)
  {
    OpeningRun(config);
    FirstTurn(config);
    var w := Run(Start(config), OPENING);
    FollowsFirst(w, config, SECOND);
    RunSnoc(Start(config), OPENING, Served(SECOND, ALL_OK));
    OrdinarySnoc(Start(config), OPENING, Served(SECOND, ALL_OK));
  }

  /** A checkpoint whose thread is loaded and idle is continued while no head tells otherwise. */
  lemma Continued(w: World, r: Request, o: Outcome)
    requires Plain(r) && !Continuation(r) && Infer(w, r).Some? && !Moved(w, Infer(w, r).value) && o.toolsOk
    requires Infer(w, r).value.thread in w.loaded
    ensures Choose(w, r, o) == (w, Some(Infer(w, r).value.thread))
  {
    assert w.loaded + {Infer(w, r).value.thread} == w.loaded;
  }

  /** After another turn the thread is longer than the entry says; the entry stays. */
  lemma GrownTurn(w: World, k: Key, r: Request, o: Outcome)
    requires Inv(w) && w.active == {} && Plain(r) && k in w.cache && k.LineageKey? && Whole(w, w.cache[k])
    requires o.answer != "" && o.turnOk && w.config.caching && r.messages + [Assistant(o.answer)] != k.hash.messages
    ensures var w' := Finish(w, Some(w.cache[k].thread), r, o);
            && w'.config == w.config && w'.loaded == w.loaded && w'.active == w.active
            && w.cache[k].thread in w'.threads && k in w'.cache && w'.cache[k] == w.cache[k]
            && !Whole(w', w.cache[k])
  {
    Recorded(w, r, o.answer, w.cache[k].thread);
    assert |MessageItems(Assistant(o.answer))| == 1;
  }

  /** The second turn continues thread 0; the first turn's entry stays, and the head tells of the second. */
  lemma SecondTurn(config: Config)
    requires config.caching
    ensures var w := Run(Start(config), TALK);
            var k := FirstKey(config);
            && w.config == config && w.loaded == {0} && w.active == {} && 0 in w.threads
            && k in w.cache && w.cache[k].thread == 0 && !Whole(w, w.cache[k])
  {
    OpeningRun(config);
    TalkRun(config);
    FirstTurn(config);
    OrdinaryRuns(config, OPENING);
    var w := Run(Start(config), OPENING);
    FollowsFirst(w, config, SECOND);
    Continued(w, SECOND, ALL_OK);
    assert Moved(w, w.cache[FirstKey(config)]) || Whole(w, w.cache[FirstKey(config)]);
    assert |SECOND.messages + [Assistant("hi")]| != |FIRST_ANSWERED|;
    GrownTurn(w, FirstKey(config), SECOND, ALL_OK);
  }

  /** An entry whose thread has gone on is continued once the head is gone. */
  lemma LostHead(before: World, config: Config)
    requires Inv(before) && config.caching && before.config == config && before.loaded == {0} && before.active == {}
    requires 0 in before.threads && FirstKey(config) in before.cache
    requires before.cache[FirstKey(config)].thread == 0 && !Whole(before, before.cache[FirstKey(config)])
    ensures var w := Forget(before, {HeadKey(0)});
            && Resolvable(w, OTHER)
            && Choose(w, OTHER, ALL_OK) == (w, Some(0))
            && 0 in w.threads && !Replays(w.threads[0], OTHER)
  {
    var w := Forget(before, {HeadKey(0)});
    StepKeepsInv(before, Forgotten({HeadKey(0)}));
    FollowsFirst(w, config, OTHER);
    Continued(w, OTHER, ALL_OK);
    NotWhole(w, OTHER);
  }

  /**
   Were a head lost while an older entry of its thread is still found, the thread would
   be continued though it has gone on: a run of two turns, the loss, and a third request.
   */
  lemma LostHeadContinuesAdvancedThread(config: Config)
    requires config.caching
    ensures AllOrdinary(Start(config), TALK)
    ensures var w := Forget(Run(Start(config), TALK), {HeadKey(0)});
            && Resolvable(w, OTHER)
            && Choose(w, OTHER, ALL_OK) == (w, Some(0))
            && 0 in w.threads && !Replays(w.threads[0], OTHER)
  {
    TalkRun(config);
    OrdinaryRuns(config, TALK);
    SecondTurn(config);
    LostHead(Run(Start(config), TALK), config);
  }

  lemma NotWhole(w: World, r: Request)
    requires Inv(w) && Plain(r) && !Continuation(r) && AnsweredHistory(r) && Infer(w, r).Some?
    requires !Whole(w, Infer(w, r).value)
    ensures Infer(w, r).value.thread in w.threads && !Replays(w.threads[Infer(w, r).value.thread], r)
  {
    FoundByHistory(w, r);
  }

  // --------------------------------------------------------- a turn without an answer

  /** A turn with input and without an answer runs on a checkpoint's own thread. */
  predicate GrowsUnsaved(w: World, r: Request, o: Outcome) {
    && !Continuation(r) && Infer(w, r).Some?
    && !Moved(w, Infer(w, r).value) && CanReuse(w, Infer(w, r).value.thread, o)
    && o.toolsOk && o.turnOk
    && InputItems(r) != []
  }

  /** Recording without saving leaves agreement alone unless the thread is a checkpoint's own and grows. */
  lemma UnsavedKeepsSettled(w: World, r: Request, thread: nat)
    requires Settled(w) && thread in w.threads
    requires InputItems(r) == [] || forall k :: k in w.cache ==> w.cache[k].thread != thread
    ensures Settled(Record(w, r, "", thread))
  {
    var w' := Record(w, r, "", thread);
    Recorded(w, r, "", thread);
    assert MessageItems(Assistant("")) == [];
    forall k | k in w'.cache && k.LineageKey? ensures Moved(w', w'.cache[k]) || Whole(w', w'.cache[k]) {
      assert Moved(w, w.cache[k]) || Whole(w, w.cache[k]);
    }
  }

  lemma GrownIsNotSettled(w: World, k: Key, r: Request)
    requires k in w.cache && k.LineageKey? && !Moved(w, w.cache[k]) && Whole(w, w.cache[k]) && InputItems(r) != []
    ensures !Settled(Record(w, r, "", w.cache[k].thread))
  {
    var w' := Record(w, r, "", w.cache[k].thread);
    Recorded(w, r, "", w.cache[k].thread);
    assert k in w'.cache && !Moved(w', w'.cache[k]) && !Whole(w', w'.cache[k]);
  }

  lemma UnansweredServe(w: World, r: Request, o: Outcome)
    requires Inv(w) && w.active == {} && Plain(r) && o.answer == ""
    ensures var (w1, chosen) := Choose(w, r, o);
            ThreadsKept(w, w1) && Serve(w, r, o) ==
              if chosen.Some? && chosen.value in w1.threads && o.turnOk then Record(w1, r, "", chosen.value) else w1
  {
    ChosenReplaysExactlyIf(w, r, o);
  }

  lemma GrowingChoice(w: World, r: Request, o: Outcome)
    requires Inv(w) && Resolvable(w, r) && GrowsUnsaved(w, r, o)
    ensures var t := Infer(w, r).value.thread;
            Choose(w, r, o) == (w.(loaded := w.loaded + {t}), Some(t)) && t in w.threads
  {
    FoundByHistory(w, r);
  }

  lemma OtherChoice(w: World, r: Request, o: Outcome)
    requires Inv(w) && Resolvable(w, r) && !GrowsUnsaved(w, r, o) && o.turnOk && Choose(w, r, o).1.Some?
    ensures InputItems(r) == [] || forall k :: k in w.cache ==> w.cache[k].thread != Choose(w, r, o).1.value
  {
    ChosenReplaysExactlyIf(w, r, o);
    if Choose(w, r, o).1.value !in w.threads {
      forall k | k in w.cache ensures w.cache[k].thread != Choose(w, r, o).1.value {
        assert Truthful(w, w.cache[k]);
      }
    }
  }

  lemma UnansweredTurn(w: World, r: Request, o: Outcome)
    requires Inv(w) && w.active == {} && Settled(w) && Resolvable(w, r) && o.answer == ""
    ensures Settled(Serve(w, r, o)) <==> !GrowsUnsaved(w, r, o)
  {
    UnansweredServe(w, r, o);
    var (w1, chosen) := Choose(w, r, o);
    KeptThreadsKeepSettled(w, w1);
    if GrowsUnsaved(w, r, o) {
      GrowingChoice(w, r, o);
      UserTurnParent(r);
      var k := InferKey(w.config, r).value;
      assert Moved(w, w.cache[k]) || Whole(w, w.cache[k]);
      GrownIsNotSettled(w1, k, r);
    } else if chosen.Some? && chosen.value in w1.threads && o.turnOk {
      OtherChoice(w, r, o);
      UnsavedKeepsSettled(w1, r, chosen.value);
    }
  }

  /** What was just recorded without a checkpoint is not seen by the same request sent again. */
  lemma SentAgain(w: World, r: Request, o: Outcome, again: Outcome)
    requires Inv(w) && w.active == {} && Settled(w) && Resolvable(w, r) && o.answer == ""
    requires GrowsUnsaved(w, r, o) && again.toolsOk
    ensures var (w', chosen) := Choose(Serve(w, r, o), r, again);
            && chosen == Some(Infer(w, r).value.thread)
            && chosen.value in w'.threads && !Replays(w'.threads[chosen.value], r)
  {
    SettledKeeps(w, r, o);
    StepKeepsInv(w, Served(r, o));
    UnansweredServe(w, r, o);
    GrowingChoice(w, r, o);
    var k := InferKey(w.config, r).value;
    assert Moved(w, w.cache[k]) || Whole(w, w.cache[k]);
    Recorded(Choose(w, r, o).0, r, "", w.cache[k].thread);
    var w' := Serve(w, r, o);
    Continued(w', r, again);
    NotWhole(w', r);
  }

  /**
   A completed turn without answer text is recorded by the server but not checkpointed.
   Agreement survives it if and only if it did not add input to a checkpoint's own
   thread; when it did, the same request sent again is put on that thread, which no
   longer replays its history.
   */
  lemma EmptyAnswerKeepsAgreementExactlyIf(config: Config, events: seq<Event>, r: Request, o: Outcome, again: Outcome)
    requires Faithful(Start(config), events) && Agrees(Run(Start(config), events))
    requires Resolvable(Run(Start(config), events), r) && o.answer == "" && again.toolsOk
    ensures var w := Run(Start(config), events);
            && (Agrees(Serve(w, r, o)) <==> !GrowsUnsaved(w, r, o))
            && (GrowsUnsaved(w, r, o) ==>
                  var (w', chosen) := Choose(Serve(w, r, o), r, again);
                  && chosen == Some(Infer(w, r).value.thread)
                  && chosen.value in w'.threads && !Replays(w'.threads[chosen.value], r))
  {
    RunKeepsInv(config, events);
    var w := Run(Start(config), events);
    AgreesWorld(w);
    SettledKeeps(w, r, o);
    StepKeepsInv(w, Served(r, o));
    AgreesWorld(Serve(w, r, o));
    UnansweredTurn(w, r, o);
    if GrowsUnsaved(w, r, o) {
      SentAgain(w, r, o, again);
    }
  }

  // --------------------------------------------------------------------- sessions

  /**
   What a session remembers cannot be used: its thread went on and cannot be forked, or
   the server no longer has it.
   */
  predicate SessionFails(w: World, r: Request, o: Outcome) {
    Infer(w, r).None? ||
    var c := Infer(w, r).value;
    if Moved(w, c) then !o.forkOk || !CanFork(w, c) else !CanReuse(w, c.thread, o)
  }

  /**
   A new turn whose history nobody answered is looked up by its session. In every world
   a faithful run reaches, the thread it gets replays its history if and only if the
   session gave no usable thread; and then it is rebuilt.
   */
  lemma SessionReplaysExactlyIf(config: Config, events: seq<Event>, r: Request, o: Outcome)
    requires Faithful(Start(config), events) && Plain(r) && UserTurn(r) && !AnsweredHistory(r)
    ensures var w := Run(Start(config), events);
            var (w', chosen) := Choose(w, r, o);
            && (chosen.Some? ==>
                  && chosen.value in w'.threads
                  && (Replays(w'.threads[chosen.value], r) <==> SessionFails(w, r, o)))
            && (o.toolsOk && SessionFails(w, r, o) ==> (w', chosen) == Rebuild(w, r, o))
  {
    RunKeepsInv(config, events);
    ChosenReplaysExactlyIf(Run(Start(config), events), r, o);
  }

  const GREETING := Request([User("hello")], "", "", "s", "", "", [], None, true)

  const GREETED := [Served(GREETING, ALL_OK)]

  /** Such a world is reached: the second greeting of a session continues the first. */
  lemma SessionReuseIgnoresHistory(config: Config)
    requires config.caching
    ensures Plain(GREETING) && UserTurn(GREETING) && !AnsweredHistory(GREETING)
    ensures Faithful(Start(config), GREETED)
    ensures var w := Run(Start(config), GREETED);
            var (w', chosen) := Choose(w, GREETING, ALL_OK);
            chosen == Some(0) && 0 in w'.threads && !Replays(w'.threads[0], GREETING)
  {
    UserTurnParent(GREETING);
    assert History(GREETING) == [];
    assert !AnsweredBefore([]);
    RunSnoc(Start(config), [], Served(GREETING, ALL_OK));
    assert [] + GREETED == GREETED;
    SessionReplaysExactlyIf(config, GREETED, GREETING, ALL_OK);
    var w := Run(Start(config), GREETED);
    assert SessionKey("s") in w.cache && w.cache[SessionKey("s")].thread == 0;
  }
}

/**
 Thread choice against replaying the whole history on a fresh thread, over every
 sequential run of completed turns, while threads are closed by the server and
 cache entries are forgotten in between.
 */
module LineageTheorems {
  import opened Wrappers
  import opened Lineage

  /** A request that names no conversation and whose input is plain text, or supplies tool results. */
  predicate Plain(r: Request) {
    && r.conversation.None?
    && (Continuation(r) || (UserTurn(r) && r.messages[|r.messages| - 1].calls == []))
  }

  /** Looked up by its own history, not by its session. */
  predicate AnsweredHistory(r: Request) {
    Parent(r.messages).Some? && AnsweredBefore(Parent(r.messages).value)
  }

  /** The checkpoint's thread has not grown since the checkpoint was saved. */
  predicate Whole(w: World, c: Checkpoint) {
    c.thread in w.threads && |w.threads[c.thread].items| == |Items(c.historyHash.messages)|
  }

  predicate Moved(w: World, c: Checkpoint) {
    Advanced(w, c, Load(w, HeadKey(c.thread)))
  }

  /**
   What keeps a plain request in agreement with replay: nothing is found, or what is
   found cannot be used so that the thread is rebuilt, or it was found by history and
   is forked, or is continued as it was saved.
   */
  predicate Keeps(w: World, r: Request, o: Outcome) {
    Continuation(r) || Infer(w, r).None? ||
    var c := Infer(w, r).value;
    if Moved(w, c) then o.forkOk && CanFork(w, c) ==> AnsweredHistory(r)
    else CanReuse(w, c.thread, o) ==> AnsweredHistory(r) && Whole(w, c)
  }

  datatype Event = Served(request: Request, outcome: Outcome) | ThreadClosed(thread: nat) | Forgotten(keys: set<Key>)

  function Forget(w: World, keys: set<Key>): World {
    w.(cache := w.cache - keys)
  }

  function Step(w: World, e: Event): World {
    match e
    case Served(r, o) => Serve(w, r, o)
    case ThreadClosed(thread) => w.(loaded := w.loaded - {thread})
    case Forgotten(keys) => Forget(w, keys)
  }

  function Run(w: World, events: seq<Event>): World {
    if events == [] then w else Step(Run(w, events[..|events| - 1]), events[|events| - 1])
  }

  function Start(config: Config): World {
    World(config, map[], 0, 0, map[], {}, {}, {})
  }

  predicate InScope(w: World, e: Event) {
    e.Served? ==> Plain(e.request) && Keeps(w, e.request, e.outcome)
  }

  /** Every request so far was plain and in agreement with replay; anything may be forgotten at any time. */
  predicate Faithful(w: World, events: seq<Event>) {
    events == [] ||
    var before := events[..|events| - 1];
    Faithful(w, before) && InScope(Run(w, before), events[|events| - 1])
  }

  lemma RunSnoc(w: World, events: seq<Event>, e: Event)
    ensures Run(w, events + [e]) == Step(Run(w, events), e)
    ensures Faithful(w, events + [e]) <==> Faithful(w, events) && InScope(Run(w, events), e)
  {
    assert (events + [e])[..|events|] == events;
  }

  // ---------------------------------------------------------------- invariant

  /** A digest saved by this provider: of a history that ends in an answer with text. */
  predicate Made(config: Config, hash: Digest) {
    && (hash.model == "" ==> config.model == "")
    && (hash.cwd == "" ==> config.cwd == "")
    && hash.messages != []
    && hash.messages[|hash.messages| - 1].role == ASSISTANT
    && hash.messages[|hash.messages| - 1].content != ""
  }

  ghost predicate MarkHolds(t: Thread, turn: nat, items: seq<Item>) {
    && turn in t.marks
    && t.marks[turn] <= |t.items|
    && t.items[..t.marks[turn]] == items
  }

  /** A checkpoint tells the truth about its turn for ever: the thread begins with the history it was saved under. */
  ghost predicate Truthful(w: World, c: Checkpoint) {
    && c.thread in w.threads
    && Made(w.config, c.historyHash)
    && w.threads[c.thread].instructions == Instructions(c.historyHash.messages)
    && Items(c.historyHash.messages) <= w.threads[c.thread].items
    && (c.turn.Some? ==> MarkHolds(w.threads[c.thread], c.turn.value, Items(c.historyHash.messages)))
  }

  predicate Fits(k: Key, c: Checkpoint) {
    && (k.LineageKey? ==> c.historyHash == k.hash)
    && (k.HeadKey? ==> c.thread == k.thread)
  }

  ghost predicate Numbered(w: World) {
    && (forall id :: id in w.threads ==> id < w.nextThread)
    && (forall id, turn :: id in w.threads && turn in w.threads[id].marks ==> turn < w.nextTurn)
  }

  ghost predicate Inv(w: World) {
    && Numbered(w)
    && (w.config.caching || w.cache == map[])
    && forall k :: k in w.cache ==> Fits(k, w.cache[k]) && Truthful(w, w.cache[k])
  }

  /** Old threads are untouched; at most new ones appear. */
  ghost predicate ThreadsKept(w: World, w': World) {
    && w'.config == w.config && w'.cache == w.cache && w'.active == w.active && w'.nextTurn == w.nextTurn
    && w.nextThread <= w'.nextThread
    && (forall id :: id in w.threads ==> id in w'.threads && w'.threads[id] == w.threads[id])
    && (forall id :: id in w'.threads && id !in w.threads ==> w.nextThread <= id < w'.nextThread)
    && (forall id, turn :: id in w'.threads && turn in w'.threads[id].marks ==> turn < w.nextTurn)
  }

  lemma KeptThreadsKeepInv(w: World, w': World)
    requires Inv(w) && ThreadsKept(w, w')
    ensures Inv(w')
  {
    forall k | k in w'.cache ensures Fits(k, w'.cache[k]) && Truthful(w', w'.cache[k]) {
      assert Truthful(w, w.cache[k]);
    }
  }

  // ------------------------------------------------------------ histories and items

  /** What replaying a request's whole history on a fresh thread gives before the turn. */
  ghost predicate Replays(t: Thread, r: Request) {
    t.items == Items(History(r)) && t.instructions == Instructions(r.messages)
  }

  lemma OneMessage(m: Message)
    ensures Items([m]) == MessageItems(m)
    ensures Instructions([m]) == InstructionsOf(m)
  {
    assert [m][1..] == [];
    assert InstructionsOf(m) + [] == InstructionsOf(m);
  }

  lemma UserTurnParent(r: Request)
    requires UserTurn(r)
    ensures History(r) == r.messages[..|r.messages| - 1] && Parent(r.messages) == Some(History(r))
    ensures Instructions(History(r)) == Instructions(r.messages)
    ensures r.messages == History(r) + [r.messages[|r.messages| - 1]]
  {
    var last := r.messages[|r.messages| - 1];
    assert r.messages == History(r) + [last];
    InstructionsAppend(History(r), [last]);
    OneMessage(last);
    assert Instructions(History(r)) + [] == Instructions(History(r));
  }

  predicate AnswerItem(item: Item) {
    item.TextItem? && item.role == ASSISTANT
  }

  lemma {:induction false} UnansweredHasNoAnswer(messages: seq<Message>)
    requires !AnsweredBefore(messages)
    ensures forall i :: 0 <= i < |Items(messages)| ==> !AnswerItem(Items(messages)[i])
  {
    if messages != [] {
      var rest := messages[1..];
      assert messages[0].role != ASSISTANT && messages[0].role != TOOL;
      assert forall i :: 0 <= i < |rest| ==> rest[i] == messages[i + 1];
      UnansweredHasNoAnswer(rest);
    }
  }

  lemma MadeHasAnswer(config: Config, hash: Digest) returns (i: nat)
    requires Made(config, hash)
    ensures i < |Items(hash.messages)| && AnswerItem(Items(hash.messages)[i])
  {
    var init, last := hash.messages[..|hash.messages| - 1], hash.messages[|hash.messages| - 1];
    assert hash.messages == init + [last];
    ItemsAppend(init, [last]);
    OneMessage(last);
    i := |Items(init)|;
    assert Items(hash.messages)[i] == MessageItems(last)[0];
  }

  /** A history nobody answered is not what a saved thread begins with. */
  lemma SavedIsNotUnanswered(config: Config, hash: Digest, items: seq<Item>, messages: seq<Message>)
    requires Made(config, hash) && Items(hash.messages) <= items && !AnsweredBefore(messages)
    ensures items != Items(messages)
  {
    UnansweredHasNoAnswer(messages);
    var i := MadeHasAnswer(config, hash);
    assert AnswerItem(items[i]);
  }

  // ----------------------------------------------------------------- the choice

  lemma RebuildReplays(w: World, r: Request, o: Outcome)
    requires Numbered(w)
    ensures ThreadsKept(w, Rebuild(w, r, o).0)
    ensures Rebuild(w, r, o).1.Some? ==>
              var (w', chosen) := Rebuild(w, r, o);
              chosen.value in w'.threads && chosen.value !in w.threads && Replays(w'.threads[chosen.value], r)
  {
  }

  /** A checkpoint found by history is saved under exactly that history. */
  lemma FoundByHistory(w: World, r: Request)
    requires Inv(w) && Plain(r) && !Continuation(r) && Infer(w, r).Some?
    ensures Truthful(w, Infer(w, r).value)
    ensures AnsweredHistory(r) ==> Infer(w, r).value.historyHash.messages == History(r)
    ensures !AnsweredHistory(r) ==> !AnsweredBefore(History(r))
    ensures Instructions(History(r)) == Instructions(r.messages)
  {
    UserTurnParent(r);
    var k := InferKey(w.config, r).value;
    assert Fits(k, w.cache[k]) && Truthful(w, w.cache[k]);
  }

  /**
   A thread that begins as the found checkpoint says replays the history only if it was
   found by history and ends there.
   */
  lemma ContinuedReplaysIf(w: World, r: Request, t: Thread)
    requires Inv(w) && Plain(r) && !Continuation(r) && Infer(w, r).Some?
    requires var hash := Infer(w, r).value.historyHash;
             t.instructions == Instructions(hash.messages) && Items(hash.messages) <= t.items
    ensures Replays(t, r) <==>
              AnsweredHistory(r) && |t.items| == |Items(Infer(w, r).value.historyHash.messages)|
  {
    FoundByHistory(w, r);
    var hash := Infer(w, r).value.historyHash;
    if !AnsweredHistory(r) {
      SavedIsNotUnanswered(w.config, hash, t.items, History(r));
    }
  }

  lemma ForkKept(w: World, c: Checkpoint)
    requires Numbered(w) && CanFork(w, c)
    ensures ThreadsKept(w, AddThread(w, Forked(w.threads[c.thread], c.turn.value)))
  {
    var t := Forked(w.threads[c.thread], c.turn.value);
    assert forall turn :: turn in t.marks ==> turn in w.threads[c.thread].marks;
  }

  /** What is promised of a chosen thread. */
  ghost predicate ChosenWell(w: World, r: Request, o: Outcome, w': World, chosen: Option<nat>) {
    && ThreadsKept(w, w')
    && (chosen.Some? ==>
          && chosen.value in w'.threads
          && (Replays(w'.threads[chosen.value], r) <==> Keeps(w, r, o))
          && (chosen.value in w.threads ==>
                Infer(w, r).Some? && Infer(w, r).value.thread == chosen.value && !Moved(w, Infer(w, r).value)))
  }

  lemma ForkedChoice(w: World, r: Request, o: Outcome)
    requires Inv(w) && Plain(r) && !Continuation(r) && Infer(w, r).Some?
    requires Moved(w, Infer(w, r).value) && o.forkOk && CanFork(w, Infer(w, r).value) && o.toolsOk
    ensures ChosenWell(w, r, o, Choose(w, r, o).0, Choose(w, r, o).1)
  {
    var c := Infer(w, r).value;
    FoundByHistory(w, r);
    ForkKept(w, c);
    var t := Forked(w.threads[c.thread], c.turn.value);
    ContinuedReplaysIf(w, r, t);
  }

  lemma ReusedChoice(w: World, r: Request, o: Outcome)
    requires Inv(w) && Plain(r) && !Continuation(r) && Infer(w, r).Some?
    requires !Moved(w, Infer(w, r).value) && CanReuse(w, Infer(w, r).value.thread, o) && o.toolsOk
    ensures ChosenWell(w, r, o, Choose(w, r, o).0, Choose(w, r, o).1)
  {
    var c := Infer(w, r).value;
    FoundByHistory(w, r);
    ContinuedReplaysIf(w, r, w.threads[c.thread]);
  }

  /**
   A chosen thread holds what replaying the history would build if and only if the
   request keeps; every thread that existed is untouched, and the only old thread
   that can be chosen is the checkpoint's own, whose head has not moved.
   */
  lemma ChosenReplaysExactlyIf(w: World, r: Request, o: Outcome)
    requires Inv(w) && Plain(r)
    ensures ChosenWell(w, r, o, Choose(w, r, o).0, Choose(w, r, o).1)
  {
    RebuildReplays(w, r, o);
    if !Continuation(r) && Infer(w, r).Some? {
      var c := Infer(w, r).value;
      if Moved(w, c) && o.forkOk && CanFork(w, c) {
        if o.toolsOk {
          ForkedChoice(w, r, o);
        } else {
          ForkKept(w, c);
        }
      } else if !Moved(w, c) && CanReuse(w, c.thread, o) && o.toolsOk {
        ReusedChoice(w, r, o);
      }
    }
  }

  // ------------------------------------------------------------------- the turn

  lemma ExtendedItems(r: Request, answer: string)
    requires Plain(r)
    ensures Items(r.messages + [Assistant(answer)]) == Items(History(r)) + InputItems(r)
            + MessageItems(Assistant(answer))
    ensures Instructions(r.messages + [Assistant(answer)]) == Instructions(r.messages)
  {
    ItemsAppend(r.messages, [Assistant(answer)]);
    InstructionsAppend(r.messages, [Assistant(answer)]);
    OneMessage(Assistant(answer));
    assert Instructions(r.messages) + [] == Instructions(r.messages);
    if Continuation(r) {
      assert Items(r.messages) + [] == Items(r.messages);
    } else {
      var last := r.messages[|r.messages| - 1];
      UserTurnParent(r);
      ItemsAppend(History(r), [last]);
      OneMessage(last);
      assert CallItems(last.calls) == [];
      assert MessageItems(last) == InputItems(r);
    }
  }

  lemma SameTail<T>(a: seq<T>, b: seq<T>, tail: seq<T>)
    ensures a + tail == b + tail <==> a == b
  {
    assert |a + tail| == |a| + |tail| && |b + tail| == |b| + |tail|;
    assert (a + tail)[..|a|] == a && (b + tail)[..|b|] == b;
  }

  lemma Recorded(w: World, r: Request, answer: string, thread: nat)
    requires thread in w.threads
    ensures var t := Record(w, r, answer, thread).threads[thread];
            && t.instructions == w.threads[thread].instructions
            && t.items == w.threads[thread].items + (InputItems(r) + MessageItems(Assistant(answer)))
            && MarkHolds(t, w.nextTurn, t.items)
  {
  }

  /** After the turn, the thread is a replay of the extended history exactly if it was one of the history. */
  lemma RecordReplays(w: World, r: Request, answer: string, thread: nat)
    requires Plain(r) && thread in w.threads
    ensures var t := Record(w, r, answer, thread).threads[thread];
            && t.instructions == w.threads[thread].instructions
            && (t.items == Items(r.messages + [Assistant(answer)]) <==> w.threads[thread].items == Items(History(r)))
            && MarkHolds(t, w.nextTurn, t.items)
            && Instructions(r.messages + [Assistant(answer)]) == Instructions(r.messages)
  {
    ExtendedItems(r, answer);
    Recorded(w, r, answer, thread);
    var tail := InputItems(r) + MessageItems(Assistant(answer));
    assert Items(r.messages + [Assistant(answer)]) == Items(History(r)) + tail;
    SameTail(w.threads[thread].items, Items(History(r)), tail);
  }

  lemma RecordKeepsTruthful(w: World, r: Request, answer: string, thread: nat, c: Checkpoint)
    requires Numbered(w) && thread in w.threads && Truthful(w, c)
    ensures Truthful(Record(w, r, answer, thread), c)
  {
    Recorded(w, r, answer, thread);
    var t, t' := w.threads[c.thread], Record(w, r, answer, thread).threads[c.thread];
    if c.thread == thread {
      assert t'.items[..|t.items|] == t.items;
      if c.turn.Some? {
        assert t'.marks[c.turn.value] == t.marks[c.turn.value];
        assert t'.items[..t.marks[c.turn.value]] == t.items[..t.marks[c.turn.value]];
      }
    }
  }

  lemma RecordKeepsInv(w: World, r: Request, answer: string, thread: nat)
    requires Inv(w) && thread in w.threads
    ensures Inv(Record(w, r, answer, thread))
  {
    var w' := Record(w, r, answer, thread);
    forall k | k in w'.cache ensures Fits(k, w'.cache[k]) && Truthful(w', w'.cache[k]) {
      RecordKeepsTruthful(w, r, answer, thread, w.cache[k]);
    }
  }

  /** Saving a non-empty answer over a thread that replays its history keeps every checkpoint truthful. */
  lemma SaveKeepsInv(w: World, r: Request, answer: string, thread: nat, turn: Option<nat>)
    requires Inv(w) && thread in w.threads && answer != ""
    requires w.threads[thread].items == Items(r.messages + [Assistant(answer)])
    requires w.threads[thread].instructions == Instructions(r.messages + [Assistant(answer)])
    requires turn.Some? ==> MarkHolds(w.threads[thread], turn.value, w.threads[thread].items)
    ensures Inv(Save(w, r, Assistant(answer), thread, turn))
  {
    var w' := Save(w, r, Assistant(answer), thread, turn);
    var c := Saved(w.config, r, Assistant(answer), thread, turn);
    assert Truthful(w, c);
    forall k | k in w'.cache ensures Fits(k, w'.cache[k]) && Truthful(w', w'.cache[k]) {
      assert w'.cache[k] == c || (k in w.cache && w'.cache[k] == w.cache[k] && Truthful(w, w.cache[k]));
    }
  }

  lemma FinishKeepsInv(w: World, chosen: Option<nat>, r: Request, o: Outcome)
    requires Inv(w) && Plain(r)
    requires chosen.Some? ==> chosen.value in w.threads && Replays(w.threads[chosen.value], r)
    ensures Inv(Finish(w, chosen, r, o))
  {
    if chosen.Some? && o.turnOk {
      RecordKeepsInv(w, r, o.answer, chosen.value);
      RecordReplays(w, r, o.answer, chosen.value);
      var turn := if o.named then Some(w.nextTurn) else None;
      if o.answer != "" {
        SaveKeepsInv(Record(w, r, o.answer, chosen.value), r, o.answer, chosen.value, turn);
      }
    }
  }

  lemma FinishKeepsRest(w: World, chosen: Option<nat>, r: Request, o: Outcome)
    ensures var w' := Finish(w, chosen, r, o);
            && w'.config == w.config && w'.active == w.active
            && (forall id :: id in w.threads && chosen != Some(id) ==>
               id in w'.threads && w'.threads[id] == w.threads[id])
  {
  }

  lemma StepKeepsInv(w: World, e: Event)
    requires Inv(w) && InScope(w, e)
    ensures Inv(Step(w, e)) && Step(w, e).config == w.config && Step(w, e).active == w.active
  {
    match e
    case Served(r, o) =>
      ChosenReplaysExactlyIf(w, r, o);
      var (w', chosen) := Choose(w, r, o);
      KeptThreadsKeepInv(w, w');
      FinishKeepsInv(w', chosen, r, o);
      FinishKeepsRest(w', chosen, r, o);
    case ThreadClosed(_) => KeptThreadsKeepInv(w, Step(w, e));
    case Forgotten(_) =>
      forall k | k in Step(w, e).cache ensures Fits(k, w.cache[k]) && Truthful(Step(w, e), w.cache[k]) {
        assert Truthful(w, w.cache[k]);
      }
  }

  /** Over every faithful run each checkpoint tells the truth about its turn, whatever is forgotten and whenever. */
  lemma {:induction false} RunKeepsInv(config: Config, events: seq<Event>)
    requires Faithful(Start(config), events)
    ensures var w := Run(Start(config), events);
            Inv(w) && w.config == config && w.active == {}
  {
    if events != [] {
      var before, last := events[..|events| - 1], events[|events| - 1];
      RunKeepsInv(config, before);
      StepKeepsInv(Run(Start(config), before), last);
    }
  }

  // ------------------------------------------------------------ the refinement

  /**
   Over every faithful run, with entries forgotten in any order: the thread chosen
   for a plain request agrees with replaying its history if and only if the request
   keeps; no thread that existed is touched by choosing.
   */
  lemma ReplaysExactlyIf(config: Config, events: seq<Event>, r: Request, o: Outcome)
    requires Faithful(Start(config), events) && Plain(r)
    ensures var w := Run(Start(config), events);
            var (w', chosen) := Choose(w, r, o);
            && (chosen.Some? ==>
                  && chosen.value in w'.threads
                  && (Replays(w'.threads[chosen.value], r) <==> Keeps(w, r, o)))
            && (forall id :: id in w.threads ==> id in w'.threads && w'.threads[id] == w.threads[id])
            && (chosen.Some? && Infer(w, r).Some? && Moved(w, Infer(w, r).value) ==> chosen.value !in w.threads)
  {
    RunKeepsInv(config, events);
    ChosenReplaysExactlyIf(Run(Start(config), events), r, o);
  }

  /** What a turn promises of the threads it leaves. */
  ghost predicate ServedWell(w: World, r: Request, o: Outcome, chosen: Option<nat>, w': World) {
    && (forall id :: id in w.threads && chosen != Some(id) ==> id in w'.threads && w'.threads[id] == w.threads[id])
    && (chosen.Some? && o.turnOk ==>
          && chosen.value in w'.threads
          && var t, history := w'.threads[chosen.value], r.messages + [Assistant(o.answer)];
             (t.items == Items(history) && t.instructions == Instructions(history) <==> Keeps(w, r, o)))
  }

  lemma FinishReplays(w: World, chosen: nat, r: Request, o: Outcome)
    requires w.active == {} && Plain(r) && chosen in w.threads && o.turnOk
    ensures var w' := Finish(w, Some(chosen), r, o);
            && chosen in w'.threads
            && var t, history := w'.threads[chosen], r.messages + [Assistant(o.answer)];
               (t.items == Items(history) && t.instructions == Instructions(history) <==> Replays(w.threads[chosen], r))
  {
    RecordReplays(w, r, o.answer, chosen);
  }

  /**
   The turn carries agreement on: the thread replays the extended history exactly if the
   request keeps, and no other thread changes.
   */
  lemma ServedTurnReplaysExactlyIf(config: Config, events: seq<Event>, r: Request, o: Outcome)
    requires Faithful(Start(config), events) && Plain(r)
    ensures var w := Run(Start(config), events);
            ServedWell(w, r, o, Choose(w, r, o).1, Serve(w, r, o))
  {
    RunKeepsInv(config, events);
    var w := Run(Start(config), events);
    ChosenReplaysExactlyIf(w, r, o);
    var (w1, chosen) := Choose(w, r, o);
    FinishKeepsRest(w1, chosen, r, o);
    if chosen.Some? && o.turnOk {
      FinishReplays(w1, chosen.value, r, o);
    }
  }

  // --------------------------------------------- requests that no session decides

  /** A plain request for which no session entry is found: by history, or without any entry, or with tool results. */
  predicate Resolvable(w: World, r: Request) {
    Plain(r) && (Continuation(r) || AnsweredHistory(r) || Infer(w, r).None?)
  }

  /** Each lineage entry is known to be behind its thread, or its thread is still as it was saved. */
  ghost predicate Settled(w: World) {
    forall k :: k in w.cache && k.LineageKey? ==> Moved(w, w.cache[k]) || Whole(w, w.cache[k])
  }

  lemma SettledKeeps(w: World, r: Request, o: Outcome)
    requires Settled(w) && Resolvable(w, r)
    ensures Keeps(w, r, o)
  {
  }

  /** Forgetting a head only when the lineage entries of its thread that stay are still the whole thread. */
  ghost predicate Orderly(w: World, keys: set<Key>) {
    forall k :: k in w.cache && k.LineageKey? && k !in keys && HeadKey(w.cache[k].thread) in keys ==>
      Whole(w, w.cache[k])
  }

  /** A request no session decides and that is answered with text; heads go in order. */
  ghost predicate Ordinary(w: World, e: Event) {
    match e
    case Served(r, o) => Resolvable(w, r) && o.answer != ""
    case ThreadClosed(_) => true
    case Forgotten(keys) => Orderly(w, keys)
  }

  ghost predicate AllOrdinary(w: World, events: seq<Event>) {
    events == [] ||
    var before := events[..|events| - 1];
    AllOrdinary(w, before) && Ordinary(Run(w, before), events[|events| - 1])
  }

  lemma OrdinarySnoc(w: World, events: seq<Event>, e: Event)
    ensures AllOrdinary(w, events + [e]) <==> AllOrdinary(w, events) && Ordinary(Run(w, events), e)
  {
    assert (events + [e])[..|events|] == events;
  }

  lemma KeptThreadsKeepSettled(w: World, w': World)
    requires Inv(w) && Settled(w) && ThreadsKept(w, w')
    ensures Settled(w')
  {
    forall k | k in w'.cache && k.LineageKey? ensures Moved(w', w'.cache[k]) || Whole(w', w'.cache[k]) {
      assert Truthful(w, w.cache[k]);
      assert Moved(w, w.cache[k]) ==> Moved(w', w'.cache[k]);
    }
  }

  /** The new checkpoint is the whole thread, and its head entry tells of every older one. */
  lemma SaveKeepsSettled(w: World, r: Request, answer: string, thread: nat, turn: Option<nat>)
    requires Inv(w) && Settled(w) && Plain(r) && thread in w.threads && answer != "" && w.config.caching
    requires Replays(w.threads[thread], r)
    ensures Settled(Save(Record(w, r, answer, thread), r, Assistant(answer), thread, turn))
  {
    var w1 := Record(w, r, answer, thread);
    var w' := Save(w1, r, Assistant(answer), thread, turn);
    var c := Saved(w.config, r, Assistant(answer), thread, turn);
    RecordReplays(w, r, answer, thread);
    forall k | k in w'.cache && k.LineageKey? ensures Moved(w', w'.cache[k]) || Whole(w', w'.cache[k]) {
      if k != LineageKey(c.historyHash) {
        assert w'.cache[k] == w.cache[k] && Fits(k, w.cache[k]) && Truthful(w, w.cache[k]);
        assert Moved(w, w.cache[k]) || Whole(w, w.cache[k]);
        if w.cache[k].thread == thread {
          assert w'.cache[HeadKey(thread)] == c;
        } else {
          assert Moved(w, w.cache[k]) ==> Moved(w', w.cache[k]);
        }
      }
    }
  }

  lemma StepSettles(w: World, e: Event)
    requires Inv(w) && Settled(w) && Ordinary(w, e) && w.active == {}
    ensures InScope(w, e) && Settled(Step(w, e))
  {
    match e
    case Served(r, o) =>
      SettledKeeps(w, r, o);
      ChosenReplaysExactlyIf(w, r, o);
      var (w', chosen) := Choose(w, r, o);
      KeptThreadsKeepInv(w, w');
      KeptThreadsKeepSettled(w, w');
      if chosen.Some? && o.turnOk && w.config.caching {
        SaveKeepsSettled(w', r, o.answer, chosen.value, if o.named then Some(w'.nextTurn) else None);
      }
    case ThreadClosed(_) => KeptThreadsKeepSettled(w, Step(w, e));
    case Forgotten(keys) => ForgettingSettles(w, keys);
  }

  lemma ForgettingSettles(w: World, keys: set<Key>)
    requires Inv(w) && Settled(w) && w.active == {}
    ensures Settled(Forget(w, keys)) <==> Orderly(w, keys)
  {
    var w' := Forget(w, keys);
    if Settled(w') {
      forall k | k in w.cache && k.LineageKey? && k !in keys && HeadKey(w.cache[k].thread) in keys
        ensures Whole(w, w.cache[k])
      {
        assert k in w'.cache;
      }
    }
    if Orderly(w, keys) {
      forall k | k in w'.cache && k.LineageKey? ensures Moved(w', w'.cache[k]) || Whole(w', w'.cache[k]) {
        assert k in w.cache && k !in keys;
      }
    }
  }

  lemma {:induction false} OrdinaryRuns(config: Config, events: seq<Event>)
    requires AllOrdinary(Start(config), events)
    ensures Faithful(Start(config), events)
    ensures var w := Run(Start(config), events);
            Inv(w) && w.config == config && w.active == {} && Settled(w)
  {
    if events != [] {
      var before, last := events[..|events| - 1], events[|events| - 1];
      OrdinaryRuns(config, before);
      StepSettles(Run(Start(config), before), last);
      StepKeepsInv(Run(Start(config), before), last);
    }
  }

  /**
   Over every run of requests that no session decides, answered with text, with
   entries forgotten in order: the thread a request gets holds exactly what replaying
   its history would build, existing threads are untouched, and an advanced thread is
   never the one chosen.
   */
  lemma LineageRefinesReplay(config: Config, events: seq<Event>, r: Request, o: Outcome)
    requires AllOrdinary(Start(config), events)
    requires Resolvable(Run(Start(config), events), r)
    ensures var w := Run(Start(config), events);
            var (w', chosen) := Choose(w, r, o);
            && (chosen.Some? ==> chosen.value in w'.threads && Replays(w'.threads[chosen.value], r))
            && (forall id :: id in w.threads ==> id in w'.threads && w'.threads[id] == w.threads[id])
            && (chosen.Some? && Infer(w, r).Some? && Moved(w, Infer(w, r).value) ==> chosen.value !in w.threads)
  {
    OrdinaryRuns(config, events);
    SettledKeeps(Run(Start(config), events), r, o);
    ReplaysExactlyIf(config, events, r, o);
  }
}

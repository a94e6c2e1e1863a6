/**
 Requests whose turns stay open (providers/codex/provider.go and
 conversation_registry.go): a turn begins on the thread chosen for it, may hand its
 calls to the caller and wait, completes at the server, and is saved when the caller
 has read its stream to the end. Other requests come in between in any order.
 */
module LineageOpen {
  import opened Wrappers
  import opened Lineage
  import opened LineageRequests

  /** A turn that runs, for the request whose answer it streams; `named` as for a saved turn. */
  datatype Turn = Turn(request: Request, number: nat, named: bool)

  /** A completed turn whose stream has not been read to its end. */
  datatype Stream = Stream(thread: nat, turn: Turn, answer: string)

  /** Turns by thread, and completed ones by number. */
  datatype Open = Open(world: World, turns: map<nat, Turn>, ended: map<nat, Stream>)

  datatype Event =
    | Began(request: Request, outcome: Outcome)
    | Handed(thread: nat, content: string, calls: seq<Call>)
    | Completed(thread: nat, answer: string)
    | Drained(turn: nat)
    | Broke(thread: nat)
    | Closed(thread: nat)
    | Lost(keys: set<Key>)

  function Initial(config: Config): Open {
    Open(World(config, map[], 0, 0, map[], {}, {}, {}), map[], map[])
  }

  /** The server takes the turn's input, and the thread is busy. */
  function Opened(w: World, thread: nat, r: Request): World
    requires thread in w.threads
  {
    var t := w.threads[thread];
    w.(threads := w.threads[thread := t.(items := t.items + InputItems(r))], active := w.active + {thread},
      nextTurn := w.nextTurn + 1)
  }

  function BeginOn(s: Open, chosen: Option<nat>, r: Request, o: Outcome): Open {
    if !Runs(s.world, chosen, o) then s
    else
      Open(Opened(s.world, chosen.value, r),
           s.turns[chosen.value := Turn(r, s.world.nextTurn, o.named)], s.ended)
  }

  /** A waiting turn that took the results streams its answer to the request that brought them. */
  function GoOn(s: Open, thread: nat, r: Request, o: Outcome): Open {
    var turns := if o.taken && thread in s.turns then s.turns[thread := s.turns[thread].(request := r)] else s.turns;
    s.(world := Resumed(s.world, thread, o), turns := turns)
  }

  function Begin(s: Open, r: Request, o: Outcome): Open {
    var found := Infer(s.world, r);
    if !UserTurn(r) && !Continuation(r) then s
    else if Resumes(s.world, r, found) then GoOn(s, ContinuedThread(r, found).value, r, o)
    else
      var (w, chosen) := Choose(s.world, r, o);
      BeginOn(s.(world := w), chosen, r, o)
  }

  function TurnOf(turn: Turn): Option<nat> {
    if turn.named then Some(turn.number) else None
  }

  /** The stream of a turn that hands out calls ends there and is saved with them. */
  function Hand(s: Open, thread: nat, content: string, calls: seq<Call>): Open {
    if thread !in s.turns || thread in s.world.waiting || calls == [] then s
    else
      var turn := s.turns[thread];
      s.(world := Save(s.world.(waiting := s.world.waiting + {thread}), turn.request,
                       Message(ASSISTANT, content, "", calls), thread, TurnOf(turn)))
  }

  /** The server records the answer and where the turn ends; the thread is idle again. */
  function Complete(s: Open, thread: nat, answer: string): Open {
    if thread !in s.turns || thread in s.world.waiting || thread !in s.world.threads then s
    else
      var w, turn, t := s.world, s.turns[thread], s.world.threads[thread];
      var items := t.items + MessageItems(Assistant(answer));
      Open(w.(threads := w.threads[thread := t.(items := items, marks := t.marks[turn.number := |items|])],
              active := w.active - {thread}),
           s.turns - {thread}, s.ended[turn.number := Stream(thread, turn, answer)])
  }

  function Drain(s: Open, number: nat): Open {
    if number !in s.ended then s
    else
      var stream := s.ended[number];
      Open(Save(s.world, stream.turn.request, Assistant(stream.answer), stream.thread, TurnOf(stream.turn)),
           s.turns, s.ended - {number})
  }

  /** A turn fails, or the caller gives its stream up: nothing is saved. */
  function Break(s: Open, thread: nat): Open {
    Open(s.world.(active := s.world.active - {thread}, waiting := s.world.waiting - {thread}),
         s.turns - {thread}, s.ended)
  }

  function Step(s: Open, e: Event): Open {
    match e
    case Began(r, o) => Begin(s, r, o)
    case Handed(thread, content, calls) => Hand(s, thread, content, calls)
    case Completed(thread, answer) => Complete(s, thread, answer)
    case Drained(number) => Drain(s, number)
    case Broke(thread) => Break(s, thread)
    case Closed(thread) =>
      var s' := Break(s, thread);
      s'.(world := s'.world.(loaded := s'.world.loaded - {thread}))
    case Lost(keys) => s.(world := s.world.(cache := s.world.cache - keys))
  }

  function Run(s: Open, events: seq<Event>): Open
    decreases |events|
  {
    if events == [] then s else Step(Run(s, events[..|events| - 1]), events[|events| - 1])
  }

  lemma RunSnoc(s: Open, events: seq<Event>, e: Event)
    ensures Run(s, events + [e]) == Step(Run(s, events), e)
  {
    assert (events + [e])[..|events|] == events;
  }

  // ------------------------------------------------------- one request after the other

  /**
   A request whose turn completes and is drained at once is a request of the sequential
   model, whatever other turns are open.
   */
  lemma ServeIsBeginCompleteDrain(s: Open, r: Request, o: Outcome)
    requires s.world.waiting <= s.world.active
    ensures var w, number := Serve(s.world, r, o), s.world.nextTurn;
            var (w', chosen) := Choose(s.world, r, o);
            var starts := (UserTurn(r) || Continuation(r)) && !Resumes(s.world, r, Infer(s.world, r))
                          && Runs(w', chosen, o);
            if starts then Drain(Complete(Begin(s, r, o), chosen.value, o.answer), number).world == w
            else Begin(s, r, o).world == w
  {
    var (w', chosen) := Choose(s.world, r, o);
    ChoosingStartsNothing(s.world, r, o);
    if (UserTurn(r) || Continuation(r)) && !Resumes(s.world, r, Infer(s.world, r)) && Runs(w', chosen, o) {
      RecordedInSteps(s, w', chosen.value, r, o);
    }
  }

  ghost predicate StartsNothing(w: World, w': World) {
    && w'.active == w.active && w'.waiting == w.waiting && w'.nextTurn == w.nextTurn
    && w'.cache == w.cache && w'.config == w.config
  }

  lemma PreparingStartsNothing(w: World, resolved: Option<nat>, r: Request, o: Outcome)
    ensures StartsNothing(w, Prepare(w, resolved, r, o).0)
  {
  }

  lemma ChoosingStartsNothing(w: World, r: Request, o: Outcome)
    ensures StartsNothing(w, Choose(w, r, o).0)
  {
    PreparingStartsNothing(w, None, r, o);
    var found := Infer(w, r);
    if found.Some? {
      var (w', resolved) := Resolve(w, found.value, Head(w, found), o);
      PreparingStartsNothing(w', resolved, r, o);
    }
  }

  lemma RecordedInSteps(s: Open, w: World, thread: nat, r: Request, o: Outcome)
    requires thread in w.threads && thread !in w.active && w.waiting <= w.active && o.turnOk
    ensures Complete(BeginOn(s.(world := w), Some(thread), r, o), thread, o.answer).world
         == Record(w, r, o.answer, thread)
    ensures Drain(Complete(BeginOn(s.(world := w), Some(thread), r, o), thread, o.answer), w.nextTurn).world
         == Finish(w, Some(thread), r, o)
  {
    var begun := BeginOn(s.(world := w), Some(thread), r, o);
    assert begun.world.active - {thread} == w.active;
    var t := w.threads[thread];
    assert t.items + InputItems(r) + MessageItems(Assistant(o.answer))
        == (t.items + InputItems(r)) + MessageItems(Assistant(o.answer));
    assert w.threads[thread := begun.world.threads[thread]]
                    [thread := Record(w, r, o.answer, thread).threads[thread]]
        == w.threads[thread := Record(w, r, o.answer, thread).threads[thread]];
  }

  // ------------------------------------------------------------------ the invariant

  ghost predicate Marked(t: Thread, next: nat) {
    forall turn :: turn in t.marks ==> turn < next && t.marks[turn] <= |t.items|
  }

  ghost predicate ThreadsFine(w: World) {
    && (forall id :: id in w.threads ==> id < w.nextThread && Marked(w.threads[id], w.nextTurn))
    && w.active <= w.threads.Keys && w.waiting <= w.active && w.loaded <= w.threads.Keys
  }

  ghost predicate TurnsFine(s: Open) {
    && s.turns.Keys == s.world.active
    && (forall id :: id in s.turns ==> s.turns[id].number < s.world.nextTurn && s.turns[id].number !in s.ended)
    && (forall id, id' :: id in s.turns && id' in s.turns && s.turns[id].number == s.turns[id'].number ==> id == id')
    && (forall n :: n in s.ended ==> n < s.world.nextTurn && s.ended[n].turn.number == n
                                     && s.ended[n].thread in s.world.threads)
  }

  ghost predicate Fine(s: Open) {
    ThreadsFine(s.world) && TurnsFine(s)
  }

  /** Old threads are as they were, at most the next one is new, and nothing else but what is loaded changes. */
  ghost predicate Added(w: World, w': World) {
    && w'.cache == w.cache && w'.config == w.config && w'.nextTurn == w.nextTurn
    && w'.active == w.active && w'.waiting == w.waiting && w.nextThread <= w'.nextThread
    && w'.loaded <= w'.threads.Keys
    && (forall id :: id in w.threads ==> id in w'.threads && w'.threads[id] == w.threads[id])
    && (forall id :: id in w'.threads ==> id in w.threads || id == w.nextThread < w'.nextThread)
    && (w.nextThread in w'.threads && w.nextThread !in w.threads ==>
         Marked(w'.threads[w.nextThread], w.nextTurn))
  }

  lemma AddedStaysFine(w: World, w': World)
    requires ThreadsFine(w) && Added(w, w')
    ensures ThreadsFine(w')
  {
  }

  lemma RebuildingAdds(w: World, r: Request, o: Outcome)
    requires ThreadsFine(w)
    ensures Added(w, Rebuild(w, r, o).0)
    ensures Rebuild(w, r, o).1.Some? ==> Rebuild(w, r, o).1.value == w.nextThread
  {
  }

  lemma ResolvingAdds(w: World, c: Checkpoint, head: Option<Checkpoint>, o: Outcome)
    requires ThreadsFine(w)
    ensures var (w', resolved) := Resolve(w, c, head, o);
            && Added(w, w')
            && (resolved.None? ==> w' == w)
            && (resolved.Some? && w' == w ==> resolved.value !in w.active)
            && (resolved.Some? && w' != w ==> resolved.value == w.nextThread && w.nextThread in w'.loaded)
  {
  }

  /** Choosing adds at most one thread and never settles on a busy one, unless the request names it. */
  lemma ChoosingAdds(w: World, r: Request, o: Outcome)
    requires ThreadsFine(w)
    ensures Added(w, Choose(w, r, o).0)
    ensures r.conversation.None? && Choose(w, r, o).1.Some? ==> Choose(w, r, o).1.value !in w.active
  {
    RebuildingAdds(w, r, o);
    var found := Infer(w, r);
    if !Continuation(r) && r.conversation.None? && found.Some? {
      var (w', resolved) := Resolve(w, found.value, Head(w, found), o);
      ResolvingAdds(w, found.value, Head(w, found), o);
      PreparingAdds(w, w', resolved, r, o);
    }
  }

  lemma PreparingAdds(w: World, w': World, resolved: Option<nat>, r: Request, o: Outcome)
    requires ThreadsFine(w) && Added(w, w') && (resolved.None? ==> w' == w)
    requires resolved.Some? && w' != w ==> resolved.value in w'.loaded
    requires resolved.Some? && w' == w ==> resolved.value !in w.active
    requires resolved.Some? && w' != w ==> resolved.value == w.nextThread
    ensures Added(w, Prepare(w', resolved, r, o).0)
    ensures var (w2, chosen) := Prepare(w', resolved, r, o);
            chosen.Some? ==> chosen.value !in w.active
  {
    RebuildingAdds(w, r, o);
  }

  lemma OpeningKeeps(w: World, thread: nat, r: Request)
    requires ThreadsFine(w) && thread in w.threads
    ensures ThreadsFine(Opened(w, thread, r))
  {
    assert Marked(w.threads[thread], w.nextTurn);
    assert Marked(Opened(w, thread, r).threads[thread], w.nextTurn + 1);
  }

  lemma BeginOnKeeps(s: Open, w: World, chosen: Option<nat>, r: Request, o: Outcome)
    requires Fine(s) && Added(s.world, w)
    ensures Fine(BeginOn(s.(world := w), chosen, r, o))
  {
    AddedStaysFine(s.world, w);
    if Runs(w, chosen, o) {
      OpeningKeeps(w, chosen.value, r);
    }
  }

  lemma GoOnKeeps(s: Open, thread: nat, r: Request, o: Outcome)
    requires Fine(s) && thread in s.world.active
    ensures Fine(GoOn(s, thread, r, o))
  {
  }

  /** A request is refused, or goes to a waiting turn, or begins one of its own. */
  lemma BeginCases(s: Open, r: Request, o: Outcome)
    ensures var found := Infer(s.world, r);
            || (Begin(s, r, o) == s && !UserTurn(r) && !Continuation(r))
            || (&& Resumes(s.world, r, found)
                && Begin(s, r, o) == GoOn(s, ContinuedThread(r, found).value, r, o))
            || (&& (UserTurn(r) || Continuation(r)) && !Resumes(s.world, r, found)
                && Begin(s, r, o) == BeginOn(s.(world := Choose(s.world, r, o).0), Choose(s.world, r, o).1, r, o))
  {
  }

  lemma BeginKeeps(s: Open, r: Request, o: Outcome)
    requires Fine(s)
    ensures Fine(Begin(s, r, o))
  {
    BeginCases(s, r, o);
    var found := Infer(s.world, r);
    if Resumes(s.world, r, found) {
      GoOnKeeps(s, ContinuedThread(r, found).value, r, o);
    } else {
      ChoosingAdds(s.world, r, o);
      BeginOnKeeps(s, Choose(s.world, r, o).0, Choose(s.world, r, o).1, r, o);
    }
  }

  lemma CompleteKeeps(s: Open, thread: nat, answer: string)
    requires Fine(s)
    ensures Fine(Complete(s, thread, answer))
  {
    var s' := Complete(s, thread, answer);
    if s' != s {
      var t := s'.world.threads[thread];
      assert Marked(s.world.threads[thread], s.world.nextTurn);
      assert Marked(t, s.world.nextTurn);
    }
  }

  lemma StepKeepsFine(s: Open, e: Event)
    requires Fine(s)
    ensures Fine(Step(s, e))
  {
    match e
    case Began(r, o) => BeginKeeps(s, r, o);
    case Completed(thread, answer) => CompleteKeeps(s, thread, answer);
    case _ =>
  }

  lemma {:induction false} RunKeepsFine(config: Config, events: seq<Event>)
    ensures Fine(Run(Initial(config), events))
    decreases |events|
  {
    if events != [] {
      RunKeepsFine(config, events[..|events| - 1]);
      StepKeepsFine(Run(Initial(config), events[..|events| - 1]), events[|events| - 1]);
    }
  }

  // ------------------------------------------------------------------- busy threads

  /** A request that can start a turn, with every call of the server answered well. */
  predicate AllWell(r: Request, o: Outcome) {
    && r.messages != [] && r.messages[|r.messages| - 1].role == "user"
    && o.toolsOk && o.resumeOk && o.startOk && o.injectOk && o.turnOk
  }

  /**
   Over every run, with turns open, waiting and undrained in any number: a request
   changes neither the transcript of a busy thread nor the turn that runs on it; it can
   only take over the stream of a turn that waits for the results it brings. A turn it
   starts is its own, on a thread that was idle.
   */
  lemma BusyThreadKeepsItsTurn(config: Config, events: seq<Event>, r: Request, o: Outcome, thread: nat)
    requires thread in Run(Initial(config), events).turns
    ensures var s, s' := Run(Initial(config), events), Run(Initial(config), events + [Began(r, o)]);
            && thread in s'.turns && s'.turns[thread].number == s.turns[thread].number
            && thread in s.world.threads && thread in s'.world.threads
            && s'.world.threads[thread] == s.world.threads[thread]
            && (s'.turns[thread] != s.turns[thread] ==>
                 thread in s.world.waiting && GivesResults(r) && o.taken
                 && s'.turns[thread] == s.turns[thread].(request := r))
            && (forall other :: other in s'.turns && other !in s.turns ==>
                 other !in s.world.active && s'.turns[other] == Turn(r, s.world.nextTurn, o.named))
  {
    var s := Run(Initial(config), events);
    RunSnoc(Initial(config), events, Began(r, o));
    RunKeepsFine(config, events);
    BeginCases(s, r, o);
    ChoosingAdds(s.world, r, o);
    ResultsAreContinuation(r);
  }

  lemma WellChosen(w: World, r: Request, o: Outcome)
    requires ThreadsFine(w) && AllWell(r, o) && r.conversation.None?
    ensures var (w', chosen) := Choose(w, r, o);
            chosen.Some? && Runs(w', chosen, o) && chosen.value !in w.active
  {
    ChoosingAdds(w, r, o);
    if Infer(w, r).Some? {
      ResolvingAdds(w, Infer(w, r).value, Head(w, Infer(w, r)), o);
    }
  }

  /**
   Over every run: a new turn that names no conversation always gets a thread, and one
   that is not busy, if the server answers; one that names a busy thread is turned away
   and nothing changes.
   */
  lemma NewTurnsNeverMeet(config: Config, events: seq<Event>, r: Request, o: Outcome)
    requires AllWell(r, o)
    ensures var s, s' := Run(Initial(config), events), Run(Initial(config), events + [Began(r, o)]);
            && (r.conversation.None? ==>
                 exists thread :: thread in s'.turns && thread !in s.world.active
                                  && s'.turns == s.turns[thread := Turn(r, s.world.nextTurn, o.named)])
            && (r.conversation.Some? && r.conversation.value in s.world.active ==>
                 s'.turns == s.turns && s'.ended == s.ended && s'.world.threads == s.world.threads
                 && s'.world.cache == s.world.cache && s'.world.active == s.world.active
                 && s'.world.nextThread == s.world.nextThread)
  {
    var s := Run(Initial(config), events);
    RunSnoc(Initial(config), events, Began(r, o));
    RunKeepsFine(config, events);
    if r.conversation.None? {
      WellChosen(s.world, r, o);
      var thread := Choose(s.world, r, o).1.value;
      assert Step(s, Began(r, o)).turns == s.turns[thread := Turn(r, s.world.nextTurn, o.named)];
    }
  }

  /** A new user turn whose answered history is cached for a busy thread. */
  predicate BranchesOff(w: World, r: Request, parent: seq<Message>, text: string, c: Checkpoint) {
    && r.messages == parent + [Message("user", text, "", [])] && Answered(parent)
    && r.conversation.None? && w.config.caching
    && KeyOf(w.config, r, parent) in w.cache && w.cache[KeyOf(w.config, r, parent)] == c
    && c.thread in w.active
  }

  /** The server has recorded where the checkpoint's turn ended. */
  predicate Recorded(w: World, c: Checkpoint) {
    && c.turn.Some? && c.thread in w.threads && c.turn.value in w.threads[c.thread].marks
    && w.threads[c.thread].marks[c.turn.value] <= |w.threads[c.thread].items|
  }

  lemma BranchFound(w: World, r: Request, parent: seq<Message>, text: string, c: Checkpoint)
    requires BranchesOff(w, r, parent, text, c)
    ensures UserTurn(r) && !Continuation(r) && Infer(w, r) == Some(c) && History(r) == parent
    ensures InputItems(r) == if text == "" then [] else [TextItem("user", text)]
  {
    var last := Message("user", text, "", []);
    assert r.messages[|r.messages| - 1] == last;
    assert r.messages[..|parent|] == parent;
    assert WithoutTrailingTools(r.messages) == |r.messages|;
    SameAnswered(parent);
    assert Scope(r) == SessionOf(r);
  }

  /** What the branch is put on. */
  function Branched(w: World, r: Request, o: Outcome, parent: seq<Message>, c: Checkpoint): Thread {
    if o.forkOk && Recorded(w, c) then
      var t := w.threads[c.thread];
      Thread(t.instructions, t.items[..t.marks[c.turn.value]],
             map u | u in t.marks && t.marks[u] <= t.marks[c.turn.value] :: t.marks[u])
    else Thread(Instructions(r.messages), Items(parent), map[])
  }

  lemma BranchChosen(w: World, r: Request, o: Outcome, parent: seq<Message>, text: string, c: Checkpoint)
    requires ThreadsFine(w) && BranchesOff(w, r, parent, text, c) && AllWell(r, o)
    ensures Choose(w, r, o).1 == Some(w.nextThread)
    ensures Choose(w, r, o).0.threads == w.threads[w.nextThread := Branched(w, r, o, parent, c)]
  {
    BranchFound(w, r, parent, text, c);
    assert Marked(w.threads[c.thread], w.nextTurn);
  }

  /**
   Over every run: a new turn that branches off a checkpoint whose thread is busy runs on
   a thread of its own: a copy of the busy one up to the end of the checkpoint's turn, if
   the server forks it and has recorded that end, and else one rebuilt from the whole
   history. No other thread changes.
   */
  lemma BusyCheckpointIsForkedOrRebuilt(config: Config, events: seq<Event>, r: Request, o: Outcome,
      parent: seq<Message>, text: string, c: Checkpoint)
    requires AllWell(r, o) && BranchesOff(Run(Initial(config), events).world, r, parent, text, c)
    ensures var w, s' := Run(Initial(config), events).world, Run(Initial(config), events + [Began(r, o)]);
            var input := if text == "" then [] else [TextItem("user", text)];
            var built := if o.forkOk && Recorded(w, c)
              then w.threads[c.thread].items[..w.threads[c.thread].marks[c.turn.value]] else Items(parent);
            && c.thread in w.threads
            && (c.turn.Some? && c.turn.value in w.threads[c.thread].marks ==> Recorded(w, c))
            && w.nextThread in s'.turns && w.nextThread !in w.threads
            && s'.world.threads.Keys == w.threads.Keys + {w.nextThread}
            && (forall id :: id in w.threads ==> s'.world.threads[id] == w.threads[id])
            && s'.world.threads[w.nextThread].items == built + input
  {
    var s := Run(Initial(config), events);
    RunSnoc(Initial(config), events, Began(r, o));
    RunKeepsFine(config, events);
    assert Marked(s.world.threads[c.thread], s.world.nextTurn);
    BranchFound(s.world, r, parent, text, c);
    BranchChosen(s.world, r, o, parent, text, c);
    WellChosen(s.world, r, o);
    BeginCases(s, r, o);
  }

  lemma StepKeepsConfig(s: Open, e: Event)
    ensures Step(s, e).world.config == s.world.config
  {
    if e.Began? {
      BeginCases(s, e.request, e.outcome);
      ChoosingStartsNothing(s.world, e.request, e.outcome);
    }
  }

  /** The configuration is fixed. */
  lemma {:induction false} ConfigStays(config: Config, events: seq<Event>)
    ensures Run(Initial(config), events).world.config == config
    decreases |events|
  {
    if events != [] {
      ConfigStays(config, events[..|events| - 1]);
      StepKeepsConfig(Run(Initial(config), events[..|events| - 1]), events[|events| - 1]);
    }
  }

  // ---------------------------------------------------------------- waiting turns

  /** The caller's next request: the history of the turn, the calls it handed out, and their results. */
  predicate AnswersCalls(config: Config, turn: Turn, content: string, calls: seq<Call>, r: Request,
      results: seq<Message>) {
    && r.messages == turn.request.messages + [Message("assistant", content, "", calls)] + results
    && results != [] && (forall i :: 0 <= i < |results| ==> results[i].role == "tool")
    && r.conversation.None? && !r.handled
    && KeyOf(config, r, []) == KeyOf(config, turn.request, [])
  }

  lemma CallsAreSaved(s: Open, thread: nat, content: string, calls: seq<Call>)
    requires Fine(s) && thread in s.turns && thread !in s.world.waiting && calls != [] && s.world.config.caching
    ensures var turn, s' := s.turns[thread], Hand(s, thread, content, calls);
            var key := KeyOf(s.world.config, turn.request,
                             turn.request.messages + [Message("assistant", content, "", calls)]);
            && key in s'.world.cache && s'.world.cache[key].thread == thread
            && s'.turns == s.turns && s'.world.config == s.world.config && s'.world.active == s.world.active
            && s'.world.waiting == s.world.waiting + {thread}
  {
  }

  /**
   Over every run: once a turn has handed calls to its caller, the request that brings
   their results, and names no conversation, goes to that turn and to no other thread,
   whatever happened before; when the turn takes them it streams on to that request.
   */
  lemma HandedCallsComeBack(config: Config, events: seq<Event>, thread: nat, content: string, calls: seq<Call>,
      r: Request, results: seq<Message>, o: Outcome)
    requires config.caching && calls != []
    requires var s := Run(Initial(config), events);
             && thread in s.turns && thread !in s.world.waiting
             && AnswersCalls(config, s.turns[thread], content, calls, r, results)
    ensures var handed := events + [Handed(thread, content, calls)];
            var s, s' := Run(Initial(config), handed), Run(Initial(config), handed + [Began(r, o)]);
            && thread in s.turns && SameButWaiting(s.world, s'.world) && s'.ended == s.ended
            && s'.world.waiting == (if o.taken && !o.more then s.world.waiting - {thread} else s.world.waiting)
            && s'.turns == if o.taken then s.turns[thread := s.turns[thread].(request := r)] else s.turns
  {
    var before := Run(Initial(config), events);
    var handed := events + [Handed(thread, content, calls)];
    RunSnoc(Initial(config), events, Handed(thread, content, calls));
    RunSnoc(Initial(config), handed, Began(r, o));
    RunKeepsFine(config, events);
    ConfigStays(config, events);
    CallsAreSaved(before, thread, content, calls);
    ResultsGoBack(Run(Initial(config), handed), before.turns[thread], thread, content, calls, r, results, o);
  }

  lemma ResultsGoBack(s: Open, turn: Turn, thread: nat, content: string, calls: seq<Call>, r: Request,
      results: seq<Message>, o: Outcome)
    requires s.world.config.caching && thread in s.turns && thread in s.world.active && thread in s.world.waiting
    requires AnswersCalls(s.world.config, turn, content, calls, r, results)
    requires var key := KeyOf(s.world.config, turn.request,
                              turn.request.messages + [Message("assistant", content, "", calls)]);
             key in s.world.cache && s.world.cache[key].thread == thread
    ensures Begin(s, r, o) == GoOn(s, thread, r, o)
  {
    var parent := turn.request.messages + [Message("assistant", content, "", calls)];
    assert Splits(r.messages, parent, results);
    assert parent[|turn.request.messages|].role == "assistant";
    assert r.messages[|r.messages| - 1] == results[|results| - 1];
    assert KeyOf(s.world.config, r, parent) == KeyOf(s.world.config, turn.request, parent);
    ConcernedThread(s.world, r, parent, results, thread);
    ResultsAreContinuation(r);
    BeginCases(s, r, o);
  }
}

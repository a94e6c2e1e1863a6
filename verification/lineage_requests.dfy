/**
 What one request does to the threads, the cache and the counters
 (providers/codex/provider.go, ChatStream), told over the request and the state alone,
 whatever turns are open: the results of delegated calls, and the transcript that is
 injected when a thread is built anew.
 */
module LineageRequests {
  import opened Wrappers
  import opened Lineage

  // ---------------------------------------------------------------- tool results

  /** The caller supplies results and no new user message; it has no handler of its own. */
  predicate GivesResults(r: Request) {
    && (exists i :: 0 <= i < |r.messages| && r.messages[i].role == "tool")
    && r.messages[|r.messages| - 1].role != "user" && !r.handled
  }

  /** A history and the results, if any, that follow it. */
  predicate Splits(messages: seq<Message>, parent: seq<Message>, results: seq<Message>) {
    && messages == parent + results
    && (forall i :: 0 <= i < |results| ==> results[i].role == "tool")
    && (parent != [] ==> parent[|parent| - 1].role != "tool")
  }

  predicate Answered(parent: seq<Message>) {
    exists i :: 0 <= i < |parent| && (parent[i].role == "assistant" || parent[i].role == "tool")
  }

  /** A session ID, else the session header, else the user. */
  function SessionOf(r: Request): string {
    if r.sessionID != "" then r.sessionID else if r.sessionHeader != "" then r.sessionHeader else r.user
  }

  /** The cache key of a history of this request. */
  function KeyOf(config: Config, r: Request, messages: seq<Message>): Key {
    LineageKey(Digest(SessionOf(r), if r.model != "" then r.model else config.model,
                      if r.workingDirectory != "" then r.workingDirectory else config.cwd, messages, r.tools))
  }

  /**
   Where a request with results is looked up: under the history they follow if that was
   answered, else its session.
   */
  function LookupKey(config: Config, r: Request, parent: seq<Message>, results: seq<Message>): Option<Key> {
    if results != [] && Answered(parent) then Some(KeyOf(config, r, parent))
    else if SessionOf(r) != "" then Some(SessionKey(SessionOf(r)))
    else None
  }

  /** The request names this thread, or names none and the one looked up is this. */
  predicate Concerns(w: World, r: Request, parent: seq<Message>, results: seq<Message>, thread: nat) {
    || r.conversation == Some(thread)
    || (&& r.conversation.None? && w.config.caching
        && var key := LookupKey(w.config, r, parent, results);
        && key.Some? && key.value in w.cache && w.cache[key.value].thread == thread)
  }

  lemma {:induction false} TrailingToolsAre(parent: seq<Message>, results: seq<Message>)
    requires forall i :: 0 <= i < |results| ==> results[i].role == "tool"
    requires parent != [] ==> parent[|parent| - 1].role != "tool"
    ensures WithoutTrailingTools(parent + results) == |parent|
    decreases |results|
  {
    var all := parent + results;
    if results == [] {
      assert all == parent;
    } else {
      assert all[|all| - 1] == results[|results| - 1];
      assert all[..|all| - 1] == parent + results[..|results| - 1];
      TrailingToolsAre(parent, results[..|results| - 1]);
    }
  }

  lemma ResultsAreContinuation(r: Request)
    ensures GivesResults(r) <==> Continuation(r)
  {
  }

  lemma SplitParent(r: Request, parent: seq<Message>, results: seq<Message>)
    requires GivesResults(r) && Splits(r.messages, parent, results)
    ensures Parent(r.messages) == if results != [] then Some(parent) else None
  {
    TrailingToolsAre(parent, results);
    assert WithoutTrailingTools(r.messages) == |parent|;
    assert r.messages[..|parent|] == parent;
  }

  lemma SameAnswered(parent: seq<Message>)
    ensures AnsweredBefore(parent) <==> Answered(parent)
  {
  }

  lemma ConcernedThread(w: World, r: Request, parent: seq<Message>, results: seq<Message>, thread: nat)
    requires GivesResults(r) && Splits(r.messages, parent, results)
    ensures Concerns(w, r, parent, results, thread) <==> ContinuedThread(r, Infer(w, r)) == Some(thread)
  {
    SplitParent(r, parent, results);
    SameAnswered(parent);
    assert Scope(r) == SessionOf(r);
  }

  /** Everything but the flag that a turn waits. */
  predicate SameButWaiting(w: World, w': World) {
    && w'.config == w.config && w'.threads == w.threads && w'.cache == w.cache
    && w'.nextThread == w.nextThread && w'.nextTurn == w.nextTurn
    && w'.loaded == w.loaded && w'.active == w.active
  }

  /**
   Tool results whose thread, named or looked up, has a turn that waits for them go to
   that turn: no thread, no cache entry and no counter changes, and no turn starts; the
   turn stops waiting exactly if it took them and no other call is pending.
   */
  lemma WaitingTurnTakesResults(w: World, r: Request, o: Outcome, parent: seq<Message>, results: seq<Message>,
      thread: nat)
    requires GivesResults(r) && Splits(r.messages, parent, results) && Concerns(w, r, parent, results, thread)
    requires thread in w.active && thread in w.waiting
    ensures SameButWaiting(w, Serve(w, r, o))
    ensures Serve(w, r, o).waiting == if o.taken && !o.more then w.waiting - {thread} else w.waiting
  {
    ConcernedThread(w, r, parent, results, thread);
  }

  /** The world after a turn that ran on a new thread, told from its transcript. */
  ghost predicate RanOnNew(w: World, r: Request, o: Outcome, w': World) {
    && w.nextThread in w'.threads
    && w'.nextThread == w.nextThread + 1 && w'.nextTurn == w.nextTurn + 1
    && w'.threads.Keys == w.threads.Keys + {w.nextThread}
    && (forall id :: id in w.threads && id != w.nextThread ==> w'.threads[id] == w.threads[id])
    && w'.threads[w.nextThread].items ==
         Items(r.messages) + (if o.answer == "" then [] else [TextItem("assistant", o.answer)])
    && w'.threads[w.nextThread].instructions == Instructions(r.messages)
    && w'.waiting == w.waiting && w'.active == w.active
  }

  lemma RebuiltTurn(w: World, r: Request, o: Outcome)
    requires Continuation(r) && o.toolsOk && o.startOk && o.injectOk && o.turnOk && w.nextThread !in w.active
    ensures ChooseFrom(w, r, o, Infer(w, r), Head(w, Infer(w, r))) == Rebuild(w, r, o)
    ensures var (w', chosen) := Rebuild(w, r, o);
            && Runs(w', chosen, o)
            && RanOnNew(w, r, o, Record(w', r, o.answer, w.nextThread))
  {
    assert CallItems([]) == [];
    var (w', chosen) := Rebuild(w, r, o);
    var built := w'.threads[w.nextThread];
    assert built.items == Items(r.messages);
    assert InputItems(r) == [] && built.items + [] == built.items;
  }

  lemma RunsOnRebuilt(w: World, r: Request, o: Outcome)
    requires Continuation(r) && !Resumes(w, r, Infer(w, r)) && w.nextThread !in w.active
    requires o.toolsOk && o.startOk && o.injectOk && o.turnOk
    ensures RanOnNew(w, r, o, Serve(w, r, o))
  {
    RebuiltTurn(w, r, o);
  }

  lemma OtherResults(w: World, r: Request, parent: seq<Message>, results: seq<Message>)
    requires GivesResults(r) && Splits(r.messages, parent, results)
    requires forall thread :: Concerns(w, r, parent, results, thread) ==> !(thread in w.active && thread in w.waiting)
    ensures !Resumes(w, r, Infer(w, r))
  {
    var found := Infer(w, r);
    if ContinuedThread(r, found).Some? {
      ConcernedThread(w, r, parent, results, ContinuedThread(r, found).value);
    }
  }

  /**
   All other tool results get a thread of their own, built from the whole history, the
   results included: no thread that existed changes, and the answer follows what was
   injected.
   */
  lemma OtherResultsAreRebuilt(w: World, r: Request, o: Outcome, parent: seq<Message>, results: seq<Message>)
    requires GivesResults(r) && Splits(r.messages, parent, results)
    requires forall thread :: Concerns(w, r, parent, results, thread) ==> !(thread in w.active && thread in w.waiting)
    requires o.toolsOk && o.startOk && o.injectOk && o.turnOk && w.nextThread !in w.active
    ensures RanOnNew(w, r, o, Serve(w, r, o))
  {
    OtherResults(w, r, parent, results);
    RunsOnRebuilt(w, r, o);
  }

  /** A request that ends with no user message and brings no results is refused, and nothing changes. */
  lemma RefusedRequestChangesNothing(w: World, r: Request, o: Outcome)
    requires !GivesResults(r) && (r.messages == [] || r.messages[|r.messages| - 1].role != "user")
    ensures Serve(w, r, o) == w
  {
    if r.messages != [] {
      ResultsAreContinuation(r);
    }
  }

  // ------------------------------------------------------------------- transcripts

  /** The items of one message: a result alone; no instructions; else its text if any, and its calls in order. */
  predicate Spells(items: seq<Item>, m: Message) {
    if m.role == "tool" then items == [OutputItem(m.toolCallID, m.content)]
    else if m.role == "system" || m.role == "developer" then items == []
    else
      var texts := if m.content == "" then 0 else 1;
      && |items| == texts + |m.calls|
      && (texts == 1 ==> items[0] == TextItem(if m.role == "assistant" then "assistant" else "user", m.content))
      && forall i :: 0 <= i < |m.calls| ==> items[texts + i] == CallItem(m.calls[i])
  }

  lemma ItemsCut(before: seq<Message>, m: Message, after: seq<Message>)
    ensures Items(before + [m]) == Items(before) + MessageItems(m)
    ensures Items(before + [m] + after) == Items(before + [m]) + Items(after)
  {
    ItemsAppend(before, [m]);
    ItemsAppend(before + [m], after);
    OneItem(m);
  }

  lemma InstructionsCut(before: seq<Message>, m: Message, after: seq<Message>)
    ensures Instructions(before + [m]) == Instructions(before) + InstructionsOf(m)
    ensures Instructions(before + [m] + after) == Instructions(before + [m]) + Instructions(after)
  {
    InstructionsAppend(before, [m]);
    InstructionsAppend(before + [m], after);
    OneItem(m);
  }

  lemma OneItem(m: Message)
    ensures Items([m]) == MessageItems(m) && Instructions([m]) == InstructionsOf(m)
  {
    assert [m][1..] == [];
  }

  lemma MessageSpelled(m: Message)
    ensures Spells(MessageItems(m), m)
  {
  }

  /**
   What is injected for a history is, message by message and in order, each tool result
   under its call ID, each text under its role, and each call.
   */
  lemma ItemsTellTheMessages(before: seq<Message>, m: Message, after: seq<Message>)
    ensures Items(before) <= Items(before + [m]) <= Items(before + [m] + after)
    ensures Spells(Items(before + [m] + after)[|Items(before)|..|Items(before + [m])|], m)
  {
    ItemsCut(before, m, after);
    MessageSpelled(m);
    Between(Items(before), MessageItems(m), Items(after));
  }

  lemma Between<T>(a: seq<T>, b: seq<T>, c: seq<T>)
    ensures (a + b + c)[|a|..|a + b|] == b
  {
  }

  /** A thread's instructions are the system and developer messages of its history, in order. */
  lemma InstructionsTellTheMessages(before: seq<Message>, m: Message, after: seq<Message>)
    ensures Instructions(before) <= Instructions(before + [m]) <= Instructions(before + [m] + after)
    ensures Instructions(before + [m] + after)[|Instructions(before)|..|Instructions(before + [m])|] ==
              if m.role == "system" || m.role == "developer" then [m.content] else []
  {
    InstructionsCut(before, m, after);
    Between(Instructions(before), InstructionsOf(m), Instructions(after));
  }

  /** Two histories share a cache key only within one session, model, directory and tool list. */
  lemma KeysAreApart(config: Config, r: Request, messages: seq<Message>, r': Request, messages': seq<Message>)
    ensures LineageKey(HistoryHash(config, r, messages)) == LineageKey(HistoryHash(config, r', messages')) <==>
            && SessionOf(r) == SessionOf(r') && messages == messages' && r.tools == r'.tools
            && (if r.model == "" then config.model else r.model) == (if r'.model == "" then config.model else r'.model)
            && (if r.workingDirectory == "" then config.cwd else r.workingDirectory) ==
                 (if r'.workingDirectory == "" then config.cwd else r'.workingDirectory)
  {
  }
}

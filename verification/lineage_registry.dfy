/**
 The provider's own fields changing as a request is served: the checkpoint
 cache, the loaded and active threads, and beside them the server's threads.
 Each method is verified against the function of Lineage it carries out.
 */
module ConversationRegistry {
  import opened Wrappers
  import opened Lineage

  /** The items an injection sends, built message by message. */
  method HistoryItems(messages: seq<Message>) returns (items: seq<Item>)
    ensures items == Items(messages)
  {
    items := [];
    for i := 0 to |messages|
      invariant items == Items(messages[..i])
    {
      assert messages[..i + 1] == messages[..i] + [messages[i]];
      ItemsAppend(messages[..i], [messages[i]]);
      assert [messages[i]][1..] == [];
      var next := ItemsOf(messages[i]);
      items := items + next;
    }
    assert messages[..|messages|] == messages;
  }

  method ItemsOf(message: Message) returns (items: seq<Item>)
    ensures items == MessageItems(message)
  {
    if message.role == SYSTEM || message.role == DEVELOPER {
      return [];
    }
    if message.role == TOOL {
      return [OutputItem(message.toolCallID, message.content)];
    }
    var role := message.role;
    if message.role != ASSISTANT && message.role != USER {
      role := USER;
    }
    items := [];
    if message.content != "" {
      items := items + [TextItem(role, message.content)];
    }
    ghost var text := items;
    for c := 0 to |message.calls|
      invariant items == text + CallItems(message.calls)[..c]
    {
      items := items + [CallItem(message.calls[c])];
    }
    assert CallItems(message.calls)[..|message.calls|] == CallItems(message.calls);
  }

  class Conversations {
    const config: Config
    var threads: map<nat, Thread>
    var nextThread: nat
    var nextTurn: nat
    var cache: map<Key, Checkpoint>
    var loaded: set<nat>
    var active: set<nat>
    var waiting: set<nat>

    function View(): World
      reads this
    {
      World(config, threads, nextThread, nextTurn, cache, loaded, active, waiting)
    }

    constructor (config: Config)
      ensures View() == World(config, map[], 0, 0, map[], {}, {}, {})
    {
      this.config := config;
      threads, nextThread, nextTurn, cache, loaded, active, waiting := map[], 0, 0, map[], {}, {}, {};
    }

    method InferConversation(r: Request) returns (checkpoint: Option<Checkpoint>)
      ensures checkpoint == Infer(View(), r)
    {
      if r.conversation.Some? || !config.caching {
        return None;
      }
      var parent, hasHistory := ConversationParent(r.messages);
      var scope := Scope(r);
      var key: Key;
      if hasHistory {
        key := LineageKey(HistoryHash(config, r, parent));
      } else if scope != "" {
        key := SessionKey(scope);
      } else {
        return None;
      }
      checkpoint := LoadConversationCheckpoint(key);
    }

    method LoadConversationCheckpoint(key: Key) returns (checkpoint: Option<Checkpoint>)
      ensures checkpoint == Load(View(), key)
    {
      if key in cache {
        return Some(cache[key]);
      }
      return None;
    }

    /** A continuation takes the checkpoint's thread as it is; a new turn must not extend a busy or advanced one. */
    method ResolveInferredThread(checkpoint: Checkpoint, toolContinuation: bool, o: Outcome)
      returns (thread: Option<nat>)
      modifies this
      ensures toolContinuation ==> View() == old(View()) && thread == Some(checkpoint.thread)
      ensures !toolContinuation ==>
                (View(), thread) == Resolve(old(View()), checkpoint, Head(old(View()), Some(checkpoint)), o)
    {
      if toolContinuation {
        return Some(checkpoint.thread);
      }
      var shouldFork := checkpoint.thread in active;
      if !shouldFork {
        var head := LoadConversationCheckpoint(HeadKey(checkpoint.thread));
        if head.Some? {
          shouldFork := head.value.historyHash != checkpoint.historyHash;
        }
      }
      if !shouldFork {
        return Some(checkpoint.thread);
      }
      if checkpoint.turn.None? {
        return None;
      }
      if !o.forkOk || checkpoint.thread !in threads {
        return None;
      }
      var origin, turn := threads[checkpoint.thread], checkpoint.turn.value;
      if turn !in origin.marks || origin.marks[turn] > |origin.items| {
        return None;
      }
      threads := threads[nextThread := Forked(origin, turn)];
      loaded := loaded + {nextThread};
      nextThread := nextThread + 1;
      return Some(nextThread - 1);
    }

    /** Start a thread and inject the history; a thread whose injection fails stays behind. */
    method StartThread(r: Request, o: Outcome) returns (thread: Option<nat>)
      modifies this
      ensures (View(), thread) == Rebuild(old(View()), r, o)
    {
      if !o.startOk {
        return None;
      }
      thread := Some(nextThread);
      threads := threads[nextThread := Thread(Instructions(r.messages), [], map[])];
      loaded := loaded + {nextThread};
      nextThread := nextThread + 1;
      var items := HistoryItems(History(r));
      if |items| == 0 {
        return;
      }
      if !o.injectOk {
        return None;
      }
      threads := threads[thread.value := threads[thread.value].(items := items)];
      assert threads == old(threads)[thread.value := Thread(Instructions(r.messages), items, map[])];
    }

    /** The named thread, loaded or resumed, or a new one; an inferred thread that fails is given up for a new one. */
    method PrepareThread(named: Option<nat>, inferred: bool, r: Request, o: Outcome) returns (thread: Option<nat>)
      modifies this
      ensures named.None? || inferred ==> (View(), thread) == Prepare(old(View()), named, r, o)
      ensures named.Some? && !inferred ==>
                (View(), thread) == if o.toolsOk then Reuse(old(View()), named.value, o) else (old(View()), None)
    {
      if !o.toolsOk {
        return None;
      }
      if named.Some? {
        if named.value in loaded {
          assert loaded == loaded + {named.value};
          return named;
        }
        if o.resumeOk && named.value in threads {
          loaded := loaded + {named.value};
          return named;
        }
        if !inferred {
          return None;
        }
      }
      thread := StartThread(r, o);
    }

    method SaveConversationCheckpoint(r: Request, assistant: Message, thread: nat, turn: Option<nat>)
      modifies this`cache
      ensures View() == Save(old(View()), r, assistant, thread, turn)
    {
      if !config.caching || (assistant.content == "" && assistant.calls == []) {
        return;
      }
      var hash := HistoryHash(config, r, r.messages + [assistant]);
      var checkpoint := Checkpoint(thread, turn, hash);
      cache := cache[LineageKey(hash) := checkpoint];
      cache := cache[HeadKey(thread) := checkpoint];
      var scope := Scope(r);
      if scope != "" {
        cache := cache[SessionKey(scope) := checkpoint];
      }
    }

    method LastUserMessage(messages: seq<Message>) returns (last: int)
      ensures -1 <= last < |messages|
      ensures last >= 0 ==> messages[last].role == USER
      ensures forall i :: last < i < |messages| ==> messages[i].role != USER
    {
      last := |messages| - 1;
      while last >= 0
        invariant -1 <= last < |messages|
        invariant forall i :: last < i < |messages| ==> messages[i].role != USER
      {
        if messages[last].role == USER {
          return;
        }
        last := last - 1;
      }
    }

    method ContainsToolResult(messages: seq<Message>) returns (found: bool)
      ensures found == HasToolResult(messages)
    {
      for i := 0 to |messages|
        invariant !HasToolResult(messages[..i])
      {
        if messages[i].role == TOOL {
          return true;
        }
        assert messages[..i + 1] == messages[..i] + [messages[i]];
      }
      assert messages[..|messages|] == messages;
      return false;
    }

    /** One request, from the checks on its messages to the checkpoint saved when its stream has drained. */
    method ChatStream(r: Request, o: Outcome) returns (thread: Option<nat>)
      modifies this
      ensures View() == Serve(old(View()), r, o)
    {
      var lastUser := LastUserMessage(r.messages);
      var hasToolResults := ContainsToolResult(r.messages);
      var continuation := hasToolResults && !r.handled && lastUser != |r.messages| - 1;
      if lastUser < 0 && !continuation {
        return None;
      }
      if !continuation && lastUser != |r.messages| - 1 {
        return None;
      }
      assert continuation == Continuation(r) && (continuation || UserTurn(r));
      var named := r.conversation;
      var found := InferConversation(r);
      if found.Some? {
        named := ResolveInferredThread(found.value, continuation, o);
      }
      if continuation {
        if named.Some? && named.value in active && named.value in waiting {
          if o.taken && !o.more {
            waiting := waiting - {named.value};
          }
          return named;
        }
        named := None;
      }
      thread := PrepareThread(named, found.Some?, r, o);
      assert (View(), thread) == Choose(old(View()), r, o);
      RunTurn(thread, r, o);
    }

    /** The turn on the chosen thread and the checkpoint it leaves. */
    method RunTurn(thread: Option<nat>, r: Request, o: Outcome)
      modifies this
      ensures View() == Finish(old(View()), thread, r, o)
    {
      if thread.None? || thread.value in active || thread.value !in threads {
        return;
      }
      active := active + {thread.value};
      if !o.turnOk {
        active := active - {thread.value};
        assert active == old(active);
        return;
      }
      var turn := nextTurn;
      nextTurn := nextTurn + 1;
      var t := threads[thread.value];
      var items := t.items + InputItems(r) + MessageItems(Assistant(o.answer));
      threads := threads[thread.value := t.(items := items, marks := t.marks[turn := |items|])];
      active := active - {thread.value};
      assert active == old(active);
      SaveConversationCheckpoint(r, Assistant(o.answer), thread.value, if o.named then Some(turn) else None);
    }
  }
}

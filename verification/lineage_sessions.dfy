/**
 Sessions are kept apart (providers/codex/conversation_registry.go, conversationScope
 and the lineage hash): over every run in which no request names a conversation, a
 request only ever meets threads of its own session.
 */
module LineageSessions {
  import opened Wrappers
  import opened Lineage
  import opened LineageRequests
  import opened LineageOpen

  /** No request names a conversation. */
  predicate Unnamed(events: seq<Event>) {
    forall i :: 0 <= i < |events| && events[i].Began? ==> events[i].request.conversation.None?
  }

  /** The threads of a run with the session of the request each was started for. */
  function Owners(config: Config, events: seq<Event>): map<nat, string>
    decreases |events|
  {
    if events == [] then map[]
    else
      var before, last := Owners(config, events[..|events| - 1]), events[|events| - 1];
      map t | t in Run(Initial(config), events).world.threads ::
        if t in before then before[t] else if last.Began? then SessionOf(last.request) else ""
  }

  predicate EntryOwned(k: Key, thread: nat, owners: map<nat, string>) {
    && thread in owners
    && (k.LineageKey? ==> owners[thread] == k.hash.scope)
    && (k.SessionKey? ==> owners[thread] == k.scope)
  }

  ghost predicate CacheOwned(cache: map<Key, Checkpoint>, owners: map<nat, string>) {
    forall k :: k in cache ==> EntryOwned(k, cache[k].thread, owners)
  }

  ghost predicate TurnsOwned(s: Open, owners: map<nat, string>) {
    && (forall t :: t in s.turns ==> t in owners && owners[t] == SessionOf(s.turns[t].request))
    && (forall n :: n in s.ended ==>
         s.ended[n].thread in owners && owners[s.ended[n].thread] == SessionOf(s.ended[n].turn.request))
  }

  ghost predicate Owned(s: Open, owners: map<nat, string>) {
    owners.Keys == s.world.threads.Keys && CacheOwned(s.world.cache, owners) && TurnsOwned(s, owners)
  }

  lemma FoundIsOwned(w: World, r: Request, owners: map<nat, string>)
    requires CacheOwned(w.cache, owners) && r.conversation.None? && Infer(w, r).Some?
    ensures var thread := Infer(w, r).value.thread; thread in owners && owners[thread] == SessionOf(r)
  {
    var k := InferKey(w.config, r).value;
    assert EntryOwned(k, w.cache[k].thread, owners);
    assert Scope(r) == SessionOf(r);
  }

  /** The owners after a step: old ones stay, a new thread belongs to the request that started it. */
  ghost predicate Extends(owners: map<nat, string>, owners': map<nat, string>, session: string) {
    && (forall t :: t in owners ==> t in owners' && owners'[t] == owners[t])
    && (forall t :: t in owners' && t !in owners ==> owners'[t] == session)
  }

  lemma SavingIsOwned(w: World, r: Request, assistant: Message, thread: nat, turn: Option<nat>,
      owners: map<nat, string>)
    requires CacheOwned(w.cache, owners) && thread in owners && owners[thread] == SessionOf(r)
    ensures CacheOwned(Save(w, r, assistant, thread, turn).cache, owners)
  {
    var w' := Save(w, r, assistant, thread, turn);
    assert Scope(r) == SessionOf(r);
    forall k | k in w'.cache ensures EntryOwned(k, w'.cache[k].thread, owners) {
      assert k in w.cache ==> EntryOwned(k, w.cache[k].thread, owners);
    }
  }

  lemma ChosenIsOwned(w: World, r: Request, o: Outcome, owners: map<nat, string>)
    requires ThreadsFine(w) && CacheOwned(w.cache, owners) && owners.Keys == w.threads.Keys && r.conversation.None?
    ensures var (w', chosen) := Choose(w, r, o);
            chosen.Some? && chosen.value in w.threads ==>
              chosen.value in owners && owners[chosen.value] == SessionOf(r)
  {
    RebuildingAdds(w, r, o);
    var found := Infer(w, r);
    if found.Some? {
      FoundIsOwned(w, r, owners);
      ResolvingAdds(w, found.value, Head(w, found), o);
    }
  }

  lemma CacheStaysOwned(cache: map<Key, Checkpoint>, owners: map<nat, string>, owners': map<nat, string>,
      session: string)
    requires CacheOwned(cache, owners) && Extends(owners, owners', session)
    ensures CacheOwned(cache, owners')
  {
    forall k | k in cache ensures EntryOwned(k, cache[k].thread, owners') {
      assert EntryOwned(k, cache[k].thread, owners);
    }
  }

  /** Turns that only a request of the session took over or started. */
  lemma TurnsStayOwned(s: Open, s': Open, r: Request, owners: map<nat, string>, owners': map<nat, string>)
    requires TurnsOwned(s, owners) && Extends(owners, owners', SessionOf(r)) && s'.ended == s.ended
    requires forall t :: t in s'.turns && (t !in s.turns || s'.turns[t] != s.turns[t]) ==>
               s'.turns[t].request == r && t in owners' && owners'[t] == SessionOf(r)
    ensures TurnsOwned(s', owners')
  {
  }

  lemma GoingOnIsOwned(s: Open, thread: nat, r: Request, o: Outcome, owners: map<nat, string>,
      owners': map<nat, string>)
    requires Owned(s, owners) && Extends(owners, owners', SessionOf(r))
    requires thread in owners && owners[thread] == SessionOf(r)
    ensures TurnsOwned(GoOn(s, thread, r, o), owners') && GoOn(s, thread, r, o).world.cache == s.world.cache
  {
    TurnsStayOwned(s, GoOn(s, thread, r, o), r, owners, owners');
  }

  lemma BeginningOnIsOwned(s: Open, r: Request, o: Outcome, owners: map<nat, string>, owners': map<nat, string>)
    requires Fine(s) && Owned(s, owners) && r.conversation.None?
    requires Extends(owners, owners', SessionOf(r)) && owners'.Keys == Choose(s.world, r, o).0.threads.Keys
    ensures var (w, chosen) := Choose(s.world, r, o);
            var s' := BeginOn(s.(world := w), chosen, r, o);
            TurnsOwned(s', owners') && s'.world.cache == s.world.cache && s'.world.threads.Keys == w.threads.Keys
  {
    var (w, chosen) := Choose(s.world, r, o);
    ChoosingAdds(s.world, r, o);
    ChosenIsOwned(s.world, r, o, owners);
    TurnsStayOwned(s, BeginOn(s.(world := w), chosen, r, o), r, owners, owners');
  }

  lemma BeginningIsOwned(s: Open, r: Request, o: Outcome, owners: map<nat, string>, owners': map<nat, string>)
    requires Fine(s) && Owned(s, owners) && r.conversation.None?
    requires Extends(owners, owners', SessionOf(r)) && owners'.Keys == Begin(s, r, o).world.threads.Keys
    ensures Owned(Begin(s, r, o), owners')
    ensures forall t :: t in Begin(s, r, o).turns && (t !in s.turns || Begin(s, r, o).turns[t] != s.turns[t]) ==>
              Begin(s, r, o).turns[t].request == r
  {
    BeginCases(s, r, o);
    CacheStaysOwned(s.world.cache, owners, owners', SessionOf(r));
    var found := Infer(s.world, r);
    if Resumes(s.world, r, found) {
      FoundIsOwned(s.world, r, owners);
      GoingOnIsOwned(s, found.value.thread, r, o, owners, owners');
    } else if UserTurn(r) || Continuation(r) {
      KeysOfBegun(s, r, o);
      BeginningOnIsOwned(s, r, o, owners, owners');
    }
  }

  lemma KeysOfBegun(s: Open, r: Request, o: Outcome)
    ensures var (w, chosen) := Choose(s.world, r, o);
            BeginOn(s.(world := w), chosen, r, o).world.threads.Keys == w.threads.Keys
  {
  }

  lemma StepIsOwned(s: Open, e: Event, owners: map<nat, string>)
    requires Fine(s) && Owned(s, owners) && !e.Began?
    ensures Owned(Step(s, e), owners)
  {
    match e
    case Handed(thread, content, calls) =>
      if Step(s, e) != s {
        SavingIsOwned(s.world.(waiting := s.world.waiting + {thread}), s.turns[thread].request,
                      Message(ASSISTANT, content, "", calls), thread, TurnOf(s.turns[thread]), owners);
      }
    case Drained(n) =>
      if n in s.ended {
        var stream := s.ended[n];
        SavingIsOwned(s.world, stream.turn.request, Assistant(stream.answer), stream.thread, TurnOf(stream.turn),
                      owners);
      }
    case _ =>
  }

  lemma OwnersExtend(config: Config, events: seq<Event>, e: Event)
    requires Owners(config, events).Keys == Run(Initial(config), events).world.threads.Keys
    requires forall t :: t in Run(Initial(config), events).world.threads ==>
             t in Run(Initial(config), events + [e]).world.threads
    ensures Extends(Owners(config, events), Owners(config, events + [e]), if e.Began? then SessionOf(e.request) else "")
    ensures Owners(config, events + [e]).Keys == Run(Initial(config), events + [e]).world.threads.Keys
  {
    assert (events + [e])[..|events|] == events;
  }

  lemma ThreadsStay(s: Open, e: Event)
    requires Fine(s)
    ensures forall t :: t in s.world.threads ==> t in Step(s, e).world.threads
    ensures !e.Began? ==> Step(s, e).world.threads.Keys == s.world.threads.Keys
  {
    if e.Began? {
      BeginCases(s, e.request, e.outcome);
      ChoosingAdds(s.world, e.request, e.outcome);
    }
  }

  lemma {:induction false} RunIsOwned(config: Config, events: seq<Event>)
    requires Unnamed(events)
    ensures Owned(Run(Initial(config), events), Owners(config, events))
    decreases |events|
  {
    if events != [] {
      var before, e := events[..|events| - 1], events[|events| - 1];
      assert before + [e] == events;
      RunIsOwned(config, before);
      RunKeepsFine(config, before);
      var s := Run(Initial(config), before);
      RunSnoc(Initial(config), before, e);
      ThreadsStay(s, e);
      OwnersExtend(config, before, e);
      if e.Began? {
        BeginningIsOwned(s, e.request, e.outcome, Owners(config, before), Owners(config, events));
      } else {
        assert Owners(config, events) == Owners(config, before);
        StepIsOwned(s, e, Owners(config, before));
      }
    }
  }

  /**
   Over every run in which no request names a conversation: the turn a request starts
   or goes on with is on a thread that was started for its own session, the thread it
   is looked up on too, and no thread ever changes its session.
   */
  lemma ThreadsStayInTheirSession(config: Config, events: seq<Event>, r: Request, o: Outcome)
    requires Unnamed(events) && r.conversation.None?
    ensures var after := events + [Began(r, o)];
            var s, s' := Run(Initial(config), events), Run(Initial(config), after);
            && (forall t :: t in s'.turns && (t !in s.turns || s'.turns[t] != s.turns[t]) ==>
                  s'.turns[t].request == r && t in Owners(config, after)
                  && Owners(config, after)[t] == SessionOf(r))
            && (Infer(s.world, r).Some? ==>
                  var t := Infer(s.world, r).value.thread;
                  t in Owners(config, events) && Owners(config, events)[t] == SessionOf(r))
            && (forall t :: t in Owners(config, events) ==>
                  t in Owners(config, after) && Owners(config, after)[t] == Owners(config, events)[t])
  {
    var s := Run(Initial(config), events);
    RunIsOwned(config, events);
    RunIsOwned(config, events + [Began(r, o)]);
    RunKeepsFine(config, events);
    RunSnoc(Initial(config), events, Began(r, o));
    ThreadsStay(s, Began(r, o));
    OwnersExtend(config, events, Began(r, o));
    BeginningIsOwned(s, r, o, Owners(config, events), Owners(config, events + [Began(r, o)]));
    if Infer(s.world, r).Some? {
      FoundIsOwned(s.world, r, Owners(config, events));
    }
  }
}

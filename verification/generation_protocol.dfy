/**
 Requests, reloads and close, interleaved (cmd/llm-provider/runtime.go). Every
 thread has a program counter; one event lets one thread take its next step, and a
 thread that must wait stays where it is.
 */
module GenerationProtocol {
  import opened Wrappers
  import opened Generations

  datatype Pc =
    | Arriving                     // a request before the lock
    | Serving(generation: nat)     // inside the handler
    | Publishing(generation: nat)  // a reload with its new gateway, before the lock
    | Draining(generation: nat)    // waiting for the retired generation's requests
    | Authenticating(generation: nat)
    | Shutting(generation: nat)    // in close, before it waits for the requests
    | Releasing(generation: nat)   // in close, about to close the gateway
    | Stopping                     // Close before the lock
    | Finished

  /** `inFlight` and `closes` are per generation; generation 0 is the first one. */
  datatype World = World(guarded: Guarded<nat>, inFlight: seq<nat>, closes: seq<nat>, threads: map<nat, Pc>)

  datatype Event = Request(thread: nat) | Reload(thread: nat) | Stop(thread: nat) | Advance(thread: nat)

  function Initial(): World {
    World(Guarded(Some(0), false), [0], [0], map[])
  }

  function Begin(w: World, thread: nat, pc: Pc): World {
    w.(threads := w.threads[thread := pc])
  }

  predicate Sized(w: World) {
    |w.inFlight| == |w.closes|
  }

  predicate Known(w: World, generation: nat) {
    generation < |w.inFlight| && Sized(w)
  }

  function Count(w: World, generation: nat, change: int): World
    requires Known(w, generation) && w.inFlight[generation] + change >= 0
  {
    w.(inFlight := w.inFlight[generation := w.inFlight[generation] + change])
  }

  function Release(w: World, generation: nat): World
    requires Known(w, generation)
  {
    w.(closes := w.closes[generation := w.closes[generation] + 1])
  }

  /** The next step of a thread, or none if it has to wait or has finished. */
  function Next(w: World, t: nat): Option<World>
    requires t in w.threads
  {
    match w.threads[t]
    case Arriving =>
      (match Admitted(w.guarded)
       case None => Some(Begin(w, t, Finished))
       case Some(g) => if Known(w, g) then Some(Begin(Count(w, g, 1), t, Serving(g))) else None)
    case Serving(g) =>
      if Known(w, g) && w.inFlight[g] > 0 then Some(Begin(Count(w, g, -1), t, Finished)) else None
    case Publishing(g) =>
      if w.guarded.closed then if Known(w, g) then Some(Begin(Release(w, g), t, Finished)) else None
      else
        (var (guarded, previous) := Published(w.guarded, g);
         if previous.Some? then Some(Begin(w.(guarded := guarded), t, Draining(previous.value))) else None)
    case Draining(g) => if Known(w, g) && w.inFlight[g] == 0 then Some(Begin(w, t, Authenticating(g))) else None
    case Authenticating(g) => Some(Begin(w, t, Shutting(g)))
    case Shutting(g) => if Known(w, g) && w.inFlight[g] == 0 then Some(Begin(w, t, Releasing(g))) else None
    case Releasing(g) => if Known(w, g) then Some(Begin(Release(w, g), t, Finished)) else None
    case Stopping =>
      (var (guarded, previous) := Retired(w.guarded);
       Some(Begin(w.(guarded := guarded), t, if previous.Some? then Shutting(previous.value) else Finished)))
    case Finished => None
  }

  function Step(w: World, e: Event): World {
    match e
    case Request(t) => if t in w.threads then w else Begin(w, t, Arriving)
    case Reload(t) =>
      if t in w.threads then w
      else Begin(w.(inFlight := w.inFlight + [0], closes := w.closes + [0]), t, Publishing(|w.inFlight|))
    case Stop(t) => if t in w.threads then w else Begin(w, t, Stopping)
    case Advance(t) => if t in w.threads && Next(w, t).Some? then Next(w, t).value else w
  }

  function Run(w: World, events: seq<Event>): World
    decreases |events|
  {
    if events == [] then w else Step(Run(w, events[..|events| - 1]), events[|events| - 1])
  }

  // ---------------------------------------------------------------- the invariant

  /** The generation a thread has in hand to close. */
  function Owned(pc: Pc): Option<nat> {
    match pc
    case Publishing(g) => Some(g)
    case Draining(g) => Some(g)
    case Authenticating(g) => Some(g)
    case Shutting(g) => Some(g)
    case Releasing(g) => Some(g)
    case _ => None
  }

  ghost predicate Owns(w: World, t: nat, g: nat) {
    t in w.threads && Owned(w.threads[t]) == Some(g)
  }

  ghost function Servers(threads: map<nat, Pc>, g: nat): set<nat> {
    set t | t in threads && threads[t] == Serving(g)
  }

  /** What a thread's position says about its generation. */
  ghost predicate Placed(w: World, pc: Pc) {
    match pc
    case Serving(g) => g < |w.inFlight| && g < |w.closes| && w.closes[g] == 0
    case Authenticating(g) => g < |w.inFlight| && w.inFlight[g] == 0
    case Releasing(g) => g < |w.inFlight| && w.inFlight[g] == 0
    case Publishing(g) => g < |w.inFlight| && w.inFlight[g] == 0
    case Draining(g) => g < |w.inFlight|
    case Shutting(g) => g < |w.inFlight|
    case _ => true
  }

  /** A generation serves, or exactly one thread has it in hand, or it was closed once and is idle for good. */
  ghost predicate Accounted(w: World, g: nat)
    requires g < |w.inFlight| == |w.closes|
  {
    if w.guarded.current == Some(g) then w.closes[g] == 0 && forall t :: !Owns(w, t, g)
    else if w.closes[g] == 0 then exists t :: Owns(w, t, g)
    else w.closes[g] == 1 && w.inFlight[g] == 0 && forall t :: !Owns(w, t, g)
  }

  ghost predicate OneOwner(w: World) {
    forall s, t, g :: Owns(w, s, g) && Owns(w, t, g) ==> s == t
  }

  ghost predicate Counted(w: World) {
    forall g: nat :: g < |w.inFlight| ==> w.inFlight[g] == |Servers(w.threads, g)|
  }

  ghost predicate GuardedFine(w: World) {
    && (w.guarded.closed <==> w.guarded.current.None?)
    && (w.guarded.current.Some? ==> w.guarded.current.value < |w.inFlight|)
  }

  ghost predicate AllPlaced(w: World) {
    Sized(w) && forall t :: t in w.threads ==> Placed(w, w.threads[t])
  }

  ghost predicate AllAccounted(w: World) {
    Sized(w) && forall g: nat :: g < |w.inFlight| ==> Accounted(w, g)
  }

  ghost predicate Inv(w: World) {
    Sized(w) && GuardedFine(w) && AllPlaced(w) && AllAccounted(w) && OneOwner(w) && Counted(w)
  }

  // ---------------------------------------------------------------------- the steps

  lemma ServersGrow(threads: map<nat, Pc>, t: nat, g: nat)
    requires t !in threads || !threads[t].Serving?
    ensures Servers(threads[t := Serving(g)], g) == Servers(threads, g) + {t} && t !in Servers(threads, g)
    ensures forall h :: h != g ==> Servers(threads[t := Serving(g)], h) == Servers(threads, h)
  {
  }

  lemma ServersShrink(threads: map<nat, Pc>, t: nat, g: nat, pc: Pc)
    requires t in threads && threads[t] == Serving(g) && !pc.Serving?
    ensures Servers(threads[t := pc], g) == Servers(threads, g) - {t} && t in Servers(threads, g)
    ensures forall h :: h != g ==> Servers(threads[t := pc], h) == Servers(threads, h)
  {
  }

  lemma ServersStay(threads: map<nat, Pc>, t: nat, pc: Pc)
    requires (t !in threads || !threads[t].Serving?) && !pc.Serving?
    ensures forall g :: Servers(threads[t := pc], g) == Servers(threads, g)
  {
  }

  lemma OwnersMove(w: World, w': World, t: nat, pc: Pc)
    requires w'.threads == w.threads[t := pc]
    ensures forall s, g: nat :: s != t ==> (Owns(w', s, g) <==> Owns(w, s, g))
    ensures forall g: nat :: Owns(w', t, g) <==> Owned(pc) == Some(g)
  {
  }

  /** A thread moves on with the same generation in hand, or with none as before. */
  lemma MoveKeeps(w: World, t: nat, pc: Pc)
    requires Inv(w) && Placed(w, pc) && !pc.Serving?
    requires t in w.threads ==> !w.threads[t].Serving?
    requires Owned(pc) == if t in w.threads then Owned(w.threads[t]) else None
    ensures Inv(Begin(w, t, pc))
  {
    var w' := Begin(w, t, pc);
    ServersStay(w.threads, t, pc);
    OwnersMove(w, w', t, pc);
    assert forall s, g :: Owns(w', s, g) <==> Owns(w, s, g);
    forall g: nat | g < |w'.inFlight| ensures Accounted(w', g) {
      assert Accounted(w, g);
    }
  }

  lemma AdmitKeeps(w: World, t: nat, g: nat)
    requires Inv(w) && t in w.threads && w.threads[t].Arriving? && w.guarded.current == Some(g)
    ensures Inv(Begin(Count(w, g, 1), t, Serving(g)))
  {
    var w' := Begin(Count(w, g, 1), t, Serving(g));
    ServersGrow(w.threads, t, g);
    OwnersMove(w, w', t, Serving(g));
    assert forall s, h :: Owns(w', s, h) <==> Owns(w, s, h);
    forall h: nat | h < |w'.inFlight| ensures Accounted(w', h) {
      assert Accounted(w, h);
    }
    assert Accounted(w, g);
    forall s | s in w'.threads ensures Placed(w', w'.threads[s]) {
      if s != t {
        assert Placed(w, w.threads[s]);
        assert !Owns(w, s, g);
      }
    }
  }

  lemma LeaveKeeps(w: World, t: nat, g: nat)
    requires Inv(w) && t in w.threads && w.threads[t] == Serving(g) && Known(w, g) && w.inFlight[g] > 0
    ensures Inv(Begin(Count(w, g, -1), t, Finished))
  {
    var w' := Begin(Count(w, g, -1), t, Finished);
    ServersShrink(w.threads, t, g, Finished);
    OwnersMove(w, w', t, Finished);
    assert forall s, h :: Owns(w', s, h) <==> Owns(w, s, h);
    forall h: nat | h < |w'.inFlight| ensures Accounted(w', h) {
      assert Accounted(w, h);
    }
    forall s | s in w'.threads ensures Placed(w', w'.threads[s]) {
      if s != t {
        assert Placed(w, w.threads[s]);
      }
    }
  }

  /** A generation nobody serves on is closed by the thread that has it in hand. */
  lemma ReleaseKeeps(w: World, t: nat, g: nat)
    requires Inv(w) && Owns(w, t, g) && Known(w, g) && w.inFlight[g] == 0
    ensures Inv(Begin(Release(w, g), t, Finished))
  {
    var w' := Begin(Release(w, g), t, Finished);
    ServersStay(w.threads, t, Finished);
    OwnersMove(w, w', t, Finished);
    assert Accounted(w, g);
    assert w.closes[g] == 0;
    forall h: nat | h < |w'.inFlight| ensures Accounted(w', h) {
      assert Accounted(w, h);
      if h != g && w.guarded.current != Some(h) && w.closes[h] == 0 {
        var s :| Owns(w, s, h);
        assert Owns(w', s, h);
      }
    }
    assert Servers(w.threads, g) == {};
    forall s | s in w'.threads ensures Placed(w', w'.threads[s]) {
      if s != t {
        assert Placed(w, w.threads[s]);
        assert w.threads[s] == Serving(g) ==> s in Servers(w.threads, g);
      }
    }
  }

  /** The guarded fields give up their generation to a thread, which may hand in its own. */
  lemma RetireKeeps(w: World, t: nat, g: nat, pc: Pc, guarded: Guarded<nat>)
    requires Inv(w) && t in w.threads && w.guarded.current == Some(g)
    requires pc == Draining(g) || pc == Shutting(g)
    requires !w.threads[t].Serving? && guarded.current == Owned(w.threads[t])
             && (guarded.closed <==> guarded.current.None?)
    ensures Inv(Begin(w.(guarded := guarded), t, pc))
  {
    var w' := Begin(w.(guarded := guarded), t, pc);
    ServersStay(w.threads, t, pc);
    OwnersMove(w, w', t, pc);
    assert Accounted(w, g);
    assert Placed(w, w.threads[t]);
    forall h: nat | h < |w'.inFlight| ensures Accounted(w', h) {
      assert Accounted(w, h);
      if h == g {
        assert Owns(w', t, g);
      } else if Owned(w.threads[t]) == Some(h) {
        assert Owns(w, t, h);
      } else if w.closes[h] == 0 {
        var s :| Owns(w, s, h);
        assert Owns(w', s, h);
      }
    }
  }

  lemma ReloadKeeps(w: World, t: nat)
    requires Inv(w) && t !in w.threads
    ensures Inv(Step(w, Reload(t)))
  {
    var w' := Step(w, Reload(t));
    var added := |w.inFlight|;
    ServersStay(w.threads, t, Publishing(added));
    OwnersMove(w, w', t, Publishing(added));
    forall s: nat, h: nat | Owns(w, s, h) ensures h < added {
      assert Placed(w, w.threads[s]);
    }
    forall h: nat | h < |w'.inFlight| ensures Accounted(w', h) {
      if h < added {
        assert Accounted(w, h);
        if w.guarded.current != Some(h) && w.closes[h] == 0 {
          var s :| Owns(w, s, h);
          assert Owns(w', s, h);
        }
      } else {
        assert Owns(w', t, h);
      }
    }
    forall s | s in w.threads ensures w.threads[s] != Serving(added) {
      assert Placed(w, w.threads[s]);
    }
    assert Servers(w.threads, added) == {};
    forall s | s in w'.threads ensures Placed(w', w'.threads[s]) {
      if s != t {
        assert Placed(w, w.threads[s]);
      }
    }
  }

  lemma AdvanceKeeps(w: World, t: nat)
    requires Inv(w) && t in w.threads && Next(w, t).Some?
    ensures Inv(Next(w, t).value)
  {
    assert Placed(w, w.threads[t]);
    match w.threads[t]
    case Arriving =>
      if Admitted(w.guarded).Some? {
        AdmitKeeps(w, t, w.guarded.current.value);
      } else {
        MoveKeeps(w, t, Finished);
      }
    case Serving(g) => LeaveKeeps(w, t, g);
    case Publishing(g) =>
      if w.guarded.closed {
        ReleaseKeeps(w, t, g);
      } else {
        RetireKeeps(w, t, w.guarded.current.value, Draining(w.guarded.current.value), Published(w.guarded, g).0);
      }
    case Draining(g) => MoveKeeps(w, t, Authenticating(g));
    case Authenticating(g) => MoveKeeps(w, t, Shutting(g));
    case Shutting(g) => MoveKeeps(w, t, Releasing(g));
    case Releasing(g) => ReleaseKeeps(w, t, g);
    case Stopping =>
      if w.guarded.closed {
        MoveKeeps(w, t, Finished);
      } else {
        RetireKeeps(w, t, w.guarded.current.value, Shutting(w.guarded.current.value), Retired(w.guarded).0);
      }
    case Finished =>
  }

  lemma StepKeeps(w: World, e: Event)
    requires Inv(w)
    ensures Inv(Step(w, e))
  {
    match e
    case Request(t) => if t !in w.threads { MoveKeeps(w, t, Arriving); }
    case Reload(t) => if t !in w.threads { ReloadKeeps(w, t); }
    case Stop(t) => if t !in w.threads { MoveKeeps(w, t, Stopping); }
    case Advance(t) => if t in w.threads && Next(w, t).Some? { AdvanceKeeps(w, t); }
  }

  lemma {:induction false} RunKeeps(events: seq<Event>)
    ensures Inv(Run(Initial(), events))
    decreases |events|
  {
    if events == [] {
      assert Accounted(Initial(), 0);
      assert Servers(map[], 0) == {};
    } else {
      RunKeeps(events[..|events| - 1]);
      StepKeeps(Run(Initial(), events[..|events| - 1]), events[|events| - 1]);
    }
  }

  // -------------------------------------------------------------------- the promises

  /**
   In every interleaving: nothing is served on a closed generation, no generation is
   closed twice, at most one thread ever has it in hand, and as long as the runtime
   is open it has a current generation that is not closed.
   */
  lemma NoHandlerOnClosedGeneration(events: seq<Event>)
    ensures var w := Run(Initial(), events);
            && Sized(w)
            && (forall g: nat :: g < |w.closes| ==> w.closes[g] <= 1)
            && (forall g: nat :: g < |w.closes| && w.closes[g] == 1 ==>
               w.inFlight[g] == 0 && w.guarded.current != Some(g))
            && (forall t :: t in w.threads && w.threads[t].Serving? ==>
                  var g := w.threads[t].generation; g < |w.closes| && w.closes[g] == 0 && w.inFlight[g] > 0)
            && (forall s, t, g :: Owns(w, s, g) && Owns(w, t, g) ==> s == t)
            && (!w.guarded.closed ==>
               w.guarded.current.Some? && w.guarded.current.value < |w.closes|
                 && w.closes[w.guarded.current.value] == 0)
  {
    RunKeeps(events);
    var w := Run(Initial(), events);
    forall g: nat | g < |w.closes|
      ensures w.closes[g] <= 1 && (w.closes[g] == 1 ==> w.inFlight[g] == 0 && w.guarded.current != Some(g))
    {
      assert Accounted(w, g);
    }
    forall t | t in w.threads && w.threads[t].Serving? ensures
        var g := w.threads[t].generation; g < |w.closes| && w.closes[g] == 0 && w.inFlight[g] > 0 {
      assert Placed(w, w.threads[t]);
      assert t in Servers(w.threads, w.threads[t].generation);
    }
    if !w.guarded.closed {
      assert Accounted(w, w.guarded.current.value);
    }
  }

  /** A closed generation stays closed, and its in-flight count can never rise again. */
  lemma ClosedStaysIdle(w: World, e: Event, g: nat)
    requires Inv(w) && g < |w.closes| && w.closes[g] == 1
    ensures g < |Step(w, e).closes| && Step(w, e).closes[g] == 1 && Step(w, e).inFlight[g] == 0
  {
    assert Accounted(w, g);
    StepKeeps(w, e);
    assert Accounted(Step(w, e), g);
  }

  /** A generation leaves service in one step of one thread, which alone closes it: it is never current again. */
  lemma RetiredOnce(w: World, e: Event, g: nat)
    requires Inv(w) && g < |w.inFlight|
    ensures w.guarded.current == Some(g) && Step(w, e).guarded.current != Some(g) ==>
            e.Advance? && Owns(Step(w, e), e.thread, g)
    ensures w.guarded.current != Some(g) && Step(w, e).guarded.current == Some(g) ==>
              w.closes[g] == 0 && e.Advance? && e.thread in w.threads && w.threads[e.thread] == Publishing(g)
    ensures Step(w, e).closes[g] != w.closes[g] ==> e.Advance? && Owns(w, e.thread, g) && w.inFlight[g] == 0
  {
    assert Accounted(w, g);
    if e.Advance? && e.thread in w.threads {
      assert Placed(w, w.threads[e.thread]);
      assert w.threads[e.thread] == Publishing(g) ==> Owns(w, e.thread, g);
    }
  }

  /**
   A thread that cannot go on has finished or waits for requests in flight; in
   particular a reload always finds a previous generation to retire.
   */
  lemma OnlyDrainingWaits(events: seq<Event>, t: nat)
    requires t in Run(Initial(), events).threads && Next(Run(Initial(), events), t).None?
    ensures var w := Run(Initial(), events);
            var pc := w.threads[t];
            || pc.Finished?
            || ((pc.Draining? || pc.Shutting?) && Known(w, pc.generation) && w.inFlight[pc.generation] > 0
                && exists s :: s in w.threads && w.threads[s] == Serving(pc.generation))
  {
    RunKeeps(events);
    var w := Run(Initial(), events);
    var pc := w.threads[t];
    assert Placed(w, pc);
    assert forall g :: pc == Serving(g) ==> t in Servers(w.threads, g);
    if pc.Draining? || pc.Shutting? {
      assert |Servers(w.threads, pc.generation)| > 0;
      var s :| s in Servers(w.threads, pc.generation);
      assert w.threads[s] == Serving(pc.generation);
    }
  }

  /**
   Once every thread has finished, every generation that was ever built and does not
   serve is closed, exactly once.
   */
  lemma NothingIsLeftOpen(events: seq<Event>)
    requires forall t :: t in Run(Initial(), events).threads ==> Run(Initial(), events).threads[t].Finished?
    ensures var w := Run(Initial(), events);
            Sized(w) && forall g: nat :: g < |w.closes| ==> w.closes[g] == if w.guarded.current == Some(g) then 0 else 1
  {
    RunKeeps(events);
    var w := Run(Initial(), events);
    forall g: nat | g < |w.closes| ensures w.closes[g] == if w.guarded.current == Some(g) then 0 else 1 {
      assert Accounted(w, g);
    }
  }

  // ------------------------------------------------- what serves, told by the history

  /** A reload reaches the lock with its new generation while the runtime is open. */
  predicate Publishes(w: World, e: Event) {
    e.Advance? && e.thread in w.threads && w.threads[e.thread].Publishing?
  }

  predicate Stops(w: World, e: Event) {
    e.Advance? && e.thread in w.threads && w.threads[e.thread].Stopping?
  }

  /** Some thread has gone through the lock of close. */
  predicate StoppedIn(events: seq<Event>)
    decreases |events|
  {
    events != [] && (StoppedIn(events[..|events| - 1])
                     || Stops(Run(Initial(), events[..|events| - 1]), events[|events| - 1]))
  }

  /** The generation published last, the first one if there was no reload. */
  function LastPublished(events: seq<Event>): nat
    decreases |events|
  {
    if events == [] then 0
    else
      var w := Run(Initial(), events[..|events| - 1]);
      if Publishes(w, events[|events| - 1]) then w.threads[events[|events| - 1].thread].generation
      else LastPublished(events[..|events| - 1])
  }

  lemma StepTells(w: World, e: Event)
    requires Inv(w)
    ensures Step(w, e).guarded.closed == (w.guarded.closed || Stops(w, e))
    ensures !Step(w, e).guarded.closed ==>
              Step(w, e).guarded.current ==
              if Publishes(w, e) then Some(w.threads[e.thread].generation) else w.guarded.current
  {
  }

  /**
   Over every run: the runtime is closed once a close took the lock, and until then
   serves what was published last.
   */
  lemma {:induction false} GuardedTellsTheHistory(events: seq<Event>)
    ensures var guarded := Run(Initial(), events).guarded;
            && (guarded.closed <==> StoppedIn(events))
            && guarded.current == if StoppedIn(events) then None else Some(LastPublished(events))
    decreases |events|
  {
    if events != [] {
      var before := events[..|events| - 1];
      GuardedTellsTheHistory(before);
      RunKeeps(before);
      RunKeeps(events);
      StepTells(Run(Initial(), before), events[|events| - 1]);
    }
  }

  lemma RunSnoc(events: seq<Event>, e: Event)
    ensures Run(Initial(), events + [e]) == Step(Run(Initial(), events), e)
  {
    assert (events + [e])[..|events|] == events;
  }

  lemma GuardedFineIn(events: seq<Event>)
    ensures Sized(Run(Initial(), events)) && GuardedFine(Run(Initial(), events))
  {
    RunKeeps(events);
  }

  lemma ArriveStep(w: World, t: nat)
    requires Sized(w) && t in w.threads && w.threads[t].Arriving?
    requires w.guarded.closed <==> w.guarded.current.None?
    requires w.guarded.current.Some? ==> w.guarded.current.value < |w.inFlight|
    ensures Step(w, Advance(t)) ==
              if w.guarded.closed then w.(threads := w.threads[t := Finished])
              else
                var g := w.guarded.current.value;
                w.(threads := w.threads[t := Serving(g)], inFlight := w.inFlight[g := w.inFlight[g] + 1])
  {
  }

  /**
   Over every run: a request that comes to the lock is served, and counted, on the
   generation published last, unless a close took the lock before; then it is turned away.
   */
  lemma OpenRuntimeServes(events: seq<Event>, t: nat)
    requires t in Run(Initial(), events).threads && Run(Initial(), events).threads[t].Arriving?
    ensures var w, w' := Run(Initial(), events), Run(Initial(), events + [Advance(t)]);
            var g := LastPublished(events);
            if StoppedIn(events) then w' == w.(threads := w.threads[t := Finished])
            else
              && g < |w.inFlight|
              && w' == w.(threads := w.threads[t := Serving(g)], inFlight := w.inFlight[g := w.inFlight[g] + 1])
  {
    var w := Run(Initial(), events);
    GuardedTellsTheHistory(events);
    RunSnoc(events, Advance(t));
    GuardedFineIn(events);
    ArriveStep(w, t);
  }

  lemma PublishStep(w: World, t: nat)
    requires Sized(w) && t in w.threads && w.threads[t].Publishing? && w.threads[t].generation < |w.closes|
    requires w.guarded.closed <==> w.guarded.current.None?
    ensures var g := w.threads[t].generation;
            Step(w, Advance(t)) ==
              if w.guarded.closed then
                w.(threads := w.threads[t := Finished], closes := w.closes[g := w.closes[g] + 1])
              else w.(guarded := Guarded(Some(g), false), threads := w.threads[t := Draining(w.guarded.current.value)])
  {
  }

  lemma PublishingKnown(events: seq<Event>, t: nat)
    requires t in Run(Initial(), events).threads && Run(Initial(), events).threads[t].Publishing?
    ensures Run(Initial(), events).threads[t].generation < |Run(Initial(), events).closes|
  {
    RunKeeps(events);
    assert Placed(Run(Initial(), events), Run(Initial(), events).threads[t]);
  }

  /**
   Over every run: a reload that comes to the lock of an open runtime is what serves from
   then on, and takes the generation published before it to retire; on a closed one it
   closes what it built, and nothing else changes.
   */
  lemma ReloadTakesOver(events: seq<Event>, t: nat)
    requires t in Run(Initial(), events).threads && Run(Initial(), events).threads[t].Publishing?
    ensures var w, w' := Run(Initial(), events), Run(Initial(), events + [Advance(t)]);
            var g := w.threads[t].generation;
            && g < |w.closes|
            && if StoppedIn(events) then
                 w' == w.(threads := w.threads[t := Finished], closes := w.closes[g := w.closes[g] + 1])
               else
                 w' == w.(guarded := Guarded(Some(g), false),
                          threads := w.threads[t := Draining(LastPublished(events))])
  {
    GuardedTellsTheHistory(events);
    RunSnoc(events, Advance(t));
    GuardedFineIn(events);
    PublishingKnown(events, t);
    PublishStep(Run(Initial(), events), t);
  }
}

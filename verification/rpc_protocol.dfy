/**
 Callers, the reader and a failing connection, interleaved (providers/codex/provider.go,
 callStarted, readLoop and failConnection). Steps under the mutex are atomic; the
 reader holds the mutex while it answers the pending calls of a failed connection,
 so other locked steps wait for it.
 */
module RpcProtocol {
  import opened Wrappers
  import opened Rpc

  datatype Answer = Told(reply: Reply) | Cancelled | WriteFailed | NoConnection

  datatype Caller =
    | Registering(id: nat)
    | Writing(id: nat)
    | Waiting(id: nat)
    | Withdrawing(id: nat, answer: Answer)
    | Returned(id: nat, answer: Answer)

  datatype Reader =
    | Reading
    | Sending(id: nat, reply: Reply)
    | Failing(error: string)         // holds the mutex
    | Ending(error: string)          // finishes the turns, then closes readDone
    | Stopped

  /** Channels are named by the call that made them; `sent` keeps all that was ever sent on each. */
  datatype World = World(
    nextID: nat, pending: set<nat>, buffers: map<nat, seq<Reply>>, sent: map<nat, seq<Reply>>,
    callers: map<nat, Caller>, reader: Reader, readDone: bool)

  datatype Event =
    | Begin(caller: nat)
    | Register(caller: nat)
    | Write(caller: nat, ok: bool)
    | Receive(caller: nat)
    | Cancel(caller: nat)
    | SeeEnd(caller: nat)
    | Withdraw(caller: nat)
    | ReadReply(id: nat, result: string)
    | Push
    | Fail(error: string)
    | FailOne(id: nat)
    | EndFailing
    | CloseDone

  function Initial(): World {
    World(0, {}, map[], map[], map[], Reading, false)
  }

  predicate Locked(w: World) {
    w.reader.Failing?
  }

  function Move(w: World, c: nat, caller: Caller): World {
    w.(callers := w.callers[c := caller])
  }

  /** A send on the channel of a call; the caller of this function sees to it that there is room. */
  function Send(w: World, id: nat, reply: Reply): World
    requires id in w.buffers && id in w.sent
  {
    w.(buffers := w.buffers[id := w.buffers[id] + [reply]], sent := w.sent[id := w.sent[id] + [reply]])
  }

  predicate HasRoom(w: World, id: nat) {
    id in w.buffers && |w.buffers[id]| < 1
  }

  predicate Enabled(w: World, e: Event) {
    match e
    case Begin(c) => c !in w.callers
    case Register(c) => c in w.callers && w.callers[c].Registering? && !Locked(w)
    case Write(c, _) => c in w.callers && w.callers[c].Writing?
    case Receive(c) => c in w.callers && w.callers[c].Waiting? && w.callers[c].id in w.buffers
      && w.buffers[w.callers[c].id] != []
    case Cancel(c) => c in w.callers && w.callers[c].Waiting?
    case SeeEnd(c) => c in w.callers && w.callers[c].Waiting? && w.readDone
    case Withdraw(c) => c in w.callers && w.callers[c].Withdrawing? && !Locked(w)
    case ReadReply(_, _) => w.reader.Reading?
    case Push => w.reader.Sending? && HasRoom(w, w.reader.id) && w.reader.id in w.sent
    case Fail(_) => w.reader.Reading?
    case FailOne(id) => w.reader.Failing? && id in w.pending && HasRoom(w, id) && id in w.sent
    case EndFailing => w.reader.Failing? && w.pending == {}
    case CloseDone => w.reader.Ending?
  }

  function Step(w: World, e: Event): World {
    if !Enabled(w, e) then w
    else
      match e
      case Begin(c) => Move(w.(nextID := w.nextID + 1), c, Registering(w.nextID + 1))
      case Register(c) =>
        (var id := w.callers[c].id;
         Move(w.(pending := w.pending + {id}, buffers := w.buffers[id := []], sent := w.sent[id := []]), c,
           Writing(id)))
      case Write(c, ok) => Move(w, c, if ok then Waiting(w.callers[c].id)
        else Withdrawing(w.callers[c].id, WriteFailed))
      case Receive(c) =>
        (var id := w.callers[c].id;
         Move(w.(buffers := w.buffers[id := w.buffers[id][1..]]), c, Returned(id, Told(w.buffers[id][0]))))
      case Cancel(c) => Move(w, c, Withdrawing(w.callers[c].id, Cancelled))
      case SeeEnd(c) => Move(w, c, Returned(w.callers[c].id, NoConnection))
      case Withdraw(c) =>
        Move(w.(pending := w.pending - {w.callers[c].id}), c, Returned(w.callers[c].id, w.callers[c].answer))
      case ReadReply(id, result) =>
        w.(pending := w.pending - {id}, reader := if id in w.pending then Sending(id, Reply(id, result)) else Reading)
      case Push => Send(w, w.reader.id, w.reader.reply).(reader := Reading)
      case Fail(error) => w.(reader := Failing(error))
      case FailOne(id) => Send(w, id, Lost(w.reader.error)).(pending := w.pending - {id})
      case EndFailing => w.(reader := Ending(w.reader.error))
      case CloseDone => w.(reader := Stopped, readDone := true)
  }

  function Run(w: World, events: seq<Event>): World
    decreases |events|
  {
    if events == [] then w else Step(Run(w, events[..|events| - 1]), events[|events| - 1])
  }

  // ---------------------------------------------------------------- the invariant

  /** Whether a value for this call is on its way: still pending, or in the reader's hands. */
  predicate Open(w: World, id: nat) {
    id in w.pending || (w.reader.Sending? && w.reader.id == id)
  }

  ghost predicate ChannelFine(w: World, id: nat)
    requires id in w.buffers && id in w.sent
  {
    && |w.sent[id]| <= 1
    && (w.buffers[id] == w.sent[id] || w.buffers[id] == [])
    && (Open(w, id) ==> w.sent[id] == [])
    && (w.sent[id] != [] ==> w.sent[id][0].Lost? || w.sent[id][0].id == id)
  }

  ghost predicate ChannelsFine(w: World) {
    && w.buffers.Keys == w.sent.Keys
    && (forall id :: id in w.buffers ==> id <= w.nextID && ChannelFine(w, id))
    && (forall id :: id in w.pending ==> id in w.buffers)
    && (w.reader.Sending? ==> w.reader.id in w.buffers && w.reader.id !in w.pending
                              && (w.reader.reply.Lost? || w.reader.reply.id == w.reader.id))
  }

  /** Once the pending calls have been answered the reader is past them for good. */
  predicate Past(w: World) {
    w.reader.Ending? || w.reader.Stopped?
  }

  ghost predicate CallerFine(w: World, caller: Caller) {
    match caller
    case Registering(id) => 0 < id <= w.nextID && id !in w.buffers
    case Writing(id) => id in w.buffers && id in w.sent && w.buffers[id] == w.sent[id]
      && (Open(w, id) || w.sent[id] != [] || Past(w))
    case Waiting(id) => id in w.buffers && id in w.sent && w.buffers[id] == w.sent[id]
      && (Open(w, id) || w.sent[id] != [] || Past(w))
    case Withdrawing(id, answer) => id in w.buffers && (answer.Cancelled? || answer.WriteFailed?)
    case Returned(id, answer) =>
      id in w.buffers && id in w.sent && (answer.Told? ==> w.sent[id] == [answer.reply])
        && (answer.NoConnection? ==> w.readDone)
  }

  ghost predicate CallersFine(w: World) {
    && (forall c :: c in w.callers ==> CallerFine(w, w.callers[c]))
    && (forall c, d :: c in w.callers && d in w.callers && w.callers[c].id == w.callers[d].id ==> c == d)
    && (forall c :: c in w.callers ==> w.callers[c].id <= w.nextID)
  }

  ghost predicate Inv(w: World) {
    ChannelsFine(w) && CallersFine(w) && (w.readDone <==> w.reader.Stopped?)
  }

  // ---------------------------------------------------------------------- the steps

  /** One caller moves; the shared state it sees changes only as its own step does. */
  lemma CallersStay(w: World, w': World, c: nat)
    requires CallersFine(w) && c in w'.callers
    requires w'.callers == w.callers[c := w'.callers[c]]
    requires c in w.callers ==> w'.callers[c].id == w.callers[c].id
    requires c !in w.callers ==> w'.callers[c].id == w.nextID + 1
    requires w'.nextID >= w.nextID && w'.callers[c].id <= w'.nextID
    requires CallerFine(w', w'.callers[c])
    requires forall d :: d in w.callers && d != c ==> CallerFine(w', w.callers[d])
    ensures CallersFine(w')
  {
  }

  lemma BeginKeeps(w: World, c: nat)
    requires Inv(w) && Enabled(w, Begin(c))
    ensures Inv(Step(w, Begin(c)))
  {
    var w' := Step(w, Begin(c));
    forall d | d in w.callers ensures CallerFine(w', w.callers[d]) {
      assert CallerFine(w, w.callers[d]);
    }
    CallersStay(w, w', c);
  }

  lemma RegisterKeeps(w: World, c: nat)
    requires Inv(w) && Enabled(w, Register(c))
    ensures Inv(Step(w, Register(c)))
  {
    var w' := Step(w, Register(c));
    var id := w.callers[c].id;
    assert CallerFine(w, w.callers[c]);
    forall d | d in w.callers && d != c ensures CallerFine(w', w.callers[d]) {
      assert CallerFine(w, w.callers[d]);
    }
    CallersStay(w, w', c);
    forall i | i in w'.buffers ensures i <= w'.nextID && ChannelFine(w', i) {
      assert i != id ==> ChannelFine(w, i);
    }
  }

  lemma CallerStepKeeps(w: World, e: Event)
    requires Inv(w) && Enabled(w, e) && (e.Write? || e.Cancel? || e.SeeEnd?)
    ensures Inv(Step(w, e))
  {
    var w' := Step(w, e);
    assert CallerFine(w, w.callers[e.caller]);
    forall d | d in w.callers && d != e.caller ensures CallerFine(w', w.callers[d]) {
      assert CallerFine(w, w.callers[d]);
    }
    CallersStay(w, w', e.caller);
    forall i | i in w'.buffers ensures ChannelFine(w', i) {
      assert ChannelFine(w, i);
    }
  }

  lemma ReceiveKeeps(w: World, c: nat)
    requires Inv(w) && Enabled(w, Receive(c))
    ensures Inv(Step(w, Receive(c)))
  {
    var w' := Step(w, Receive(c));
    var id := w.callers[c].id;
    assert CallerFine(w, w.callers[c]) && ChannelFine(w, id);
    assert w.buffers[id][1..] == [] && w.sent[id] == [w.buffers[id][0]];
    forall d | d in w.callers && d != c ensures CallerFine(w', w.callers[d]) {
      assert CallerFine(w, w.callers[d]);
    }
    CallersStay(w, w', c);
    forall i | i in w'.buffers ensures i <= w'.nextID && ChannelFine(w', i) {
      assert ChannelFine(w, i);
    }
  }

  lemma WithdrawKeeps(w: World, c: nat)
    requires Inv(w) && Enabled(w, Withdraw(c))
    ensures Inv(Step(w, Withdraw(c)))
  {
    var w' := Step(w, Withdraw(c));
    assert CallerFine(w, w.callers[c]);
    forall d | d in w.callers && d != c ensures CallerFine(w', w.callers[d]) {
      assert CallerFine(w, w.callers[d]);
    }
    CallersStay(w, w', c);
    forall i | i in w'.buffers ensures i <= w'.nextID && ChannelFine(w', i) {
      assert ChannelFine(w, i);
    }
  }

  /** The reader moves: a call that was open is answered, and nobody else notices. */
  lemma ReaderStepKeeps(w: World, e: Event)
    requires Inv(w) && Enabled(w, e)
    requires e.ReadReply? || e.Push? || e.Fail? || e.FailOne? || e.EndFailing? || e.CloseDone?
    ensures Inv(Step(w, e))
  {
    var w' := Step(w, e);
    forall i | i in w'.buffers ensures i <= w'.nextID && ChannelFine(w', i) {
      assert ChannelFine(w, i);
    }
    forall c | c in w.callers ensures CallerFine(w', w.callers[c]) {
      assert CallerFine(w, w.callers[c]);
    }
  }

  lemma StepKeeps(w: World, e: Event)
    requires Inv(w)
    ensures Inv(Step(w, e))
  {
    if Enabled(w, e) {
      match e
      case Begin(c) => BeginKeeps(w, c);
      case Register(c) => RegisterKeeps(w, c);
      case Write(_, _) => CallerStepKeeps(w, e);
      case Cancel(_) => CallerStepKeeps(w, e);
      case SeeEnd(_) => CallerStepKeeps(w, e);
      case Receive(c) => ReceiveKeeps(w, c);
      case Withdraw(c) => WithdrawKeeps(w, c);
      case _ => ReaderStepKeeps(w, e);
    }
  }

  lemma {:induction false} RunKeeps(events: seq<Event>)
    ensures Inv(Run(Initial(), events))
    decreases |events|
  {
    if events != [] {
      RunKeeps(events[..|events| - 1]);
      StepKeeps(Run(Initial(), events[..|events| - 1]), events[|events| - 1]);
    }
  }

  // -------------------------------------------------------------------- the promises

  /**
   In every interleaving each channel gets at most one value, and neither the reader nor
   a failing connection ever waits for room.
   */
  lemma SendsNeverBlock(events: seq<Event>)
    ensures var w := Run(Initial(), events);
            && (forall id :: id in w.sent ==> |w.sent[id]| <= 1)
            && (w.reader.Sending? ==> Enabled(w, Push))
            && (w.reader.Failing? ==> forall id :: id in w.pending ==> Enabled(w, FailOne(id)))
  {
    RunKeeps(events);
    var w := Run(Initial(), events);
    forall id | id in w.sent ensures |w.sent[id]| <= 1 && (Open(w, id) ==> HasRoom(w, id)) {
      assert ChannelFine(w, id);
    }
  }

  /** What a caller is told is the one value sent on its channel, and a reply told to it carries its own ID. */
  lemma CallersAreToldTheirOwn(events: seq<Event>, c: nat)
    requires c in Run(Initial(), events).callers && Run(Initial(), events).callers[c].Returned?
    ensures var w := Run(Initial(), events);
            var caller := w.callers[c];
            caller.answer.Told? ==>
              caller.id in w.sent && w.sent[caller.id] == [caller.answer.reply]
              && (caller.answer.reply.Lost? || caller.answer.reply.id == caller.id)
  {
    RunKeeps(events);
    var w := Run(Initial(), events);
    assert CallerFine(w, w.callers[c]);
    assert ChannelFine(w, w.callers[c].id);
  }

  /**
   A waiting call is never forgotten: someone still owes it a value, the value is there,
   or the connection has been failed.
   */
  lemma NoCallIsForgotten(events: seq<Event>, c: nat)
    requires c in Run(Initial(), events).callers && Run(Initial(), events).callers[c].Waiting?
    ensures var w := Run(Initial(), events);
            var id := w.callers[c].id;
            && (Open(w, id) || Enabled(w, Receive(c)) || Past(w))
            && (w.reader.Stopped? ==> Enabled(w, SeeEnd(c)))
  {
    RunKeeps(events);
    var w := Run(Initial(), events);
    assert CallerFine(w, w.callers[c]);
  }

  /** The calls pending when the connection failed are still to be told, or have been told just that. */
  ghost predicate Answering(pending: set<nat>, error: string, w: World) {
    forall id :: id in pending ==>
      id in w.sent && id <= w.nextID
        && ((id in w.pending && w.reader == Failing(error)) || (!Open(w, id) && w.sent[id] == [Lost(error)]))
  }

  lemma StepKeepsAnswering(pending: set<nat>, error: string, w: World, e: Event)
    requires Inv(w) && Answering(pending, error, w)
    ensures Answering(pending, error, Step(w, e))
  {
    if Enabled(w, e) {
      forall id | id in pending ensures id in w.sent && ChannelFine(w, id) {
      }
      if e.Register? {
        assert CallerFine(w, w.callers[e.caller]);
      }
    }
  }

  lemma {:induction false} RunKeepsAnswering(pending: set<nat>, error: string, w: World, events: seq<Event>)
    requires Inv(w) && Answering(pending, error, w)
    ensures Inv(Run(w, events)) && Answering(pending, error, Run(w, events))
    decreases |events|
  {
    if events != [] {
      var before := Run(w, events[..|events| - 1]);
      RunKeepsAnswering(pending, error, w, events[..|events| - 1]);
      StepKeeps(before, events[|events| - 1]);
      StepKeepsAnswering(pending, error, before, events[|events| - 1]);
    }
  }

  /** Once a failed connection has been dealt with, every call it left pending has been told so, exactly once. */
  lemma FailureReachesEveryPendingCall(w: World, error: string, events: seq<Event>)
    requires Inv(w) && Enabled(w, Fail(error)) && Past(Run(Step(w, Fail(error)), events))
    ensures var end := Run(Step(w, Fail(error)), events);
            forall id :: id in w.pending ==> id in end.sent && end.sent[id] == [Lost(error)]
  {
    StepKeeps(w, Fail(error));
    RunKeepsAnswering(w.pending, error, Step(w, Fail(error)), events);
  }

  /** The first reply to a pending call is in the reader's hands, or it is all that was ever sent to the call. */
  ghost predicate Settled(id: nat, reply: Reply, w: World) {
    id in w.sent && id <= w.nextID && id !in w.pending
    && (w.reader == Sending(id, reply) || ((w.reader.Sending? ==> w.reader.id != id) && w.sent[id] == [reply]))
  }

  lemma StepKeepsSettled(id: nat, reply: Reply, w: World, e: Event)
    requires Inv(w) && Settled(id, reply, w)
    ensures Settled(id, reply, Step(w, e))
  {
    assert ChannelFine(w, id);
    if Enabled(w, e) && e.Register? {
      assert CallerFine(w, w.callers[e.caller]);
    }
  }

  lemma {:induction false} RunKeepsSettled(id: nat, reply: Reply, w: World, events: seq<Event>)
    requires Inv(w) && Settled(id, reply, w)
    ensures Inv(Run(w, events)) && Settled(id, reply, Run(w, events))
    decreases |events|
  {
    if events != [] {
      var before := Run(w, events[..|events| - 1]);
      RunKeepsSettled(id, reply, w, events[..|events| - 1]);
      StepKeeps(before, events[|events| - 1]);
      StepKeepsSettled(id, reply, before, events[|events| - 1]);
    }
  }

  /**
   The first reply read for a pending call is the only value its caller can ever be
   told, whatever the server repeats.
   */
  lemma FirstReplyWins(w: World, id: nat, result: string, events: seq<Event>, c: nat)
    requires Inv(w) && Enabled(w, ReadReply(id, result)) && id in w.pending
    requires var end := Run(Step(w, ReadReply(id, result)), events);
             c in end.callers && end.callers[c].id == id && end.callers[c].Returned? && end.callers[c].answer.Told?
    ensures Run(Step(w, ReadReply(id, result)), events).callers[c].answer == Told(Reply(id, result))
  {
    var first := Step(w, ReadReply(id, result));
    StepKeeps(w, ReadReply(id, result));
    assert ChannelFine(w, id);
    RunKeepsSettled(id, Reply(id, result), first, events);
    var end := Run(first, events);
    assert CallerFine(end, end.callers[c]);
    assert ChannelFine(end, id);
  }

  /**
   In every interleaving a reply read for a pending call goes to the channel of that
   call and to no other: the reader's next step puts it there, and a caller that waits
   can then receive exactly it.
   */
  lemma ReplyReachesItsCaller(events: seq<Event>, id: nat, result: string, c: nat)
    requires var w := Run(Initial(), events);
             && Enabled(w, ReadReply(id, result)) && id in w.pending
             && c in w.callers && w.callers[c] == Waiting(id)
    ensures var w := Run(Initial(), events);
            var read := Step(w, ReadReply(id, result));
            var pushed := Step(read, Push);
            && read.pending == w.pending - {id} && read.buffers == w.buffers
            && id in w.buffers
            && pushed.buffers == w.buffers[id := [Reply(id, result)]] && pushed.reader.Reading?
            && Step(pushed, Receive(c)).callers == w.callers[c := Returned(id, Told(Reply(id, result)))]
  {
    RunKeeps(events);
    var w := Run(Initial(), events);
    assert ChannelFine(w, id);
    assert [] + [Reply(id, result)] == [Reply(id, result)];
  }

  /** In every interleaving a reply to a call that is not pending, or not any more, changes nothing. */
  lemma UnknownReplyIsDropped(events: seq<Event>, id: nat, result: string)
    requires id !in Run(Initial(), events).pending
    ensures Step(Run(Initial(), events), ReadReply(id, result)) == Run(Initial(), events)
  {
    var w := Run(Initial(), events);
    assert w.pending - {id} == w.pending;
  }

  // ------------------------------------------------------------- a reply that is missed

  predicate OfCaller(e: Event, c: nat) {
    match e
    case Begin(d) => c == d
    case Register(d) => c == d
    case Write(d, _) => c == d
    case Receive(d) => c == d
    case Cancel(d) => c == d
    case SeeEnd(d) => c == d
    case Withdraw(d) => c == d
    case _ => false
  }

  /** Whatever the caller does next, short of giving up, it is told the value in its channel. */
  ghost predicate MustReceive(w: World, c: nat)
    requires c in w.callers && w.callers[c].id in w.sent && w.sent[w.callers[c].id] != []
  {
    forall e :: Enabled(w, e) && OfCaller(e, c) && !e.Cancel? ==>
      Step(w, e).callers[c] == Returned(w.callers[c].id, Told(w.sent[w.callers[c].id][0]))
  }

  lemma ArrivedIs(w: World, c: nat)
    requires Inv(w) && Enabled(w, Receive(c))
    ensures var id := w.callers[c].id;
            id in w.sent && w.sent[id] != [] && Step(w, Receive(c)).callers[c] == Returned(id, Told(w.sent[id][0]))
  {
    assert CallerFine(w, w.callers[c]);
  }

  /** In every interleaving a value that has arrived must be received if and only if the connection has not ended. */
  lemma ArrivedReplyIsReceivedExactlyIf(events: seq<Event>, c: nat)
    requires Enabled(Run(Initial(), events), Receive(c))
    ensures var w := Run(Initial(), events);
            && w.callers[c].id in w.sent && w.sent[w.callers[c].id] != []
            && (MustReceive(w, c) <==> !w.readDone)
  {
    RunKeeps(events);
    var w := Run(Initial(), events);
    ArrivedIs(w, c);
    if w.readDone {
      assert Enabled(w, SeeEnd(c)) && OfCaller(SeeEnd(c), c);
      assert Step(w, SeeEnd(c)).callers[c] == Returned(w.callers[c].id, NoConnection);
    }
  }

  lemma RunSnoc(w: World, events: seq<Event>, e: Event)
    ensures Run(w, events + [e]) == Step(Run(w, events), e)
  {
    assert (events + [e])[..|events|] == events;
  }

  /** One call whose reply has been pushed into its channel. */
  const REPLIED := [] + [Begin(0)] + [Register(0)] + [Write(0, true)] + [ReadReply(1, "done")] + [Push]

  const ENDED := REPLIED + [Fail("gone")] + [EndFailing] + [CloseDone]

  lemma RepliedRun()
    ensures Run(Initial(), REPLIED) ==
              World(1, {}, map[1 := [Reply(1, "done")]], map[1 := [Reply(1, "done")]], map[0 := Waiting(1)], Reading,
                false)
  {
    RunSnoc(Initial(), [], Begin(0));
    RunSnoc(Initial(), [] + [Begin(0)], Register(0));
    RunSnoc(Initial(), [] + [Begin(0)] + [Register(0)], Write(0, true));
    RunSnoc(Initial(), [] + [Begin(0)] + [Register(0)] + [Write(0, true)], ReadReply(1, "done"));
    RunSnoc(Initial(), [] + [Begin(0)] + [Register(0)] + [Write(0, true)] + [ReadReply(1, "done")], Push);
    var w := Run(Initial(), [] + [Begin(0)] + [Register(0)] + [Write(0, true)]);
    assert w.callers == map[0 := Waiting(1)] && w.buffers == map[1 := []] && w.sent == map[1 := []];
    assert w.pending == {1} && w.pending - {1} == {};
    assert w.buffers[1 := [Reply(1, "done")]] == map[1 := [Reply(1, "done")]];
    assert [] + [Reply(1, "done")] == [Reply(1, "done")];
  }

  lemma EndedRun()
    ensures Run(Initial(), ENDED) == Run(Initial(), REPLIED).(reader := Stopped, readDone := true)
  {
    RepliedRun();
    RunSnoc(Initial(), REPLIED, Fail("gone"));
    RunSnoc(Initial(), REPLIED + [Fail("gone")], EndFailing);
    RunSnoc(Initial(), REPLIED + [Fail("gone")] + [EndFailing], CloseDone);
  }

  /** Such a run: the reply has reached the channel before the connection fails, and the caller may see either. */
  lemma ArrivedReplyMayBeMissed()
    ensures var w := Run(Initial(), ENDED);
            && Enabled(w, Receive(0)) && Enabled(w, SeeEnd(0))
            && Run(Initial(), ENDED + [Receive(0)]).callers[0] == Returned(1, Told(Reply(1, "done")))
            && Run(Initial(), ENDED + [SeeEnd(0)]).callers[0] == Returned(1, NoConnection)
  {
    RepliedRun();
    EndedRun();
    RunSnoc(Initial(), ENDED, Receive(0));
    RunSnoc(Initial(), ENDED, SeeEnd(0));
  }
}

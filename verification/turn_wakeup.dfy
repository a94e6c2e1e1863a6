/**
 The wake channel of a turn: a one-slot channel between one receiver, which
 checks the turn under the mutex and then parks, and any number of producers,
 which change the turn under the mutex and signal after unlocking.
 */
module TurnWakeUp {
  import opened Wrappers
  import opened DelegatedTurn

  datatype Op =
    | AddCall(call: ToolCall, requestID: string)
    | EnqueueChunk(chunk: Chunk)
    | FinishTurn(err: Option<string>)
    | CloseStream
    | AcknowledgeCall(item: Pending)

  function Effect(t: Turn, op: Op): Turn {
    match op
    case AddCall(call, requestID) => AddTool(t, call, requestID)
    case EnqueueChunk(chunk) => Enqueue(t, chunk)
    case FinishTurn(err) => Finish(t, err)
    case CloseStream => Close(t)
    case AcknowledgeCall(item) => Acknowledge(t, item)
  }

  /** Whether the producer goes on to signal after its critical section. */
  predicate Signals(t: Turn, op: Op) {
    match op
    case AddCall(_, _) => Accepting(t)
    case EnqueueChunk(_) => true
    case FinishTurn(_) => true
    case CloseStream => CloseTakesEffect(t)
    case AcknowledgeCall(item) => Pends(t.delegated, item.call.id, item.requestID)
  }

  datatype Receiver = Away | Checking | Parked

  datatype World = World(turn: Turn, token: bool, owed: nat, receiver: Receiver)

  datatype Step = Produce(op: Op) | Signal | Call | Check | Wake | Cancel

  /** One atomic step of a producer or of the receiver; a step that is not enabled changes nothing. */
  function Next(w: World, step: Step): World {
    match step
    case Produce(op) => w.(turn := Effect(w.turn, op), owed := w.owed + if Signals(w.turn, op) then 1 else 0)
    case Signal => if w.owed > 0 then w.(token := true, owed := w.owed - 1) else w
    case Call => if w.receiver.Away? then w.(receiver := Checking) else w
    case Check =>
      if w.receiver.Checking? then
        w.(turn := Receive(w.turn).0, receiver := if Receive(w.turn).1.MustWait? then Parked else Away)
      else w
    case Wake => if w.receiver.Parked? && w.token then w.(token := false, receiver := Checking) else w
    case Cancel => if w.receiver.Parked? then w.(receiver := Away) else w
  }

  function Execute(w: World, steps: seq<Step>): World
    decreases |steps|
  {
    if steps == [] then w else Execute(Next(w, steps[0]), steps[1..])
  }

  /** There is something for a receiver to return. */
  predicate Ready(t: Turn) {
    t.queue != [] || t.done || t.closed || t.awaitingTools
  }

  predicate NoLostWakeUp(w: World) {
    w.receiver.Parked? && Ready(w.turn) ==> w.token || w.owed > 0
  }

  lemma SilentSectionsChangeNothing(t: Turn, op: Op)
    requires !Signals(t, op)
    ensures Effect(t, op) == t
  {
  }

  lemma {:induction false} WakeUpsKept(w: World, steps: seq<Step>)
    requires NoLostWakeUp(w)
    ensures NoLostWakeUp(Execute(w, steps))
    decreases |steps|
  {
    if steps != [] {
      if steps[0].Produce? && !Signals(w.turn, steps[0].op) {
        SilentSectionsChangeNothing(w.turn, steps[0].op);
      }
      WakeUpsKept(Next(w, steps[0]), steps[1..]);
    }
  }

  /** In every interleaving, a parked receiver with something to receive has a wake-up coming. */
  lemma ParkedReceiverIsWoken(parallelTools: bool, steps: seq<Step>)
    ensures NoLostWakeUp(Execute(World(NewTurn(parallelTools), false, 0, Away), steps))
  {
    WakeUpsKept(World(NewTurn(parallelTools), false, 0, Away), steps);
  }

  /** Once the owed signals arrive, waking and checking returns to the caller without parking again. */
  lemma WokenReceiverReturns(parallelTools: bool, steps: seq<Step>)
    ensures var w := Execute(World(NewTurn(parallelTools), false, 0, Away), steps);
            w.receiver.Parked? && Ready(w.turn) ==>
              Next(Next(if w.token then w else Next(w, Signal), Wake), Check).receiver == Away
  {
    ParkedReceiverIsWoken(parallelTools, steps);
  }
}

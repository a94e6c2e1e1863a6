/**
 The table of pending calls to the app server (providers/codex/provider.go): callers
 register a reply channel under a fresh ID, the reader hands replies out, and a
 failed connection answers whatever is still pending. Interleavings of all these
 are in rpc_protocol.dfy.
 */
module Rpc {
  import opened Wrappers

  /** What a call can be told: the server's reply to an ID, or that the connection is gone. */
  datatype Reply = Reply(id: nat, result: string) | Lost(error: string)

  /** A reply channel; a send into a full one would block. */
  class Channel {
    var buffer: seq<Reply>

    constructor ()
      ensures buffer == []
    {
      buffer := [];
    }

    method Send(reply: Reply)
      requires |buffer| < 1
      modifies this
      ensures buffer == old(buffer) + [reply]
    {
      buffer := buffer + [reply];
    }
  }

  class Multiplexer {
    var nextID: nat
    var pending: map<nat, Channel>
    var readErr: Option<string>
    var readDone: bool

    /** A pending call has not been answered, and its channel is its own. */
    ghost predicate Valid()
      reads this, pending.Values
    {
      && (forall id :: id in pending ==> id <= nextID && pending[id].buffer == [])
      && (forall i, j :: i in pending && j in pending && pending[i] == pending[j] ==> i == j)
    }

    constructor ()
      ensures Valid() && pending == map[] && !readDone
    {
      nextID, pending, readErr, readDone := 0, map[], None, false;
    }

    /** callStarted up to the write: a fresh ID with an empty channel of its own. */
    method Register() returns (id: nat, response: Channel)
      requires Valid()
      modifies this`nextID, this`pending
      ensures Valid() && fresh(response) && response.buffer == []
      ensures id == nextID == old(nextID) + 1 && id !in old(pending) && pending == old(pending)[id := response]
    {
      nextID := nextID + 1;
      id := nextID;
      response := new Channel();
      pending := pending[id := response];
    }

    /** After a failed write or a cancelled wait. */
    method Forget(id: nat)
      requires Valid()
      modifies this`pending
      ensures Valid() && pending == old(pending) - {id}
    {
      pending := pending - {id};
    }

    /** One reply read from the server; an unknown or repeated ID has no channel any more. */
    method Deliver(id: nat, result: string) returns (known: bool)
      requires Valid()
      modifies this`pending, pending.Values
      ensures Valid() && pending == old(pending) - {id} && known == (id in old(pending))
      ensures known ==> old(pending[id]).buffer == [Reply(id, result)]
      ensures forall i :: i in pending ==> pending[i].buffer == []
    {
      known := id in pending;
      if known {
        var response := pending[id];
        pending := pending - {id};
        response.Send(Reply(id, result));
      }
    }

    /** Every pending call is told once, nothing stays pending, and later waits see the end. */
    method FailConnection(error: string)
      requires Valid()
      modifies this`pending, this`readErr, this`readDone, pending.Values
      ensures Valid() && pending == map[] && readDone && readErr == Some(error)
      ensures forall id :: id in old(pending) ==> old(pending)[id].buffer == [Lost(error)]
    {
      readErr := Some(error);
      ghost var all := pending;
      while pending != map[]
        invariant Valid() && readErr == Some(error)
        invariant forall id :: id in pending ==> id in all && pending[id] == all[id]
        invariant forall id :: id in all && id !in pending ==> all[id].buffer == [Lost(error)]
        decreases pending.Keys
      {
        var id :| id in pending;
        pending[id].Send(Lost(error));
        pending := pending - {id};
      }
      readDone := true;
    }
  }
}

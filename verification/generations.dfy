/**
 The gateway runtime (cmd/llm-provider/runtime.go): which generation serves new
 requests, and what its critical sections do. The sections are functions of the
 two guarded fields, shared by the object below and by the interleavings in
 generation_protocol.dfy.
 */
module Generations {
  import opened Wrappers

  /** The fields the mutex guards. */
  datatype Guarded<+G> = Guarded(current: Option<G>, closed: bool)

  /** The generation a request starts on, or none once the runtime is closed. */
  function Admitted<G>(r: Guarded<G>): Option<G> {
    if r.closed then None else r.current
  }

  /** Publish a replacement: the previous generation is now the caller's to retire. */
  function Published<G>(r: Guarded<G>, replacement: G): (Guarded<G>, Option<G>) {
    if r.closed then (r, None) else (r.(current := Some(replacement)), r.current)
  }

  function Retired<G>(r: Guarded<G>): (Guarded<G>, Option<G>) {
    if r.closed then (r, None) else (Guarded(None, true), r.current)
  }

  /** One gateway with its in-flight requests; `closes` counts how often it was closed. */
  class Generation {
    var requests: nat
    var closes: nat

    constructor ()
      ensures requests == 0 && closes == 0
    {
      requests, closes := 0, 0;
    }
  }

  class GatewayRuntime {
    var current: Generation?
    var closed: bool

    function View(): Guarded<Generation>
      reads this
    {
      Guarded(if current == null then None else Some(current), closed)
    }

    constructor (first: Generation)
      ensures View() == Guarded(Some(first), false)
    {
      current, closed := first, false;
    }

    /** ServeHTTP up to the handler call: the request is counted on the generation it starts on. */
    method Admit() returns (generation: Generation?)
      modifies current
      ensures (if generation == null then None else Some(generation)) == Admitted(View())
      ensures View() == old(View())
      ensures generation != null ==>
              generation.requests == old(generation.requests) + 1 && generation.closes == old(generation.closes)
      ensures generation == null && current != null ==> current.requests == old(current.requests)
    {
      if closed || current == null {
        return null;
      }
      generation := current;
      generation.requests := generation.requests + 1;
    }

    /** ServeHTTP after the handler returned. */
    method Leave(generation: Generation)
      requires generation.requests > 0
      modifies generation`requests
      ensures generation.requests == old(generation.requests) - 1
    {
      generation.requests := generation.requests - 1;
    }

    /** The critical section of Reload. */
    method Publish(replacement: Generation) returns (previous: Generation?)
      modifies this
      ensures (View(), if previous == null then None else Some(previous)) == Published(old(View()), replacement)
    {
      if closed {
        return null;
      }
      previous := current;
      current := replacement;
    }

    /** The critical section of Close. */
    method Shut() returns (previous: Generation?)
      modifies this
      ensures (View(), if previous == null then None else Some(previous)) == Retired(old(View()))
    {
      if closed {
        return null;
      }
      closed := true;
      previous := current;
      current := null;
    }
  }
}

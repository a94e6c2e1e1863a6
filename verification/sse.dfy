/**
 Server-sent events as the gateway prints them (gateway/responses.go, writeSSEEvent)
 and as the OpenAI provider reads them (providers/openai/provider.go, readSSEEvent and
 rawSSEStream.Recv), in the format of sections 9.2.5 and 9.2.6 of the WHATWG HTML
 Living Standard.
 */
module Sse {
  import opened Wrappers

  datatype Event = Event(name: string, data: string)

  const DONE := "[DONE]"
  const EVENT := "event:"
  const DATA := "data:"

  // ---------------------------------------------------------------------- printing

  function Print(e: Event): string {
    (if e.name == "" then "" else "event: " + e.name + "\n") + "data: " + e.data + "\n\n"
  }

  function Printed(events: seq<Event>): string {
    if events == [] then "" else Print(events[0]) + Printed(events[1..])
  }

  class Writer {
    var output: string

    constructor ()
      ensures output == ""
    {
      output := "";
    }

    method WriteEvent(e: Event)
      modifies this
      ensures output == old(output) + Print(e)
    {
      if e.name != "" {
        output := output + "event: " + e.name + "\n";
      }
      output := output + "data: " + e.data + "\n\n";
    }
  }

  // ----------------------------------------------------------------- pieces of text

  /** White space as Unicode has it. */
  predicate IsSpace(c: char) {
    c in {'\t', '\n', '\U{0B}', '\U{0C}', '\r', ' ', '\U{85}', '\U{A0}', '\U{1680}', '\U{2028}', '\U{2029}',
      '\U{202F}', '\U{205F}', '\U{3000}'}
    || '\U{2000}' <= c <= '\U{200A}'
  }

  function TrimLeft(s: string): string {
    if s != "" && IsSpace(s[0]) then TrimLeft(s[1..]) else s
  }

  function TrimRight(s: string): string {
    if s != "" && IsSpace(s[|s| - 1]) then TrimRight(s[..|s| - 1]) else s
  }

  function Trim(s: string): string {
    TrimRight(TrimLeft(s))
  }

  /** Without one carriage return at the end. */
  function Chop(s: string): string {
    if s != "" && s[|s| - 1] == '\r' then s[..|s| - 1] else s
  }

  /** Up to the first newline. */
  function Line(s: string): (line: string)
    ensures |line| <= |s| && '\n' !in line && (|line| < |s| ==> s[|line|] == '\n')
  {
    if s == "" || s[0] == '\n' then "" else [s[0]] + Line(s[1..])
  }

  /** After the first newline. */
  function Rest(s: string): string {
    if |Line(s)| < |s| then s[|Line(s)| + 1..] else ""
  }

  function Join(lines: seq<string>): string {
    if lines == [] then ""
    else if |lines| == 1 then lines[0]
    else Join(lines[..|lines| - 1]) + "\n" + lines[|lines| - 1]
  }

  function NameIn(line: string, name: string): string {
    if EVENT <= line then Trim(line[|EVENT|..]) else name
  }

  function ValueOf(line: string): string
    requires DATA <= line
  {
    var value := line[|DATA|..];
    if value != "" && value[0] == ' ' then value[1..] else value
  }

  function LinesWith(line: string, lines: seq<string>): seq<string> {
    if DATA <= line then lines + [ValueOf(line)] else lines
  }

  // ----------------------------------------------------------------------- reading

  /** How the body ends once its text is used up. */
  datatype Ending = Closed | Broken(message: string)

  datatype Block = Block(event: Event, rest: string) | NoBlock(ending: Ending)

  /** Read lines up to a blank one, or to the end of the body. */
  function ReadBlock(input: string, ending: Ending, name: string, lines: seq<string>): Block
    decreases |input|
  {
    if input == "" then
      if ending.Closed? && |lines| > 0 then Block(Event(name, Join(lines)), "") else NoBlock(ending)
    else
      var line := Chop(Line(input));
      if line == "" then Block(Event(name, Join(lines)), Rest(input))
      else if |Line(input)| < |input| then ReadBlock(Rest(input), ending, NameIn(line, name), LinesWith(line, lines))
      else if ending.Closed? then Block(Event(NameIn(line, name), Join(LinesWith(line, lines))), "")
      else NoBlock(ending)
  }

  datatype Received = Got(event: Event) | End | Failed(message: string)

  /** What receiving yields, and the text left; nothing is left once the stream is done. */
  datatype Reading = Reading(received: Received, rest: string, done: bool)

  lemma {:induction false} BlockConsumes(input: string, ending: Ending, name: string, lines: seq<string>)
    requires ReadBlock(input, ending, name, lines).Block? && input != ""
    ensures |ReadBlock(input, ending, name, lines).rest| < |input|
    decreases |input|
  {
    var line := Chop(Line(input));
    if line != "" && |Line(input)| < |input| && Rest(input) != "" {
      BlockConsumes(Rest(input), ending, NameIn(line, name), LinesWith(line, lines));
    }
  }

  function Receive(input: string, ending: Ending): (r: Reading)
    ensures r.received.Got? ==> !r.done && |r.rest| < |input|
    decreases |input|
  {
    var block := ReadBlock(input, ending, "", []);
    match block
    case NoBlock(_) => Reading(match ending case Closed => End case Broken(message) => Failed(message), "", true)
    case Block(event, rest) =>
      BlockConsumes(input, ending, "", []);
      if event.data == "" then Receive(rest, ending)
      else if event.data == DONE then Reading(End, rest, true)
      else Reading(Got(event), rest, false)
  }

  class Stream {
    var input: string
    const ending: Ending
    var done: bool

    constructor (body: string, ending: Ending)
      ensures input == body && this.ending == ending && !done
    {
      input, this.ending, done := body, ending, false;
    }

    /** Read through the next newline; `found` tells whether there was one. */
    method ReadString() returns (line: string, found: bool)
      modifies this`input
      ensures line == Line(old(input)) && (found <==> |line| < |old(input)|) && input == Rest(old(input))
    {
      line := Line(input);
      found := |line| < |input|;
      input := Rest(input);
    }

    /** The next block, or the error that ended the body. */
    method ReadEvent() returns (block: Option<Event>)
      modifies this`input
      ensures match ReadBlock(old(input), ending, "", [])
              case Block(event, rest) => block == Some(event) && input == rest
              case NoBlock(_) => block == None && input == ""
    {
      var name, lines := "", [];
      while true
        invariant ReadBlock(input, ending, name, lines) == ReadBlock(old(input), ending, "", [])
        decreases |input|
      {
        if input == "" {
          return if ending.Closed? && |lines| > 0 then Some(Event(name, Join(lines))) else None;
        }
        var line, found := ReadString();
        if line != "" && line[|line| - 1] == '\r' {
          line := line[..|line| - 1];
        }
        if line == "" {
          return Some(Event(name, Join(lines)));
        }
        if EVENT <= line {
          name := Trim(line[|EVENT|..]);
        }
        if DATA <= line {
          var value := line[|DATA|..];
          if value != "" && value[0] == ' ' {
            value := value[1..];
          }
          lines := lines + [value];
        }
        if !found {
          return if ending.Closed? then Some(Event(name, Join(lines))) else None;
        }
      }
    }

    method Recv() returns (r: Received)
      modifies this
      ensures old(done) ==> r == End && done && input == old(input)
      ensures !old(done) ==> Reading(r, input, done) == Receive(old(input), ending)
    {
      if done {
        return End;
      }
      while true
        invariant !done
        invariant Receive(input, ending) == Receive(old(input), ending)
        decreases |input|
      {
        ghost var before := input;
        var block := ReadEvent();
        if block.None? {
          done := true;
          return match ending case Closed => End case Broken(message) => Failed(message);
        }
        BlockConsumes(before, ending, "", []);
        if block.value.data != "" {
          if block.value.data == DONE {
            done := true;
            return End;
          }
          return Got(block.value);
        }
      }
    }
  }
}

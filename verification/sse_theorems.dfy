/** Reading back what was printed. */
module SseTheorems {
  import opened Wrappers
  import opened Sse

  predicate Trimmed(s: string) {
    s != "" ==> !IsSpace(s[0]) && !IsSpace(s[|s| - 1])
  }

  /** A name that survives: one line, no outer white space. */
  predicate PlainName(name: string) {
    '\n' !in name && Trimmed(name)
  }

  /** Data that survives: one non-empty line that does not end in a carriage return and is not the end marker. */
  predicate PlainData(data: string) {
    data != "" && '\n' !in data && data[|data| - 1] != '\r' && data != DONE
  }

  predicate Plain(e: Event) {
    PlainName(e.name) && PlainData(e.data)
  }

  // ------------------------------------------------------------------ pieces of text

  lemma {:induction false} FirstLine(line: string, rest: string)
    requires '\n' !in line
    ensures Line(line + "\n" + rest) == line && Rest(line + "\n" + rest) == rest && |line + "\n" + rest| > |line|
    decreases |line|
  {
    var all := line + "\n" + rest;
    if line != "" {
      FirstLine(line[1..], rest);
      assert all[1..] == line[1..] + "\n" + rest;
      assert all[0] == line[0];
      assert [line[0]] + line[1..] == line;
    }
    assert all[|line| + 1..] == rest;
  }

  lemma TrimKeepsTrimmed(s: string)
    requires Trimmed(s)
    ensures Trim(s) == s
  {
  }

  lemma TrimDropsLeadingSpace(s: string)
    ensures Trim(" " + s) == Trim(s)
  {
    assert (" " + s)[1..] == s;
  }

  lemma {:induction false} TrimLeftTrims(s: string)
    ensures TrimLeft(s) != "" ==> !IsSpace(TrimLeft(s)[0])
    ensures forall c :: c in TrimLeft(s) ==> c in s
    decreases |s|
  {
    if s != "" && IsSpace(s[0]) {
      TrimLeftTrims(s[1..]);
    }
  }

  lemma {:induction false} TrimRightTrims(s: string)
    ensures TrimRight(s) != "" ==> !IsSpace(TrimRight(s)[|TrimRight(s)| - 1]) && TrimRight(s)[0] == s[0]
    ensures forall c :: c in TrimRight(s) ==> c in s
    ensures |TrimRight(s)| <= |s|
    decreases |s|
  {
    if s != "" && IsSpace(s[|s| - 1]) {
      TrimRightTrims(s[..|s| - 1]);
    }
  }

  lemma TrimTrims(s: string)
    requires '\n' !in s
    ensures PlainName(Trim(s))
  {
    TrimLeftTrims(s);
    TrimRightTrims(TrimLeft(s));
  }

  // -------------------------------------------------------------------- one way: back

  /** The data line of a printed event, read with its name in force. */
  lemma DataBlock(data: string, rest: string, ending: Ending, name: string)
    requires '\n' !in data
    ensures ReadBlock("data: " + data + "\n\n" + rest, ending, name, []) ==
            Block(Event(name, ValueOf(Chop("data: " + data))), rest)
  {
    var line := "data: " + data;
    var input := line + "\n\n" + rest;
    assert input == line + "\n" + ("\n" + rest);
    assert '\n' !in line;
    FirstLine(line, "\n" + rest);
    var chopped := Chop(line);
    assert DATA <= chopped && !(EVENT <= chopped) by {
      assert chopped[0] == 'd' && chopped[..5] == line[..5] && line[..5] == DATA;
    }
    FirstLine("", rest);
    assert "" + "\n" + rest == "\n" + rest;
    assert ReadBlock("\n" + rest, ending, name, [ValueOf(chopped)]) ==
      Block(Event(name, Join([ValueOf(chopped)])), rest);
    assert [] + [ValueOf(chopped)] == [ValueOf(chopped)];
  }

  lemma NameLine(name: string, rest: string, ending: Ending)
    requires PlainName(name) && name != ""
    ensures ReadBlock("event: " + name + "\n" + rest, ending, "", []) == ReadBlock(rest, ending, name, [])
  {
    var line := "event: " + name;
    assert '\n' !in line;
    FirstLine(line, rest);
    assert line[|line| - 1] == name[|name| - 1];
    assert Chop(line) == line;
    assert line[..6] == EVENT && line[6..] == " " + name;
    assert !(DATA <= line) by {
      assert line[0] == 'e';
    }
    TrimDropsLeadingSpace(name);
    TrimKeepsTrimmed(name);
  }

  lemma PrintedText(e: Event, rest: string)
    ensures Print(e) + rest
         == if e.name == "" then "data: " + e.data + "\n\n" + rest
            else "event: " + e.name + "\n" + ("data: " + e.data + "\n\n" + rest)
  {
  }

  lemma PrintedBlock(e: Event, rest: string, ending: Ending)
    requires PlainName(e.name) && '\n' !in e.data
    ensures ReadBlock(Print(e) + rest, ending, "", []) == Block(Event(e.name, ValueOf(Chop("data: " + e.data))), rest)
  {
    PrintedText(e, rest);
    DataBlock(e.data, rest, ending, e.name);
    if e.name != "" {
      NameLine(e.name, "data: " + e.data + "\n\n" + rest, ending);
    }
  }

  lemma ValueBack(data: string)
    ensures ValueOf(Chop("data: " + data)) == Chop(data)
  {
    var line := "data: " + data;
    if data != "" {
      assert line[|line| - 1] == data[|data| - 1];
      assert line[..|line| - 1] == "data: " + data[..|data| - 1];
      assert Chop(line) == "data: " + Chop(data);
    }
    assert Chop(line) == "data: " + Chop(data);
    assert ("data: " + Chop(data))[5..] == " " + Chop(data);
    assert (" " + Chop(data))[1..] == Chop(data);
  }

  lemma PlainIsReceived(e: Event, rest: string, ending: Ending)
    requires Plain(e)
    ensures Receive(Print(e) + rest, ending) == Reading(Got(e), rest, false)
  {
    PrintedBlock(e, rest, ending);
    ValueBack(e.data);
    BlockConsumes(Print(e) + rest, ending, "", []);
  }

  /** Receiving until something other than an event comes. */
  function Received(input: string, ending: Ending): (seq<Event>, Received)
    decreases |input|
  {
    var r := Receive(input, ending);
    match r.received
    case Got(e) =>
      var (events, last) := Received(r.rest, ending);
      ([e] + events, last)
    case _ => ([], r.received)
  }

  /** Every list of plain events comes back whole, in order, and then the stream ends. */
  lemma {:induction false} PrintedEventsComeBack(events: seq<Event>)
    requires forall i :: 0 <= i < |events| ==> Plain(events[i])
    ensures Received(Printed(events), Closed) == (events, End)
    decreases |events|
  {
    if events != [] {
      PlainIsReceived(events[0], Printed(events[1..]), Closed);
      PrintedEventsComeBack(events[1..]);
      assert [events[0]] + events[1..] == events;
    }
  }

  // ------------------------------------------------------------- the other way: only if

  lemma {:induction false} NamesAreRead(input: string, ending: Ending, name: string, lines: seq<string>)
    requires PlainName(name)
    ensures ReadBlock(input, ending, name, lines).Block? ==> PlainName(ReadBlock(input, ending, name, lines).event.name)
    decreases |input|
  {
    if input != "" {
      var line := Chop(Line(input));
      if line != "" {
        if EVENT <= line {
          TrimTrims(line[|EVENT|..]);
        }
        if |Line(input)| < |input| {
          NamesAreRead(Rest(input), ending, NameIn(line, name), LinesWith(line, lines));
        }
      }
    }
  }

  lemma {:induction false} OnlyPlainNamesAreReceived(input: string, ending: Ending)
    requires Receive(input, ending).received.Got?
    ensures PlainName(Receive(input, ending).received.event.name)
    decreases |input|
  {
    NamesAreRead(input, ending, "", []);
    var block := ReadBlock(input, ending, "", []);
    BlockConsumes(input, ending, "", []);
    if block.event.data == "" {
      OnlyPlainNamesAreReceived(block.rest, ending);
    }
  }

  lemma JoinedLength(lines: seq<string>, value: string)
    ensures |Join(lines + [value])| <= |Join(lines)| + 1 + |value|
    ensures lines == [] ==> |Join(lines + [value])| == |value|
  {
    var all := lines + [value];
    if lines != [] {
      assert all[..|all| - 1] == lines;
    }
  }

  lemma LineAdds(input: string, lines: seq<string>)
    ensures var line := Chop(Line(input));
            |Join(LinesWith(line, lines))| <= |Join(lines)|
              || |Join(LinesWith(line, lines))| + 4 <= |Join(lines)| + |Line(input)|
    ensures |Line(input)| < |input| ==> |Rest(input)| + |Line(input)| + 1 == |input|
  {
    var line := Chop(Line(input));
    if DATA <= line {
      JoinedLength(lines, ValueOf(line));
    }
  }

  lemma RestIsShorter(input: string, ending: Ending, name: string, lines: seq<string>)
    requires ReadBlock(input, ending, name, lines).Block?
    ensures |ReadBlock(input, ending, name, lines).rest| <= |input|
  {
    if input != "" {
      BlockConsumes(input, ending, name, lines);
    }
  }

  /** A data line gives back less than it takes. */
  lemma {:induction false} DataIsShorter(input: string, ending: Ending, name: string, lines: seq<string>)
    requires ReadBlock(input, ending, name, lines).Block?
    ensures var b := ReadBlock(input, ending, name, lines);
            || |b.event.data| <= |Join(lines)|
            || |b.event.data| + 4 <= |Join(lines)| + |input| - |b.rest|
    decreases |input|
  {
    if input != "" && Chop(Line(input)) != "" {
      var line := Chop(Line(input));
      LineAdds(input, lines);
      if |Line(input)| < |input| {
        DataIsShorter(Rest(input), ending, NameIn(line, name), LinesWith(line, lines));
        RestIsShorter(Rest(input), ending, NameIn(line, name), LinesWith(line, lines));
      }
    }
  }

  lemma {:induction false} ReceivedIsShorter(input: string, ending: Ending)
    requires Receive(input, ending).received.Got?
    ensures |Receive(input, ending).received.event.data| + 4 <= |input|
    decreases |input|
  {
    DataIsShorter(input, ending, "", []);
    var block := ReadBlock(input, ending, "", []);
    BlockConsumes(input, ending, "", []);
    if block.event.data == "" {
      ReceivedIsShorter(block.rest, ending);
    }
  }

  /** A line break in the data: the block reads as the first part and then whatever the rest makes of it. */
  lemma BrokenDataBlock(data: string, ending: Ending, name: string)
    requires '\n' in data
    ensures ReadBlock("data: " + data + "\n\n", ending, name, [])
         == ReadBlock(Rest(data) + "\n\n", ending, name, [Chop(Line(data))])
    ensures |Line(data)| < |data|
  {
    var first := Line(data);
    assert |first| < |data| by {
      if |first| == |data| {
        LineIsWhole(data);
      }
    }
    LineIsPrefix(data);
    assert data == first + "\n" + Rest(data);
    var line := "data: " + first;
    var rest := Rest(data) + "\n\n";
    assert "data: " + data + "\n\n" == line + "\n" + rest;
    FirstLine(line, rest);
    var chopped := Chop(line);
    assert DATA <= chopped && !(EVENT <= chopped) by {
      assert chopped[0] == 'd' && chopped[..5] == line[..5] && line[..5] == DATA;
    }
    ValueBack(first);
    assert [] + [ValueOf(chopped)] == [Chop(first)];
  }

  lemma {:induction false} LineIsPrefix(s: string)
    ensures s[..|Line(s)|] == Line(s)
    decreases |s|
  {
    if s != "" && s[0] != '\n' {
      LineIsPrefix(s[1..]);
    }
  }

  lemma LineIsWhole(s: string)
    requires |Line(s)| == |s|
    ensures Line(s) == s && '\n' !in s
  {
    LineIsPrefix(s);
  }

  /** The block an event with a line break in its data is read from never carries that data, nor does a later one. */
  lemma BrokenDataIsLost(e: Event, ending: Ending)
    requires PlainName(e.name) && '\n' in e.data
    ensures Receive(Print(e), ending).received != Got(e)
  {
    var tail := "data: " + e.data + "\n\n";
    if e.name == "" {
      assert Print(e) == tail;
    } else {
      assert Print(e) == "event: " + e.name + "\n" + tail;
      NameLine(e.name, tail, ending);
    }
    BrokenDataBlock(e.data, ending, e.name);
    var first, rest := Chop(Line(e.data)), Rest(e.data) + "\n\n";
    var block := ReadBlock(rest, ending, e.name, [first]);
    assert ReadBlock(Print(e), ending, "", []) == block;
    if block.Block? {
      DataIsShorter(rest, ending, e.name, [first]);
      BlockConsumes(rest, ending, e.name, [first]);
      if block.event.data == "" && Receive(block.rest, ending).received.Got? {
        ReceivedIsShorter(block.rest, ending);
      }
    }
  }

  lemma UnplainDataIsLost(e: Event, ending: Ending)
    requires PlainName(e.name) && '\n' !in e.data && !PlainData(e.data)
    ensures Receive(Print(e), ending).received != Got(e)
  {
    assert Print(e) + "" == Print(e);
    PrintedBlock(e, "", ending);
    ValueBack(e.data);
    var block := ReadBlock(Print(e), ending, "", []);
    if block.event.data == "" {
      assert ReadBlock("", ending, "", []).NoBlock?;
    }
  }

  /** A single event comes back as it was printed exactly when it is plain. */
  lemma EventComesBackIfPlain(e: Event, ending: Ending)
    ensures Receive(Print(e), ending).received == Got(e) <==> Plain(e)
  {
    if Plain(e) {
      assert Print(e) + "" == Print(e);
      PlainIsReceived(e, "", ending);
    } else if !PlainName(e.name) {
      if Receive(Print(e), ending).received.Got? {
        OnlyPlainNamesAreReceived(Print(e), ending);
      }
    } else if '\n' in e.data {
      BrokenDataIsLost(e, ending);
    } else {
      UnplainDataIsLost(e, ending);
    }
  }
}

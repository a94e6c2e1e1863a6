/**
 What the reader (providers/openai/provider.go, readSSEEvent and rawSSEStream.Recv)
 makes of the lines of any body, told over the lines: data lines with and without a
 space after the colon, several of them in one block, names, comments and other
 fields, and both line ends.
 */
module SseFields {
  import opened Wrappers
  import opened Sse
  import opened SseTheorems

  /** One line, ended by a newline with or without a carriage return before it. */
  datatype Field =
    | Data(spaced: bool, value: string, cr: bool)
    | Name(before: string, name: string, after: string, cr: bool)
    | Other(line: string, cr: bool)

  predicate AllSpace(s: string) {
    '\n' !in s && forall i :: 0 <= i < |s| ==> IsSpace(s[i])
  }

  predicate OneLine(s: string, cr: bool) {
    '\n' !in s && (!cr && s != "" ==> s[|s| - 1] != '\r')
  }

  /** How a line divides into its parts, in one way only. */
  predicate WellFormed(f: Field) {
    match f
    case Data(spaced, value, cr) => OneLine(value, cr) && (!spaced && value != "" ==> value[0] != ' ')
    case Name(before, name, after, cr) =>
      && AllSpace(before) && AllSpace(after) && '\n' !in name && Trimmed(name)
      && (!cr && after != "" ==> after[|after| - 1] != '\r')
      && (!cr && after == "" && before != "" && name == "" ==> before[|before| - 1] != '\r')
    case Other(line, cr) =>
      line != "" && OneLine(line, cr) && !("event:" <= line) && !("data:" <= line)
  }

  function Text(f: Field): string {
    match f
    case Data(spaced, value, _) => "data:" + (if spaced then " " else "") + value
    case Name(before, name, after, _) => "event:" + (before + name + after)
    case Other(line, _) => line
  }

  function Written(f: Field): string {
    Text(f) + (if f.cr then "\r" else "") + "\n"
  }

  function AllWritten(fields: seq<Field>): string {
    if fields == [] then "" else Written(fields[0]) + AllWritten(fields[1..])
  }

  /** The name given last, or the one there was. */
  function NameOf(fields: seq<Field>, name: string): string {
    if fields == [] then name
    else if fields[|fields| - 1].Name? then fields[|fields| - 1].name
    else NameOf(fields[..|fields| - 1], name)
  }

  function DataIn(f: Field): seq<string> {
    if f.Data? then [f.value] else []
  }

  function DataOf(fields: seq<Field>): seq<string> {
    if fields == [] then [] else DataIn(fields[0]) + DataOf(fields[1..])
  }

  /** The data lines with a newline between each two. */
  function Joined(lines: seq<string>): string {
    if lines == [] then ""
    else if |lines| == 1 then lines[0]
    else lines[0] + "\n" + Joined(lines[1..])
  }

  // ---------------------------------------------------------------------- one line

  lemma ChopIs(f: Field)
    requires WellFormed(f)
    ensures '\n' !in Text(f) && Chop(Text(f) + if f.cr then "\r" else "") == Text(f)
  {
    var text := Text(f);
    if f.cr {
      assert (text + "\r")[..|text|] == text;
    } else {
      assert text + "" == text;
      match f {
        case Data(spaced, value, _) => LastOf("data:" + (if spaced then " " else ""), value);
        case Name(before, name, after, _) =>
          LastOf("event:", before + name + after);
          LastOf(before + name, after);
          LastOf(before, name);
        case Other(_, _) =>
      }
    }
  }

  lemma LastOf(a: string, b: string)
    ensures b != "" ==> (a + b) != "" && (a + b)[|a + b| - 1] == b[|b| - 1]
    ensures b == "" ==> a + b == a
  {
  }

  lemma {:induction false} TrimLeftSpaces(before: string, s: string)
    requires AllSpace(before) && (s != "" ==> !IsSpace(s[0]))
    ensures TrimLeft(before + s) == s
    decreases |before|
  {
    if before == "" {
      assert before + s == s;
    } else {
      assert (before + s)[1..] == before[1..] + s;
      TrimLeftSpaces(before[1..], s);
    }
  }

  lemma {:induction false} TrimRightSpaces(s: string, after: string)
    requires AllSpace(after) && (s != "" ==> !IsSpace(s[|s| - 1]))
    ensures TrimRight(s + after) == s
    decreases |after|
  {
    if after == "" {
      assert s + after == s;
    } else {
      assert (s + after)[..|s + after| - 1] == s + after[..|after| - 1];
      TrimRightSpaces(s, after[..|after| - 1]);
    }
  }

  lemma {:induction false} TrimLeftAll(s: string)
    requires AllSpace(s)
    ensures TrimLeft(s) == ""
  {
    if s != "" {
      TrimLeftAll(s[1..]);
    }
  }

  lemma TrimIs(before: string, name: string, after: string)
    requires AllSpace(before) && AllSpace(after) && Trimmed(name)
    ensures Trim(before + name + after) == name
  {
    if name == "" {
      assert before + name + after == before + after;
      TrimLeftAll(before + after);
    } else {
      assert before + name + after == before + (name + after);
      assert (name + after)[0] == name[0];
      TrimLeftSpaces(before, name + after);
      TrimRightSpaces(name, after);
    }
  }

  lemma LineReads(f: Field, name: string, lines: seq<string>)
    requires WellFormed(f)
    ensures Text(f) != ""
    ensures NameIn(Text(f), name) == NameOf([f], name)
    ensures LinesWith(Text(f), lines) == lines + DataIn(f)
  {
    assert [f][..0] == [];
    match f {
      case Data(spaced, value, _) =>
        var text := Text(f);
        assert text == "data:" + ((if spaced then " " else "") + value);
        assert text[..5] == "data:" && text[0] == 'd';
        assert text[5..] == (if spaced then " " else "") + value;
      case Name(before, inner, after, _) =>
        assert Text(f)[..6] == "event:" && Text(f)[0] == 'e';
        assert Text(f)[6..] == before + inner + after;
        TrimIs(before, inner, after);
        assert lines + [] == lines;
      case Other(_, _) =>
        assert lines + [] == lines;
    }
  }

  lemma FieldIsRead(f: Field, rest: string, ending: Ending, name: string, lines: seq<string>)
    requires WellFormed(f)
    ensures Written(f) + rest != ""
    ensures ReadBlock(Written(f) + rest, ending, name, lines)
         == ReadBlock(rest, ending, NameOf([f], name), lines + DataIn(f))
  {
    var line := Text(f) + if f.cr then "\r" else "";
    ChopIs(f);
    LineReads(f, name, lines);
    assert Written(f) + rest == line + "\n" + rest;
    FirstLine(line, rest);
  }

  // --------------------------------------------------------------------- one block

  lemma {:induction false} FieldsAreRead(fields: seq<Field>, rest: string, ending: Ending, name: string,
      lines: seq<string>)
    requires forall i :: 0 <= i < |fields| ==> WellFormed(fields[i])
    ensures ReadBlock(AllWritten(fields) + rest, ending, name, lines)
         == ReadBlock(rest, ending, NameOf(fields, name), lines + DataOf(fields))
    decreases |fields|
  {
    if fields == [] {
      assert AllWritten(fields) + rest == rest && lines + [] == lines;
    } else {
      var f, others := fields[0], fields[1..];
      var name', lines' := NameOf([f], name), lines + DataIn(f);
      FieldIsRead(f, AllWritten(others) + rest, ending, name, lines);
      FieldsAreRead(others, rest, ending, name', lines');
      assert AllWritten(fields) + rest == Written(f) + (AllWritten(others) + rest) by {
        FirstWritten(fields, rest);
      }
      assert NameOf(fields, name) == NameOf(others, name') by {
        NamesJoin(f, others, name);
        assert [f] + others == fields;
      }
      assert lines + DataOf(fields) == lines' + DataOf(others) by {
        FirstData(fields, lines);
      }
    }
  }

  lemma FirstWritten(fields: seq<Field>, rest: string)
    requires fields != []
    ensures AllWritten(fields) + rest == Written(fields[0]) + (AllWritten(fields[1..]) + rest)
  {
  }

  lemma FirstData(fields: seq<Field>, lines: seq<string>)
    requires fields != []
    ensures lines + DataIn(fields[0]) + DataOf(fields[1..]) == lines + DataOf(fields)
  {
    Regroup(lines, DataIn(fields[0]), DataOf(fields[1..]));
  }

  lemma Regroup<T>(a: seq<T>, b: seq<T>, c: seq<T>)
    ensures a + b + c == a + (b + c)
  {
  }

  lemma {:induction false} NamesJoin(f: Field, others: seq<Field>, name: string)
    ensures NameOf([f] + others, name) == NameOf(others, NameOf([f], name))
    decreases |others|
  {
    if others == [] {
      assert [f] + others == [f];
    } else {
      assert ([f] + others)[..|others|] == [f] + others[..|others| - 1];
      NamesJoin(f, others[..|others| - 1], name);
    }
  }

  lemma {:induction false} JoinIsJoined(lines: seq<string>)
    ensures Join(lines) == Joined(lines)
    decreases |lines|
  {
    if |lines| > 1 {
      JoinIsJoined(lines[1..]);
      JoinCons(lines);
    }
  }

  lemma {:induction false} JoinCons(lines: seq<string>)
    requires |lines| > 1
    ensures Join(lines) == lines[0] + "\n" + Join(lines[1..])
    decreases |lines|
  {
    var before := lines[..|lines| - 1];
    if |lines| > 2 {
      JoinCons(before);
      assert before[1..] == lines[1..][..|lines| - 2];
    }
  }

  /** The blank line that ends a block. */
  function Blank(cr: bool): string {
    if cr then "\r\n" else "\n"
  }

  lemma BlankEnds(cr: bool, rest: string, ending: Ending, name: string, lines: seq<string>)
    ensures Blank(cr) + rest != ""
    ensures ReadBlock(Blank(cr) + rest, ending, name, lines) == Block(Event(name, Join(lines)), rest)
  {
    var line := if cr then "\r" else "";
    assert Blank(cr) + rest == line + "\n" + rest;
    FirstLine(line, rest);
    assert Chop(line) == "";
  }

  function EventOf(fields: seq<Field>): Event {
    Event(NameOf(fields, ""), Joined(DataOf(fields)))
  }

  /**
   Whatever lines come before a blank one, the block read has the name given last,
   without the white space around it, and the data lines in order with a newline
   between each two, each without one space after the colon; other lines add nothing.
   */
  lemma BlockIsRead(fields: seq<Field>, cr: bool, rest: string, ending: Ending)
    requires forall i :: 0 <= i < |fields| ==> WellFormed(fields[i])
    ensures ReadBlock(AllWritten(fields) + (Blank(cr) + rest), ending, "", []) == Block(EventOf(fields), rest)
  {
    FieldsAreRead(fields, Blank(cr) + rest, ending, "", []);
    BlankEnds(cr, rest, ending, NameOf(fields, ""), [] + DataOf(fields));
    assert [] + DataOf(fields) == DataOf(fields);
    JoinIsJoined(DataOf(fields));
  }

  /** A body that just ends yields a last block exactly when it is closed and there is a data line in it. */
  lemma LastBlockIsRead(fields: seq<Field>, ending: Ending)
    requires forall i :: 0 <= i < |fields| ==> WellFormed(fields[i])
    ensures ReadBlock(AllWritten(fields), ending, "", []) ==
            if ending.Closed? && DataOf(fields) != [] then Block(EventOf(fields), "") else NoBlock(ending)
  {
    FieldsAreRead(fields, "", ending, "", []);
    assert AllWritten(fields) + "" == AllWritten(fields) && [] + DataOf(fields) == DataOf(fields);
    JoinIsJoined(DataOf(fields));
  }

  // -------------------------------------------------------------------- whole bodies

  datatype Paragraph = Paragraph(fields: seq<Field>, cr: bool)

  function Body(blocks: seq<Paragraph>): string {
    if blocks == [] then "" else AllWritten(blocks[0].fields) + (Blank(blocks[0].cr) + Body(blocks[1..]))
  }

  /** The events up to the end marker; blocks without data are passed over. */
  function EventsOf(blocks: seq<Paragraph>): seq<Event> {
    if blocks == [] || EventOf(blocks[0].fields).data == "[DONE]" then []
    else (if EventOf(blocks[0].fields).data == "" then [] else [EventOf(blocks[0].fields)]) + EventsOf(blocks[1..])
  }

  predicate AllWellFormed(blocks: seq<Paragraph>) {
    forall b, i :: 0 <= b < |blocks| && 0 <= i < |blocks[b].fields| ==> WellFormed(blocks[b].fields[i])
  }

  /**
   For every body made of well-formed lines and blank ones: what is received is the
   events of its blocks with data, in order, up to the end marker or the end of the body.
   */
  lemma {:induction false} BodyIsReceived(blocks: seq<Paragraph>)
    requires AllWellFormed(blocks)
    ensures SseTheorems.Received(Body(blocks), Closed) == (EventsOf(blocks), End)
    decreases |blocks|
  {
    if blocks == [] {
      assert ReadBlock("", Closed, "", []) == NoBlock(Closed);
    } else {
      var first, rest := blocks[0], blocks[1..];
      assert forall i :: 0 <= i < |first.fields| ==> WellFormed(blocks[0].fields[i]);
      assert forall b :: 0 <= b < |rest| ==> rest[b] == blocks[b + 1];
      BlockIsRead(first.fields, first.cr, Body(rest), Closed);
      BodyIsReceived(rest);
      assert [] + EventsOf(rest) == EventsOf(rest);
    }
  }
}

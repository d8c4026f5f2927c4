/**
  Server-sent events as a provider may write them, byte by byte, and what the framing loop of
  internal/agent/eino/llm_stream.go reads.
 */
module SseWriting {
  import opened Bytes
  import opened SseStream

  /** A line of an event: a data field, with or without the blank behind its colon, or anything else. */
  datatype Line = Data(text: seq<Byte>, spaced: bool, crlf: bool) | Other(text: seq<Byte>, crlf: bool)

  /** Lines, closed by a blank one. */
  datatype Event = Event(lines: seq<Line>, crlf: bool)

  /** "data:" */
  const FIELD: seq<Byte> := [100, 97, 116, 97, 58]

  /** "[DONE]" */
  const MARKER: seq<Byte> := [91, 68, 79, 78, 69, 93]

  function Eol(crlf: bool): seq<Byte> {
    if crlf then [13, 10] else [10]
  }

  function Body(line: Line): seq<Byte> {
    match line
    case Data(text, spaced, _) => FIELD + (if spaced then [32] else []) + text
    case Other(text, _) => text
  }

  function WrittenLines(lines: seq<Line>): seq<Byte> {
    if lines == [] then [] else Body(lines[0]) + Eol(lines[0].crlf) + WrittenLines(lines[1..])
  }

  function Written(events: seq<Event>): seq<Byte> {
    if events == [] then []
    else WrittenLines(events[0].lines) + Eol(events[0].crlf) + Written(events[1..])
  }

  /** No line feed inside, no carriage return at the end; and a data field is told from any other line. */
  predicate Clear(line: Line) {
    && 10 !in line.text
    && (line.text != [] ==> line.text[|line.text| - 1] != 13)
    && (line.Data? && !line.spaced && line.text != [] ==> line.text[0] != 32)
    && (line.Other? ==> line.text != [] && !(FIELD <= line.text))
  }

  function Texts(lines: seq<Line>): seq<seq<Byte>> {
    if lines == [] then []
    else
      var last := lines[|lines| - 1];
      Texts(lines[..|lines| - 1]) + if last.Data? then [last.text] else []
  }

  /** With a line feed between each two. */
  function Joined(texts: seq<seq<Byte>>): seq<Byte> {
    if texts == [] then []
    else if |texts| == 1 then texts[0]
    else Joined(texts[..|texts| - 1]) + [10] + texts[|texts| - 1]
  }

  /** What the event says. */
  function Meant(event: Event): Frame {
    var texts := Texts(event.lines);
    if texts == [] then Empty
    else if TrimSpace(Joined(texts)) == MARKER then Done
    else Payload(Joined(texts))
  }

  /** An event without lines is only a blank line more. */
  function SaidBy(event: Event): seq<Frame> {
    if event.lines == [] then [] else [Meant(event)]
  }

  function Said(events: seq<Event>): seq<Frame> {
    if events == [] then [] else SaidBy(events[0]) + Said(events[1..])
  }

  // ---------------------------------------------------------------- lines

  lemma {:induction false} FirstLineIs(content: seq<Byte>, rest: seq<Byte>)
    requires 10 !in content
    ensures FirstLine(content + ([10] + rest)) == content + [10]
  {
    var s := content + ([10] + rest);
    if content == [] {
      assert s[0] == 10;
    } else {
      FirstLineIs(content[1..], rest);
      assert s[1..] == content[1..] + ([10] + rest) && s[0] == content[0] && content[0] in content;
      assert [content[0]] + (content[1..] + [10]) == content + [10];
    }
  }

  lemma OneTrimmed(s: seq<Byte>, b: Byte)
    requires b == 10 || b == 13
    ensures TrimEol(s + [b]) == TrimEol(s)
  {
    assert (s + [b])[..|s|] == s;
  }

  lemma NothingTrimmed(content: seq<Byte>)
    requires 10 !in content && (content != [] ==> content[|content| - 1] != 13)
    ensures TrimEol(content) == content
  {
    assert content != [] ==> content[|content| - 1] in content;
  }

  lemma EolIsTrimmed(content: seq<Byte>, crlf: bool)
    requires 10 !in content && (content != [] ==> content[|content| - 1] != 13)
    ensures TrimEol(content + Eol(crlf)) == content
  {
    hide TrimEol;
    NothingTrimmed(content);
    if crlf {
      OneTrimmed(content, 13);
      OneTrimmed(content + [13], 10);
      assert content + [13] + [10] == content + Eol(crlf);
    } else {
      OneTrimmed(content, 10);
    }
  }

  lemma LineIsRead(content: seq<Byte>, crlf: bool, rest: seq<Byte>)
    requires 10 !in content && (content != [] ==> content[|content| - 1] != 13)
    ensures Lines(content + Eol(crlf) + rest) == [content] + Lines(rest)
  {
    var s := content + Eol(crlf) + rest;
    var before := if crlf then content + [13] else content;
    FirstLineIs(before, rest);
    assert s == before + ([10] + rest) && before + [10] == content + Eol(crlf);
    EolIsTrimmed(content, crlf);
    assert s[|content + Eol(crlf)|..] == rest;
    hide FirstLine, TrimEol;
  }

  function Bodies(lines: seq<Line>): seq<seq<Byte>> {
    seq(|lines|, k requires 0 <= k < |lines| => Body(lines[k]))
  }

  lemma BodyIsClear(line: Line)
    requires Clear(line)
    ensures 10 !in Body(line) && Body(line) != [] && Body(line)[|Body(line)| - 1] != 13
  {
  }

  lemma {:induction false} LinesAreRead(lines: seq<Line>, rest: seq<Byte>)
    requires forall k | 0 <= k < |lines| :: Clear(lines[k])
    ensures Lines(WrittenLines(lines) + rest) == Bodies(lines) + Lines(rest)
  {
    hide Lines, Clear, Body;
    if lines == [] {
      assert [] + rest == rest && Bodies([]) == [] && [] + Lines(rest) == Lines(rest);
    } else {
      var first, more := lines[0], WrittenLines(lines[1..]) + rest;
      BodyIsClear(first);
      LinesAreRead(lines[1..], rest);
      LineIsRead(Body(first), first.crlf, more);
      assert WrittenLines(lines) + rest == Body(first) + Eol(first.crlf) + more;
      assert Bodies(lines) == [Body(first)] + Bodies(lines[1..]);
      Assoc([Body(first)], Bodies(lines[1..]), Lines(rest));
    }
  }

  // ---------------------------------------------------------------- events

  lemma {:induction false} EventIsRead(lines: seq<Line>, rest: seq<seq<Byte>>)
    requires forall k | 0 <= k < |lines| :: Clear(lines[k])
    ensures Events(Bodies(lines) + ([[]] + rest)) == (if lines == [] then [] else [Bodies(lines)]) + Events(rest)
  {
    var all := Bodies(lines) + ([[]] + rest);
    assert ([[]] + rest)[1..] == rest;
    if lines == [] {
      assert all == [[]] + rest && [] + Events(rest) == Events(rest);
    } else {
      forall k | 0 <= k < |lines|
        ensures Bodies(lines)[k] != []
      {
        BodyIsClear(lines[k]);
      }
      hide Body;
      NonBlankExactly(Bodies(lines), [[]] + rest);
      assert all[..|lines|] == Bodies(lines) && all[|lines|..] == [[]] + rest && all[0] == Bodies(lines)[0];
    }
  }

  lemma {:induction false} MoreDataLines(a: seq<seq<Byte>>, b: seq<Byte>)
    ensures DataLines(a + [b]) == DataLines(a) + if DATA <= b then [DataOf(b)] else []
  {
    hide DataOf;
    if a == [] {
      assert a + [b] == [b] && [b][1..] == [];
    } else {
      MoreDataLines(a[1..], b);
      assert (a + [b])[1..] == a[1..] + [b];
      Assoc(if DATA <= a[0] then [DataOf(a[0])] else [], DataLines(a[1..]), if DATA <= b then [DataOf(b)] else []);
    }
  }

  lemma DataIs(line: Line)
    requires Clear(line)
    ensures DATA <= Body(line) <==> line.Data?
    ensures line.Data? ==> DataOf(Body(line)) == line.text
  {
    if line.Data? {
      assert Body(line)[|FIELD|..] == (if line.spaced then [32] else []) + line.text;
    }
  }

  lemma {:induction false} TextsAreRead(lines: seq<Line>)
    requires forall k | 0 <= k < |lines| :: Clear(lines[k])
    ensures DataLines(Bodies(lines)) == Texts(lines)
  {
    if lines != [] {
      hide Body, Clear, DataOf;
      var n := |lines| - 1;
      TextsAreRead(lines[..n]);
      DataIs(lines[n]);
      MoreDataLines(Bodies(lines[..n]), Body(lines[n]));
      assert Bodies(lines) == Bodies(lines[..n]) + [Body(lines[n])];
    }
  }

  lemma {:induction false} JoinOneMore(a: seq<seq<Byte>>, b: seq<Byte>)
    requires a != []
    ensures JoinLines(a + [b]) == JoinLines(a) + [10] + b
  {
    if |a| == 1 {
      assert (a + [b])[1..] == [b];
    } else {
      JoinOneMore(a[1..], b);
      assert (a + [b])[1..] == a[1..] + [b];
      assert a[0] + [10] + (JoinLines(a[1..]) + [10] + b) == a[0] + [10] + JoinLines(a[1..]) + [10] + b;
    }
  }

  lemma {:induction false} JoinedAlike(texts: seq<seq<Byte>>)
    ensures JoinLines(texts) == Joined(texts)
  {
    if |texts| > 1 {
      var n := |texts| - 1;
      JoinedAlike(texts[..n]);
      JoinOneMore(texts[..n], texts[n]);
      assert texts == texts[..n] + [texts[n]];
    }
  }

  lemma {:induction false} FrameIsMeant(event: Event)
    requires forall k | 0 <= k < |event.lines| :: Clear(event.lines[k])
    ensures FrameOf(Bodies(event.lines)) == Meant(event)
  {
    hide Clear, Body, TrimSpace;
    TextsAreRead(event.lines);
    JoinedAlike(Texts(event.lines));
  }

  // ---------------------------------------------------------------- the stream

  predicate ClearEvent(event: Event) {
    forall k | 0 <= k < |event.lines| :: Clear(event.lines[k])
  }

  lemma EventAndBlankLine(event: Event, more: seq<Byte>)
    requires ClearEvent(event)
    ensures Events(Lines(WrittenLines(event.lines) + (Eol(event.crlf) + more))) ==
              (if event.lines == [] then [] else [Bodies(event.lines)]) + Events(Lines(more))
  {
    hide Events, Lines, Clear, Eol, WrittenLines;
    LinesAreRead(event.lines, Eol(event.crlf) + more);
    LineIsRead([], event.crlf, more);
    assert [] + Eol(event.crlf) + more == Eol(event.crlf) + more;
    EventIsRead(event.lines, Lines(more));
  }

  lemma OneEventIsRead(event: Event, more: seq<Byte>)
    requires ClearEvent(event)
    ensures Read(WrittenLines(event.lines) + (Eol(event.crlf) + more)) == SaidBy(event) + Read(more)
  {
    hide FrameOf, Meant, Events, Lines, Clear, Eol, WrittenLines;
    EventAndBlankLine(event, more);
    FrameIsMeant(event);
    var tail := Events(Lines(more));
    assert [] + tail == tail && [] + FramesOf(tail) == FramesOf(tail);
    assert ([Bodies(event.lines)] + tail)[1..] == tail;
  }

  /**
    Every stream that is written as server-sent events, with whatever line ends, other fields, comments
    and blank lines between, is read as the events it says, in their order, the data lines of one event
    joined; what is read of the rest of the bytes follows.
   */
  lemma {:induction false} WrittenIsRead(events: seq<Event>, rest: seq<Byte>)
    requires forall i | 0 <= i < |events| :: ClearEvent(events[i])
    ensures Read(Written(events) + rest) == Said(events) + Read(rest)
  {
    hide ClearEvent, Read, SaidBy, Eol, WrittenLines;
    if events == [] {
      assert [] + rest == rest && [] + Read(rest) == Read(rest);
    } else {
      var event, more := events[0], Written(events[1..]) + rest;
      WrittenIsRead(events[1..], rest);
      OneEventIsRead(event, more);
      assert Written(events) + rest == WrittenLines(event.lines) + (Eol(event.crlf) + more);
    }
  }

  predicate Blank(s: seq<Byte>) {
    forall i | 0 <= i < |s| :: 9 <= s[i] <= 13 || s[i] == 32
  }

  lemma {:induction false} BlankBefore(blank: seq<Byte>, s: seq<Byte>)
    requires Blank(blank)
    ensures TrimLeft(blank + s) == TrimLeft(s)
  {
    if blank == [] {
      assert blank + s == s;
    } else {
      BlankBefore(blank[1..], s);
      assert (blank + s)[1..] == blank[1..] + s;
    }
  }

  lemma OneBlankBehind(s: seq<Byte>, b: Byte)
    requires Blank([b])
    ensures TrimRight(s + [b]) == TrimRight(s)
  {
    var all := s + [b];
    assert [b][0] == b && all[|all| - 1..] == [b] && all[..|all| - 1] == s;
    assert SpaceLength([b]) == 1;
    assert EndsInSpace(all, 1);
  }

  lemma {:induction false} BlankBehind(s: seq<Byte>, blank: seq<Byte>)
    requires Blank(blank)
    ensures TrimRight(s + blank) == TrimRight(s)
    decreases |blank|
  {
    hide TrimRight;
    if blank == [] {
      assert s + blank == s;
    } else {
      var n := |blank| - 1;
      BlankBehind(s, blank[..n]);
      OneBlankBehind(s + blank[..n], blank[n]);
      assert s + blank == s + blank[..n] + [blank[n]];
    }
  }

  lemma MarkerStays(after: seq<Byte>)
    ensures TrimLeft(MARKER + after) == MARKER + after && TrimRight(MARKER) == MARKER
  {
    assert SpaceLength(MARKER + after) == 0;
    assert MARKER[5..] == [93] && MARKER[4..] == [69, 93] && MARKER[3..] == [78, 69, 93];
    assert !EndsInSpace(MARKER, 1) && !EndsInSpace(MARKER, 2) && !EndsInSpace(MARKER, 3);
  }

  /** The end marker is seen with blanks around it. */
  lemma MarkerIsSeen(before: seq<Byte>, after: seq<Byte>, spaced: bool, crlf: bool)
    requires Blank(before) && Blank(after)
    ensures Meant(Event([Data(before + MARKER + after, spaced, crlf)], crlf)) == Done
  {
    hide TrimLeft, TrimRight, Blank;
    var text := before + MARKER + after;
    BlankBefore(before, MARKER + after);
    assert text == before + (MARKER + after);
    MarkerStays(after);
    BlankBehind(MARKER, after);
    var lines := [Data(text, spaced, crlf)];
    assert lines[..0] == [] && Texts(lines) == [text];
  }
}

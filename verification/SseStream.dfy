/**
  internal/agent/eino/llm_stream.go: the framing loop that reads a chat completion as server-sent
  events, and the batch reading of the same bytes that it must agree with. JSON decoding of one
  frame is a parameter.
 */
module SseStream {
  import opened Bytes
  import opened Wrappers

  datatype ToolPart = ToolPart(index: int, name: seq<Byte>, arguments: seq<Byte>)
  datatype Choice = Choice(content: seq<Byte>, toolCalls: seq<ToolPart>, finishReason: seq<Byte>)
  datatype Usage = Usage(prompt: int, completion: int, total: int)
  datatype Chunk = Chunk(choices: seq<Choice>, usage: Option<Usage>)

  /** json.Unmarshal into a chunk; None is a malformed frame. */
  type Decoder = seq<Byte> -> Option<Chunk>

  // ---------------------------------------------------------------- batch reading: bytes to frames

  /** The first line of s, with its line feed when it has one. */
  function FirstLine(s: seq<Byte>): (line: seq<Byte>)
    requires s != []
    ensures line != [] && line <= s
  {
    if s[0] == LF || |s| == 1 then [s[0]] else [s[0]] + FirstLine(s[1..])
  }

  function TrimEol(line: seq<Byte>): (t: seq<Byte>)
    ensures t <= line
  {
    if line != [] && (line[|line| - 1] == CR || line[|line| - 1] == LF) then TrimEol(line[..|line| - 1]) else line
  }

  function Lines(s: seq<Byte>): seq<seq<Byte>> {
    if s == [] then []
    else
      var line := FirstLine(s);
      [TrimEol(line)] + Lines(s[|line|..])
  }

  /** How many lines at the front are not blank. */
  function NonBlank(lines: seq<seq<Byte>>): (n: nat)
    ensures n <= |lines|
    ensures forall i | 0 <= i < n :: lines[i] != []
    ensures n < |lines| ==> lines[n] == []
  {
    if lines == [] || lines[0] == [] then 0 else 1 + NonBlank(lines[1..])
  }

  /** Maximal groups of lines that are not blank. */
  function Events(lines: seq<seq<Byte>>): seq<seq<seq<Byte>>> {
    if lines == [] then []
    else if lines[0] == [] then Events(lines[1..])
    else
      var n := NonBlank(lines);
      [lines[..n]] + Events(lines[n..])
  }

  /** "data:" */
  const DATA: seq<Byte> := [100, 97, 116, 97, 58]

  /** "[DONE]" */
  const DONE: seq<Byte> := [91, 68, 79, 78, 69, 93]

  function DataOf(line: seq<Byte>): seq<Byte>
    requires DATA <= line
  {
    var s := line[|DATA|..];
    if s != [] && s[0] == SPACE then s[1..] else s
  }

  function DataLines(event: seq<seq<Byte>>): seq<seq<Byte>> {
    if event == [] then []
    else (if DATA <= event[0] then [DataOf(event[0])] else []) + DataLines(event[1..])
  }

  function JoinLines(lines: seq<seq<Byte>>): seq<Byte> {
    if lines == [] then []
    else if |lines| == 1 then lines[0]
    else lines[0] + [LF] + JoinLines(lines[1..])
  }

  /** What one event amounts to: nothing, the end marker, or a payload. */
  datatype Frame = Empty | Done | Payload(data: seq<Byte>)

  function FrameOf(event: seq<seq<Byte>>): Frame {
    var lines := DataLines(event);
    if lines == [] then Empty
    else if TrimSpace(JoinLines(lines)) == DONE then Done
    else Payload(JoinLines(lines))
  }

  function FramesOf(events: seq<seq<seq<Byte>>>): seq<Frame> {
    if events == [] then [] else [FrameOf(events[0])] + FramesOf(events[1..])
  }

  /** All frames of a body. */
  function Read(s: seq<Byte>): seq<Frame> {
    FramesOf(Events(Lines(s)))
  }

  // ---------------------------------------------------------------- batch reading: frames to updates

  /** The smallest observations a stream is made of, in the order they are made. */
  datatype Update =
    | Received
    | Used(usage: Usage)
    | Content(bytes: seq<Byte>)
    | Named(index: int, name: seq<Byte>)
    | Arguments(index: int, fragment: seq<Byte>)
    | Finish(reason: seq<Byte>)

  function ToolUpdates(part: ToolPart): seq<Update> {
    (if part.name != [] then [Named(part.index, part.name)] else []) +
    (if part.arguments != [] then [Arguments(part.index, part.arguments)] else [])
  }

  function ToolsUpdates(parts: seq<ToolPart>): seq<Update> {
    if parts == [] then [] else ToolUpdates(parts[0]) + ToolsUpdates(parts[1..])
  }

  function ChoiceUpdates(choice: Choice): seq<Update> {
    (if choice.content != [] then [Content(choice.content)] else []) +
    ToolsUpdates(choice.toolCalls) +
    (if choice.finishReason != [] then [Finish(choice.finishReason)] else [])
  }

  function ChoicesUpdates(choices: seq<Choice>): seq<Update> {
    if choices == [] then [] else ChoiceUpdates(choices[0]) + ChoicesUpdates(choices[1..])
  }

  function ChunkUpdates(chunk: Chunk): seq<Update> {
    [Received] + (if chunk.usage.Some? then [Used(chunk.usage.value)] else []) + ChoicesUpdates(chunk.choices)
  }

  function FrameUpdates(decode: Decoder, frame: Frame): seq<Update> {
    if frame.Payload? && decode(frame.data).Some? then ChunkUpdates(decode(frame.data).value) else []
  }

  /** All updates of the events up to the end marker. */
  function Replay(decode: Decoder, events: seq<seq<seq<Byte>>>): seq<Update> {
    if events == [] || FrameOf(events[0]) == Done then []
    else FrameUpdates(decode, FrameOf(events[0])) + Replay(decode, events[1..])
  }

  predicate HasDone(events: seq<seq<seq<Byte>>>) {
    exists i | 0 <= i < |events| :: FrameOf(events[i]) == Done
  }

  // ---------------------------------------------------------------- what the updates add up to

  function Front(log: seq<Update>): seq<Update>
    requires log != []
  {
    log[..|log| - 1]
  }

  function Last(log: seq<Update>): Update
    requires log != []
  {
    log[|log| - 1]
  }

  /** The content pieces, one per onDelta call. */
  function Deltas(log: seq<Update>): seq<seq<Byte>> {
    if log == [] then []
    else if Last(log).Content? then Deltas(Front(log)) + [Last(log).bytes]
    else Deltas(Front(log))
  }

  /** The argument fragments of one tool call. */
  function Fragments(log: seq<Update>, index: int): seq<seq<Byte>> {
    if log == [] then []
    else if Last(log).Arguments? && Last(log).index == index then Fragments(Front(log), index) + [Last(log).fragment]
    else Fragments(Front(log), index)
  }

  /** The onToolArgs calls: after each fragment, all that call's text so far. */
  function Reports(log: seq<Update>): seq<(int, seq<Byte>)> {
    if log == [] then []
    else if Last(log).Arguments? then
      Reports(Front(log)) + [(Last(log).index, Concat(Fragments(log, Last(log).index)))]
    else Reports(Front(log))
  }

  function LastName(log: seq<Update>, index: int): Option<seq<Byte>> {
    if log == [] then None
    else if Last(log).Named? && Last(log).index == index then Some(Last(log).name)
    else LastName(Front(log), index)
  }

  function LastFinish(log: seq<Update>): seq<Byte> {
    if log == [] then [] else if Last(log).Finish? then Last(log).reason else LastFinish(Front(log))
  }

  function LastUsage(log: seq<Update>): Usage {
    if log == [] then Usage(0, 0, 0) else if Last(log).Used? then Last(log).usage else LastUsage(Front(log))
  }

  function Count(log: seq<Update>): nat {
    if log == [] then 0 else Count(Front(log)) + if Last(log).Received? then 1 else 0
  }

  // ---------------------------------------------------------------- the code

  datatype Outcome = Finished | Cancelled | ReadFailed

  /** streamResult, with the calls made to onDelta and onToolArgs. */
  datatype Result = Result(
    content: seq<Byte>,
    arguments: map<int, seq<Byte>>,
    names: map<int, seq<Byte>>,
    usage: Usage,
    finishReason: seq<Byte>,
    chunksReceived: nat,
    deltas: seq<seq<Byte>>,
    reports: seq<(int, seq<Byte>)>)

  const NOTHING := Result([], map[], map[], Usage(0, 0, 0), [], 0, [], [])

  /** The result is what the updates add up to. */
  ghost predicate Summarizes(r: Result, log: seq<Update>) {
    && r.deltas == Deltas(log)
    && r.content == Concat(r.deltas)
    && (forall i :: i in r.arguments <==> Fragments(log, i) != [])
    && (forall i | i in r.arguments :: r.arguments[i] == Concat(Fragments(log, i)))
    && r.reports == Reports(log)
    && (forall i :: LastName(log, i) == if i in r.names then Some(r.names[i]) else None)
    && r.usage == LastUsage(log)
    && r.finishReason == LastFinish(log)
    && r.chunksReceived == Count(log)
  }

  lemma Appended(log: seq<Update>, u: Update)
    ensures Front(log + [u]) == log && Last(log + [u]) == u
  {
  }

  lemma {:induction false} SummarizeSmall(r: Result, log: seq<Update>, u: Update)
    requires Summarizes(r, log) && !u.Arguments? && !u.Content?
    ensures Summarizes(
              match u
              case Received => r.(chunksReceived := r.chunksReceived + 1)
              case Used(usage) => r.(usage := usage)
              case Named(i, name) => r.(names := r.names[i := name])
              case Finish(reason) => r.(finishReason := reason), log + [u])
  {
    Appended(log, u);
  }

  lemma SummarizeContent(r: Result, log: seq<Update>, bytes: seq<Byte>)
    requires Summarizes(r, log)
    ensures Summarizes(r.(content := r.content + bytes, deltas := r.deltas + [bytes]), log + [Content(bytes)])
  {
    Appended(log, Content(bytes));
    ConcatSnoc(r.deltas, bytes);
  }

  lemma SummarizeArguments(r: Result, log: seq<Update>, i: int, fragment: seq<Byte>)
    requires Summarizes(r, log)
    ensures var args := (if i in r.arguments then r.arguments[i] else []) + fragment;
            Summarizes(r.(arguments := r.arguments[i := args], reports := r.reports + [(i, args)]),
                       log + [Arguments(i, fragment)])
  {
    Appended(log, Arguments(i, fragment));
    ConcatSnoc(Fragments(log, i), fragment);
  }

  class ChatStream {
    const decode: Decoder
    var eventLines: seq<seq<Byte>>
    var result: Result
    /** Every update so far. */
    ghost var log: seq<Update>

    ghost predicate Valid()
      reads this
    {
      Summarizes(result, log)
    }

    constructor (decode: Decoder)
      ensures Valid() && log == [] && eventLines == [] && this.decode == decode
    {
      this.decode := decode;
      eventLines, result, log := [], NOTHING, [];
    }

    method AddToolPart(part: ToolPart)
      requires Valid()
      modifies this
      ensures Valid() && eventLines == old(eventLines)
      ensures log == old(log) + ToolUpdates(part)
    {
      hide Summarizes;
      var i := part.index;
      if part.name != [] {
        SummarizeSmall(result, log, Named(i, part.name));
        result := result.(names := result.names[i := part.name]);
        log := log + [Named(i, part.name)];
      }
      if part.arguments != [] {
        SummarizeArguments(result, log, i, part.arguments);
        var args := (if i in result.arguments then result.arguments[i] else []) + part.arguments;
        result := result.(arguments := result.arguments[i := args], reports := result.reports + [(i, args)]);
        log := log + [Arguments(i, part.arguments)];
      }
    }

    method AddChoice(choice: Choice)
      requires Valid()
      modifies this
      ensures Valid() && eventLines == old(eventLines)
      ensures log == old(log) + ChoiceUpdates(choice)
    {
      hide Summarizes, ToolUpdates;
      if choice.content != [] {
        SummarizeContent(result, log, choice.content);
        result := result.(content := result.content + choice.content, deltas := result.deltas + [choice.content]);
        log := log + [Content(choice.content)];
      }
      ghost var start := log;
      var parts := choice.toolCalls;
      var k := 0;
      while k < |parts|
        invariant 0 <= k <= |parts|
        invariant Valid() && eventLines == old(eventLines)
        invariant log + ToolsUpdates(parts[k..]) == start + ToolsUpdates(parts)
      {
        assert parts[k..][1..] == parts[k + 1..];
        Assoc(log, ToolUpdates(parts[k]), ToolsUpdates(parts[k + 1..]));
        AddToolPart(parts[k]);
        k := k + 1;
      }
      assert log == start + ToolsUpdates(parts);
      if choice.finishReason != [] {
        SummarizeSmall(result, log, Finish(choice.finishReason));
        result := result.(finishReason := choice.finishReason);
        log := log + [Finish(choice.finishReason)];
      }
    }

    method AddChunk(chunk: Chunk)
      requires Valid()
      modifies this
      ensures Valid() && eventLines == old(eventLines)
      ensures log == old(log) + ChunkUpdates(chunk)
    {
      hide Summarizes, ChoiceUpdates;
      SummarizeSmall(result, log, Received);
      result := result.(chunksReceived := result.chunksReceived + 1);
      log := log + [Received];
      if chunk.usage.Some? {
        SummarizeSmall(result, log, Used(chunk.usage.value));
        result := result.(usage := chunk.usage.value);
        log := log + [Used(chunk.usage.value)];
      }
      ghost var start := log;
      var choices := chunk.choices;
      var k := 0;
      while k < |choices|
        invariant 0 <= k <= |choices|
        invariant Valid() && eventLines == old(eventLines)
        invariant log + ChoicesUpdates(choices[k..]) == start + ChoicesUpdates(choices)
      {
        assert choices[k..][1..] == choices[k + 1..];
        Assoc(log, ChoiceUpdates(choices[k]), ChoicesUpdates(choices[k + 1..]));
        AddChoice(choices[k]);
        k := k + 1;
      }
      assert log == start + ChoicesUpdates(choices);
    }

    /** flushEvent; `done` is its io.EOF. */
    method FlushEvent() returns (done: bool)
      requires Valid()
      modifies this
      ensures Valid() && eventLines == []
      ensures done <==> FrameOf(old(eventLines)) == Done
      ensures log == old(log) + FrameUpdates(decode, FrameOf(old(eventLines)))
    {
      hide Summarizes, ChunkUpdates, TrimSpace, JoinLines, DataOf;
      var lines := eventLines;
      eventLines := [];
      var dataLines := [];
      var k := 0;
      while k < |lines|
        invariant 0 <= k <= |lines|
        invariant dataLines + DataLines(lines[k..]) == DataLines(lines)
      {
        assert lines[k..][1..] == lines[k + 1..];
        if DATA <= lines[k] {
          dataLines := dataLines + [DataOf(lines[k])];
        }
        k := k + 1;
      }
      assert dataLines == DataLines(lines);
      if dataLines == [] {
        return false;
      }
      var data := JoinLines(dataLines);
      if TrimSpace(data) == DONE {
        return true;
      }
      match decode(data) {
        case None =>
        case Some(chunk) => AddChunk(chunk);
      }
      return false;
    }

    /**
      The read loop over a body that ends in EOF, or in a read error when `broken`;
      live(n) says that the context is not cancelled when iteration n starts. `turns` counts the iterations
      that were gone through.
     */
    method Run(body: seq<Byte>, broken: bool, live: nat -> bool) returns (r: Outcome, ghost turns: nat)
      requires Valid() && log == [] && eventLines == []
      modifies this
      ensures Valid()
      ensures r == Finished ==> log == Replay(decode, Events(Lines(body)))
      ensures log <= Replay(decode, Events(Lines(body)))
      ensures forall k | 0 <= k < turns :: live(k)
      ensures if r == Cancelled then !live(turns) else turns > 0
      ensures !broken ==> r != ReadFailed
      ensures broken && r == Finished ==> HasDone(Events(Lines(body)))
    {
      hide Summarizes, FrameOf, FrameUpdates, Replay, Events, Lines, TrimEol, Split, HasDone;
      var pos := 0;
      var n := 0;
      ghost var passed := [];
      AllToCome(body);
      ghost var all := Replay(decode, Events(Lines(body)));
      assert body[0..] == body;
      while true
        invariant 0 <= pos <= |body|
        invariant Valid()
        invariant forall i | 0 <= i < |eventLines| :: eventLines[i] != []
        invariant Pending(log, decode, eventLines, body[pos..], all)
        invariant Split(passed, eventLines, body[pos..], Events(Lines(body)))
        invariant forall k | 0 <= k < n :: live(k)
        decreases |body| - pos + 1
      {
        if !live(n) {
          return Cancelled, n;
        }
        n := n + 1;
        var atEnd := pos == |body|;
        if !atEnd {
          var line := FirstLine(body[pos..]);
          var trimmed := TrimEol(line);
          assert body[pos..][|line|..] == body[pos + |line|..];
          ReadLine(log, decode, eventLines, body[pos..], all);
          NextLine(passed, eventLines, body[pos..], Events(Lines(body)));
          pos := pos + |line|;
          atEnd := line[|line| - 1] != LF;
          if trimmed == [] {
            passed := if eventLines == [] then passed else passed + [eventLines];
            var done := FlushEvent();
            NoUpdates(decode);
            if done {
              return Finished, n;
            }
          } else {
            eventLines := eventLines + [trimmed];
          }
        }
        if atEnd {
          if broken {
            return ReadFailed, n;
          }
          TailEvent(log, decode, eventLines, body[pos..], all);
          var _ := FlushEvent();
          return Finished, n;
        }
      }
    }
  }

  /** What is still to be observed once the lines in `event` are waiting and s is unread. */
  ghost predicate Pending(log: seq<Update>, decode: Decoder, event: seq<seq<Byte>>, s: seq<Byte>, all: seq<Update>) {
    log + Replay(decode, Events(event + Lines(s))) == all
  }

  lemma {:induction false} NonBlankExactly(event: seq<seq<Byte>>, rest: seq<seq<Byte>>)
    requires forall i | 0 <= i < |event| :: event[i] != []
    requires rest == [] || rest[0] == []
    ensures NonBlank(event + rest) == |event|
  {
    if event == [] {
      assert event + rest == rest;
    } else {
      NonBlankExactly(event[1..], rest);
      assert (event + rest)[1..] == event[1..] + rest;
    }
  }

  lemma {:induction false} OneEvent(decode: Decoder, event: seq<seq<Byte>>, rest: seq<seq<Byte>>)
    requires forall i | 0 <= i < |event| :: event[i] != []
    requires rest == [] || rest[0] == []
    ensures Replay(decode, Events(event + rest))
         == if FrameOf(event) == Done then [] else FrameUpdates(decode, FrameOf(event)) + Replay(decode, Events(rest))
  {
    hide FrameUpdates;
    if event == [] {
      assert event + rest == rest;
      assert FrameUpdates(decode, Empty) + Replay(decode, Events(rest)) == Replay(decode, Events(rest)) by {
        NoUpdates(decode);
      }
    } else {
      NonBlankExactly(event, rest);
      assert (event + rest)[..|event|] == event && (event + rest)[|event|..] == rest;
      assert Events(event + rest) == [event] + Events(rest);
      assert ([event] + Events(rest))[1..] == Events(rest);
    }
  }

  /** These events have passed; the others are made of the waiting lines and of what is unread. */
  ghost predicate Split(passed: seq<seq<seq<Byte>>>, event: seq<seq<Byte>>, s: seq<Byte>, all: seq<seq<seq<Byte>>>) {
    passed + Events(event + Lines(s)) == all
  }

  lemma AllToCome(body: seq<Byte>)
    ensures Split([], [], body, Events(Lines(body)))
    ensures forall decode :: Pending([], decode, [], body, Replay(decode, Events(Lines(body))))
  {
    hide Events, Lines, Replay;
    assert [] + Lines(body) == Lines(body);
    assert [] + Events(Lines(body)) == Events(Lines(body));
  }

  /** What one line more does to the events that have passed and to those still to come. */
  lemma {:induction false} NextLine(passed: seq<seq<seq<Byte>>>, event: seq<seq<Byte>>, s: seq<Byte>,
      all: seq<seq<seq<Byte>>>)
    requires s != [] && forall i | 0 <= i < |event| :: event[i] != []
    requires Split(passed, event, s, all)
    ensures var line := FirstLine(s);
            if TrimEol(line) != [] then Split(passed, event + [TrimEol(line)], s[|line|..], all)
            else
              Split(if event == [] then passed else passed + [event], [], s[|line|..], all)
              && (FrameOf(event) == Done ==> HasDone(all))
  {
    hide FrameOf, TrimEol, FirstLine;
    var line := FirstLine(s);
    var trimmed, tail := TrimEol(line), Lines(s[|line|..]);
    assert Lines(s) == [trimmed] + tail;
    if trimmed != [] {
      Assoc(event, [trimmed], tail);
    } else {
      assert [] + tail == tail && ([[]] + tail)[1..] == tail;
      if event == [] {
        assert event + Lines(s) == [[]] + tail;
        NothingIsEmpty();
      } else {
        NonBlankExactly(event, [[]] + tail);
        assert (event + Lines(s))[..|event|] == event && (event + Lines(s))[|event|..] == [[]] + tail;
        assert Events(event + Lines(s)) == [event] + Events(tail);
        assert all[|passed|] == event;
        Assoc(passed, [event], Events(tail));
      }
    }
  }

  lemma NothingIsEmpty()
    ensures FrameOf([]) == Empty
  {
  }

  lemma NoUpdates(decode: Decoder)
    ensures FrameUpdates(decode, Empty) == FrameUpdates(decode, Done) == []
  {
  }

  /** One turn of the read loop, seen from the batch reading. */
  lemma {:induction false} ReadLine(log: seq<Update>, decode: Decoder, event: seq<seq<Byte>>, s: seq<Byte>,
      all: seq<Update>)
    requires s != []
    requires forall i | 0 <= i < |event| :: event[i] != []
    requires Pending(log, decode, event, s, all)
    ensures var line := FirstLine(s);
            var frame := FrameOf(event);
            if TrimEol(line) != [] then Pending(log, decode, event + [TrimEol(line)], s[|line|..], all)
            else if frame == Done then log == all
            else Pending(log + FrameUpdates(decode, frame), decode, [], s[|line|..], all)
    ensures FirstLine(s)[|FirstLine(s)| - 1] != LF ==> s[|FirstLine(s)|..] == []
  {
    hide FrameOf, FrameUpdates, Replay, TrimEol, Events, FirstLine;
    var line := FirstLine(s);
    var trimmed, tail := TrimEol(line), Lines(s[|line|..]);
    FirstLineEnds(s);
    assert Lines(s) == [trimmed] + tail;
    if trimmed != [] {
      Assoc(event, [trimmed], tail);
    } else {
      OneEvent(decode, event, Lines(s));
      BlankLine(tail);
      assert [] + tail == tail;
      Assoc(log, FrameUpdates(decode, FrameOf(event)), Replay(decode, Events(tail)));
      assert log + [] == log;
    }
  }

  /** At the end of the body the waiting lines are the last event. */
  lemma TailEvent(log: seq<Update>, decode: Decoder, event: seq<seq<Byte>>, s: seq<Byte>, all: seq<Update>)
    requires s == []
    requires forall i | 0 <= i < |event| :: event[i] != []
    requires Pending(log, decode, event, s, all)
    ensures log + FrameUpdates(decode, FrameOf(event)) == all
  {
    hide FrameOf;
    OneEvent(decode, event, []);
    assert event + [] == event;
  }

  lemma BlankLine(tail: seq<seq<Byte>>)
    ensures Events([[]] + tail) == Events(tail)
  {
  }

  lemma {:induction false} FirstLineEnds(s: seq<Byte>)
    requires s != []
    ensures FirstLine(s)[|FirstLine(s)| - 1] != LF ==> FirstLine(s) == s
  {
    if s[0] != LF && |s| > 1 {
      FirstLineEnds(s[1..]);
      assert s == [s[0]] + s[1..];
    }
  }

  // ---------------------------------------------------------------- consequences

  lemma {:induction false} LinesAppend(s: seq<Byte>, t: seq<Byte>)
    requires s == [] || s[|s| - 1] == LF
    ensures Lines(s + t) == Lines(s) + Lines(t)
  {
    hide TrimEol;
    if s == [] {
      assert s + t == t && [] + Lines(t) == Lines(t);
    } else {
      var line := FirstLine(s);
      FirstLineAppend(s, t);
      FirstLineEnds(s);
      assert (s + t)[|line|..] == s[|line|..] + t;
      LinesAppend(s[|line|..], t);
      Assoc([TrimEol(line)], Lines(s[|line|..]), Lines(t));
    }
  }

  lemma {:induction false} FirstLineAppend(s: seq<Byte>, t: seq<Byte>)
    requires s != [] && s[|s| - 1] == LF
    ensures FirstLine(s + t) == FirstLine(s)
  {
    if s[0] != LF {
      FirstLineAppend(s[1..], t);
      assert (s + t)[1..] == s[1..] + t;
    }
  }

  /** After a blank line the reading starts afresh. */
  lemma {:induction false} EventsAppend(a: seq<seq<Byte>>, b: seq<seq<Byte>>)
    requires a == [] || a[|a| - 1] == []
    ensures Events(a + b) == Events(a) + Events(b)
    decreases |a|
  {
    if a == [] {
      assert a + b == b && [] + Events(b) == Events(b);
    } else if a[0] == [] {
      assert (a + b)[1..] == a[1..] + b;
      EventsAppend(a[1..], b);
    } else {
      var n := NonBlank(a);
      var event, rest := a[..n], a[n..];
      assert a == event + rest && a + b == event + (rest + b);
      NonBlankExactly(event, rest + b);
      assert (a + b)[..n] == event && (a + b)[n..] == rest + b;
      EventsAppend(rest, b);
      Assoc([event], Events(rest), Events(b));
    }
  }

  lemma {:induction false} ReplayAppend(decode: Decoder, a: seq<seq<seq<Byte>>>, b: seq<seq<seq<Byte>>>)
    ensures Replay(decode, a + b) == if HasDone(a) then Replay(decode, a) else Replay(decode, a) + Replay(decode, b)
  {
    hide FrameOf, FrameUpdates;
    if a == [] {
      assert a + b == b && [] + Replay(decode, b) == Replay(decode, b);
    } else if FrameOf(a[0]) != Done {
      assert (a + b)[1..] == a[1..] + b;
      ReplayAppend(decode, a[1..], b);
      Assoc(FrameUpdates(decode, FrameOf(a[0])), Replay(decode, a[1..]), Replay(decode, b));
      assert HasDone(a) ==> HasDone(a[1..]);
    }
  }

  /** A part of the stream that ends with a blank line. */
  predicate Complete(s: seq<Byte>) {
    s == [] || (s[|s| - 1] == LF && Lines(s)[|Lines(s)| - 1] == [])
  }

  /** What a stream made of two parts says, when the first part is complete. */
  lemma {:induction false} StreamsCompose(decode: Decoder, s: seq<Byte>, t: seq<Byte>)
    requires Complete(s)
    ensures Replay(decode, Events(Lines(s + t)))
         == Replay(decode, Events(Lines(s)))
            + if HasDone(Events(Lines(s))) then [] else Replay(decode, Events(Lines(t)))
  {
    hide FrameOf, FrameUpdates, Replay, Events, Lines;
    LinesAppend(s, t);
    if s == [] {
      NoLines();
    }
    EventsAppend(Lines(s), Lines(t));
    ReplayAppend(decode, Events(Lines(s)), Events(Lines(t)));
    assert Replay(decode, Events(Lines(s))) + [] == Replay(decode, Events(Lines(s)));
  }

  lemma NoLines()
    ensures Lines([]) == []
  {
  }

  /** Nothing after the end marker has any effect. */
  lemma {:induction false} NothingAfterDone(decode: Decoder, s: seq<Byte>, t: seq<Byte>)
    requires Complete(s) && HasDone(Events(Lines(s)))
    ensures Replay(decode, Events(Lines(s + t))) == Replay(decode, Events(Lines(s)))
  {
    hide Events, Lines;
    StreamsCompose(decode, s, t);
    assert Replay(decode, Events(Lines(s))) + [] == Replay(decode, Events(Lines(s)));
  }

  /** A malformed frame between two others leaves no trace. */
  lemma {:induction false} MalformedFrameIsSkipped(decode: Decoder, s: seq<Byte>, bad: seq<Byte>, t: seq<Byte>)
    requires Complete(s) && Complete(bad)
    requires |Events(Lines(bad))| == 1
    requires FrameOf(Events(Lines(bad))[0]).Payload?
    requires decode(FrameOf(Events(Lines(bad))[0]).data).None?
    ensures Replay(decode, Events(Lines(s + (bad + t)))) == Replay(decode, Events(Lines(s + t)))
  {
    hide Events, Lines, FrameOf;
    StreamsCompose(decode, s, bad + t);
    StreamsCompose(decode, bad, t);
    StreamsCompose(decode, s, t);
    var events := Events(Lines(bad));
    assert events[1..] == [];
    assert Replay(decode, events) == [];
    assert [] + Replay(decode, Events(Lines(t))) == Replay(decode, Events(Lines(t)));
  }
}

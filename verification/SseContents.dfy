/**
  internal/agent/eino/llm_stream.go: what a whole stream adds up to, said of the decoded chunks
  themselves.
 */
module SseContents {
  import opened Bytes
  import opened Wrappers
  import opened SseStream

  // ---------------------------------------------------------------- of the chunks

  /** The chunks of the frames before the end marker, leaving out those that do not decode. */
  function Chunks(decode: Decoder, frames: seq<Frame>): seq<Chunk> {
    if frames == [] || frames[0] == Done then []
    else
      (if frames[0].Payload? && decode(frames[0].data).Some? then [decode(frames[0].data).value] else [])
      + Chunks(decode, frames[1..])
  }

  function Choices(chunks: seq<Chunk>): seq<Choice> {
    if chunks == [] then [] else Choices(chunks[..|chunks| - 1]) + chunks[|chunks| - 1].choices
  }

  function Parts(choices: seq<Choice>): seq<ToolPart> {
    if choices == [] then [] else Parts(choices[..|choices| - 1]) + choices[|choices| - 1].toolCalls
  }

  function ContentOf(choices: seq<Choice>): seq<Byte> {
    if choices == [] then [] else ContentOf(choices[..|choices| - 1]) + choices[|choices| - 1].content
  }

  /** All that the parts of one tool call say, named or not. */
  function ArgumentsOf(parts: seq<ToolPart>, index: int): seq<Byte> {
    if parts == [] then []
    else
      var last := parts[|parts| - 1];
      ArgumentsOf(parts[..|parts| - 1], index) + if last.index == index then last.arguments else []
  }

  /** The last name of one tool call that is not empty, or the empty one. */
  function NameOf(parts: seq<ToolPart>, index: int): seq<Byte> {
    if parts == [] then []
    else
      var last := parts[|parts| - 1];
      if last.index == index && last.name != [] then last.name else NameOf(parts[..|parts| - 1], index)
  }

  function ReasonOf(choices: seq<Choice>): seq<Byte> {
    if choices == [] then []
    else
      var last := choices[|choices| - 1];
      if last.finishReason != [] then last.finishReason else ReasonOf(choices[..|choices| - 1])
  }

  function UsageOf(chunks: seq<Chunk>): Usage {
    if chunks == [] then Usage(0, 0, 0)
    else
      var last := chunks[|chunks| - 1];
      if last.usage.Some? then last.usage.value else UsageOf(chunks[..|chunks| - 1])
  }

  /** The content pieces shown: those that are not empty. */
  function PiecesOf(choices: seq<Choice>): seq<seq<Byte>> {
    if choices == [] then []
    else
      var last := choices[|choices| - 1];
      PiecesOf(choices[..|choices| - 1]) + if last.content != [] then [last.content] else []
  }

  /** The reports of a tool call's growing text: one for each part that has arguments. */
  function ReportsOf(parts: seq<ToolPart>): seq<(int, seq<Byte>)> {
    if parts == [] then []
    else
      var last := parts[|parts| - 1];
      ReportsOf(parts[..|parts| - 1])
      + if last.arguments != [] then [(last.index, ArgumentsOf(parts, last.index))] else []
  }

  function Or<K, V>(m: map<K, seq<V>>, key: K): seq<V> {
    if key in m then m[key] else []
  }

  /** The result holds what these chunks say. */
  ghost predicate Holds(r: Result, chunks: seq<Chunk>) {
    var choices := Choices(chunks);
    && r.content == ContentOf(choices) && r.deltas == PiecesOf(choices)
    && (forall i :: Or(r.arguments, i) == ArgumentsOf(Parts(choices), i))
    && (forall i :: Or(r.names, i) == NameOf(Parts(choices), i))
    && r.reports == ReportsOf(Parts(choices))
    && r.finishReason == ReasonOf(choices)
    && r.usage == UsageOf(chunks)
    && r.chunksReceived == |chunks|
  }

  // ---------------------------------------------------------------- of the updates

  function NameIn(log: seq<Update>, index: int): seq<Byte> {
    match LastName(log, index) case None => [] case Some(name) => name
  }

  /**
    The updates so far: of these chunks the arrival and the usage, of these choices the content, of
    these parts everything, and of these choices the reason.
   */
  ghost predicate Tells(log: seq<Update>, arrived: seq<Chunk>, used: seq<Chunk>, contents: seq<Choice>,
                        parts: seq<ToolPart>, reasons: seq<Choice>) {
    && Count(log) == |arrived|
    && LastUsage(log) == UsageOf(used)
    && Concat(Deltas(log)) == ContentOf(contents) && Deltas(log) == PiecesOf(contents)
    && Reports(log) == ReportsOf(parts)
    && (forall i :: Concat(Fragments(log, i)) == ArgumentsOf(parts, i))
    && (forall i :: NameIn(log, i) == NameOf(parts, i))
    && LastFinish(log) == ReasonOf(reasons)
  }

  lemma Longer<T>(s: seq<T>, x: T)
    ensures (s + [x])[..|s + [x]| - 1] == s && (s + [x])[|s + [x]| - 1] == x
  {
  }

  /** What one update more changes. */
  lemma OneUpdate(log: seq<Update>, u: Update)
    ensures var log' := log + [u];
            && Count(log') == Count(log) + (if u.Received? then 1 else 0)
            && LastUsage(log') == (if u.Used? then u.usage else LastUsage(log))
            && Deltas(log') == (if u.Content? then Deltas(log) + [u.bytes] else Deltas(log))
            && LastFinish(log') == (if u.Finish? then u.reason else LastFinish(log))
            && Reports(log') == (if u.Arguments? then Reports(log) + [(u.index, Concat(Fragments(log', u.index)))]
                                 else Reports(log))
    ensures forall i :: NameIn(log + [u], i) == if u.Named? && u.index == i then u.name else NameIn(log, i)
    ensures forall i :: Fragments(log + [u], i) ==
              if u.Arguments? && u.index == i then Fragments(log, i) + [u.fragment] else Fragments(log, i)
  {
    Appended(log, u);
  }

  lemma ArrivalTold(log: seq<Update>, arrived: seq<Chunk>, used: seq<Chunk>, contents: seq<Choice>,
                    parts: seq<ToolPart>, reasons: seq<Choice>, chunk: Chunk)
    requires Tells(log, arrived, used, contents, parts, reasons)
    ensures Tells(log + [Received], arrived + [chunk], used, contents, parts, reasons)
  {
    OneUpdate(log, Received);
    hide Count, LastUsage, Deltas, Reports, Fragments, NameIn, LastFinish;
  }

  lemma UsageTold(log: seq<Update>, arrived: seq<Chunk>, used: seq<Chunk>, contents: seq<Choice>,
                  parts: seq<ToolPart>, reasons: seq<Choice>, chunk: Chunk)
    requires Tells(log, arrived, used, contents, parts, reasons)
    ensures Tells(log + (if chunk.usage.Some? then [Used(chunk.usage.value)] else []), arrived, used + [chunk],
                  contents, parts, reasons)
  {
    Longer(used, chunk);
    if chunk.usage.Some? {
      OneUpdate(log, Used(chunk.usage.value));
    } else {
      assert log + [] == log;
    }
    hide Count, LastUsage, Deltas, Reports, Fragments, NameIn, LastFinish;
  }

  lemma ContentTold(log: seq<Update>, arrived: seq<Chunk>, used: seq<Chunk>, contents: seq<Choice>,
                    parts: seq<ToolPart>, reasons: seq<Choice>, choice: Choice)
    requires Tells(log, arrived, used, contents, parts, reasons)
    ensures Tells(log + (if choice.content != [] then [Content(choice.content)] else []), arrived, used,
                  contents + [choice], parts, reasons)
  {
    hide Count, LastUsage, Deltas, Reports, Fragments, NameIn, LastFinish, Concat;
    Longer(contents, choice);
    if choice.content != [] {
      OneUpdate(log, Content(choice.content));
      ConcatSnoc(Deltas(log), choice.content);
    } else {
      assert log + [] == log && ContentOf(contents) + [] == ContentOf(contents);
      assert PiecesOf(contents) + [] == PiecesOf(contents);
    }
  }

  lemma ReasonTold(log: seq<Update>, arrived: seq<Chunk>, used: seq<Chunk>, contents: seq<Choice>,
                   parts: seq<ToolPart>, reasons: seq<Choice>, choice: Choice)
    requires Tells(log, arrived, used, contents, parts, reasons)
    ensures Tells(log + (if choice.finishReason != [] then [Finish(choice.finishReason)] else []), arrived, used,
                  contents, parts, reasons + [choice])
  {
    hide Count, LastUsage, Deltas, Reports, Fragments, NameIn, LastFinish, Concat;
    Longer(reasons, choice);
    if choice.finishReason != [] {
      OneUpdate(log, Finish(choice.finishReason));
    } else {
      assert log + [] == log;
    }
  }

  /** A part's name and its arguments, where it has them. */
  lemma PartUpdates(log: seq<Update>, part: ToolPart)
    ensures var log' := log + ToolUpdates(part);
            && Count(log') == Count(log) && LastUsage(log') == LastUsage(log) && Deltas(log') == Deltas(log)
            && LastFinish(log') == LastFinish(log)
            && Reports(log') == Reports(log) + (if part.arguments == [] then []
                 else [(part.index, Concat(Fragments(log', part.index)))])
    ensures forall i :: NameIn(log + ToolUpdates(part), i) ==
              if part.name != [] && i == part.index then part.name else NameIn(log, i)
    ensures forall i :: Concat(Fragments(log + ToolUpdates(part), i)) ==
              Concat(Fragments(log, i)) + if i == part.index then part.arguments else []
  {
    hide Count, LastUsage, Deltas, Reports, Fragments, NameIn, LastFinish, Concat;
    var named := log + if part.name != [] then [Named(part.index, part.name)] else [];
    assert log + [] == log && named + [] == named && Reports(log) + [] == Reports(log);
    assert forall s: seq<Byte> :: s + [] == s;
    if part.name != [] {
      OneUpdate(log, Named(part.index, part.name));
    }
    if part.arguments != [] {
      OneUpdate(named, Arguments(part.index, part.arguments));
      ConcatSnoc(Fragments(log, part.index), part.arguments);
      assert log + ToolUpdates(part) == named + [Arguments(part.index, part.arguments)];
    } else {
      assert log + ToolUpdates(part) == named;
    }
  }

  lemma PartTold(log: seq<Update>, arrived: seq<Chunk>, used: seq<Chunk>, contents: seq<Choice>,
                 parts: seq<ToolPart>, reasons: seq<Choice>, part: ToolPart)
    requires Tells(log, arrived, used, contents, parts, reasons)
    ensures Tells(log + ToolUpdates(part), arrived, used, contents, parts + [part], reasons)
  {
    hide Count, LastUsage, Deltas, Reports, Fragments, NameIn, LastFinish, Concat, ToolUpdates, ContentOf, UsageOf,
         ReasonOf;
    Longer(parts, part);
    PartUpdates(log, part);
  }

  lemma {:induction false} PartsTold(log: seq<Update>, arrived: seq<Chunk>, used: seq<Chunk>, contents: seq<Choice>,
      parts: seq<ToolPart>, reasons: seq<Choice>, more: seq<ToolPart>)
    requires Tells(log, arrived, used, contents, parts, reasons)
    ensures Tells(log + ToolsUpdates(more), arrived, used, contents, parts + more, reasons)
    decreases |more|
  {
    hide Tells, ToolUpdates;
    if more == [] {
      assert log + [] == log && parts + [] == parts;
    } else {
      PartTold(log, arrived, used, contents, parts, reasons, more[0]);
      PartsTold(log + ToolUpdates(more[0]), arrived, used, contents, parts + [more[0]], reasons, more[1..]);
      Assoc(log, ToolUpdates(more[0]), ToolsUpdates(more[1..]));
      assert parts + [more[0]] + more[1..] == parts + more;
    }
  }

  lemma {:induction false} ChoiceTold(log: seq<Update>, chunks: seq<Chunk>, choices: seq<Choice>, choice: Choice)
    requires Tells(log, chunks, chunks, choices, Parts(choices), choices)
    ensures var more := choices + [choice]; Tells(log + ChoiceUpdates(choice), chunks, chunks, more, Parts(more), more)
  {
    hide Tells, ToolsUpdates;
    Longer(choices, choice);
    var more := choices + [choice];
    var one := log + if choice.content != [] then [Content(choice.content)] else [];
    ContentTold(log, chunks, chunks, choices, Parts(choices), choices, choice);
    PartsTold(one, chunks, chunks, more, Parts(choices), choices, choice.toolCalls);
    ReasonTold(one + ToolsUpdates(choice.toolCalls), chunks, chunks, more, Parts(more), choices, choice);
    assert log + ChoiceUpdates(choice) == one + ToolsUpdates(choice.toolCalls)
                                          + if choice.finishReason != [] then [Finish(choice.finishReason)] else [];
  }

  lemma {:induction false} ChoicesTold(log: seq<Update>, chunks: seq<Chunk>, choices: seq<Choice>, more: seq<Choice>)
    requires Tells(log, chunks, chunks, choices, Parts(choices), choices)
    ensures var all := choices + more; Tells(log + ChoicesUpdates(more), chunks, chunks, all, Parts(all), all)
    decreases |more|
  {
    hide Tells, ChoiceUpdates, Parts;
    if more == [] {
      assert log + [] == log && choices + [] == choices;
    } else {
      ChoiceTold(log, chunks, choices, more[0]);
      ChoicesTold(log + ChoiceUpdates(more[0]), chunks, choices + [more[0]], more[1..]);
      Assoc(log, ChoiceUpdates(more[0]), ChoicesUpdates(more[1..]));
      assert choices + [more[0]] + more[1..] == choices + more;
    }
  }

  lemma {:induction false} ChunkTold(log: seq<Update>, chunks: seq<Chunk>, chunk: Chunk)
    requires ToldBy(log, chunks)
    ensures ToldBy(log + ChunkUpdates(chunk), chunks + [chunk])
  {
    hide Tells, ChoicesUpdates, Parts;
    var choices := Choices(chunks);
    var more := chunks + [chunk];
    Longer(chunks, chunk);
    ArrivalTold(log, chunks, chunks, choices, Parts(choices), choices, chunk);
    UsageTold(log + [Received], more, chunks, choices, Parts(choices), choices, chunk);
    var one := log + [Received] + if chunk.usage.Some? then [Used(chunk.usage.value)] else [];
    ChoicesTold(one, more, choices, chunk.choices);
    assert log + ChunkUpdates(chunk) == one + ChoicesUpdates(chunk.choices);
  }

  /** The updates tell exactly these chunks. */
  ghost predicate ToldBy(log: seq<Update>, chunks: seq<Chunk>) {
    var choices := Choices(chunks); Tells(log, chunks, chunks, choices, Parts(choices), choices)
  }

  lemma {:induction false} EventsTold(log: seq<Update>, chunks: seq<Chunk>, decode: Decoder,
      events: seq<seq<seq<Byte>>>)
    requires ToldBy(log, chunks)
    ensures ToldBy(log + Replay(decode, events), chunks + Chunks(decode, FramesOf(events)))
    decreases |events|
  {
    hide ToldBy, FrameOf, ChunkUpdates;
    var frames := FramesOf(events);
    assert events != [] ==> frames[0] == FrameOf(events[0]) && frames[1..] == FramesOf(events[1..]);
    if events == [] || FrameOf(events[0]) == Done {
      assert log + [] == log && chunks + [] == chunks;
    } else {
      var frame, rest := FrameOf(events[0]), Replay(decode, events[1..]);
      if frame.Payload? && decode(frame.data).Some? {
        var chunk := decode(frame.data).value;
        ChunkTold(log, chunks, chunk);
        EventsTold(log + ChunkUpdates(chunk), chunks + [chunk], decode, events[1..]);
        Assoc(log, ChunkUpdates(chunk), rest);
        Assoc(chunks, [chunk], Chunks(decode, frames[1..]));
      } else {
        EventsTold(log, chunks, decode, events[1..]);
        assert [] + rest == rest && [] + Chunks(decode, frames[1..]) == Chunks(decode, frames[1..]);
      }
    }
  }

  lemma NothingTold()
    ensures ToldBy([], [])
  {
  }

  /**
    For every body that was read to its end: content, arguments and names of each tool call, finish
    reason, usage and number of chunks are what the decodable frames before the end marker say, taken
    together.
   */
  lemma {:induction false} ResultHoldsTheChunks(r: Result, decode: Decoder, body: seq<Byte>)
    requires Summarizes(r, Replay(decode, Events(Lines(body))))
    ensures Holds(r, Chunks(decode, Read(body)))
  {
    hide ToldBy, Tells, Events, Lines, Replay, Chunks;
    var log, chunks := Replay(decode, Events(Lines(body))), Chunks(decode, Read(body));
    NothingTold();
    EventsTold([], [], decode, Events(Lines(body)));
    assert [] + log == log && [] + chunks == chunks;
    Agree(r, log, chunks);
  }

  lemma Agree(r: Result, log: seq<Update>, chunks: seq<Chunk>)
    requires Summarizes(r, log) && ToldBy(log, chunks)
    ensures Holds(r, chunks)
  {
    hide Count, LastUsage, Deltas, Fragments, LastName, LastFinish, Reports, Parts, Choices, ContentOf, PiecesOf,
         ReportsOf, ArgumentsOf,
         NameOf, ReasonOf, UsageOf;
    assert Concat([]) == [];
  }

  // ---------------------------------------------------------------- one tool call

  /** Whatever part has arguments belongs to this tool call. */
  predicate OnlyCall(parts: seq<ToolPart>, index: int) {
    forall part | part in parts :: part.arguments != [] ==> part.index == index
  }

  lemma {:induction false} NothingElse(parts: seq<ToolPart>, index: int, other: int)
    requires OnlyCall(parts, index) && other != index
    ensures ArgumentsOf(parts, other) == []
  {
    if parts != [] {
      var n := |parts| - 1;
      assert parts[n] in parts && forall part | part in parts[..n] :: part in parts;
      NothingElse(parts[..n], index, other);
    }
  }

  predicate NoneEmpty(log: seq<Update>) {
    forall k | 0 <= k < |log| :: log[k].Arguments? ==> log[k].fragment != []
  }

  lemma NoneEmptyTogether(a: seq<Update>, b: seq<Update>)
    requires NoneEmpty(a) && NoneEmpty(b)
    ensures NoneEmpty(a + b)
  {
  }

  lemma {:induction false} ToolsNoneEmpty(parts: seq<ToolPart>)
    ensures NoneEmpty(ToolsUpdates(parts))
  {
    if parts != [] {
      ToolsNoneEmpty(parts[1..]);
      NoneEmptyTogether(ToolUpdates(parts[0]), ToolsUpdates(parts[1..]));
    }
  }

  lemma {:induction false} ChoicesNoneEmpty(choices: seq<Choice>)
    ensures NoneEmpty(ChoicesUpdates(choices))
  {
    if choices != [] {
      ChoicesNoneEmpty(choices[1..]);
      var choice := choices[0];
      ToolsNoneEmpty(choice.toolCalls);
      var content := if choice.content != [] then [Content(choice.content)] else [];
      var reason := if choice.finishReason != [] then [Finish(choice.finishReason)] else [];
      NoneEmptyTogether(content, ToolsUpdates(choice.toolCalls));
      NoneEmptyTogether(content + ToolsUpdates(choice.toolCalls), reason);
      NoneEmptyTogether(ChoiceUpdates(choice), ChoicesUpdates(choices[1..]));
    }
  }

  lemma {:induction false} EventsNoneEmpty(decode: Decoder, events: seq<seq<seq<Byte>>>)
    ensures NoneEmpty(Replay(decode, events))
  {
    hide FrameOf, NoneEmpty;
    if events == [] || FrameOf(events[0]) == Done {
      NothingIsNoneEmpty();
    } else {
      EventsNoneEmpty(decode, events[1..]);
      FrameNoneEmpty(decode, FrameOf(events[0]));
      NoneEmptyTogether(FrameUpdates(decode, FrameOf(events[0])), Replay(decode, events[1..]));
    }
  }

  lemma NothingIsNoneEmpty()
    ensures NoneEmpty([])
  {
  }

  lemma FrameNoneEmpty(decode: Decoder, frame: Frame)
    ensures NoneEmpty(FrameUpdates(decode, frame))
  {
    if frame.Payload? && decode(frame.data).Some? {
      var chunk := decode(frame.data).value;
      ChoicesNoneEmpty(chunk.choices);
      var start := [Received] + if chunk.usage.Some? then [Used(chunk.usage.value)] else [];
      NoneEmptyTogether(start, ChoicesUpdates(chunk.choices));
    }
  }

  /** A fragment that is not empty shows in the text of its tool call. */
  lemma {:induction false} FragmentShows(log: seq<Update>, k: nat)
    requires k < |log| && log[k].Arguments? && log[k].fragment != []
    ensures Concat(Fragments(log, log[k].index)) != []
  {
    var index := log[k].index;
    if k == |log| - 1 {
      ConcatSnoc(Fragments(Front(log), index), log[k].fragment);
    } else {
      FragmentShows(Front(log), k);
      if Last(log).Arguments? && Last(log).index == index {
        ConcatSnoc(Fragments(Front(log), index), Last(log).fragment);
      }
    }
  }

  /** When the chunks have one tool call, so have the updates. */
  lemma {:induction false} OnlyCallInUpdates(decode: Decoder, body: seq<Byte>, index: int)
    requires OnlyCall(Parts(Choices(Chunks(decode, Read(body)))), index)
    ensures var log := Replay(decode, Events(Lines(body)));
            forall k | 0 <= k < |log| :: log[k].Arguments? ==> log[k].index == index
  {
    hide Tells, Events, Lines, Replay, Chunks;
    var log, chunks := Replay(decode, Events(Lines(body))), Chunks(decode, Read(body));
    NothingTold();
    EventsTold([], [], decode, Events(Lines(body)));
    assert [] + log == log && [] + chunks == chunks;
    EventsNoneEmpty(decode, Events(Lines(body)));
    forall k | 0 <= k < |log| && log[k].Arguments?
      ensures log[k].index == index
    {
      FragmentShows(log, k);
      TextIs(log, chunks, log[k].index);
      if log[k].index != index {
        NothingElse(Parts(Choices(chunks)), index, log[k].index);
      }
    }
  }

  lemma TextIs(log: seq<Update>, chunks: seq<Chunk>, index: int)
    requires ToldBy(log, chunks)
    ensures Concat(Fragments(log, index)) == ArgumentsOf(Parts(Choices(chunks)), index)
  {
    hide Count, LastUsage, Deltas, Reports, NameIn, LastFinish, Concat, Fragments, ArgumentsOf, ContentOf, UsageOf,
         ReasonOf, PiecesOf, ReportsOf, NameOf, Parts, Choices;
  }
}

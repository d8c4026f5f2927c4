/**
  internal/agent/eino/llm.go, generateTravelPlanStreaming: showing the summary of a plan while the
  tool call that carries it is still being streamed.
 */
module LlmStreaming {
  import opened Bytes
  import opened Wrappers
  import opened SummaryStream
  import opened SseStream
  import opened SseContents
  import opened Utf8
  import W = SummaryWriting

  /** What the user has been shown: the prefix on display, the deltas sent, the times it was replayed. */
  datatype Display = Display(shown: seq<Byte>, deltas: seq<seq<Byte>>, resets: nat)

  const BLANK := Display([], [], 0)

  /** The display after the callback has seen `accumulated`. */
  function Feed(d: Display, accumulated: seq<Byte>): Display {
    var current := Extract(accumulated);
    if |current| <= |d.shown| then d
    else if d.shown <= current then Display(current, d.deltas + [current[|d.shown|..]], d.resets)
    else Display(current, d.deltas + [current], d.resets + 1)
  }

  function FeedAll(reports: seq<(int, seq<Byte>)>): Display {
    if reports == [] then BLANK
    else Feed(FeedAll(reports[..|reports| - 1]), reports[|reports| - 1].1)
  }

  /** The display after the final flush. */
  function Flush(d: Display, rawArgs: seq<Byte>): Display {
    var final := Extract(rawArgs);
    if |final| > |d.shown| && d.shown <= final then Display(final, d.deltas + [final[|d.shown|..]], d.resets) else d
  }

  // ---------------------------------------------------------------- the code

  class SummaryReporter {
    var emittedPrefix: seq<Byte>
    /** Calls of ReportLLMDelta, and the one of ReportLLMDone. */
    var deltas: seq<seq<Byte>>
    var done: Option<seq<Byte>>
    /** How often the replay branch was taken. */
    var resets: nat

    function State(): Display
      reads this
    {
      Display(emittedPrefix, deltas, resets)
    }

    constructor ()
      ensures State() == BLANK && done == None
    {
      emittedPrefix, deltas, done, resets := [], [], None, 0;
    }

    method OnToolArgs(accumulated: seq<Byte>)
      modifies this
      ensures State() == Feed(old(State()), accumulated) && done == old(done)
    {
      hide Extract;
      var current := ExtractSummarySoFar(accumulated);
      if |current| <= |emittedPrefix| {
        return;
      }
      if !(emittedPrefix <= current) {
        emittedPrefix := [];
        resets := resets + 1;
      }
      var delta := current[|emittedPrefix|..];
      emittedPrefix := current;
      if delta != [] {
        deltas := deltas + [delta];
      }
    }

    method Finish(rawArgs: seq<Byte>)
      modifies this
      ensures State() == Flush(old(State()), rawArgs)
      ensures done == if emittedPrefix != [] then Some(emittedPrefix) else old(done)
    {
      hide Extract;
      var final := ExtractSummarySoFar(rawArgs);
      if |final| > |emittedPrefix| {
        if emittedPrefix <= final {
          var tail := final[|emittedPrefix|..];
          if tail != [] {
            deltas := deltas + [tail];
          }
          emittedPrefix := final;
        }
      }
      if emittedPrefix != [] {
        done := Some(emittedPrefix);
      }
    }
  }

  /** A tool call whose text can be the plan. */
  predicate Usable(strict: bool, toolName: seq<Byte>, r: Result, i: int) {
    && i in r.arguments && TrimSpace(r.arguments[i]) != []
    && (strict ==> i !in r.names || r.names[i] == [] || r.names[i] == toolName)
  }

  /**
    extractStreamToolPayload; `strict` stands for a DeepSeek model that supports tool calls, and
    `order` is the order, any order, in which the map of tool calls is visited.
   */
  method ExtractStreamToolPayload(strict: bool, toolName: seq<Byte>, r: Result, order: seq<int>)
    returns (payload: Option<seq<Byte>>)
    requires forall i :: i in order <==> i in r.arguments
    ensures (exists i :: Usable(strict, toolName, r, i)) ==>
              payload.Some? && exists i :: Usable(strict, toolName, r, i) && payload.value == r.arguments[i]
    ensures (forall i :: !Usable(strict, toolName, r, i)) ==>
              payload == if strict || TrimSpace(r.content) == [] then None else Some(TrimSpace(r.content))
  {
    hide TrimSpace;
    var k := 0;
    while k < |order|
      invariant 0 <= k <= |order|
      invariant forall j | 0 <= j < k :: !Usable(strict, toolName, r, order[j])
    {
      var index := order[k];
      k := k + 1;
      if TrimSpace(r.arguments[index]) == [] {
        continue;
      }
      if !strict {
        assert Usable(strict, toolName, r, index);
        return Some(r.arguments[index]);
      }
      var name := if index in r.names then r.names[index] else [];
      if name == [] || name == toolName {
        assert Usable(strict, toolName, r, index);
        return Some(r.arguments[index]);
      }
    }
    if strict || TrimSpace(r.content) == [] {
      return None;
    }
    return Some(TrimSpace(r.content));
  }

  /** Every fragment of the stream belongs to the one tool call `index`. */
  ghost predicate SingleIndex(log: seq<Update>, index: int) {
    forall k | 0 <= k < |log| :: log[k].Arguments? ==> log[k].index == index
  }

  lemma PartOfSingle(all: seq<Update>, log: seq<Update>, index: int)
    requires log <= all && SingleIndex(all, index)
    ensures SingleIndex(log, index)
  {
  }

  /** The callback runs once per report, in the order of the reports. */
  method ShowReports(reports: seq<(int, seq<Byte>)>) returns (reporter: SummaryReporter)
    ensures fresh(reporter)
    ensures reporter.State() == FeedAll(reports) && reporter.done == None
  {
    hide Feed;
    reporter := new SummaryReporter();
    var k := 0;
    while k < |reports|
      invariant 0 <= k <= |reports|
      invariant fresh(reporter)
      invariant reporter.State() == FeedAll(reports[..k]) && reporter.done == None
    {
      assert reports[..k + 1][..k] == reports[..k];
      reporter.OnToolArgs(reports[k].1);
      k := k + 1;
    }
    assert reports[..k] == reports;
  }

  /**
    One streaming request, from response body to shown summary. `parses` stands for
    parseTravelPlanArguments, `visit` for the order Go picks for the keys of a map. The result is
    the text that was parsed as the plan, if any.
   */
  method GenerateTravelPlanStreaming(
      decode: Decoder, body: seq<Byte>, broken: bool, live: nat -> bool,
      strict: bool, toolName: seq<Byte>, visit: set<int> -> seq<int>, parses: seq<Byte> -> bool)
    returns (plan: Option<seq<Byte>>, reporter: SummaryReporter)
    requires forall keys, i :: i in visit(keys) <==> i in keys
    ensures plan.Some? ==> parses(plan.value)
    ensures forall index | OnlyCall(PartsIn(decode, body), index) && plan.Some? ::
              && Concat(reporter.deltas) == Extract(plan.value)
              && reporter.done == (if Extract(plan.value) == [] then None else Some(Extract(plan.value)))
    ensures forall index | OnlyCall(PartsIn(decode, body), index) :: reporter.resets == 0
    ensures !broken && (forall n :: live(n)) ==>
              forall index | OnlyCall(PartsIn(decode, body), index) ::
                plan == Parsed(Payload(strict, toolName, ChoicesIn(decode, body), index), parses)
  {
    hide Summarizes, Extract, Concat, Replay, Usable, TrimSpace, Feed, FeedAll, SingleIndex, OnlyCall, PartsIn,
         ChoicesIn,
      Payload;
    var stream := new ChatStream(decode);
    var outcome, _ := stream.Run(body, broken, live);
    ghost var log := stream.log;
    forall index | OnlyCall(PartsIn(decode, body), index)
      ensures SingleIndex(log, index)
    {
      OnlyCallIsSingle(decode, body, index);
      PartOfSingle(Replay(decode, Events(Lines(body))), log, index);
    }
    var result := stream.result;
    ReportsAreSummarized(result, log);
    reporter := ShowReports(result.reports);
    plan := None;
    if outcome == Finished {
      plan := ExtractStreamToolPayload(strict, toolName, result, visit(result.arguments.Keys));
      forall index | OnlyCall(PartsIn(decode, body), index)
        ensures plan == Payload(strict, toolName, ChoicesIn(decode, body), index)
      {
        PayloadIs(decode, body, index, strict, toolName, result, plan);
      }
    }
    forall index | SingleIndex(log, index)
      ensures reporter.State().resets == 0
      ensures plan.Some? ==> Flush(reporter.State(), plan.value).shown == Extract(plan.value)
      ensures plan.Some? ==> Concat(Flush(reporter.State(), plan.value).deltas) == Extract(plan.value)
    {
      ShownSoFar(log, index);
      if plan.Some? {
        ShownAtTheEnd(log, index, result, strict, toolName, plan.value);
      }
    }
    if plan.Some? && !parses(plan.value) {
      plan := None;
    }
    if plan.Some? {
      reporter.Finish(plan.value);
    }
  }

  // ---------------------------------------------------------------- which text is the plan

  /** The choices of the decodable chunks before the end marker, and the parts of tool calls in them. */
  function ChoicesIn(decode: Decoder, body: seq<Byte>): seq<Choice> {
    Choices(Chunks(decode, Read(body)))
  }

  function PartsIn(decode: Decoder, body: seq<Byte>): seq<ToolPart> {
    Parts(ChoicesIn(decode, body))
  }

  /** The arguments of the tool call if it is one that can be the plan, or else the content, if any may do. */
  function Payload(strict: bool, toolName: seq<Byte>, choices: seq<Choice>, index: int): Option<seq<Byte>> {
    var text, name, content := ArgumentsOf(Parts(choices), index), NameOf(Parts(choices), index),
                               TrimSpace(ContentOf(choices));
    if TrimSpace(text) != [] && (!strict || name == [] || name == toolName) then Some(text)
    else if strict || content == [] then None
    else Some(content)
  }

  function Parsed(payload: Option<seq<Byte>>, parses: seq<Byte> -> bool): Option<seq<Byte>> {
    if payload.Some? && parses(payload.value) then payload else None
  }

  lemma OnlyCallIsSingle(decode: Decoder, body: seq<Byte>, index: int)
    requires OnlyCall(PartsIn(decode, body), index)
    ensures SingleIndex(Replay(decode, Events(Lines(body))), index)
  {
    OnlyCallInUpdates(decode, body, index);
  }

  lemma BlankIsBlank()
    ensures TrimSpace([]) == []
  {
  }

  /** Only the one tool call of a stream can be usable. */
  lemma UsableIs(r: Result, chunks: seq<Chunk>, index: int, strict: bool, toolName: seq<Byte>, i: int)
    requires Holds(r, chunks) && OnlyCall(Parts(Choices(chunks)), index)
    ensures var text := ArgumentsOf(Parts(Choices(chunks)), index); var name := NameOf(Parts(Choices(chunks)), index);
            && (Usable(strict, toolName, r, i) <==>
                  i == index && TrimSpace(text) != [] && (!strict || name == [] || name == toolName))
            && (Usable(strict, toolName, r, i) ==> r.arguments[i] == text)
  {
    hide TrimSpace, Parts, Choices, ArgumentsOf, NameOf, ContentOf, OnlyCall, ReasonOf, UsageOf, PiecesOf, ReportsOf;
    BlankIsBlank();
    var parts := Parts(Choices(chunks));
    if i != index {
      NothingElse(parts, index, i);
    }
    assert Or(r.arguments, i) == ArgumentsOf(parts, i) && Or(r.names, i) == NameOf(parts, i);
  }

  lemma PayloadIs(decode: Decoder, body: seq<Byte>, index: int, strict: bool, toolName: seq<Byte>, r: Result,
                  payload: Option<seq<Byte>>)
    requires OnlyCall(PartsIn(decode, body), index)
    requires Summarizes(r, Replay(decode, Events(Lines(body))))
    requires (exists i :: Usable(strict, toolName, r, i)) ==>
               payload.Some? && exists i :: Usable(strict, toolName, r, i) && payload.value == r.arguments[i]
    requires (forall i :: !Usable(strict, toolName, r, i)) ==>
               payload == if strict || TrimSpace(r.content) == [] then None else Some(TrimSpace(r.content))
    ensures payload == Payload(strict, toolName, ChoicesIn(decode, body), index)
  {
    ResultHoldsTheChunks(r, decode, body);
    var chunks := Chunks(decode, Read(body));
    hide Summarizes, TrimSpace, Chunks, Read, Choices, Parts, ArgumentsOf, NameOf, ContentOf, OnlyCall, Usable;
    ContentIs(r, chunks);
    hide Holds;
    forall i
      ensures Usable(strict, toolName, r, i) ==> i == index
    {
      UsableIs(r, chunks, index, strict, toolName, i);
    }
    UsableIs(r, chunks, index, strict, toolName, index);
  }

  lemma ContentIs(r: Result, chunks: seq<Chunk>)
    requires Holds(r, chunks)
    ensures r.content == ContentOf(Choices(chunks))
  {
  }

  // ---------------------------------------------------------------- what is shown

  /** The display agrees with the text received: all of its summary is shown, and was never revised. */
  predicate InStep(d: Display, text: seq<Byte>) {
    d.shown == Extract(text) && Concat(d.deltas) == d.shown && d.resets == 0
  }

  lemma {:induction false} FeedMore(d: Display, text: seq<Byte>, more: seq<Byte>)
    requires InStep(d, text)
    ensures InStep(Feed(d, text + more), text + more)
  {
    hide Extract, Concat;
    ExtractGrows(text, more);
    var current := Extract(text + more);
    var tail := current[|d.shown|..];
    ConcatSnoc(d.deltas, tail);
    assert d.shown + tail == current;
  }

  /** However the text was cut, what has been shown is what can be extracted, without any replay. */
  lemma {:induction false} ShownSoFar(log: seq<Update>, index: int)
    requires SingleIndex(log, index)
    ensures InStep(FeedAll(Reports(log)), Concat(Fragments(log, index)))
  {
    hide InStep, Feed;
    if log == [] {
      NothingShown();
    } else {
      ShownSoFar(Front(log), index);
      if Last(log).Arguments? {
        FeedMore(FeedAll(Reports(Front(log))), Concat(Fragments(Front(log), index)), Last(log).fragment);
        ConcatSnoc(Fragments(Front(log), index), Last(log).fragment);
        assert Reports(log)[..|Reports(log)| - 1] == Reports(Front(log));
      }
    }
  }

  lemma NothingShown()
    ensures InStep(BLANK, [])
  {
  }

  /** The summary shown depends only on the whole argument text, not on how it was cut. */
  lemma {:induction false} FragmentationDoesNotMatter(log1: seq<Update>, log2: seq<Update>, index: int)
    requires SingleIndex(log1, index) && SingleIndex(log2, index)
    requires Concat(Fragments(log1, index)) == Concat(Fragments(log2, index))
    ensures Concat(FeedAll(Reports(log1)).deltas) == Concat(FeedAll(Reports(log2)).deltas)
  {
    hide Extract;
    ShownSoFar(log1, index);
    ShownSoFar(log2, index);
  }

  lemma ReportsAreSummarized(r: Result, log: seq<Update>)
    requires Summarizes(r, log)
    ensures r.reports == Reports(log)
  {
  }

  /** No quote, no summary. */
  lemma NothingToExtract(raw: seq<Byte>)
    requires QUOTE !in raw
    ensures Extract(raw) == []
  {
    if FirstMatch(raw, 0).Some? {
      KeyHasQuote(raw, FirstMatch(raw, 0).value);
    }
  }

  lemma KeyHasQuote(raw: seq<Byte>, i: nat)
    requires KeyAt(raw, i)
    ensures QUOTE in raw
  {
    assert raw[i] == raw[i..i + |KEY|][0];
  }

  lemma {:induction false} OtherIndexesAreEmpty(log: seq<Update>, index: int, other: int)
    requires SingleIndex(log, index) && other != index
    ensures Fragments(log, other) == []
  {
    if log != [] {
      OtherIndexesAreEmpty(Front(log), index, other);
    }
  }

  /** The text parsed as the plan is the text whose summary was shown. */
  lemma {:induction false} ShownAtTheEnd(
      log: seq<Update>, index: int, r: Result, strict: bool, toolName: seq<Byte>, rawArgs: seq<Byte>)
    requires SingleIndex(log, index) && Summarizes(r, log)
    requires || (exists i :: Usable(strict, toolName, r, i) && rawArgs == r.arguments[i])
             || (!strict && forall i :: !Usable(strict, toolName, r, i))
    ensures var d := Flush(FeedAll(Reports(log)), rawArgs);
            d.shown == Extract(rawArgs) && Concat(d.deltas) == Extract(rawArgs)
  {
    hide Extract, Reports, FeedAll, TrimSpace;
    ShownSoFar(log, index);
    var d := FeedAll(Reports(log));
    if i :| Usable(strict, toolName, r, i) && rawArgs == r.arguments[i] {
      if i != index {
        OtherIndexesAreEmpty(log, index, i);
      }
    } else {
      var text := Concat(Fragments(log, index));
      if index in r.arguments {
        assert !Usable(strict, toolName, r, index);
      }
      NothingToExtract(text);
      ConcatSnoc(d.deltas, Extract(rawArgs)[|d.shown|..]);
    }
  }

  // ---------------------------------------------------------------- two tool calls

  /** A plan whose arguments have this summary and nothing else. */
  function SummaryOf(text: seq<seq<Byte>>): seq<Byte>
    requires AllRunes(text)
  {
    W.Document(W.Head([OPEN_BRACE], [], []), W.WriteAll(text), [125])
  }

  lemma SummaryIsRead(text: seq<seq<Byte>>)
    requires AllRunes(text)
    ensures Extract(SummaryOf(text)) == Concat(text)
  {
    KeyIsFirst();
    hide Extract, FirstMatch;
    W.EveryTextRoundTrips([OPEN_BRACE], [], [], text, [125]);
  }

  lemma KeyIsFirst()
    ensures FirstMatch([OPEN_BRACE] + KEY, 0) == Some(|[OPEN_BRACE]|)
  {
    var raw := [OPEN_BRACE] + KEY;
    assert raw[1..10] == KEY;
    assert !KeyAt(raw, 0) by { assert raw[0..9][0] == raw[0]; }
  }

  /**
    With a second tool call the display is replayed, whenever that call's summary is longer and does not
    go on from the first one's: both have then been sent, one behind the other.
   */
  lemma SecondCallReplays(i: int, first: seq<seq<Byte>>, j: int, second: seq<seq<Byte>>)
    requires i != j && AllRunes(first) && AllRunes(second)
    requires 0 < |Concat(first)| < |Concat(second)| && !(Concat(first) <= Concat(second))
    ensures FeedAll(Reports([Arguments(i, SummaryOf(first)), Arguments(j, SummaryOf(second))])) ==
              Display(Concat(second), [Concat(first), Concat(second)], 1)
  {
    hide Extract, SummaryOf, Concat;
    SummaryIsRead(first);
    SummaryIsRead(second);
    TwoReports(i, SummaryOf(first), j, SummaryOf(second));
    var r: (int, seq<Byte>) := (i, SummaryOf(first));
    var both := [r, (j, SummaryOf(second))];
    assert both[..1] == [r] && |[r][..0]| == 0;
    assert FeedAll([r]) == Feed(BLANK, r.1);
  }

  lemma TwoReports(i: int, a: seq<Byte>, j: int, b: seq<Byte>)
    requires i != j
    ensures Reports([Arguments(i, a), Arguments(j, b)]) == [(i, a), (j, b)]
  {
    var one, two := Arguments(i, a), Arguments(j, b);
    assert Front([one, two]) == [one] && Last([one, two]) == two;
    assert Front([one]) == [] && Last([one]) == one;
    assert Fragments([], i) == [] && Fragments([], j) == [];
    assert Fragments([one], i) == [a] && Fragments([one], j) == [];
    assert Fragments([one, two], j) == [b];
    assert Concat([a]) == a && Concat([b]) == b;
    assert Reports([one]) == Reports([]) + [(i, a)];
    hide Fragments, Concat;
    assert Reports([one, two]) == Reports([one]) + [(j, b)];
  }

  /** As x and yy do. */
  lemma SecondCallCanReplay()
    ensures exists first, second | AllRunes(first) && AllRunes(second) ::
              FeedAll(Reports([Arguments(0, SummaryOf(first)), Arguments(1, SummaryOf(second))])).resets == 1
  {
    var x, yy := [[120]], [[121], [121]];
    assert yy[1..] == [[121]];
    assert Concat(x) == [120] && Concat([[121]]) == [121] && Concat(yy) == [121, 121];
    hide FeedAll, Reports, SummaryOf;
    SecondCallReplays(0, x, 1, yy);
  }
}

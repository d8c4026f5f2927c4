/** What the planner writes into a plan's warnings, and what the evaluation harness reads out of them. */
module WarningRoundTrip {
  import opened Wrappers
  import opened Text
  import opened Numbers
  import opened LlmWarnings
  import opened Evaluator

  predicate NoBlanks(s: string) {
    forall c | c in s :: !IsSpace(c)
  }

  predicate IsWord(s: string) {
    s != "" && forall c | c in s :: !IsSpace(c)
  }

  lemma {:induction false} WordIsCounted(w: string, rest: string)
    requires forall c | c in w :: !IsSpace(c)
    requires rest == "" || IsSpace(rest[0])
    ensures WordLength(w + rest) == |w|
  {
    if w == "" {
      assert w + rest == rest;
    } else {
      assert (w + rest)[1..] == w[1..] + rest;
      WordIsCounted(w[1..], rest);
    }
  }

  /** A word and a blank in front of a text are one more field. */
  lemma WordIsField(w: string, rest: string)
    requires IsWord(w)
    ensures Fields(w + " " + rest) == [w] + Fields(rest)
  {
    var s := w + (" " + rest);
    assert w + " " + rest == s;
    WordIsCounted(w, " " + rest);
    assert s[..|w|] == w && s[|w|..] == " " + rest && (" " + rest)[1..] == rest;
    assert s[0] in w;
  }

  lemma LastWordIsField(w: string)
    requires IsWord(w)
    ensures Fields(w) == [w]
  {
    WordIsCounted(w, "");
    assert w + "" == w && w[..|w|] == w;
    assert w[0] in w;
  }

  /** A field that names a number, as written and as read. */
  lemma NamedNumber(prefix: string, v: Int64)
    requires prefix != "" && NoBlanks(prefix)
    ensures IsWord(prefix + Print(v))
    ensures FieldValue(prefix + Print(v), prefix) == Some(v)
  {
    hide Print, ScanInt;
    var digits := Print(v);
    ScanPrinted(v);
    assert (prefix + digits)[|prefix|..] == digits;
    NumberHasNoMarks(v);
  }

  lemma NumberHasNoMarks(v: Int64)
    ensures forall c | c in Print(v) :: !IsSpace(c)
    ensures TrimMarksRight(TrimMarksLeft(Print(v))) == Print(v)
  {
    var digits := Print(v);
    hide Print;
    assert digits == [digits[0]] + digits[1..];
    assert digits[|digits| - 1] == digits[0] || digits[|digits| - 1] in digits[1..];
  }

  /** A field whose name differs from the one looked for. */
  lemma OtherName(name: string, text: string, prefix: string, i: nat)
    requires i < |name| && i < |prefix| && name[i] != prefix[i]
    ensures FieldValue(name + text, prefix) == None
  {
  }

  lemma {:induction false} FirstOf(fields: seq<string>, prefix: string, k: nat)
    requires k < |fields| && FieldValue(fields[k], prefix).Some?
    requires forall i | 0 <= i < k :: FieldValue(fields[i], prefix) == None
    ensures FirstValue(fields, prefix) == FieldValue(fields[k], prefix).value
  {
    if k > 0 {
      FirstOf(fields[1..], prefix, k - 1);
    }
  }

  /** Of a line the words are fields, and so is what the last part holds. */
  lemma {:induction false} LineFields(words: seq<string>)
    requires words != [] && forall i | 0 <= i < |words| - 1 :: IsWord(words[i])
    ensures Fields(Line(words)) == words[..|words| - 1] + Fields(words[|words| - 1])
  {
    hide Fields, IsWord;
    if |words| == 1 {
      assert words[..0] == [] && [] + Fields(words[0]) == Fields(words[0]);
    } else {
      WordIsField(words[0], Line(words[1..]));
      LineFields(words[1..]);
      assert [words[0]] + words[1..][..|words| - 2] == words[..|words| - 1];
    }
  }

  /** A line of words. */
  lemma AllFields(words: seq<string>)
    requires words != [] && forall w | w in words :: IsWord(w)
    ensures Fields(Line(words)) == words
  {
    hide Fields, IsWord, Line;
    assert forall i | 0 <= i < |words| :: words[i] in words;
    LineFields(words);
    LastWordIsField(words[|words| - 1]);
  }

  lemma LiteralWords()
    ensures IsWord("LLM") && IsWord("trace:") && IsWord("fallback:") && IsWord("prompt_version=")
    ensures NoBlanks(PROMPT_VERSION)
  {
    InkIsNoBlank("LLM");
    InkIsNoBlank("trace:");
    InkIsNoBlank("fallback:");
    InkIsNoBlank("prompt_version=");
    InkIsNoBlank(PROMPT_VERSION);
  }

  lemma UnknownWords()
    ensures IsWord("prompt_tokens=unknown") && IsWord("completion_tokens=unknown") && IsWord("total_tokens=unknown")
  {
    InkIsNoBlank("prompt_tokens=unknown");
    InkIsNoBlank("completion_tokens=unknown");
    InkIsNoBlank("total_tokens=unknown");
  }

  lemma InkIsNoBlank(s: string)
    requires forall c | c in s :: '!' <= c <= '~'
    ensures NoBlanks(s)
  {
  }

  lemma WordsJoin(a: string, b: string)
    requires IsWord(a) && NoBlanks(b)
    ensures IsWord(a + b)
  {
  }

  /** The names of the fields have no blanks, as NamedNumber asks. */
  lemma PlainFields()
    ensures NoBlanks("duration_ms=") && NoBlanks("attempts=") && NoBlanks("prompt_tokens=")
    ensures NoBlanks("completion_tokens=") && NoBlanks("total_tokens=")
  {
    InkIsNoBlank("duration_ms=");
    InkIsNoBlank("attempts=");
    InkIsNoBlank("prompt_tokens=");
    InkIsNoBlank("completion_tokens=");
    InkIsNoBlank("total_tokens=");
  }

  lemma UsageWordsAreWords(usage: TokenUsage)
    ensures |UsageWords(usage)| == 3 && forall w | w in UsageWords(usage) :: IsWord(w)
  {
    hide Print, IsWord, NoBlanks, FieldValue;
    PlainFields();
    UnknownWords();
    NamedNumber("prompt_tokens=", usage.prompt);
    NamedNumber("completion_tokens=", usage.completion);
    NamedNumber("total_tokens=", usage.total);
  }

  lemma {:induction false} TraceWordsAreWords(version: string, duration: Int64, usage: TokenUsage)
    requires NoBlanks(version)
    ensures |TraceWords(version, duration, usage)| == 7
    ensures forall w | w in TraceWords(version, duration, usage) :: IsWord(w)
  {
    hide Print, IsWord, NoBlanks, FieldValue, UsageWords;
    UsageWordsAreWords(usage);
    PlainFields();
    NamedNumber("duration_ms=", duration);
    LiteralWords();
    WordsJoin("prompt_version=", Version(version));
  }

  /** The fields before the duration do not give one. */
  lemma DurationInTraceWords(version: string, duration: Int64, usage: TokenUsage)
    ensures var words := TraceWords(version, duration, usage);
            && (forall i | 0 <= i < 3 :: FieldValue(words[i], "duration_ms=") == None)
            && FieldValue(words[3], "duration_ms=") == Some(duration)
  {
    assert "LLM" + "" == "LLM" && "trace:" + "" == "trace:";
    hide Print, FieldValue, IsWord, UsageWords, Version;
    PlainFields();
    NamedNumber("duration_ms=", duration);
    OtherName("LLM", "", "duration_ms=", 0);
    OtherName("trace:", "", "duration_ms=", 0);
    OtherName("prompt_version=", Version(version), "duration_ms=", 0);
  }

  /** The duration comes back from a trace, for every duration and every usage. */
  lemma TraceDuration(version: string, duration: Int64, usage: TokenUsage)
    requires NoBlanks(version)
    ensures IntField(TraceWarning(version, duration, usage), "duration_ms") == duration
  {
    hide Fields, FirstValue, FieldValue, TraceWords, Line, IsWord;
    assert "duration_ms" + "=" == "duration_ms=";
    var words := TraceWords(version, duration, usage);
    TraceWordsAreWords(version, duration, usage);
    AllFields(words);
    DurationInTraceWords(version, duration, usage);
    FirstOf(words, "duration_ms=", 3);
  }

  // ---------------------------------------------------------------- token counts

  lemma {:induction false} NotInTraceWords(version: string, duration: Int64, usage: TokenUsage, prefix: string)
    requires prefix in {"prompt_tokens=", "completion_tokens=", "total_tokens="}
    ensures forall i | 0 <= i < 4 :: FieldValue(TraceWords(version, duration, usage)[i], prefix) == None
  {
    assert "LLM" + "" == "LLM" && "trace:" + "" == "trace:";
    hide Print, FieldValue, Version, UsageWords;
    OtherName("LLM", "", prefix, 0);
    OtherName("trace:", "", prefix, if prefix == "total_tokens=" then 1 else 0);
    OtherName("prompt_version=", Version(version), prefix, if prefix == "prompt_tokens=" then 7 else 0);
    OtherName("duration_ms=", Print(duration), prefix, 0);
  }

  lemma {:induction false} TokenNames(usage: TokenUsage)
    requires usage.known
    ensures |UsageWords(usage)| == 3
    ensures FieldValue(UsageWords(usage)[0], "completion_tokens=") == None
    ensures FieldValue(UsageWords(usage)[0], "total_tokens=") == None
    ensures FieldValue(UsageWords(usage)[1], "total_tokens=") == None
    ensures FieldValue(UsageWords(usage)[0], "prompt_tokens=") == Some(usage.prompt)
    ensures FieldValue(UsageWords(usage)[1], "completion_tokens=") == Some(usage.completion)
    ensures FieldValue(UsageWords(usage)[2], "total_tokens=") == Some(usage.total)
  {
    PlainFields();
    NamedNumber("prompt_tokens=", usage.prompt);
    NamedNumber("completion_tokens=", usage.completion);
    NamedNumber("total_tokens=", usage.total);
    hide Print, FieldValue, IsWord;
    OtherName("prompt_tokens=", Print(usage.prompt), "completion_tokens=", 0);
    OtherName("prompt_tokens=", Print(usage.prompt), "total_tokens=", 0);
    OtherName("completion_tokens=", Print(usage.completion), "total_tokens=", 0);
  }

  /** Where the token counts stand. */
  lemma TokensInTraceWords(version: string, duration: Int64, usage: TokenUsage)
    requires usage.known
    ensures TraceWords(version, duration, usage)[4..] == UsageWords(usage) && |UsageWords(usage)| == 3
  {
  }

  lemma KeyNames()
    ensures "prompt_tokens" + "=" == "prompt_tokens=" && "completion_tokens" + "=" == "completion_tokens="
    ensures "total_tokens" + "=" == "total_tokens="
  {
  }

  /** The token counts come back from a trace, for all counts. */
  lemma TraceTokens(version: string, duration: Int64, usage: TokenUsage)
    requires NoBlanks(version) && usage.known
    ensures var text := TraceWarning(version, duration, usage);
            && IntField(text, "prompt_tokens") == usage.prompt
            && IntField(text, "completion_tokens") == usage.completion
            && IntField(text, "total_tokens") == usage.total
  {
    hide Fields, FirstValue, FieldValue, TraceWords, UsageWords, Line, IsWord, NoBlanks;
    KeyNames();
    var words := TraceWords(version, duration, usage);
    TraceWordsAreWords(version, duration, usage);
    AllFields(words);
    TokenNames(usage);
    TokensInTraceWords(version, duration, usage);
    assert words[4] == words[4..][0] && words[5] == words[4..][1] && words[6] == words[4..][2];
    NotInTraceWords(version, duration, usage, "prompt_tokens=");
    NotInTraceWords(version, duration, usage, "completion_tokens=");
    NotInTraceWords(version, duration, usage, "total_tokens=");
    FirstOf(words, "prompt_tokens=", 4);
    FirstOf(words, "completion_tokens=", 5);
    FirstOf(words, "total_tokens=", 6);
  }

  // ---------------------------------------------------------------- unknown token counts

  const UNKNOWN := "total_tokens=unknown"

  lemma CharAt(s: string, part: string, i: nat, k: nat)
    requires k < |part| && i + |part| <= |s|
    ensures OccursAt(s, part, i) ==> s[i + k] == part[k]
  {
  }

  lemma ContainedInPart(w: string, rest: string, part: string)
    requires NoBlanks(part) && part != "" && Contains(w + " " + rest, part)
    ensures Contains(w, part) || Contains(rest, part)
  {
    var s := w + " " + rest;
    forall i: nat | i <= |w| < i + |part| <= |s|
      ensures !OccursAt(s, part, i)
    {
      CharAt(s, part, i, |w| - i);
      assert part[|w| - i] in part;
    }
    var i :| 0 <= i <= |s| && OccursAt(s, part, i);
    if i + |part| <= |w| {
      assert w[i..i + |part|] == part;
      assert OccursAt(w, part, i);
    } else {
      assert rest[i - |w| - 1..][..|part|] == part;
      assert OccursAt(rest, part, i - |w| - 1);
    }
  }

  /** A part without blanks is in a line exactly when it is in one of its words. */
  lemma {:induction false} ContainedInLine(words: seq<string>, part: string)
    requires words != [] && NoBlanks(part) && part != ""
    ensures Contains(Line(words), part) <==> exists w | w in words :: Contains(w, part)
  {
    hide Contains, NoBlanks;
    if |words| == 1 {
      assert words[0] in words;
    } else {
      var rest := Line(words[1..]);
      ContainedInLine(words[1..], part);
      if Contains(words[0] + " " + rest, part) {
        ContainedInPart(words[0], rest, part);
      }
      if Contains(words[0], part) {
        PartIsContained("", words[0], " " + rest, part);
        assert "" + words[0] + (" " + rest) == words[0] + " " + rest;
      }
      if Contains(rest, part) {
        PartIsContained(words[0] + " ", rest, "", part);
        assert words[0] + " " + rest + "" == words[0] + " " + rest;
      }
      assert words == [words[0]] + words[1..];
    }
  }

  lemma PartIsContained(before: string, s: string, after: string, part: string)
    requires Contains(s, part)
    ensures Contains(before + s + after, part)
  {
    var i :| 0 <= i <= |s| && OccursAt(s, part, i);
    var all := before + s + after;
    assert all[|before| + i..|before| + i + |part|] == s[i..i + |part|];
    assert OccursAt(all, part, |before| + i);
  }

  lemma Occurrence(s: string, i: nat)
    requires OccursAt(s, UNKNOWN, i)
    ensures i + 20 <= |s| && s[i] == 't' && s[i + 1] == 'o' && s[i + 12] == '=' && s[i + 13] == 'u'
  {
  }

  lemma NoSignInNumber(name: string, v: Int64, k: nat)
    requires |name| <= k < |name + Print(v)|
    ensures (name + Print(v))[k] != '=' && (name + Print(v))[k] != 'u'
  {
    var digits := Print(v);
    assert digits == [digits[0]] + digits[1..];
    assert (name + digits)[k] in digits;
  }

  /** A named number does not look like an unknown count. */
  lemma NumberIsKnown(name: string, v: Int64)
    requires name in {"duration_ms=", "prompt_tokens=", "completion_tokens=", "total_tokens="}
    ensures !Contains(name + Print(v), UNKNOWN)
  {
    var s := name + Print(v);
    forall k | |name| <= k < |s|
      ensures s[k] != '=' && s[k] != 'u'
    {
      NoSignInNumber(name, v, k);
    }
    hide Print, OccursAt;
    forall i | 0 <= i <= |s|
      ensures !OccursAt(s, UNKNOWN, i)
    {
      if OccursAt(s, UNKNOWN, i) {
        Occurrence(s, i);
      }
    }
  }

  lemma VersionIsKnown(version: string)
    requires !Contains(version, UNKNOWN)
    ensures !Contains("prompt_version=" + version, UNKNOWN)
  {
    var s := "prompt_version=" + version;
    forall i | 3 <= i < 15 && i + 20 <= |s|
      ensures !OccursAt(s, UNKNOWN, i)
    {
      CharAt(s, UNKNOWN, i, 14 - i);
    }
    forall i | 0 <= i <= |s|
      ensures !OccursAt(s, UNKNOWN, i)
    {
      if OccursAt(s, UNKNOWN, i) {
        Occurrence(s, i);
        if i >= 15 {
          assert version[i - 15..i + 5] == s[i..i + 20];
          assert OccursAt(version, UNKNOWN, i - 15);
        }
      }
    }
  }

  /** A trace says that its token counts are unknown exactly when they are. */
  lemma UnknownIff(version: string, duration: Int64, usage: TokenUsage)
    requires !Contains(version, UNKNOWN)
    ensures Contains(TraceWarning(version, duration, usage), UNKNOWN) <==> !usage.known
  {
    InkIsNoBlank(UNKNOWN);
    assert UNKNOWN != "";
    if usage.known {
      WordsAreKnown(version, duration, usage);
    } else {
      UnknownIsSaid(version, duration, usage);
    }
    hide Contains, TraceWords, NoBlanks, Line;
    ContainedInLine(TraceWords(version, duration, usage), UNKNOWN);
  }

  lemma UnknownIsSaid(version: string, duration: Int64, usage: TokenUsage)
    requires !usage.known
    ensures UNKNOWN in TraceWords(version, duration, usage) && Contains(UNKNOWN, UNKNOWN)
  {
    hide Print, Version;
    assert TraceWords(version, duration, usage)[6] == UNKNOWN;
    assert UNKNOWN[0..|UNKNOWN|] == UNKNOWN;
    assert OccursAt(UNKNOWN, UNKNOWN, 0);
  }

  lemma WordsAreKnown(version: string, duration: Int64, usage: TokenUsage)
    requires !Contains(version, UNKNOWN) && usage.known
    ensures forall w | w in TraceWords(version, duration, usage) :: !Contains(w, UNKNOWN)
  {
    ShortIsKnown("LLM");
    ShortIsKnown("trace:");
    ShortIsKnown(PROMPT_VERSION);
    VersionIsKnown(Version(version));
    hide Print, Contains, Version;
    NumberIsKnown("duration_ms=", duration);
    NumberIsKnown("prompt_tokens=", usage.prompt);
    NumberIsKnown("completion_tokens=", usage.completion);
    NumberIsKnown("total_tokens=", usage.total);
  }

  lemma ShortIsKnown(s: string)
    requires |s| < 20
    ensures !Contains(s, UNKNOWN)
  {
  }

  // ---------------------------------------------------------------- fallbacks

  lemma CategoryIsWord(category: string)
    requires category in CATEGORIES
    ensures IsWord("category=" + category)
  {
    CategoryIsPlain(category);
    InkIsNoBlank("category=");
    InkIsNoBlank(category);
  }

  lemma CategoryIsPlain(category: string)
    requires category in CATEGORIES
    ensures forall c | c in category :: '_' <= c <= 'z'
  {
  }

  lemma {:induction false} FallbackWordsAreWords(error: Option<string>, attempts: Int64, duration: Int64)
    ensures |FallbackWords(error, attempts, duration)| == 7
    ensures forall i | 0 <= i < 6 :: IsWord(FallbackWords(error, attempts, duration)[i])
  {
    hide Print, IsWord, NoBlanks, FieldValue, ClassifyLlmFallback;
    PlainFields();
    NamedNumber("attempts=", attempts);
    NamedNumber("duration_ms=", duration);
    LiteralWords();
    CategoryIsWord(ClassifyLlmFallback(ReasonOf(error), attempts));
    WordsJoin("prompt_version=", PROMPT_VERSION);
  }

  lemma DurationInFallbackWords(error: Option<string>, attempts: Int64, duration: Int64)
    ensures var words := FallbackWords(error, attempts, duration);
            && (forall i | 0 <= i < 5 :: FieldValue(words[i], "duration_ms=") == None)
            && FieldValue(words[5], "duration_ms=") == Some(duration)
  {
    hide Print, FieldValue, ClassifyLlmFallback, IsWord;
    PlainFields();
    NamedNumber("duration_ms=", duration);
    assert "LLM" + "" == "LLM" && "fallback:" + "" == "fallback:";
    OtherName("LLM", "", "duration_ms=", 0);
    OtherName("fallback:", "", "duration_ms=", 0);
    OtherName("prompt_version=", PROMPT_VERSION, "duration_ms=", 0);
    OtherName("category=", ClassifyLlmFallback(ReasonOf(error), attempts), "duration_ms=", 0);
    OtherName("attempts=", Print(attempts), "duration_ms=", 0);
  }

  /**
    The duration comes back from a fallback, for every duration, number of attempts and reason, even a
    reason that itself speaks of durations.
   */
  lemma FallbackDuration(error: Option<string>, attempts: Int64, duration: Int64)
    ensures IntField(FallbackWarning(error, attempts, duration), "duration_ms") == duration
  {
    hide Fields, FirstValue, FieldValue, FallbackWords, Line, IsWord;
    assert "duration_ms" + "=" == "duration_ms=";
    var words := FallbackWords(error, attempts, duration);
    FallbackWordsAreWords(error, attempts, duration);
    LineFields(words);
    DurationInFallbackWords(error, attempts, duration);
    FirstOf(words[..6] + Fields(words[6]), "duration_ms=", 5);
  }

  // ---------------------------------------------------------------- whole lists of warnings

  /** What happened, and is told by a warning. */
  datatype Event =
    | Traced(version: string, duration: Int64, usage: TokenUsage)
    | FellBack(error: Option<string>, attempts: Int64, duration: Int64)
    | ToolFailed(text: string)
    | Infeasible(text: string)
    | Noted(text: string)

  function Told(e: Event): string {
    match e
    case Traced(version, duration, usage) => TraceWarning(version, duration, usage)
    case FellBack(error, attempts, duration) => FallbackWarning(error, attempts, duration)
    case ToolFailed(text) => "tool fallback:" + text
    case Infeasible(text) => "route feasibility:" + text
    case Noted(text) => text
  }

  /** Not to be taken for one of the four kinds that are counted. */
  predicate Unmarked(text: string) {
    !("tool fallback:" <= text) && !("LLM fallback:" <= text) && !("LLM trace:" <= text)
    && !("route feasibility:" <= text)
  }

  /**
    A prompt version without blanks that does not itself speak of an unknown token count; the program's one
    is such. Any other warning is one that is not counted.
   */
  predicate Tellable(e: Event) {
    && (e.Traced? ==> NoBlanks(e.version) && !Contains(e.version, UNKNOWN))
    && (e.Noted? ==> Unmarked(e.text))
  }

  /** The figures of the events themselves. */
  function Happened(d: Diagnostics, e: Event): Diagnostics {
    match e
    case Traced(_, duration, usage) =>
      var timed := d.(nodeDuration := Wrap(d.nodeDuration + duration), nodeSamples := d.nodeSamples + 1);
      if usage.known then
        timed.(promptTokens := Wrap(d.promptTokens + usage.prompt),
               completionTokens := Wrap(d.completionTokens + usage.completion),
               totalTokens := Wrap(d.totalTokens + usage.total), tokensKnown := true)
      else timed
    case FellBack(_, _, duration) =>
      d.(llmFallbacks := d.llmFallbacks + 1, nodeDuration := Wrap(d.nodeDuration + duration),
         nodeSamples := d.nodeSamples + 1)
    case ToolFailed(_) => d.(toolFallbacks := d.toolFallbacks + 1, externalCalls := d.externalCalls + 1)
    case Infeasible(_) => d.(routeWarning := true)
    case Noted(_) => d
  }

  function AllHappened(events: seq<Event>): Diagnostics {
    if events == [] then NOTHING
    else Happened(AllHappened(events[..|events| - 1]), events[|events| - 1])
  }

  function AllTold(events: seq<Event>): seq<string> {
    if events == [] then [] else AllTold(events[..|events| - 1]) + [Told(events[|events| - 1])]
  }

  /** Which of the four kinds a warning is taken for. */
  lemma KindIsSeen(e: Event)
    requires e.Noted? ==> Unmarked(e.text)
    ensures "tool fallback:" <= Told(e) <==> e.ToolFailed?
    ensures "LLM fallback:" <= Told(e) <==> e.FellBack?
    ensures "LLM trace:" <= Told(e) <==> e.Traced?
    ensures "route feasibility:" <= Told(e) <==> e.Infeasible?
  {
    if !e.Noted? {
      hide Told;
      MarkIsSeen(e);
    }
  }

  lemma MarkIsSeen(e: Event)
    requires !e.Noted?
    ensures "tool fallback:" <= Told(e) <==> e.ToolFailed?
    ensures "LLM fallback:" <= Told(e) <==> e.FellBack?
    ensures "LLM trace:" <= Told(e) <==> e.Traced?
    ensures "route feasibility:" <= Told(e) <==> e.Infeasible?
  {
    var rest := ToldRest(e);
    Marks(Told(e));
  }

  lemma Marks(s: string)
    ensures "tool fallback:" <= s ==> s[0] == 't'
    ensures "LLM fallback:" <= s ==> s[0] == 'L' && s[4] == 'f'
    ensures "LLM trace:" <= s ==> s[0] == 'L' && s[4] == 't'
    ensures "route feasibility:" <= s ==> s[0] == 'r'
  {
  }

  lemma ToldRest(e: Event) returns (rest: string)
    requires !e.Noted?
    ensures Told(e) == Mark(e) + rest && Mark(e) <= Told(e)
  {
    match e {
      case Traced(version, duration, usage) => rest := TraceRest(version, duration, usage);
      case FellBack(error, attempts, duration) => rest := FallbackRest(error, attempts, duration);
      case ToolFailed(text) => rest := text;
      case Infeasible(text) => rest := text;
    }
    hide TraceWarning, FallbackWarning;
  }

  function Mark(e: Event): string
    requires !e.Noted?
  {
    match e
    case Traced(_, _, _) => "LLM trace:"
    case FellBack(_, _, _) => "LLM fallback:"
    case ToolFailed(_) => "tool fallback:"
    case Infeasible(_) => "route feasibility:"
  }

  lemma TraceRest(version: string, duration: Int64, usage: TokenUsage) returns (rest: string)
    ensures TraceWarning(version, duration, usage) == "LLM trace:" + rest
  {
    hide Print, UsageWords, Version;
    var words := TraceWords(version, duration, usage);
    rest := " " + Line(words[2..]);
    hide TraceWords, Line;
    assert words[0] == "LLM" && words[1] == "trace:" && |words| > 2 by { TraceStart(version, duration, usage); }
    LineStart(words);
    assert "LLM trace:" == "LLM" + " " + "trace:";
  }

  lemma TraceStart(version: string, duration: Int64, usage: TokenUsage)
    ensures var words := TraceWords(version, duration, usage); |words| > 2 && words[0] == "LLM" && words[1] == "trace:"
  {
  }

  lemma FallbackRest(error: Option<string>, attempts: int, duration: Int64) returns (rest: string)
    ensures FallbackWarning(error, attempts, duration) == "LLM fallback:" + rest
  {
    hide Print, ClassifyLlmFallback;
    var words := FallbackWords(error, attempts, duration);
    rest := " " + Line(words[2..]);
    assert words[0] == "LLM" && words[1] == "fallback:" && |words| == 7;
    hide FallbackWords, Line;
    LineStart(words);
    assert "LLM fallback:" == "LLM" + " " + "fallback:";
  }

  lemma LineStart(words: seq<string>)
    requires |words| > 2
    ensures Line(words) == words[0] + " " + words[1] + (" " + Line(words[2..]))
  {
    assert words[1..][1..] == words[2..];
    assert Line(words[1..]) == words[1] + " " + Line(words[2..]);
  }

  lemma OneIsCounted(d: Diagnostics, e: Event)
    requires Tellable(e)
    ensures Counted(d, Told(e)) == Happened(d, e)
  {
    hide IntField, TraceWarning, FallbackWarning, Contains, NoBlanks;
    KindIsSeen(e);
    match e {
      case Traced(version, duration, usage) =>
        TraceDuration(version, duration, usage);
        UnknownIff(version, duration, usage);
        if usage.known {
          TraceTokens(version, duration, usage);
        }
      case FellBack(error, attempts, duration) => FallbackDuration(error, attempts, duration);
      case _ =>
    }
  }

  /**
    For every list of traces, fallbacks, tool failures, feasibility notes and other warnings: what is
    counted in the printed warnings is what happened, durations and token counts included.
   */
  lemma {:induction false} WarningsAreReadBack(events: seq<Event>)
    requires forall e | e in events :: Tellable(e)
    ensures CountedAll(AllTold(events)) == AllHappened(events)
  {
    if events != [] {
      var n := |events| - 1;
      WarningsAreReadBack(events[..n]);
      OneIsCounted(AllHappened(events[..n]), events[n]);
      hide Counted, Happened, Told;
      var warnings := AllTold(events);
      assert warnings[..|warnings| - 1] == AllTold(events[..n]);
    }
  }

  // ---------------------------------------------------------------- after merging

  /** The events whose warnings stay when warnings are merged: printed alike, only the first. */
  function FirstTold(events: seq<Event>): seq<Event> {
    if events == [] then []
    else
      var before := FirstTold(events[..|events| - 1]);
      var e := events[|events| - 1];
      if TrimSpace(Told(e)) == "" || Told(e) in AllTold(before) then before else before + [e]
  }

  lemma {:induction false} MergedIsFirstTold(events: seq<Event>)
    ensures Merged(AllTold(events)) == AllTold(FirstTold(events))
    ensures forall e | e in FirstTold(events) :: e in events
  {
    hide Told, TrimSpace;
    if events != [] {
      var n := |events| - 1;
      var before, e := events[..n], events[n];
      MergedIsFirstTold(before);
      assert AllTold(events)[..|AllTold(events)| - 1] == AllTold(before);
      var first := FirstTold(before);
      assert (first + [e])[..|first|] == first;
    }
  }

  predicate Countable(e: Event) {
    e.Traced? || e.FellBack? || e.ToolFailed?
  }

  /** This one is printed exactly like an earlier one, and should be counted as well. */
  predicate LostAt(events: seq<Event>, j: nat)
    requires j < |events|
  {
    Countable(events[j]) && Told(events[j]) in AllTold(events[..j])
  }

  ghost predicate Loses(events: seq<Event>) {
    exists j | 0 <= j < |events| :: LostAt(events, j)
  }

  /**
    The harness merges before it counts, so that it counts each printed text once. It counts what happened
    if and only if no trace, fallback or tool failure is printed exactly like an earlier one.
   */
  lemma {:induction false} CountIsRightIff(events: seq<Event>)
    requires forall e | e in events :: Tellable(e)
    ensures CountedAll(Merged(AllTold(events))) == AllHappened(FirstTold(events))
    ensures CountedAll(Merged(AllTold(events))) == AllHappened(events) <==> !Loses(events)
  {
    hide Tellable;
    MergedIsFirstTold(events);
    WarningsAreReadBack(FirstTold(events));
    FirstTellsAll(events);
  }

  /** The same with the planner's merging before: `planned` is told by the plan, `own` by the harness itself. */
  lemma HarnessIsRightIff(own: seq<Event>, planned: seq<Event>)
    requires forall e | e in own + planned :: Tellable(e)
    ensures var counted := CountedAll(Merged(AllTold(own) + Merged(AllTold(planned))));
            && counted == AllHappened(FirstTold(own + planned))
            && (counted == AllHappened(own + planned) <==> !Loses(own + planned))
  {
    hide Tellable, Merged, AllTold;
    MergedBefore(AllTold(own), AllTold(planned));
    ToldTogether(own, planned);
    CountIsRightIff(own + planned);
  }

  lemma {:induction false} ToldTogether(a: seq<Event>, b: seq<Event>)
    ensures AllTold(a + b) == AllTold(a) + AllTold(b)
  {
    hide Told;
    if b == [] {
      assert a + b == a;
    } else {
      ToldTogether(a, b[..|b| - 1]);
      assert (a + b)[..|a + b| - 1] == a + b[..|b| - 1];
    }
  }

  /** Two equal traces are counted as one. */
  lemma EqualTracesCountOnce(version: string, duration: Int64, usage: TokenUsage)
    requires NoBlanks(version) && !Contains(version, UNKNOWN)
    ensures var e := Traced(version, duration, usage);
            && CountedAll(Merged(AllTold([e, e]))).nodeSamples == 1
            && AllHappened([e, e]).nodeSamples == 2
  {
    hide Told, TrimSpace, NoBlanks, Contains, Merged, CountedAll;
    var e := Traced(version, duration, usage);
    assert [e, e][..1] == [e] && [e][..0] == [];
    NotBlank(e);
    assert AllTold([]) == [] && FirstTold([]) == [];
    assert AllTold([e]) == AllTold([]) + [Told(e)];
    assert Told(e) in AllTold([e]) && FirstTold([e]) == [e];
    assert FirstTold([e, e]) == [e];
    CountIsRightIff([e, e]);
  }

  /** How many traces, fallbacks and tool failures have been counted. */
  function Size(d: Diagnostics): nat {
    d.nodeSamples + d.toolFallbacks
  }

  lemma {:induction false} FirstTellsAll(events: seq<Event>)
    requires forall e | e in events :: Tellable(e)
    ensures Size(AllHappened(FirstTold(events))) <= Size(AllHappened(events))
    ensures Loses(events) ==> Size(AllHappened(FirstTold(events))) < Size(AllHappened(events))
    ensures !Loses(events) ==> AllHappened(FirstTold(events)) == AllHappened(events)
  {
    hide Told, TrimSpace, Tellable, Happened, LostAt, Loses, Size, Countable;
    if events == [] {
      NoneLost();
    } else {
      var n := |events| - 1;
      var before, e := events[..n], events[n];
      FirstTellsAll(before);
      LostBeforeOrNow(events);
      LostIsDropped(before, e);
      SizeGrows(AllHappened(before), e);
      SizeGrows(AllHappened(FirstTold(before)), e);
      var first := FirstTold(before);
      assert (first + [e])[..|first|] == first;
    }
  }

  lemma NoneLost()
    ensures !Loses([])
  {
  }

  lemma LostBeforeOrNow(events: seq<Event>)
    requires events != []
    ensures var n := |events| - 1;
            Loses(events) <==> Loses(events[..n]) || (Countable(events[n]) && Told(events[n]) in AllTold(events[..n]))
  {
    hide Told, Countable, AllTold;
    var n := |events| - 1;
    forall j | 0 <= j < n
      ensures LostAt(events[..n], j) <==> LostAt(events, j)
    {
      assert events[..n][..j] == events[..j];
    }
    assert LostAt(events, n) <==> Countable(events[n]) && Told(events[n]) in AllTold(events[..n]);
  }

  lemma SizeGrows(d: Diagnostics, e: Event)
    ensures Size(Happened(d, e)) == Size(d) + if Countable(e) then 1 else 0
  {
  }

  /** A repetition that is not counted changes nothing; any other one is lost. */
  lemma LostIsDropped(before: seq<Event>, e: Event)
    requires (forall x | x in before :: Tellable(x)) && Tellable(e)
    ensures var dropped := TrimSpace(Told(e)) == "" || Told(e) in AllTold(FirstTold(before));
            && (Countable(e) ==> (dropped <==> Told(e) in AllTold(before)))
            && (!Countable(e) && dropped ==> Happened(AllHappened(before), e) == AllHappened(before))
  {
    hide Told, TrimSpace, Tellable, FirstTold, Merged;
    MergedIsFirstTold(before);
    MergedAre(AllTold(before));
    if !e.Noted? {
      NotBlank(e);
    }
    if e.Infeasible? && Told(e) in AllTold(before) {
      WarnedAlready(before, e);
    }
  }

  lemma {:induction false} WarnedAlready(before: seq<Event>, e: Event)
    requires (forall x | x in before :: Tellable(x)) && e.Infeasible? && Told(e) in AllTold(before)
    ensures AllHappened(before).routeWarning
  {
    var n := |before| - 1;
    if Told(before[n]) == Told(e) {
      assert Tellable(before[n]);
      KindIsSeen(before[n]);
      KindIsSeen(e);
    } else {
      hide Told, Tellable;
      WarnedAlready(before[..n], e);
    }
  }

  lemma NotBlank(e: Event)
    requires !e.Noted?
    ensures TrimSpace(Told(e)) != ""
  {
    var rest := ToldRest(e);
    var s := Told(e);
    hide Told;
    InkStays(s);
  }

  lemma {:induction false} InkStays(s: string)
    requires s != "" && !IsSpace(s[0])
    ensures TrimRight(s) != "" && TrimSpace(s) != ""
  {
    if IsSpace(s[|s| - 1]) {
      InkStays(s[..|s| - 1]);
    }
  }
}

/** internal/agent/eino/llm.go: what a plan says about the language model calls it came from. */
module LlmWarnings {
  import opened Wrappers
  import opened Text
  import opened Numbers

  const PROMPT_VERSION := "travel-plan-v1"

  datatype TokenUsage = TokenUsage(prompt: Int64, completion: Int64, total: Int64, known: bool)

  predicate OccursAt(s: string, part: string, i: nat) {
    i + |part| <= |s| && s[i..i + |part|] == part
  }

  /** strings.Contains. */
  predicate Contains(s: string, part: string) {
    exists i | 0 <= i <= |s| :: OccursAt(s, part, i)
  }

  /** The words of a format, with a blank between each two. */
  function Line(words: seq<string>): string
    requires words != []
  {
    if |words| == 1 then words[0] else words[0] + " " + Line(words[1..])
  }

  function Version(version: string): string {
    if version == "" then PROMPT_VERSION else version
  }

  function UsageWords(usage: TokenUsage): seq<string> {
    if usage.known then
      ["prompt_tokens=" + Print(usage.prompt), "completion_tokens=" + Print(usage.completion),
       "total_tokens=" + Print(usage.total)]
    else ["prompt_tokens=unknown", "completion_tokens=unknown", "total_tokens=unknown"]
  }

  function TraceWords(version: string, duration: Int64, usage: TokenUsage): seq<string> {
    ["LLM", "trace:", "prompt_version=" + Version(version), "duration_ms=" + Print(duration)] + UsageWords(usage)
  }

  /** The warning that appendLLMTraceWarning adds. */
  function TraceWarning(version: string, duration: Int64, usage: TokenUsage): string {
    Line(TraceWords(version, duration, usage))
  }

  const CATEGORIES: set<string> := {
    "disabled", "test_mode", "missing_api_key", "retry_exhausted", "timeout", "provider_error", "invalid_json",
    "business_validation_failed"
  }

  function ClassifyLlmFallback(reason: string, attempts: int): (category: string)
    ensures category in CATEGORIES
    ensures attempts > 1 ==> category in {"disabled", "test_mode", "missing_api_key", "retry_exhausted"}
    ensures attempts <= 1 ==> category != "retry_exhausted"
  {
    var lower := ToLower(TrimSpace(reason));
    if lower == "disabled" then "disabled"
    else if lower == "test_mode" then "test_mode"
    else if Contains(lower, "missing_api_key") || Contains(lower, "api key") then "missing_api_key"
    else if Contains(lower, "timeout") || Contains(lower, "deadline exceeded") then
      if attempts > 1 then "retry_exhausted" else "timeout"
    else if Contains(lower, "did not call") || Contains(lower, "no choices") || Contains(lower, "content is empty") then
      if attempts > 1 then "retry_exhausted" else "provider_error"
    else if Contains(lower, "decode llm response") || Contains(lower, "decode travel plan")
            || Contains(lower, "invalid character") then
      if attempts > 1 then "retry_exhausted" else "invalid_json"
    else if Contains(lower, "validation") || Contains(lower, "expected") || Contains(lower, "exceeds")
            || Contains(lower, "negative") || Contains(lower, "empty") then
      if attempts > 1 then "retry_exhausted" else "business_validation_failed"
    else if attempts > 1 then "retry_exhausted"
    else "provider_error"
  }

  /** No error stands for the reason "unknown". */
  function ReasonOf(error: Option<string>): string {
    if error.Some? then error.value else "unknown"
  }

  function FallbackWords(error: Option<string>, attempts: int, duration: Int64): seq<string> {
    ["LLM", "fallback:", "prompt_version=" + PROMPT_VERSION,
     "category=" + ClassifyLlmFallback(ReasonOf(error), attempts), "attempts=" + Print(attempts),
     "duration_ms=" + Print(duration), "reason=" + ReasonOf(error)]
  }

  /** llmFallbackWarning. */
  function FallbackWarning(error: Option<string>, attempts: int, duration: Int64): string {
    Line(FallbackWords(error, attempts, duration))
  }

  // ---------------------------------------------------------------- attempts

  /** How one call of the language model comes out. */
  datatype Attempt =
    | Planned(warnings: seq<string>, version: string, duration: Int64, usage: TokenUsage)
    | NoPlan
    | Fails(reason: string)

  /** The number of attempts up to and including the first that does not fail. */
  function Tries(attempts: seq<Attempt>): (n: nat)
    ensures n <= |attempts|
    ensures forall i | 0 <= i < n - 1 :: attempts[i].Fails?
    ensures n > 0 && attempts[n - 1].Fails? ==> n == |attempts|
  {
    if attempts == [] then 0
    else if !attempts[0].Fails? then 1
    else 1 + Tries(attempts[1..])
  }

  function Allowed(maxRetries: int): nat {
    if maxRetries + 1 <= 0 then 1 else maxRetries + 1
  }

  /** Why the plan is not one of the language model. */
  function Reason(disabledReason: string, hasClient: bool, attempts: seq<Attempt>): string {
    if disabledReason != "" then disabledReason
    else if !hasClient then "missing_api_key"
    else if attempts == [] then "unknown"
    else
      match attempts[|attempts| - 1]
      case Fails(reason) => reason
      case _ => EMPTY_PLAN
  }

  /**
    llmPlanGenerator.Generate: `attempts` is how the calls would come out, `fallback` the warnings of the
    plan made without the model, None if that fails. The result is the warnings of the plan returned.
   */
  method Generate(testMode: bool, disabledReason: string, hasClient: bool, maxRetries: int,
                  attempts: seq<Attempt>, fallback: Option<seq<string>>, elapsed: Int64)
    returns (warnings: Option<seq<string>>, made: nat)
    requires |attempts| == Allowed(maxRetries)
    ensures made == if testMode || disabledReason != "" || !hasClient then 0 else Tries(attempts)
    ensures made > 0 && attempts[made - 1].Planned? ==>
              var plan := attempts[made - 1];
              warnings == Some(plan.warnings + [TraceWarning(plan.version, plan.duration, plan.usage)])
    ensures (made == 0 || !attempts[made - 1].Planned?) && fallback.None? ==> warnings == None
    ensures (made == 0 || !attempts[made - 1].Planned?) && fallback.Some? ==>
              var reason := if testMode then "test_mode" else Reason(disabledReason, hasClient, attempts[..made]);
              warnings == Some(fallback.value + [FallbackWarning(Some(reason), made, if testMode then 0 else elapsed)])
  {
    hide TraceWarning, FallbackWarning;
    if testMode {
      if fallback.None? {
        return None, 0;
      }
      return Some(fallback.value + [FallbackWarning(Some("test_mode"), 0, 0)]), 0;
    }
    var lastErr := None;
    made := 0;
    if disabledReason != "" {
      lastErr := Some(disabledReason);
    } else if !hasClient {
      lastErr := Some("missing_api_key");
    } else {
      made, lastErr := Try(attempts);
      if lastErr.None? {
        var attempt := attempts[made - 1];
        return Some(attempt.warnings + [TraceWarning(attempt.version, attempt.duration, attempt.usage)]), made;
      }
    }
    if fallback.None? {
      return None, made;
    }
    return Some(fallback.value + [FallbackWarning(lastErr, made, elapsed)]), made;
  }

  /** The loop over the attempts; no error stands for a plan. */
  method Try(attempts: seq<Attempt>) returns (made: nat, lastErr: Option<string>)
    requires attempts != []
    ensures 0 < made == Tries(attempts) <= |attempts|
    ensures lastErr == if attempts[made - 1].Planned? then None else Some(Reason("", true, attempts[..made]))
  {
    made := 0;
    lastErr := None;
    while made < |attempts|
      invariant made <= |attempts|
      invariant Tries(attempts) == made + Tries(attempts[made..])
      invariant made > 0 ==> attempts[made - 1].Fails? && lastErr == Some(attempts[made - 1].reason)
    {
      var attempt := attempts[made];
      assert attempts[made..][1..] == attempts[made + 1..];
      made := made + 1;
      if attempt.Planned? {
        return made, None;
      }
      if attempt.NoPlan? {
        return made, Some(EMPTY_PLAN);
      }
      lastErr := Some(attempt.reason);
    }
  }

  // ---------------------------------------------------------------- the reasons Generate gives itself

  lemma MissingChar(text: string, part: string, c: char)
    requires c in part && c !in text
    ensures !Contains(text, part)
  {
    var k :| 0 <= k < |part| && part[k] == c;
    forall i | 0 <= i <= |text| && i + |part| <= |text|
      ensures !OccursAt(text, part, i)
    {
      assert text[i..i + |part|][k] == text[i + k];
      assert text[i + k] in text;
    }
  }

  lemma ContainsItself(text: string)
    ensures Contains(text, text)
  {
    assert text[0..|text|] == text;
    assert OccursAt(text, text, 0);
  }

  const EMPTY_PLAN := "LLM returned empty plan"

  lemma EmptyPlanHasNo()
    ensures forall x | x in EMPTY_PLAN :: Lower(x) != 'i' && Lower(x) != 'c'
  {
    assert 'c' !in EMPTY_PLAN && 'C' !in EMPTY_PLAN;
    forall x | x in EMPTY_PLAN
      ensures Lower(x) != 'i' && Lower(x) != 'c'
    {
      LowersTo(x);
    }
  }

  lemma LowersTo(x: char)
    ensures Lower(x) == 'i' ==> x == 'i' || x == 'I' || x == '\U{130}'
    ensures Lower(x) == 'c' ==> x == 'c' || x == 'C'
  {
  }

  lemma EmptyPlanIsTrimmed()
    ensures |EMPTY_PLAN| == 23 && TrimSpace(EMPTY_PLAN) == EMPTY_PLAN
  {
    assert Trimmed(EMPTY_PLAN);
    hide TrimSpace;
    TrimTwice(EMPTY_PLAN);
  }

  lemma EmptyPlanIsEmpty(text: string)
    requires text == ToLower(EMPTY_PLAN)
    ensures Contains(text, "empty")
  {
    assert |text| == 23 && text[13] == 'e' && text[14] == 'm' && text[15] == 'p' && text[16] == 't' && text[17] == 'y';
    assert text[13..18] == "empty";
    assert OccursAt(text, "empty", 13);
  }

  lemma EmptyPlanContains(text: string)
    requires text == ToLower(TrimSpace(EMPTY_PLAN))
    ensures text != "disabled" && text != "test_mode" && Contains(text, "empty")
    ensures !Contains(text, "missing_api_key") && !Contains(text, "api key")
    ensures !Contains(text, "timeout") && !Contains(text, "deadline exceeded")
    ensures !Contains(text, "did not call") && !Contains(text, "no choices") && !Contains(text, "content is empty")
    ensures !Contains(text, "decode llm response") && !Contains(text, "decode travel plan")
    ensures !Contains(text, "invalid character")
  {
    EmptyPlanIsTrimmed();
    EmptyPlanHasNo();
    hide Contains, OccursAt, TrimSpace, Lower;
    EmptyPlanIsEmpty(text);
    assert |text| == 23 && 'i' !in text && 'c' !in text by { LowerChars(EMPTY_PLAN); }
    hide ToLower;
    MissingChar(text, "missing_api_key", 'i');
    MissingChar(text, "api key", 'i');
    MissingChar(text, "timeout", 'i');
    MissingChar(text, "deadline exceeded", 'i');
    MissingChar(text, "did not call", 'i');
    MissingChar(text, "no choices", 'i');
    MissingChar(text, "content is empty", 'i');
    MissingChar(text, "decode llm response", 'c');
    MissingChar(text, "decode travel plan", 'c');
    MissingChar(text, "invalid character", 'i');
  }

  lemma LowerChars(s: string)
    ensures |ToLower(s)| == |s|
    ensures forall c | c in ToLower(s) :: exists x | x in s :: Lower(x) == c
  {
    hide Lower;
    forall c | c in ToLower(s)
      ensures exists x | x in s :: Lower(x) == c
    {
      var i :| 0 <= i < |s| && ToLower(s)[i] == c;
      assert s[i] in s && Lower(s[i]) == c;
    }
  }

  lemma NamesLowered()
    ensures ToLower(TrimSpace("test_mode")) == "test_mode" && ToLower(TrimSpace("disabled")) == "disabled"
    ensures ToLower(TrimSpace("missing_api_key")) == "missing_api_key"
  {
    hide TrimSpace;
    TrimTwice("test_mode");
    TrimTwice("disabled");
    TrimTwice("missing_api_key");
    assert ToLower("test_mode") == "test_mode" && ToLower("disabled") == "disabled";
  }

  /**
    What Generate's own reasons are classified as. A plan that did not come counts, on the first attempt,
    as one that failed validation: the text of its reason has the word "empty" in it.
   */
  lemma OwnReasons(attempts: int)
    ensures ClassifyLlmFallback("test_mode", attempts) == "test_mode"
    ensures ClassifyLlmFallback("disabled", attempts) == "disabled"
    ensures ClassifyLlmFallback("missing_api_key", attempts) == "missing_api_key"
    ensures ClassifyLlmFallback(EMPTY_PLAN, attempts) ==
            if attempts > 1 then "retry_exhausted" else "business_validation_failed"
  {
    hide Contains, ToLower, TrimSpace;
    NamesLowered();
    ContainsItself("missing_api_key");
    EmptyPlanContains(ToLower(TrimSpace(EMPTY_PLAN)));
  }
}

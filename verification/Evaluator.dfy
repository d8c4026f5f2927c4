/** internal/harness/evaluator.go: the figures read back from the warnings of a plan. */
module Evaluator {
  import opened Wrappers
  import opened Text
  import opened Numbers
  import opened LlmWarnings

  /** The length of the word a text starts with. */
  function WordLength(s: string): (n: nat)
    ensures n <= |s|
    ensures s != "" && !IsSpace(s[0]) ==> n > 0
  {
    if s == "" || IsSpace(s[0]) then 0 else 1 + WordLength(s[1..])
  }

  /** strings.Fields. */
  function Fields(s: string): seq<string>
    decreases |s|
  {
    if s == "" then []
    else if IsSpace(s[0]) then Fields(s[1..])
    else [s[..WordLength(s)]] + Fields(s[WordLength(s)..])
  }

  predicate IsMark(c: char) { c == ',' || c == ';' }

  function TrimMarksLeft(s: string): string {
    if s != "" && IsMark(s[0]) then TrimMarksLeft(s[1..]) else s
  }

  function TrimMarksRight(s: string): string {
    if s != "" && IsMark(s[|s| - 1]) then TrimMarksRight(s[..|s| - 1]) else s
  }

  /** The number a field gives for the key whose prefix this is. */
  function FieldValue(field: string, prefix: string): Option<Int64> {
    if prefix <= field then ScanInt(TrimMarksRight(TrimMarksLeft(field[|prefix|..]))) else None
  }

  /** The first field that gives a number for the key decides. */
  function FirstValue(fields: seq<string>, prefix: string): Int64 {
    if fields == [] then 0
    else if FieldValue(fields[0], prefix).Some? then FieldValue(fields[0], prefix).value
    else FirstValue(fields[1..], prefix)
  }

  function IntField(text: string, key: string): Int64 {
    FirstValue(Fields(text), key + "=")
  }

  method ParseIntField(text: string, key: string) returns (value: Int64)
    ensures value == IntField(text, key)
  {
    var prefix := key + "=";
    var fields := Fields(text);
    for i := 0 to |fields|
      invariant FirstValue(fields, prefix) == FirstValue(fields[i..], prefix)
    {
      assert fields[i..][1..] == fields[i + 1..];
      if !(prefix <= fields[i]) {
        continue;
      }
      var scanned := ScanInt(TrimMarksRight(TrimMarksLeft(fields[i][|prefix|..])));
      if scanned.Some? {
        return scanned.value;
      }
    }
    return 0;
  }

  // ---------------------------------------------------------------- merging

  /** The warnings that are not blank, each where it occurs first. */
  function Merged(warnings: seq<string>): seq<string> {
    if warnings == [] then []
    else
      var before := Merged(warnings[..|warnings| - 1]);
      var w := warnings[|warnings| - 1];
      if TrimSpace(w) == "" || w in before then before else before + [w]
  }

  /** mergeCaseWarnings, and mergeWarnings of the planner. */
  method MergeCaseWarnings(existing: seq<string>, planWarnings: seq<string>) returns (merged: seq<string>)
    ensures merged == Merged(existing + planWarnings)
  {
    hide TrimSpace;
    var warnings := existing + planWarnings;
    merged := [];
    var seen: set<string> := {};
    for i := 0 to |warnings|
      invariant merged == Merged(warnings[..i])
      invariant seen == Elements(merged)
    {
      assert warnings[..i + 1][..i] == warnings[..i];
      if TrimSpace(warnings[i]) == "" {
        continue;
      }
      if warnings[i] in seen {
        continue;
      }
      seen := seen + {warnings[i]};
      merged := merged + [warnings[i]];
    }
    assert warnings[..|warnings|] == warnings;
  }

  /** Merging drops blanks and repetitions and nothing else. */
  lemma {:induction false} MergedAre(warnings: seq<string>)
    ensures forall w :: w in Merged(warnings) <==> w in warnings && TrimSpace(w) != ""
    ensures forall i, j | 0 <= i < j < |Merged(warnings)| :: Merged(warnings)[i] != Merged(warnings)[j]
  {
    hide TrimSpace;
    if warnings != [] {
      var n := |warnings| - 1;
      MergedAre(warnings[..n]);
      assert warnings == warnings[..n] + [warnings[n]];
    }
  }

  /** That a plan's warnings have been merged before makes no difference. */
  lemma {:induction false} MergedBefore(existing: seq<string>, planWarnings: seq<string>)
    ensures Merged(existing + Merged(planWarnings)) == Merged(existing + planWarnings)
  {
    if planWarnings != [] {
      var n := |planWarnings| - 1;
      var before, w := planWarnings[..n], planWarnings[n];
      assert planWarnings == before + [w];
      MergedBefore(existing, before);
      OneMerged(existing, before, w);
      OneMerged([], before, w);
      assert [] + before == before && [] + planWarnings == planWarnings;
      OneMerged(existing, Merged(before), w);
      EarlierIsMerged(existing, before, w);
      hide Merged, TrimSpace;
    }
  }

  function Added(merged: seq<string>, w: string): seq<string> {
    if TrimSpace(w) == "" || w in merged then merged else merged + [w]
  }

  lemma OneMerged(existing: seq<string>, before: seq<string>, w: string)
    ensures Merged(existing + (before + [w])) == Added(Merged(existing + before), w)
  {
    hide TrimSpace;
    var all := existing + (before + [w]);
    assert all[..|all| - 1] == existing + before;
  }

  lemma EarlierIsMerged(existing: seq<string>, before: seq<string>, w: string)
    ensures w in Merged(before) ==> TrimSpace(w) != "" && w in Merged(existing + before)
  {
    hide TrimSpace, Merged;
    MergedAre(before);
    MergedAre(existing + before);
  }

  // ---------------------------------------------------------------- counting

  datatype Diagnostics = Diagnostics(
    toolFallbacks: nat,
    externalCalls: nat,
    externalSuccesses: nat,
    llmFallbacks: nat,
    nodeDuration: Int64,
    nodeSamples: nat,
    promptTokens: Int64,
    completionTokens: Int64,
    totalTokens: Int64,
    tokensKnown: bool,
    routeWarning: bool)

  const NOTHING := Diagnostics(0, 0, 0, 0, 0, 0, 0, 0, 0, false, false)

  /** What one warning adds. */
  function Counted(d: Diagnostics, warning: string): Diagnostics {
    if "tool fallback:" <= warning then
      d.(toolFallbacks := d.toolFallbacks + 1, externalCalls := d.externalCalls + 1)
    else if "LLM fallback:" <= warning then
      d.(llmFallbacks := d.llmFallbacks + 1,
         nodeDuration := Wrap(d.nodeDuration + IntField(warning, "duration_ms")), nodeSamples := d.nodeSamples + 1)
    else if "LLM trace:" <= warning then
      var e := d.(nodeDuration := Wrap(d.nodeDuration + IntField(warning, "duration_ms")),
                  nodeSamples := d.nodeSamples + 1);
      if Contains(warning, "total_tokens=unknown") then e
      else
        e.(promptTokens := Wrap(d.promptTokens + IntField(warning, "prompt_tokens")),
           completionTokens := Wrap(d.completionTokens + IntField(warning, "completion_tokens")),
           totalTokens := Wrap(d.totalTokens + IntField(warning, "total_tokens")),
           tokensKnown := true)
    else if "route feasibility:" <= warning then d.(routeWarning := true)
    else d
  }

  function CountedAll(warnings: seq<string>): Diagnostics {
    if warnings == [] then NOTHING
    else Counted(CountedAll(warnings[..|warnings| - 1]), warnings[|warnings| - 1])
  }

  /** Without any fallback of a tool, one external call is taken to have succeeded. */
  function Closed(d: Diagnostics): Diagnostics {
    if d.externalCalls == 0 then d.(externalSuccesses := 1, externalCalls := 1) else d
  }

  predicate TellsToolFallback(warning: string) { "tool fallback:" <= warning }

  /** An external call is known of from the fallback of a tool only. */
  lemma {:induction false} CallsAreFallbacks(warnings: seq<string>)
    ensures var d := CountedAll(warnings);
            && d.externalSuccesses == 0 && d.externalCalls == d.toolFallbacks
            && (d.toolFallbacks > 0 <==> exists w | w in warnings :: TellsToolFallback(w))
  {
    hide IntField, Contains, Wrap;
    if warnings != [] {
      var before, w := warnings[..|warnings| - 1], warnings[|warnings| - 1];
      CallsAreFallbacks(before);
      assert warnings == before + [w];
      OneCall(CountedAll(before), w);
      hide Counted, TellsToolFallback;
    }
  }

  lemma OneCall(d: Diagnostics, warning: string)
    ensures var e := Counted(d, warning); var more := if TellsToolFallback(warning) then 1 else 0;
            && e.toolFallbacks == d.toolFallbacks + more && e.externalCalls == d.externalCalls + more
            && e.externalSuccesses == d.externalSuccesses
  {
    hide IntField, Contains, Wrap;
  }

  method AnalyzeWarnings(warnings: seq<string>) returns (d: Diagnostics)
    ensures d == Closed(CountedAll(warnings))
    ensures d.externalCalls == d.toolFallbacks + d.externalSuccesses
    ensures d.externalSuccesses == if exists w | w in warnings :: TellsToolFallback(w) then 0 else 1
  {
    hide IntField, Contains, Wrap;
    d := NOTHING;
    for i := 0 to |warnings|
      invariant d == CountedAll(warnings[..i])
    {
      var warning := warnings[i];
      assert warnings[..i + 1][..i] == warnings[..i];
      ghost var before := d;
      if "tool fallback:" <= warning {
        d := d.(toolFallbacks := d.toolFallbacks + 1, externalCalls := d.externalCalls + 1);
      } else if "LLM fallback:" <= warning {
        var duration := ParseIntField(warning, "duration_ms");
        d := d.(llmFallbacks := d.llmFallbacks + 1, nodeDuration := Wrap(d.nodeDuration + duration),
                nodeSamples := d.nodeSamples + 1);
      } else if "LLM trace:" <= warning {
        var duration := ParseIntField(warning, "duration_ms");
        d := d.(nodeDuration := Wrap(d.nodeDuration + duration), nodeSamples := d.nodeSamples + 1);
        if !Contains(warning, "total_tokens=unknown") {
          var prompt := ParseIntField(warning, "prompt_tokens");
          var completion := ParseIntField(warning, "completion_tokens");
          var total := ParseIntField(warning, "total_tokens");
          d := d.(promptTokens := Wrap(d.promptTokens + prompt),
                  completionTokens := Wrap(d.completionTokens + completion),
                  totalTokens := Wrap(d.totalTokens + total), tokensKnown := true);
        }
      } else if "route feasibility:" <= warning {
        d := d.(routeWarning := true);
      }
      assert d == Counted(before, warning);
    }
    assert warnings[..|warnings|] == warnings;
    CallsAreFallbacks(warnings);
    if d.externalCalls == 0 {
      d := d.(externalSuccesses := 1, externalCalls := 1);
    }
  }
}

/**
  internal/agent/eino/summary_stream.go: reading the value of the first introduced
  "summary" key out of a JSON text that is still growing.
 */
module SummaryStream {
  import opened Bytes
  import opened Utf8
  import opened Wrappers

  /** "summary", quotes included. */
  const KEY: seq<Byte> := [34, 115, 117, 109, 109, 97, 114, 121, 34]

  // ---------------------------------------------------------------- specification

  predicate KeyAt(raw: seq<Byte>, i: nat) {
    i + |KEY| <= |raw| && raw[i..i + |KEY|] == KEY
  }

  /** The last byte before position i that is not white space is `{` or `,`. */
  predicate Introduced(raw: seq<Byte>, i: nat)
    requires i <= |raw|
  {
    i > 0 &&
    if IsJsonSpace(raw[i - 1]) then Introduced(raw, i - 1)
    else raw[i - 1] == OPEN_BRACE || raw[i - 1] == COMMA
  }

  predicate Match(raw: seq<Byte>, i: nat) {
    KeyAt(raw, i) && Introduced(raw, i)
  }

  /** The first position at or after `from` where an introduced key starts. */
  function FirstMatch(raw: seq<Byte>, from: nat): (r: Option<nat>)
    requires from <= |raw|
    ensures r.Some? ==> from <= r.value && Match(raw, r.value)
    ensures r.Some? ==> forall i | from <= i < r.value :: !Match(raw, i)
    ensures r.None? ==> forall i | from <= i :: !Match(raw, i)
    decreases |raw| - from
  {
    if Match(raw, from) then Some(from)
    else if from == |raw| then None
    else FirstMatch(raw, from + 1)
  }

  function AfterColon(s: seq<Byte>): Option<seq<Byte>> {
    if s == [] then None
    else if s[0] == COLON then Some(s[1..])
    else AfterColon(s[1..])
  }

  function SkipSpace(s: seq<Byte>): seq<Byte> {
    if s != [] && IsJsonSpace(s[0]) then SkipSpace(s[1..]) else s
  }

  /** From just after the key: what follows the opening quote of the value, once it has arrived. */
  function AfterKey(s: seq<Byte>): Option<seq<Byte>> {
    match AfterColon(s)
    case None => None
    case Some(rest) =>
      var t := SkipSpace(rest);
      if t == [] || t[0] != QUOTE then None else Some(t[1..])
  }

  function Body(raw: seq<Byte>): Option<seq<Byte>> {
    match FirstMatch(raw, 0)
    case None => None
    case Some(i) => AfterKey(raw[i + |KEY|..])
  }

  function HexDigit(c: Byte): (v: int)
    ensures -1 <= v < 16
  {
    if 48 <= c <= 57 then c - 48
    else if 97 <= c <= 102 then c - 97 + 10
    else if 65 <= c <= 70 then c - 65 + 10
    else -1
  }

  /** The number four hexadecimal digits write, or -1. */
  function HexValue(hex: seq<Byte>): (v: int)
    ensures -1 <= v <= 0xFFFF
  {
    if |hex| != 4 || exists k | 0 <= k < 4 :: HexDigit(hex[k]) < 0 then -1
    else HexDigit(hex[0]) * 4096 + HexDigit(hex[1]) * 256 + HexDigit(hex[2]) * 16 + HexDigit(hex[3])
  }

  /** The character a two-byte escape stands for (section 7 of RFC 8259), if `code` is one. */
  function ShortEscape(code: Byte): Option<Byte> {
    if code == 34 then Some(34)        // \"
    else if code == 92 then Some(92)   // \\
    else if code == 47 then Some(47)   // \/
    else if code == 110 then Some(10)  // \n
    else if code == 114 then Some(13)  // \r
    else if code == 116 then Some(9)   // \t
    else if code == 98 then Some(8)    // \b
    else if code == 102 then Some(12)  // \f
    else None
  }

  /** One step of the scan: stop, reach the closing quote, or emit bytes and use up `used` bytes. */
  datatype Token = Stop | Close | Emit(bytes: seq<Byte>, used: nat)

  function Next(s: seq<Byte>): (t: Token)
    ensures t.Emit? ==> 0 < t.used <= |s|
  {
    if s == [] then Stop
    else if s[0] == QUOTE then Close
    else if s[0] != BACKSLASH then Emit([s[0]], 1)
    else if |s| < 2 then Stop
    else if ShortEscape(s[1]).Some? then Emit([ShortEscape(s[1]).value], 2)
    else if s[1] != 117 || |s| < 6 then Stop
    else
      var r := HexValue(s[2..6]);
      if r < 0 then Stop else Emit(EncodeRune(r), 6)
  }

  /** All that can be read from the inside of the string literal so far. */
  datatype Reading = Reading(value: seq<Byte>, closed: bool)

  function Scan(s: seq<Byte>): Reading {
    match Next(s)
    case Stop => Reading([], false)
    case Close => Reading([], true)
    case Emit(bytes, used) =>
      var rest := Scan(s[used..]);
      Reading(bytes + rest.value, rest.closed)
  }

  function Progress(raw: seq<Byte>): Reading {
    match Body(raw)
    case None => Reading([], false)
    case Some(s) => Scan(s)
  }

  function Trim(s: seq<Byte>): (t: seq<Byte>)
    ensures t <= s
    ensures t == [] || EndsInRune(t)
  {
    if s == [] || EndsInRune(s) then s else Trim(s[..|s| - 1])
  }

  /** What extractSummarySoFar returns. */
  function Extract(raw: seq<Byte>): seq<Byte> {
    Trim(Progress(raw).value)
  }

  // ---------------------------------------------------------------- the code

  class SummaryProgress {
    var complete: bool
    var value: seq<Byte>

    constructor ()
      ensures !complete && value == []
    {
      complete, value := false, [];
    }

    method Parse(raw: seq<Byte>)
      requires !complete && value == []
      modifies this
      ensures Reading(value, complete) == Progress(raw)
    {
      hide Next, Scan, FirstMatch, AfterKey, Resumes;
      var i := SeekBody(raw);
      if i < 0 {
        return;
      }
      ghost var whole := Scan(raw[i..]);
      ScanStart(raw[i..]);
      while i < |raw|
        invariant 0 <= i <= |raw|
        invariant !complete
        invariant Resumes(whole, value, raw[i..])
      {
        var token := ReadToken(raw, i);
        ScanStep(whole, value, raw, i);
        match token {
          case Stop =>
            return;
          case Close =>
            complete := true;
            return;
          case Emit(bytes, used) =>
            value := value + bytes;
            i := i + used;
        }
      }
      ScanEnd(whole, value, raw[i..]);
    }
  }

  /** With `value` already read, what is left to scan is s. */
  ghost predicate Resumes(whole: Reading, value: seq<Byte>, s: seq<Byte>) {
    whole == Reading(value + Scan(s).value, Scan(s).closed)
  }

  lemma ScanStart(s: seq<Byte>)
    ensures Resumes(Scan(s), [], s)
  {
  }

  lemma ScanEnd(whole: Reading, value: seq<Byte>, s: seq<Byte>)
    requires s == [] && Resumes(whole, value, s)
    ensures whole == Reading(value, false)
  {
  }

  lemma ScanStep(whole: Reading, value: seq<Byte>, raw: seq<Byte>, i: nat)
    requires i <= |raw| && Resumes(whole, value, raw[i..])
    ensures match Next(raw[i..])
            case Stop => whole == Reading(value, false)
            case Close => whole == Reading(value, true)
            case Emit(bytes, used) => i + used <= |raw| && Resumes(whole, value + bytes, raw[i + used..])
  {
  }

  /** The switch in the scanning loop: what the bytes at the cursor stand for. */
  method ReadToken(raw: seq<Byte>, i: nat) returns (t: Token)
    requires i < |raw|
    ensures t == Next(raw[i..])
  {
    ghost var s := raw[i..];
    var ch := raw[i];
    if ch == QUOTE {
      return Close;
    }
    if ch != BACKSLASH {
      return Emit([ch], 1);
    }
    if i + 1 >= |raw| {
      return Stop;
    }
    var esc := raw[i + 1];
    assert esc == s[1];
    if ShortEscape(esc).Some? {
      return Emit([ShortEscape(esc).value], 2);
    }
    if esc != 117 || i + 6 > |raw| {
      return Stop;
    }
    assert s[2..6] == raw[i + 2..i + 6];
    var r := DecodeUnicodeEscape(raw[i + 2..i + 6]);
    if r < 0 {
      return Stop;
    }
    return Emit(EncodeRune(r), 6);
  }

  /** The cursor just after the opening quote of the value, or -1 while it has not arrived. */
  method SeekBody(raw: seq<Byte>) returns (i: int)
    ensures i < 0 ==> Body(raw).None?
    ensures i >= 0 ==> i <= |raw| && Body(raw) == Some(raw[i..])
  {
    hide FirstMatch, Match;
    var idx := IndexOfSummaryKey(raw);
    if idx < 0 {
      return -1;
    }
    i := idx;
    while i < |raw| && raw[i] != COLON
      invariant idx <= i <= |raw|
      invariant AfterColon(raw[idx..]) == AfterColon(raw[i..])
    {
      assert raw[i..][1..] == raw[i + 1..];
      i := i + 1;
    }
    if i >= |raw| {
      return -1;
    }
    assert raw[i..][1..] == raw[i + 1..];
    i := i + 1;
    ghost var rest := raw[i..];
    while i < |raw| && (raw[i] == 32 || raw[i] == 9 || raw[i] == 10 || raw[i] == 13)
      invariant idx <= i <= |raw|
      invariant SkipSpace(rest) == SkipSpace(raw[i..])
    {
      assert raw[i..][1..] == raw[i + 1..];
      i := i + 1;
    }
    if i >= |raw| || raw[i] != QUOTE {
      return -1;
    }
    assert raw[i..][1..] == raw[i + 1..];
    i := i + 1;
  }

  /** The index just after the closing quote of the key, or -1. */
  method IndexOfSummaryKey(raw: seq<Byte>) returns (r: int)
    ensures r < 0 <==> FirstMatch(raw, 0).None?
    ensures r <= |raw|
    ensures r >= 0 ==> FirstMatch(raw, 0) == Some(r - |KEY|)
  {
    var offset := 0;
    while offset < |raw|
      invariant 0 <= offset <= |raw|
      invariant forall i: nat | i < offset :: !Match(raw, i)
      decreases |raw| - offset
    {
      var i := Index(raw, offset);
      if i < 0 {
        return -1;
      }
      var j := i - 1;
      while j >= 0 && (raw[j] == 32 || raw[j] == 9 || raw[j] == 10 || raw[j] == 13)
        invariant -1 <= j < i
        invariant Introduced(raw, i) == Introduced(raw, j + 1)
      {
        j := j - 1;
      }
      if j >= 0 && (raw[j] == OPEN_BRACE || raw[j] == COMMA) {
        assert Match(raw, i);
        return i + |KEY|;
      }
      KeysDoNotOverlap(raw, i);
      offset := i + |KEY|;
    }
    return -1;
  }

  /** strings.Index on raw[offset:] for the key. */
  method Index(raw: seq<Byte>, offset: nat) returns (i: int)
    requires offset <= |raw|
    ensures i < 0 ==> forall k: nat | offset <= k :: !KeyAt(raw, k)
    ensures i >= 0 ==> offset <= i && KeyAt(raw, i) && forall k: nat | offset <= k < i :: !KeyAt(raw, k)
  {
    i := offset;
    while i + |KEY| <= |raw|
      invariant offset <= i
      invariant forall k: nat | offset <= k < i :: !KeyAt(raw, k)
    {
      if raw[i..i + |KEY|] == KEY {
        return i;
      }
      i := i + 1;
    }
    return -1;
  }

  /** Skipping a whole key misses nothing: a key that starts inside another one is not introduced. */
  lemma KeysDoNotOverlap(raw: seq<Byte>, i: nat)
    requires KeyAt(raw, i)
    ensures forall k: nat | i < k < i + |KEY| :: !Match(raw, k)
  {
  }

  method DecodeUnicodeEscape(hex: seq<Byte>) returns (r: int)
    ensures r == HexValue(hex)
  {
    if |hex| != 4 {
      return -1;
    }
    var out := 0;
    var k := 0;
    while k < 4
      invariant 0 <= k <= 4
      invariant forall j | 0 <= j < k :: HexDigit(hex[j]) >= 0
      invariant k == 0 ==> out == 0
      invariant k == 1 ==> out == HexDigit(hex[0])
      invariant k == 2 ==> out == HexDigit(hex[0]) * 16 + HexDigit(hex[1])
      invariant k == 3 ==> out == HexDigit(hex[0]) * 256 + HexDigit(hex[1]) * 16 + HexDigit(hex[2])
      invariant k == 4 ==>
                  out == HexDigit(hex[0]) * 4096 + HexDigit(hex[1]) * 256 + HexDigit(hex[2]) * 16 + HexDigit(hex[3])
    {
      var v := HexDigit(hex[k]);
      if v < 0 {
        return -1;
      }
      out := out * 16 + v;
      k := k + 1;
    }
    return out;
  }

  method TrimIncompleteUtf8(text: seq<Byte>) returns (s: seq<Byte>)
    ensures s == Trim(text)
  {
    s := text;
    while |s| > 0
      invariant Trim(s) == Trim(text)
    {
      if EndsInRune(s) {
        break;
      }
      s := s[..|s| - 1];
    }
  }

  method ExtractSummarySoFar(raw: seq<Byte>) returns (r: seq<Byte>)
    ensures r == Extract(raw)
  {
    var prog := new SummaryProgress();
    prog.Parse(raw);
    r := TrimIncompleteUtf8(prog.value);
  }

  // ---------------------------------------------------------------- growing the text

  lemma MatchStable(raw: seq<Byte>, more: seq<Byte>, i: nat)
    requires i + |KEY| <= |raw|
    ensures Match(raw + more, i) == Match(raw, i)
  {
    assert (raw + more)[i..i + |KEY|] == raw[i..i + |KEY|];
    IntroducedStable(raw, more, i);
  }

  lemma IntroducedStable(raw: seq<Byte>, more: seq<Byte>, i: nat)
    requires i <= |raw|
    ensures Introduced(raw + more, i) == Introduced(raw, i)
  {
  }

  lemma FirstMatchStable(raw: seq<Byte>, more: seq<Byte>)
    requires FirstMatch(raw, 0).Some?
    ensures FirstMatch(raw + more, 0) == FirstMatch(raw, 0)
  {
    var i := FirstMatch(raw, 0).value;
    forall k: nat | k <= i { MatchStable(raw, more, k); }
  }

  lemma {:induction false} AfterColonStable(s: seq<Byte>, more: seq<Byte>)
    requires AfterColon(s).Some?
    ensures AfterColon(s + more) == Some(AfterColon(s).value + more)
  {
    assert (s + more)[1..] == s[1..] + more;
    if s[0] != COLON {
      AfterColonStable(s[1..], more);
    }
  }

  lemma {:induction false} SkipSpaceStable(s: seq<Byte>, more: seq<Byte>)
    requires SkipSpace(s) != []
    ensures SkipSpace(s + more) == SkipSpace(s) + more
  {
    if IsJsonSpace(s[0]) {
      assert (s + more)[1..] == s[1..] + more;
      SkipSpaceStable(s[1..], more);
    }
  }

  lemma AfterKeyStable(s: seq<Byte>, more: seq<Byte>)
    requires AfterKey(s).Some?
    ensures AfterKey(s + more) == Some(AfterKey(s).value + more)
  {
    AfterColonStable(s, more);
    var rest := AfterColon(s).value;
    SkipSpaceStable(rest, more);
    var t := SkipSpace(rest);
    assert (t + more)[1..] == t[1..] + more;
  }

  lemma BodyStable(raw: seq<Byte>, more: seq<Byte>)
    requires Body(raw).Some?
    ensures Body(raw + more) == Some(Body(raw).value + more)
  {
    FirstMatchStable(raw, more);
    var start := FirstMatch(raw, 0).value + |KEY|;
    assert (raw + more)[start..] == raw[start..] + more;
    AfterKeyStable(raw[start..], more);
  }

  lemma NextStable(s: seq<Byte>, more: seq<Byte>)
    ensures Next(s) != Stop ==> Next(s + more) == Next(s)
  {
    if |s| >= 6 {
      assert (s + more)[2..6] == s[2..6];
    }
  }

  lemma {:induction false} ScanGrows(s: seq<Byte>, more: seq<Byte>)
    ensures Scan(s).value <= Scan(s + more).value
    ensures Scan(s).closed ==> Scan(s + more) == Scan(s)
    decreases |s|
  {
    NextStable(s, more);
    hide Next;
    var t := Next(s);
    if t.Emit? {
      ScanGrows(s[t.used..], more);
      assert (s + more)[t.used..] == s[t.used..] + more;
    }
  }

  lemma {:induction false} ProgressGrows(raw: seq<Byte>, more: seq<Byte>)
    ensures Progress(raw).value <= Progress(raw + more).value
    ensures Progress(raw).closed ==> Progress(raw + more) == Progress(raw)
  {
    if Body(raw).Some? {
      BodyStable(raw, more);
      ScanGrows(Body(raw).value, more);
    }
  }

  lemma {:induction false} TrimGrows(s: seq<Byte>, t: seq<Byte>)
    requires s <= t
    ensures Trim(s) <= Trim(t)
    decreases |t|
  {
    if t == [] || EndsInRune(t) {
    } else if |s| == |t| {
      assert s == t;
    } else {
      TrimGrows(s, t[..|t| - 1]);
    }
  }

  /** Text already shown is never revised: more input only ever appends to the extracted summary. */
  lemma {:induction false} ExtractGrows(raw: seq<Byte>, more: seq<Byte>)
    ensures Extract(raw) <= Extract(raw + more)
  {
    ProgressGrows(raw, more);
    TrimGrows(Progress(raw).value, Progress(raw + more).value);
  }

  /** Once the closing quote has been read, nothing that follows changes the result. */
  lemma ClosedIsFinal(raw: seq<Byte>, more: seq<Byte>)
    requires Progress(raw).closed
    ensures Extract(raw + more) == Extract(raw)
  {
    ProgressGrows(raw, more);
  }
}

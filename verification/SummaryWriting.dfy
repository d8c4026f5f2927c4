/**
  The other side of SummaryStream: JSON texts that carry a summary, written in any of the ways
  section 7 of RFC 8259 allows (surrogate escapes aside), and what is read back from them.
 */
module SummaryWriting {
  import opened Bytes
  import opened Utf8
  import opened SummaryStream
  import opened Wrappers

  /** One character of a JSON string literal: as itself, as a two-byte escape, or as \uXXXX. */
  datatype Piece = Plain(rune: seq<Byte>) | Short(code: Byte) | Hex(digits: seq<Byte>)

  predicate Legal(p: Piece) {
    match p
    case Plain(rune) => IsRune(rune) && rune[0] >= 0x20 && rune[0] != QUOTE && rune[0] != BACKSLASH
    case Short(code) => ShortEscape(code).Some?
    case Hex(digits) => HexValue(digits) >= 0
  }

  predicate AllLegal(ps: seq<Piece>) {
    forall i | 0 <= i < |ps| :: Legal(ps[i])
  }

  /** The bytes of the piece inside the literal. */
  function Source(p: Piece): seq<Byte> {
    match p
    case Plain(rune) => rune
    case Short(code) => [BACKSLASH, code]
    case Hex(digits) => [BACKSLASH, 117] + digits
  }

  /** The character the piece stands for. */
  function Char(p: Piece): (rune: seq<Byte>)
    requires Legal(p)
    ensures IsRune(rune)
  {
    match p
    case Plain(rune) => rune
    case Short(code) => [ShortEscape(code).value]
    case Hex(digits) => EncodeRune(HexValue(digits))
  }

  function SourceAll(ps: seq<Piece>): seq<Byte> {
    if ps == [] then [] else Source(ps[0]) + SourceAll(ps[1..])
  }

  function Chars(ps: seq<Piece>): (runes: seq<seq<Byte>>)
    requires AllLegal(ps)
    ensures |runes| == |ps| && AllRunes(runes)
  {
    if ps == [] then [] else [Char(ps[0])] + Chars(ps[1..])
  }

  /** Everything up to and including the opening quote of the value. */
  function Head(before: seq<Byte>, gap: seq<Byte>, space: seq<Byte>): seq<Byte> {
    (before + KEY) + (gap + [COLON] + (space + [QUOTE]))
  }

  function Document(head: seq<Byte>, ps: seq<Piece>, after: seq<Byte>): seq<Byte> {
    head + (SourceAll(ps) + ([QUOTE] + after))
  }

  /** `head` opens the value of the first introduced key, with only space between colon and quote. */
  predicate Opens(head: seq<Byte>) {
    Body(head) == Some([])
  }

  lemma {:induction false} GapToColon(gap: seq<Byte>, rest: seq<Byte>)
    requires COLON !in gap
    ensures AfterColon(gap + [COLON] + rest) == Some(rest)
  {
    var s := gap + [COLON] + rest;
    if gap == [] {
      assert s[1..] == rest;
    } else {
      GapToColon(gap[1..], rest);
      assert s[1..] == gap[1..] + [COLON] + rest;
    }
  }

  lemma {:induction false} SpaceToQuote(space: seq<Byte>)
    requires forall b | b in space :: IsJsonSpace(b)
    ensures SkipSpace(space + [QUOTE]) == [QUOTE]
  {
    if space != [] {
      SpaceToQuote(space[1..]);
      assert (space + [QUOTE])[1..] == space[1..] + [QUOTE];
    }
  }

  lemma OpeningQuote(gap: seq<Byte>, space: seq<Byte>)
    requires COLON !in gap
    requires forall b | b in space :: IsJsonSpace(b)
    ensures AfterKey(gap + [COLON] + (space + [QUOTE])) == Some([])
  {
    GapToColon(gap, space + [QUOTE]);
    SpaceToQuote(space);
    assert [QUOTE][1..] == [];
  }

  /** Any JSON text whose first introduced key is the one written here opens a value. */
  lemma {:induction false} HeadOpens(before: seq<Byte>, gap: seq<Byte>, space: seq<Byte>)
    requires FirstMatch(before + KEY, 0) == Some(|before|)
    requires COLON !in gap
    requires forall b | b in space :: IsJsonSpace(b)
    ensures Opens(Head(before, gap, space))
  {
    hide FirstMatch, AfterKey;
    var key, tail := before + KEY, gap + [COLON] + (space + [QUOTE]);
    OpeningQuote(gap, space);
    FirstMatchStable(key, tail);
    assert (key + tail)[|key|..] == tail;
  }

  lemma ScanPlainByte(b: Byte, rest: seq<Byte>)
    requires b != QUOTE && b != BACKSLASH
    ensures Scan([b] + rest) == Reading([b] + Scan(rest).value, Scan(rest).closed)
  {
  }

  lemma {:induction false} ScanPlainBytes(bytes: seq<Byte>, rest: seq<Byte>)
    requires forall b | b in bytes :: b != QUOTE && b != BACKSLASH
    ensures Scan(bytes + rest) == Reading(bytes + Scan(rest).value, Scan(rest).closed)
    decreases |bytes|
  {
    hide Scan;
    if bytes == [] {
      assert bytes + rest == rest;
      assert [] + Scan(rest).value == Scan(rest).value;
    } else {
      var b, tail := bytes[0], bytes[1..];
      assert b in bytes && bytes == [b] + tail;
      assert forall x | x in tail :: x in bytes;
      ScanPlainBytes(tail, rest);
      ScanPlainByte(b, tail + rest);
      Assoc([b], tail, rest);
      Assoc([b], tail, Scan(rest).value);
    }
  }

  lemma {:induction false} ScanPiece(p: Piece, rest: seq<Byte>)
    requires Legal(p)
    ensures Scan(Source(p) + rest) == Reading(Char(p) + Scan(rest).value, Scan(rest).closed)
  {
    var s := Source(p) + rest;
    match p
    case Plain(rune) =>
      ScanPlainBytes(rune, rest);
    case Short(code) =>
      assert s[2..] == rest;
      assert Next(s) == Emit(Char(p), 2);
    case Hex(digits) =>
      assert s[2..6] == digits && s[6..] == rest;
      assert Next(s) == Emit(Char(p), 6);
  }

  lemma {:induction false} ScanPieces(ps: seq<Piece>, rest: seq<Byte>)
    requires AllLegal(ps)
    ensures Scan(SourceAll(ps) + rest) == Reading(Concat(Chars(ps)) + Scan(rest).value, Scan(rest).closed)
  {
    hide Scan, Source, Char;
    if ps == [] {
      assert SourceAll(ps) + rest == rest;
    } else {
      ScanPieces(ps[1..], rest);
      ScanPiece(ps[0], SourceAll(ps[1..]) + rest);
      Assoc(Source(ps[0]), SourceAll(ps[1..]), rest);
      ConcatCons(Char(ps[0]), Chars(ps[1..]));
      Assoc(Char(ps[0]), Concat(Chars(ps[1..])), Scan(rest).value);
    }
  }

  lemma ProgressInside(head: seq<Byte>, s: seq<Byte>)
    requires Opens(head)
    ensures Progress(head + s) == Scan(s)
  {
    hide Body, Scan;
    BodyStable(head, s);
    assert [] + s == s;
  }

  lemma TrimWholeText(runes: seq<seq<Byte>>)
    requires AllRunes(runes)
    ensures Trim(Concat(runes)) == Concat(runes)
  {
    if runes != [] {
      RunesEndInRune(runes);
    }
  }

  /** Writing a text as the summary and extracting it gives the text back, and marks it complete. */
  lemma {:induction false} RoundTrip(head: seq<Byte>, ps: seq<Piece>, after: seq<Byte>)
    requires Opens(head) && AllLegal(ps)
    ensures Extract(Document(head, ps, after)) == Concat(Chars(ps))
    ensures Progress(Document(head, ps, after)).closed
  {
    hide Progress, Trim, SourceAll;
    var rest := [QUOTE] + after;
    ProgressInside(head, SourceAll(ps) + rest);
    ScanPieces(ps, rest);
    assert Scan(rest) == Reading([], true);
    assert Concat(Chars(ps)) + [] == Concat(Chars(ps));
    TrimWholeText(Chars(ps));
  }

  /** A cut inside one piece leaves a reading that trims back to what came before the piece. */
  lemma CutPiece(done: seq<seq<Byte>>, p: Piece, m: nat)
    requires AllRunes(done) && Legal(p) && m < |Source(p)|
    ensures Trim(Concat(done) + Scan(Source(p)[..m]).value) == Concat(done)
  {
    var s := Source(p)[..m];
    match p
    case Plain(rune) =>
      ScanPlainBytes(s, []);
      assert s + [] == s;
      TrimCutRune(done, rune, m);
    case Short(code) =>
      assert Next(s) == Stop;
      TrimCutRune(done, Char(p), 0);
    case Hex(digits) =>
      assert Next(s) == Stop;
      TrimCutRune(done, Char(p), 0);
  }

  lemma {:induction false} TrimCutRune(done: seq<seq<Byte>>, rune: seq<Byte>, m: nat)
    requires AllRunes(done) && IsRune(rune) && m < |rune|
    ensures Trim(Concat(done) + rune[..m]) == Concat(done)
  {
    hide EndsInRune, IsRune;
    var s := Concat(done) + rune[..m];
    if m == 0 {
      assert s == Concat(done);
      if done != [] {
        RunesEndInRune(done);
      }
    } else {
      CutRuneIsNotRune(Concat(done), rune, m);
      assert s[..|s| - 1] == Concat(done) + rune[..m - 1];
      TrimCutRune(done, rune, m - 1);
    }
  }

  lemma {:induction false} CutPieces(done: seq<seq<Byte>>, ps: seq<Piece>, after: seq<Byte>, m: nat) returns (k: nat)
    requires AllRunes(done) && AllLegal(ps)
    requires m <= |SourceAll(ps) + ([QUOTE] + after)|
    ensures k <= |ps|
    ensures Trim(Concat(done) + Scan((SourceAll(ps) + ([QUOTE] + after))[..m]).value)
         == Concat(done) + Concat(Chars(ps)[..k])
    decreases |ps|
  {
    hide Trim, IsRune, Source, Char;
    var rest := [QUOTE] + after;
    var s := (SourceAll(ps) + rest)[..m];
    k := 0;
    if ps == [] {
      assert Scan(s).value == [];
      assert Concat(done) + Scan(s).value == Concat(done);
      TrimWholeText(done);
      assert Concat(done) + [] == Concat(done);
    } else {
      var tail := SourceAll(ps[1..]) + rest;
      var len := |Source(ps[0])|;
      assert SourceAll(ps) + rest == Source(ps[0]) + tail;
      hide Scan, SourceAll, Concat, AllRunes;
      if m < len {
        assert s == Source(ps[0])[..m];
        CutPiece(done, ps[0], m);
        NoMore(done, Chars(ps));
      } else {
        var cut := tail[..m - len];
        assert s == Source(ps[0]) + cut;
        ScanPiece(ps[0], cut);
        OneMoreRune(done, ps[0]);
        k := CutPieces(done + [Char(ps[0])], ps[1..], after, |cut|);
        CutAfterPiece(done, Char(ps[0]), Scan(cut).value, Chars(ps[1..])[..k]);
        k := k + 1;
        assert Chars(ps)[..k] == [Char(ps[0])] + Chars(ps[1..])[..k - 1];
      }
    }
  }

  lemma NoMore(done: seq<seq<Byte>>, runes: seq<seq<Byte>>)
    ensures Concat(done) + Concat(runes[..0]) == Concat(done)
  {
    assert Concat(done) + [] == Concat(done);
  }

  lemma OneMoreRune(done: seq<seq<Byte>>, p: Piece)
    requires AllRunes(done) && Legal(p)
    ensures AllRunes(done + [Char(p)])
  {
    hide IsRune, Char, Source;
  }

  lemma CutAfterPiece(done: seq<seq<Byte>>, c: seq<Byte>, value: seq<Byte>, more: seq<seq<Byte>>)
    requires Trim(Concat(done + [c]) + value) == Concat(done + [c]) + Concat(more)
    ensures Trim(Concat(done) + (c + value)) == Concat(done) + Concat([c] + more)
  {
    hide Trim, Concat;
    ConcatSnoc(done, c);
    Assoc(Concat(done), c, value);
    Assoc(Concat(done), c, Concat(more));
    ConcatCons(c, more);
  }

  /** Before the opening quote nothing is read. */
  lemma NothingBeforeTheQuote(head: seq<Byte>, n: nat)
    requires Opens(head) && n < |head|
    ensures Extract(head[..n]) == []
  {
    hide Body;
    assert head[..n] + head[n..] == head;
    if Body(head[..n]).Some? {
      BodyStable(head[..n], head[n..]);
    }
  }

  /** Cut anywhere, the document yields a whole number of the text's characters. */
  lemma Truncation(head: seq<Byte>, ps: seq<Piece>, after: seq<Byte>, n: nat) returns (k: nat)
    requires Opens(head) && AllLegal(ps) && n <= |Document(head, ps, after)|
    ensures k <= |ps|
    ensures Extract(Document(head, ps, after)[..n]) == Concat(Chars(ps)[..k])
  {
    hide Extract, Body, SourceAll;
    var doc := Document(head, ps, after);
    if n < |head| {
      k := 0;
      assert doc[..n] == head[..n];
      NothingBeforeTheQuote(head, n);
      ConcatEmpty();
    } else {
      k := CutInside(head, ps, after, n - |head|);
      assert doc[..n] == head + doc[|head|..][..n - |head|];
    }
  }

  lemma {:induction false} CutInside(head: seq<Byte>, ps: seq<Piece>, after: seq<Byte>, m: nat) returns (k: nat)
    requires Opens(head) && AllLegal(ps) && m <= |Document(head, ps, after)| - |head|
    ensures k <= |ps|
    ensures Extract(head + Document(head, ps, after)[|head|..][..m]) == Concat(Chars(ps)[..k])
  {
    hide Progress, Scan, Trim, SourceAll, Body, Concat;
    var tail := SourceAll(ps) + ([QUOTE] + after);
    assert Document(head, ps, after)[|head|..] == tail;
    ProgressInside(head, tail[..m]);
    k := CutPieces([], ps, after, m);
    ConcatEmpty();
    assert [] + Scan(tail[..m]).value == Scan(tail[..m]).value;
    assert [] + Concat(Chars(ps)[..k]) == Concat(Chars(ps)[..k]);
  }

  lemma ConcatEmpty()
    ensures Concat([]) == []
  {
  }

  lemma ConcatCut(runes: seq<seq<Byte>>, i: nat, j: nat)
    requires i <= j <= |runes|
    ensures Concat(runes[..j]) == Concat(runes[..i]) + Concat(runes[i..j])
  {
    assert runes[..j] == runes[..i] + runes[i..j];
    ConcatAppend(runes[..i], runes[i..j]);
  }

  lemma {:induction false} ConcatLongEnough(runes: seq<seq<Byte>>)
    requires AllRunes(runes)
    ensures |Concat(runes)| >= |runes|
  {
    if runes != [] {
      ConcatLongEnough(runes[1..]);
    }
  }

  lemma CutsAreOrdered(runes: seq<seq<Byte>>, i: nat, j: nat)
    requires AllRunes(runes) && i <= |runes| && j <= |runes|
    requires |Concat(runes[..i])| <= |Concat(runes[..j])|
    ensures i <= j
  {
    if j <= i {
      ConcatCut(runes, j, i);
      ConcatLongEnough(runes[j..i]);
    }
  }

  /** What a later cut shows beyond an earlier one is again whole characters, the ones in between. */
  lemma {:induction false} DeltaIsWholeCharacters(head: seq<Byte>, ps: seq<Piece>, after: seq<Byte>, n1: nat, n2: nat)
      returns (k1: nat, k2: nat)
    requires Opens(head) && AllLegal(ps) && n1 <= n2 <= |Document(head, ps, after)|
    ensures k1 <= k2 <= |ps|
    ensures Extract(Document(head, ps, after)[..n1]) == Concat(Chars(ps)[..k1])
    ensures Extract(Document(head, ps, after)[..n2])
         == Extract(Document(head, ps, after)[..n1]) + Concat(Chars(ps)[k1..k2])
  {
    var doc := Document(head, ps, after);
    k1 := Truncation(head, ps, after, n1);
    k2 := Truncation(head, ps, after, n2);
    assert doc[..n1] + doc[n1..n2] == doc[..n2];
    ExtractGrows(doc[..n1], doc[n1..n2]);
    CutsAreOrdered(Chars(ps), k1, k2);
    ConcatCut(Chars(ps), k1, k2);
  }

  /** The escapes a writer needs: quote, backslash and control characters; the rest goes in as it is. */
  function Write(rune: seq<Byte>): (p: Piece)
    requires IsRune(rune)
    ensures Legal(p) && Char(p) == rune
  {
    if rune == [QUOTE] || rune == [BACKSLASH] then Short(rune[0])
    else if rune[0] < 0x20 then
      var low := rune[0] % 16;
      Hex([48, 48, 48 + rune[0] / 16, if low < 10 then 48 + low else 87 + low])
    else Plain(rune)
  }

  function WriteAll(runes: seq<seq<Byte>>): (ps: seq<Piece>)
    requires AllRunes(runes)
    ensures AllLegal(ps) && Chars(ps) == runes
  {
    if runes == [] then [] else [Write(runes[0])] + WriteAll(runes[1..])
  }

  /** Every well-formed text survives being written as the summary of a plan. */
  lemma {:induction false} EveryTextRoundTrips(
      before: seq<Byte>, gap: seq<Byte>, space: seq<Byte>, text: seq<seq<Byte>>, after: seq<Byte>)
    requires FirstMatch(before + KEY, 0) == Some(|before|)
    requires COLON !in gap
    requires forall b | b in space :: IsJsonSpace(b)
    requires AllRunes(text)
    ensures Extract(Document(Head(before, gap, space), WriteAll(text), after)) == Concat(text)
  {
    HeadOpens(before, gap, space);
    RoundTrip(Head(before, gap, space), WriteAll(text), after);
  }

  // ---------------------------------------------------------------- exactly when a text comes back

  /** Whatever is written after this head comes back. */
  ghost predicate ComesBack(head: seq<Byte>) {
    forall ps, after | AllLegal(ps) :: Extract(Document(head, ps, after)) == Concat(Chars(ps))
  }

  const X: Byte := 120

  /** A plain character behind a text that is still open is read, or what comes before it stops the scan. */
  lemma {:induction false} ScanOneMore(s: seq<Byte>)
    ensures var before, after := Scan(s).value, Scan(s + [X, QUOTE]).value;
            after == before || (after == before + [X] && (before == [] ==> s == []))
    decreases |s|
  {
    var t, more := Next(s), [X, QUOTE];
    NextStable(s, more);
    if s == [] {
      assert s + more == more && more[1..] == [QUOTE];
    } else if t.Emit? {
      assert |t.bytes| > 0;
      ScanOneMore(s[t.used..]);
      assert (s + more)[t.used..] == s[t.used..] + more;
      Assoc(t.bytes, Scan(s[t.used..]).value, [X]);
    } else if t == Stop {
      CutEscapeStops(s);
    }
  }

  /** An escape that is cut short is not made whole by that character. */
  lemma CutEscapeStops(s: seq<Byte>)
    requires s != [] && Next(s) == Stop
    ensures Next(s + [X, QUOTE]) == Stop
  {
    var all := s + [X, QUOTE];
    if 6 <= |s| {
      assert all[2..6] == s[2..6];
    } else if 6 <= |all| {
      assert all[2..6][|s| - 2] == X && HexDigit(X) < 0;
    }
  }

  /** The text up to the colon. */
  lemma {:induction false} ToColon(s: seq<Byte>) returns (p: seq<Byte>)
    requires AfterColon(s).Some?
    ensures s == p + AfterColon(s).value && AfterColon(p) == Some([])
  {
    if s[0] == COLON {
      p := [COLON];
      assert p[1..] == [];
    } else {
      p := ToColon(s[1..]);
      p := [s[0]] + p;
      assert s == [s[0]] + s[1..];
    }
  }

  /** The space that is skipped. */
  lemma {:induction false} Skipped(s: seq<Byte>) returns (space: seq<Byte>)
    ensures s == space + SkipSpace(s)
    ensures forall b | b in space :: IsJsonSpace(b)
  {
    if s != [] && IsJsonSpace(s[0]) {
      space := Skipped(s[1..]);
      space := [s[0]] + space;
    } else {
      space := [];
    }
  }

  /** The part of a text up to the opening quote opens the value by itself. */
  lemma {:induction false} AfterKeyIsLocal(s: seq<Byte>) returns (p: seq<Byte>)
    requires AfterKey(s).Some?
    ensures p != [] && p[|p| - 1] == QUOTE && s == p + AfterKey(s).value
    ensures AfterKey(p) == Some([])
  {
    var rest, y := AfterColon(s).value, AfterKey(s).value;
    assert SkipSpace(rest) == [QUOTE] + y;
    hide AfterKey, AfterColon, SkipSpace, IsJsonSpace;
    var toColon := ToColon(s);
    var space := Skipped(rest);
    p := toColon + (space + [QUOTE]);
    OpensAtQuote(toColon, space);
    Assoc(space, [QUOTE], y);
    Assoc(toColon, space + [QUOTE], y);
  }

  lemma OpensAtQuote(toColon: seq<Byte>, space: seq<Byte>)
    requires AfterColon(toColon) == Some([]) && forall b | b in space :: IsJsonSpace(b)
    ensures AfterKey(toColon + (space + [QUOTE])) == Some([])
  {
    AfterColonStable(toColon, space + [QUOTE]);
    SpaceToQuote(space);
    assert [] + (space + [QUOTE]) == space + [QUOTE] && [QUOTE][1..] == [];
  }

  lemma {:induction false} FirstMatchIsLocal(raw: seq<Byte>, m: nat)
    requires FirstMatch(raw, 0).Some? && FirstMatch(raw, 0).value + |KEY| <= m <= |raw|
    ensures FirstMatch(raw[..m], 0) == FirstMatch(raw, 0)
  {
    var i := FirstMatch(raw, 0).value;
    assert raw[..m] + raw[m..] == raw;
    assert raw[..m][i..i + |KEY|] == raw[i..i + |KEY|];
    IntroducedStable(raw[..m], raw[m..], i);
    assert Match(raw[..m], i);
    FirstMatchStable(raw[..m], raw[m..]);
  }

  lemma {:induction false} BodyIsLocal(raw: seq<Byte>) returns (p: seq<Byte>)
    requires Body(raw).Some?
    ensures p != [] && p[|p| - 1] == QUOTE && raw == p + Body(raw).value && Opens(p)
  {
    var start := FirstMatch(raw, 0).value + |KEY|;
    var q := AfterKeyIsLocal(raw[start..]);
    p := raw[..start] + q;
    assert raw == raw[..start] + raw[start..];
    Assoc(raw[..start], q, Body(raw).value);
    FirstMatchIsLocal(raw, start);
    hide AfterKey, FirstMatch;
    FirstMatchStable(raw[..start], q);
    assert p[start..] == q;
  }

  /** A head that does not open a value loses even the text "x", or the empty one. */
  lemma {:induction false} ClosedHeadLoses(head: seq<Byte>)
    requires Extract(head + [QUOTE]) == [] && Extract(head + [X, QUOTE]) == [X]
    ensures Opens(head)
  {
    var raw := head + [X, QUOTE];
    if Body(head).Some? {
      var b := Body(head).value;
      BodyStable(head, [X, QUOTE]);
      ExtractGrows(head, [QUOTE]);
      ScanOneMore(b);
      hide Body, Scan, Extract, Trim;
      OneMoreIsTrimmed(head, b);
    } else {
      ClosedHeadReadsNothing(head);
    }
  }

  lemma OneMoreIsTrimmed(head: seq<Byte>, b: seq<Byte>)
    requires Body(head) == Some(b) && Body(head + [X, QUOTE]) == Some(b + [X, QUOTE])
    requires Extract(head) == [] && Extract(head + [X, QUOTE]) == [X]
    requires var before, after := Scan(b).value, Scan(b + [X, QUOTE]).value;
             after == before || (after == before + [X] && (before == [] ==> b == []))
    ensures b == []
  {
    hide Body, Scan;
    var before := Scan(b).value;
    assert EndsInRune(before + [X]) by { EndsInPlain(before); }
    assert Trim(before) == [];
    assert Trim(before + [X]) == before + [X];
  }

  lemma EndsInPlain(s: seq<Byte>)
    ensures EndsInRune(s + [X])
  {
    assert (s + [X])[|s|..] == [X];
  }

  lemma {:induction false} ClosedHeadReadsNothing(head: seq<Byte>)
    requires Body(head).None?
    ensures Extract(head + [X, QUOTE]) == []
  {
    var raw := head + [X, QUOTE];
    if Body(raw).Some? {
      var y := Body(raw).value;
      var p := BodyIsLocal(raw);
      hide Body, Extract, Progress;
      assert p == raw[..|p|];
      assert raw[|head|] == X && raw[|p| - 1] == QUOTE;
      if |y| >= 2 {
        assert p == head[..|p|] && p + head[|p|..] == head;
        BodyStable(p, head[|p|..]);
      } else {
      }
    }
  }

  /** Texts written after a head come back, all of them, if and only if the head opens a value. */
  lemma {:induction false} ComesBackIffOpens(head: seq<Byte>)
    ensures ComesBack(head) <==> Opens(head)
  {
    if Opens(head) {
      forall ps, after | AllLegal(ps)
        ensures Extract(Document(head, ps, after)) == Concat(Chars(ps))
      {
        RoundTrip(head, ps, after);
      }
    }
    if ComesBack(head) {
      EmptyAndX(head);
      ClosedHeadLoses(head);
    }
  }

  lemma EmptyAndX(head: seq<Byte>)
    requires ComesBack(head)
    ensures Extract(head + [QUOTE]) == [] && Extract(head + [X, QUOTE]) == [X]
  {
    hide Extract;
    OneX();
    var ps := [Plain([X])];
    assert Document(head, [], []) == head + [QUOTE];
    assert Document(head, ps, []) == head + [X, QUOTE];
    assert AllLegal([]) && Chars([]) == [] && Concat([]) == [];
  }

  // ---------------------------------------------------------------- at which key

  /** No colon between the first matching key and the one behind `before`, if these are two. */
  predicate NoColonBetween(before: seq<Byte>, first: nat) {
    first + |KEY| <= |before| ==> COLON !in before[first + |KEY|..]
  }

  lemma {:induction false} ColonIsFound(s: seq<Byte>)
    requires COLON in s
    ensures AfterColon(s).Some?
  {
    if s[0] != COLON {
      assert s == [s[0]] + s[1..];
      ColonIsFound(s[1..]);
    }
  }

  /** Skipping space stops at what is not space. */
  lemma {:induction false} SkipStops(s: seq<Byte>, rest: seq<Byte>)
    requires rest != [] && !IsJsonSpace(rest[0])
    ensures |SkipSpace(s + rest)| >= |rest|
  {
    if s == [] {
      assert s + rest == rest;
    } else if IsJsonSpace(s[0]) {
      assert (s + rest)[1..] == s[1..] + rest;
      SkipStops(s[1..], rest);
    }
  }

  /** An earlier key with a colon of its own has another value. */
  lemma {:induction false} EarlierKeyWins(c: seq<Byte>, tail: seq<Byte>)
    requires COLON in c && |tail| > 1 && tail[0] == QUOTE
    ensures AfterKey(c + tail) != Some([])
  {
    ColonIsFound(c);
    AfterColonStable(c, tail);
    SkipStops(AfterColon(c).value, tail);
  }

  lemma {:induction false} HeadOpensIff(before: seq<Byte>, gap: seq<Byte>, space: seq<Byte>)
    requires Match(before + KEY, |before|) && COLON !in gap && forall b | b in space :: IsJsonSpace(b)
    ensures FirstMatch(before + KEY, 0).Some?
    ensures Opens(Head(before, gap, space)) <==> NoColonBetween(before, FirstMatch(before + KEY, 0).value)
  {
    var key, tail := before + KEY, gap + [COLON] + (space + [QUOTE]);
    var i := FirstMatch(key, 0).value;
    FirstMatchStable(key, tail);
    KeysDoNotTouch(before, i);
    if i < |before| {
      var c := before[i + |KEY|..];
      assert (key + tail)[i + |KEY|..] == c + (KEY + tail);
      hide FirstMatch, AfterKey, Match;
      if COLON in c {
        EarlierKeyWins(c, KEY + tail);
      } else {
        var wide := c + KEY + gap;
        assert c + (KEY + tail) == wide + [COLON] + (space + [QUOTE]);
        OpeningQuote(wide, space);
      }
    } else {
      hide AfterKey;
      assert (key + tail)[i + |KEY|..] == tail;
      OpeningQuote(gap, space);
    }
  }

  /** Two matching keys do not overlap. */
  lemma KeysDoNotTouch(before: seq<Byte>, i: nat)
    requires Match(before + KEY, |before|) && Match(before + KEY, i) && i <= |before|
    ensures i < |before| ==> i + |KEY| <= |before|
  {
    KeysDoNotOverlap(before + KEY, i);
  }

  /**
    For every text with a matching key: whatever is written as the value of that key is what is
    extracted, if and only if no colon stands between the first matching key of the text and this one;
    so if it is the first, and otherwise only if the first has no value of its own.
   */
  lemma {:induction false} ValueOfThisKeyIff(before: seq<Byte>, gap: seq<Byte>, space: seq<Byte>)
    requires Match(before + KEY, |before|) && COLON !in gap && forall b | b in space :: IsJsonSpace(b)
    ensures FirstMatch(before + KEY, 0).Some?
    ensures ComesBack(Head(before, gap, space)) <==> NoColonBetween(before, FirstMatch(before + KEY, 0).value)
  {
    HeadOpensIff(before, gap, space);
    ComesBackIffOpens(Head(before, gap, space));
  }

  /** {"a":{ */
  const NESTED: seq<Byte> := [123, 34, 97, 34, 58, 123]

  /** The key that is taken need not be at the top: {"a":{"summary":"x" and anything behind it gives x. */
  lemma NestedKeyIsTaken(after: seq<Byte>)
    ensures Extract(NESTED + KEY + [COLON, QUOTE, X, QUOTE] + after) == [X]
  {
    NestedKeyIsFirst();
    hide Extract, FirstMatch;
    HeadOpens(NESTED, [], []);
    XIsWritten(after);
    RoundTrip(Head(NESTED, [], []), [Plain([X])], after);
  }

  lemma XIsWritten(after: seq<Byte>)
    ensures Document(Head(NESTED, [], []), [Plain([X])], after) == NESTED + KEY + [COLON, QUOTE, X, QUOTE] + after
    ensures AllLegal([Plain([X])]) && Concat(Chars([Plain([X])])) == [X]
  {
    OneX();
    assert KEY + [] == KEY && [] + [COLON] + ([] + [QUOTE]) == [COLON, QUOTE];
    assert NESTED + KEY + [COLON, QUOTE] + ([X] + ([QUOTE] + after)) == NESTED + KEY + [COLON, QUOTE, X, QUOTE] + after;
  }

  lemma OneX()
    ensures var ps := [Plain([X])];
            AllLegal(ps) && SourceAll(ps) == [X] && Chars(ps) == [[X]] && Concat(Chars(ps)) == [X]
  {
    var ps := [Plain([X])];
    assert ps[1..] == [] && SourceAll(ps[1..]) == [] && Chars(ps[1..]) == [];
    assert [X] + [] == [X] && [[X]] + [] == [[X]] && [[X]][1..] == [] && IsRune([X]);
  }

  lemma NestedKeyIsFirst()
    ensures Match(NESTED + KEY, 6) && FirstMatch(NESTED + KEY, 0) == Some(6)
  {
    var raw := NESTED + KEY;
    assert raw[6..15] == KEY && raw[5] == OPEN_BRACE;
    forall i: nat | i < 6
      ensures !KeyAt(raw, i)
    {
      assert raw[i..i + 9][0] == raw[i] && raw[i..i + 9][1] == raw[i + 1];
    }
  }

  /** {"summary", */
  const VALUELESS: seq<Byte> := [123] + KEY + [COMMA]

  /**
    A later key can be read although an earlier one matches: in {"summary","summary":"x" the first match
    has no colon of its own, so what is written at the second comes back.
   */
  lemma SecondKeyCanBeTaken()
    ensures Match(VALUELESS + KEY, |VALUELESS|) && FirstMatch(VALUELESS + KEY, 0) == Some(1)
    ensures ComesBack(Head(VALUELESS, [], []))
  {
    var raw := VALUELESS + KEY;
    assert raw[1..10] == KEY && raw[0] == OPEN_BRACE;
    assert raw[11..20] == KEY && raw[10] == COMMA;
    assert !KeyAt(raw, 0) by { assert raw[0..9][0] == raw[0]; }
    assert VALUELESS[10..] == [COMMA];
    hide ComesBack;
    ValueOfThisKeyIff(VALUELESS, [], []);
  }
}

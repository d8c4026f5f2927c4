/**
  String literals as section 7 of RFC 8259 lays them down, written out here byte by byte, and what
  extractSummarySoFar makes of them.
 */
module JsonText {
  import opened Bytes
  import opened Utf8
  import opened Wrappers
  import opened SummaryStream
  import W = SummaryWriting

  // ---------------------------------------------------------------- the grammar

  /** The byte after the backslash, and the byte it stands for. */
  const ESCAPES: map<int, int> :=
    map[34 := 34, 92 := 92, 47 := 47, 98 := 8, 102 := 12, 110 := 10, 114 := 13, 116 := 9]

  /** 0 to 9, then a to f or A to F. */
  const SMALL_DIGITS: seq<int> := [48, 49, 50, 51, 52, 53, 54, 55, 56, 57, 97, 98, 99, 100, 101, 102]
  const LARGE_DIGITS: seq<int> := [48, 49, 50, 51, 52, 53, 54, 55, 56, 57, 65, 66, 67, 68, 69, 70]

  predicate Digit(c: int, v: int) {
    0 <= v < 16 && (c == SMALL_DIGITS[v] || c == LARGE_DIGITS[v])
  }

  predicate IsDigit(c: int) {
    c in SMALL_DIGITS || c in LARGE_DIGITS
  }

  /** \uXXXX for this number. */
  ghost predicate WritesNumber(source: seq<Byte>, r: nat) {
    && |source| == 6 && source[0] == 92 && source[1] == 117
    && exists a, b, c, d ::
         && Digit(source[2], a) && Digit(source[3], b) && Digit(source[4], c) && Digit(source[5], d)
         && r == a * 4096 + b * 256 + c * 16 + d
  }

  /** One of the ways to write this character in a string. */
  ghost predicate Spells(source: seq<Byte>, rune: seq<Byte>) {
    IsRune(rune) &&
    (|| (source == rune && rune[0] >= 32 && rune[0] != 34 && rune[0] != 92)
     || (|source| == 2 && source[0] == 92 && source[1] in ESCAPES && rune == [ESCAPES[source[1]]])
     || WritesNumber(source, CodePoint(rune))
     || (rune == [239, 191, 189] && exists r: nat | 0xD800 <= r <= 0xDFFF :: WritesNumber(source, r)))
  }

  ghost predicate AllSpelled(sources: seq<seq<Byte>>, runes: seq<seq<Byte>>) {
    |sources| == |runes| && forall i | 0 <= i < |runes| :: Spells(sources[i], runes[i])
  }

  predicate Blank(s: seq<Byte>) {
    forall i | 0 <= i < |s| :: s[i] == 32 || s[i] == 9 || s[i] == 10 || s[i] == 13
  }

  /** "summary" */
  const NAME: seq<Byte> := [34, 115, 117, 109, 109, 97, 114, 121, 34]

  /** From the brace or comma before the key to the opening quote of its value. */
  function Lead(text: seq<Byte>, mark: Byte, blank1: seq<Byte>, blank2: seq<Byte>, blank3: seq<Byte>): seq<Byte> {
    text + [mark] + blank1 + NAME + blank2 + [58] + blank3 + [34]
  }

  /** The name stands nowhere before this one. */
  ghost predicate FirstOfItsName(before: seq<Byte>) {
    forall i | 0 <= i < |before| :: !(NAME <= (before + NAME)[i..])
  }

  // ---------------------------------------------------------------- every spelling is read

  lemma DigitIs(c: Byte, v: int)
    ensures Digit(c, v) ==> HexDigit(c) == v
    ensures HexDigit(c) >= 0 ==> Digit(c, HexDigit(c))
    ensures IsDigit(c) <==> HexDigit(c) >= 0
  {
  }

  lemma HexIs(hex: seq<Byte>, a: nat, b: nat, c: nat, d: nat)
    requires |hex| == 4
    requires HexDigit(hex[0]) == a && HexDigit(hex[1]) == b && HexDigit(hex[2]) == c && HexDigit(hex[3]) == d
    ensures HexValue(hex) == a * 4096 + b * 256 + c * 16 + d
  {
    hide HexDigit;
    assert forall k | 0 <= k < 4 :: HexDigit(hex[k]) >= 0;
  }

  lemma NumberIs(source: seq<Byte>, r: nat)
    requires WritesNumber(source, r)
    ensures HexValue(source[2..6]) == r
  {
    hide HexValue, HexDigit;
    var a, b, c, d :| Digit(source[2], a) && Digit(source[3], b) && Digit(source[4], c) && Digit(source[5], d)
                      && r == a * 4096 + b * 256 + c * 16 + d;
    DigitIs(source[2], a);
    DigitIs(source[3], b);
    DigitIs(source[4], c);
    DigitIs(source[5], d);
    hide Digit;
    HexIs(source[2..6], a, b, c, d);
  }

  /** A character of up to three bytes is what its code point is written as. */
  lemma DecodeEncode(rune: seq<Byte>)
    requires IsRune(rune) && CodePoint(rune) <= 0xFFFF
    ensures EncodeRune(CodePoint(rune)) == rune
  {
    if |rune| == 3 {
      ThreeBytes(rune);
    } else if |rune| == 4 {
      FourBytes(rune);
    }
  }

  lemma ThreeBytes(rune: seq<Byte>)
    requires IsRune(rune) && |rune| == 3
    ensures CodePoint(rune) <= 0xFFFF && EncodeRune(CodePoint(rune)) == rune
  {
    var x: int, y: int, z: int := rune[0] - 0xE0, rune[1] - 0x80, rune[2] - 0x80;
    var r := CodePoint(rune);
    assert r == x * 4096 + y * 64 + z;
    hide CodePoint;
    Parts(x, y, z);
    assert rune == [0xE0 + x, 0x80 + y, 0x80 + z];
  }

  lemma Parts(x: int, y: int, z: int)
    requires 0 <= y < 64 && 0 <= z < 64
    ensures var r := x * 4096 + y * 64 + z; r / 4096 == x && (r / 64) % 64 == y && r % 64 == z
  {
    var r := x * 4096 + y * 64 + z;
    assert r / 64 == x * 64 + y;
  }

  lemma FourBytes(rune: seq<Byte>)
    requires IsRune(rune) && |rune| == 4
    ensures CodePoint(rune) > 0xFFFF
  {
  }

  lemma ShortIs(code: Byte)
    ensures if code in ESCAPES then ShortEscape(code) == Some(ESCAPES[code]) else ShortEscape(code) == None
  {
  }

  lemma {:induction false} PieceOf(source: seq<Byte>, rune: seq<Byte>) returns (p: W.Piece)
    requires Spells(source, rune)
    ensures W.Legal(p) && W.Source(p) == source && W.Char(p) == rune
  {
    hide HexValue, EncodeRune, CodePoint, ShortEscape;
    if source == rune && rune[0] >= 32 && rune[0] != 34 && rune[0] != 92 {
      p := W.Plain(rune);
    } else if |source| == 2 {
      ShortIs(source[1]);
      p := W.Short(source[1]);
    } else {
      var r: nat;
      if WritesNumber(source, CodePoint(rune)) {
        r := CodePoint(rune);
        DecodeEncode(rune);
      } else {
        r :| 0xD800 <= r <= 0xDFFF && WritesNumber(source, r);
        SurrogateIs(r);
      }
      NumberIs(source, r);
      hide WritesNumber;
      p := W.Hex(source[2..6]);
      assert source == [92, 117] + source[2..6];
    }
  }

  lemma SurrogateIs(r: nat)
    requires 0xD800 <= r <= 0xDFFF
    ensures EncodeRune(r) == [239, 191, 189]
  {
  }

  lemma {:induction false} PiecesOf(sources: seq<seq<Byte>>, runes: seq<seq<Byte>>) returns (ps: seq<W.Piece>)
    requires AllSpelled(sources, runes)
    ensures W.AllLegal(ps) && W.SourceAll(ps) == Concat(sources) && W.Chars(ps) == runes
  {
    hide Spells, W.Legal, W.Source, W.Char;
    ps := [];
    if sources != [] {
      var first := PieceOf(sources[0], runes[0]);
      var rest := PiecesOf(sources[1..], runes[1..]);
      ps := [first] + rest;
      assert ps[1..] == rest;
    }
  }

  // ---------------------------------------------------------------- where the value is

  lemma {:induction false} BlankIsSkipped(raw: seq<Byte>, i: nat, blank: seq<Byte>)
    requires i + |blank| <= |raw| && raw[i..i + |blank|] == blank && Blank(blank)
    ensures Introduced(raw, i + |blank|) == Introduced(raw, i)
  {
    if blank != [] {
      var n := |blank| - 1;
      assert raw[i..i + n] == blank[..n] && raw[i + n] == blank[n];
      BlankIsSkipped(raw, i, blank[..n]);
    }
  }

  lemma {:induction false} LeadOpens(text: seq<Byte>, mark: Byte, blank1: seq<Byte>, blank2: seq<Byte>,
      blank3: seq<Byte>)
    requires mark == 123 || mark == 44
    requires Blank(blank1) && Blank(blank2) && Blank(blank3)
    requires FirstOfItsName(text + [mark] + blank1)
    ensures W.Opens(Lead(text, mark, blank1, blank2, blank3))
  {
    var before := text + [mark] + blank1;
    var raw := before + KEY;
    hide FirstMatch, W.Opens;
    BlankIsSkipped(raw, |text| + 1, blank1);
    assert raw[|text|] == mark && Introduced(raw, |text| + 1);
    assert raw[|before|..] == KEY && Match(raw, |before|);
    forall i: nat | i < |before|
      ensures !KeyAt(raw, i)
    {
      assert NAME <= raw[i..] <==> KeyAt(raw, i);
    }
    FirstIs(raw, |before|);
    W.HeadOpens(before, blank2, blank3);
    assert W.Head(before, blank2, blank3) == Lead(text, mark, blank1, blank2, blank3);
  }

  lemma FirstIs(raw: seq<Byte>, n: nat)
    requires Match(raw, n) && forall i: nat | i < n :: !KeyAt(raw, i)
    ensures n <= |raw| && FirstMatch(raw, 0) == Some(n)
  {
    hide FirstMatch;
  }

  // ---------------------------------------------------------------- what is read

  /**
    Every string in every legal spelling is read back: written as the value of "summary" behind a brace
    or a comma, with blanks wherever they may be, and with anything behind its closing quote. A surrogate
    escape is read as U+FFFD.
   */
  lemma {:induction false} EverySpellingIsRead(text: seq<Byte>, mark: Byte,
      blank1: seq<Byte>, blank2: seq<Byte>, blank3: seq<Byte>,
      sources: seq<seq<Byte>>, runes: seq<seq<Byte>>, after: seq<Byte>)
    requires mark == 123 || mark == 44
    requires Blank(blank1) && Blank(blank2) && Blank(blank3)
    requires FirstOfItsName(text + [mark] + blank1)
    requires AllSpelled(sources, runes)
    ensures Extract(Lead(text, mark, blank1, blank2, blank3) + Concat(sources) + [34] + after) == Concat(runes)
  {
    hide Extract, W.Opens, Blank, FirstOfItsName, AllSpelled;
    LeadOpens(text, mark, blank1, blank2, blank3);
    var ps := PiecesOf(sources, runes);
    var head := Lead(text, mark, blank1, blank2, blank3);
    W.RoundTrip(head, ps, after);
    assert W.Document(head, ps, after) == head + Concat(sources) + [34] + after;
  }

  /** What the backslash begins is none of the escapes of the grammar. */
  predicate BadEscape(s: seq<Byte>) {
    && s != [] && s[0] == 92
    && (|s| >= 2 ==>
          && s[1] !in ESCAPES
          && (s[1] == 117 && |s| >= 6 ==> exists k | 2 <= k < 6 :: !IsDigit(s[k])))
  }

  /** Reading ends, for good, at an escape that is no escape; what stands before it is shown. */
  lemma {:induction false} BadEscapeEndsIt(text: seq<Byte>, mark: Byte,
      blank1: seq<Byte>, blank2: seq<Byte>, blank3: seq<Byte>,
      sources: seq<seq<Byte>>, runes: seq<seq<Byte>>, bad: seq<Byte>)
    requires mark == 123 || mark == 44
    requires Blank(blank1) && Blank(blank2) && Blank(blank3)
    requires FirstOfItsName(text + [mark] + blank1)
    requires AllSpelled(sources, runes) && BadEscape(bad)
    ensures var raw := Lead(text, mark, blank1, blank2, blank3) + Concat(sources) + bad;
            Extract(raw) == Concat(runes) && !Progress(raw).closed
  {
    hide W.Opens, Blank, FirstOfItsName, AllSpelled, Progress, Scan, Trim;
    LeadOpens(text, mark, blank1, blank2, blank3);
    var ps := PiecesOf(sources, runes);
    var head := Lead(text, mark, blank1, blank2, blank3);
    assert head + Concat(sources) + bad == head + (Concat(sources) + bad);
    W.ProgressInside(head, Concat(sources) + bad);
    W.ScanPieces(ps, bad);
    NothingIsRead(bad);
    assert Concat(runes) + [] == Concat(runes);
    W.TrimWholeText(runes);
  }

  lemma NothingIsRead(bad: seq<Byte>)
    requires BadEscape(bad)
    ensures Scan(bad) == Reading([], false)
  {
    if |bad| >= 2 {
      ShortIs(bad[1]);
      if bad[1] == 117 && |bad| >= 6 {
        var k :| 2 <= k < 6 && !IsDigit(bad[k]);
        DigitIs(bad[k], 0);
        assert bad[2..6][k - 2] == bad[k];
      }
    }
    hide ShortEscape, HexDigit, IsDigit;
    assert Next(bad) == Stop;
  }
}

/** Well-formed UTF-8, by the byte-sequence grammar in section 4 of RFC 3629. */
module Utf8 {
  import opened Bytes

  predicate IsTail(b: Byte) {
    0x80 <= b <= 0xBF
  }

  /** The bytes of exactly one character. */
  predicate IsRune(s: seq<Byte>) {
    if |s| == 1 then
      s[0] <= 0x7F
    else if |s| == 2 then
      0xC2 <= s[0] <= 0xDF && IsTail(s[1])
    else if |s| == 3 then
      && (|| (s[0] == 0xE0 && 0xA0 <= s[1] <= 0xBF)
          || (0xE1 <= s[0] <= 0xEC && IsTail(s[1]))
          || (s[0] == 0xED && 0x80 <= s[1] <= 0x9F)
          || (0xEE <= s[0] <= 0xEF && IsTail(s[1])))
      && IsTail(s[2])
    else if |s| == 4 then
      && (|| (s[0] == 0xF0 && 0x90 <= s[1] <= 0xBF)
          || (0xF1 <= s[0] <= 0xF3 && IsTail(s[1]))
          || (s[0] == 0xF4 && 0x80 <= s[1] <= 0x8F))
      && IsTail(s[2]) && IsTail(s[3])
    else
      false
  }

  predicate LastBytesAreRune(s: seq<Byte>, k: nat) {
    k <= |s| && IsRune(s[|s| - k..])
  }

  /** True when utf8.DecodeLastRuneInString finds a character at the end of s. */
  predicate EndsInRune(s: seq<Byte>) {
    || LastBytesAreRune(s, 1) || LastBytesAreRune(s, 2)
    || LastBytesAreRune(s, 3) || LastBytesAreRune(s, 4)
  }

  predicate AllRunes(runes: seq<seq<Byte>>) {
    forall i | 0 <= i < |runes| :: IsRune(runes[i])
  }

  /** What strings.Builder.WriteRune appends for a \uXXXX value; a lone surrogate becomes U+FFFD. */
  function EncodeRune(r: nat): (s: seq<Byte>)
    requires r <= 0xFFFF
    ensures IsRune(s)
  {
    if r <= 0x7F then [r]
    else if r <= 0x7FF then [0xC0 + r / 64, 0x80 + r % 64]
    else if 0xD800 <= r <= 0xDFFF then [0xEF, 0xBF, 0xBD]
    else [0xE0 + r / 4096, 0x80 + (r / 64) % 64, 0x80 + r % 64]
  }

  /** The code point of one character, the inverse of EncodeRune on three bytes or fewer. */
  function CodePoint(s: seq<Byte>): (r: nat)
    requires IsRune(s)
  {
    var b := seq(|s|, i requires 0 <= i < |s| => s[i] as int);
    if |s| == 1 then b[0]
    else if |s| == 2 then (b[0] - 0xC0) * 64 + (b[1] - 0x80)
    else if |s| == 3 then (b[0] - 0xE0) * 4096 + (b[1] - 0x80) * 64 + (b[2] - 0x80)
    else (b[0] - 0xF0) * 262144 + (b[1] - 0x80) * 4096 + (b[2] - 0x80) * 64 + (b[3] - 0x80)
  }

  lemma EncodeDecode(r: nat)
    requires r <= 0xFFFF && !(0xD800 <= r <= 0xDFFF)
    ensures CodePoint(EncodeRune(r)) == r
  {
  }

  lemma RunesEndInRune(runes: seq<seq<Byte>>)
    requires AllRunes(runes) && runes != []
    ensures EndsInRune(Concat(runes))
  {
    var last := runes[|runes| - 1];
    assert runes == runes[..|runes| - 1] + [last];
    ConcatSnoc(runes[..|runes| - 1], last);
    var s := Concat(runes);
    assert s[|s| - |last|..] == last;
    assert LastBytesAreRune(s, |last|);
  }

  /** A character cut short never looks like a character at the end of a string. */
  lemma CutRuneIsNotRune(text: seq<Byte>, rune: seq<Byte>, n: nat)
    requires IsRune(rune) && 0 < n < |rune|
    ensures !EndsInRune(text + rune[..n])
  {
    var s := text + rune[..n];
    assert |s| == |text| + n;
    assert forall j | 0 <= j < n :: s[|text| + j] == rune[j];
  }
}

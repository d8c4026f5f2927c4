/** Printing an integer with %d and reading it back with fmt.Sscanf and %d. */
module Numbers {
  import opened Wrappers

  const INT64_MIN: int := -0x8000_0000_0000_0000
  const INT64_MAX: int := 0x7fff_ffff_ffff_ffff

  type Int64 = x: int | -0x8000_0000_0000_0000 <= x < 0x8000_0000_0000_0000

  /** The wrap-around of 64-bit addition. */
  function Wrap(x: int): Int64 {
    (x + 0x8000_0000_0000_0000) % 0x1_0000_0000_0000_0000 - 0x8000_0000_0000_0000
  }

  predicate IsDigit(c: char) { '0' <= c <= '9' }

  function Digits(n: nat): (s: string)
    ensures |s| > 0 && forall c | c in s :: IsDigit(c)
  {
    (if n < 10 then [] else Digits(n / 10)) + ['0' + (n % 10) as char]
  }

  function Print(v: int): (s: string)
    ensures |s| > 0 && (IsDigit(s[0]) || s[0] == '-') && forall c | c in s[1..] :: IsDigit(c)
  {
    if v < 0 then "-" + Digits(-v) else Digits(v)
  }

  /** The digits a text starts with. */
  function DigitCount(s: string): (n: nat)
    ensures n <= |s|
  {
    if s != "" && IsDigit(s[0]) then 1 + DigitCount(s[1..]) else 0
  }

  function Value(digits: string): nat
    requires forall c | c in digits :: IsDigit(c)
  {
    if digits == "" then 0
    else
      assert digits[|digits| - 1] in digits && IsDigit(digits[|digits| - 1]);
      10 * Value(digits[..|digits| - 1]) + (digits[|digits| - 1] as int - '0' as int)
  }

  lemma {:induction false} DigitsAreCounted(s: string)
    ensures forall c | c in s[..DigitCount(s)] :: IsDigit(c)
    ensures DigitCount(s) < |s| ==> !IsDigit(s[DigitCount(s)])
  {
    if s != "" && IsDigit(s[0]) {
      DigitsAreCounted(s[1..]);
      assert s[..DigitCount(s)] == [s[0]] + s[1..][..DigitCount(s[1..])];
    }
  }

  /** fmt.Sscanf(s, "%d", &int64): a sign, digits, and whatever follows; None is an error. */
  function ScanInt(s: string): Option<Int64> {
    var signed := s != "" && (s[0] == '-' || s[0] == '+');
    var rest := if signed then s[1..] else s;
    DigitsAreCounted(rest);
    var magnitude: int := Value(rest[..DigitCount(rest)]);
    var v := if signed && s[0] == '-' then -magnitude else magnitude;
    if DigitCount(rest) == 0 || !(INT64_MIN <= v <= INT64_MAX) then None else Some(v)
  }

  lemma {:induction false} DigitCountOfDigits(s: string)
    requires forall c | c in s :: IsDigit(c)
    ensures DigitCount(s) == |s|
  {
    if s != "" {
      DigitCountOfDigits(s[1..]);
    }
  }

  lemma {:induction false} ValueOfDigits(n: nat)
    ensures Value(Digits(n)) == n
  {
    var last := ['0' + (n % 10) as char];
    if n < 10 {
      assert Digits(n) == last && last[..0] == [];
    } else {
      ValueOfDigits(n / 10);
      assert Digits(n)[..|Digits(n)| - 1] == Digits(n / 10);
    }
  }

  /** Every 64-bit number is read back as it was printed. */
  lemma ScanPrinted(v: Int64)
    ensures ScanInt(Print(v)) == Some(v)
  {
    hide Digits, Value, DigitCount;
    var n: int := v;
    var magnitude: nat := if n < 0 then -n else n;
    var digits := Digits(magnitude);
    DigitCountOfDigits(digits);
    ValueOfDigits(magnitude);
    assert digits[..|digits|] == digits;
    assert digits[0] in digits && IsDigit(digits[0]);
    if n < 0 {
      assert Print(v) == "-" + digits && Print(v)[1..] == digits;
    } else {
      assert Print(v) == digits;
    }
  }
}

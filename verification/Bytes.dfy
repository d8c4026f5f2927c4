/** Byte strings: the Go `string` and `[]byte` values the streaming code works on. */
module Bytes {
  type Byte = x: int | 0 <= x < 256

  const LF: Byte := 10
  const CR: Byte := 13
  const SPACE: Byte := 32
  const QUOTE: Byte := 34
  const COMMA: Byte := 44
  const COLON: Byte := 58
  const BACKSLASH: Byte := 92
  const OPEN_BRACE: Byte := 123

  /** JSON white space: blank, tab, line feed, carriage return. */
  predicate IsJsonSpace(b: Byte) {
    b == SPACE || b == 9 || b == LF || b == CR
  }

  /** Concatenation of a list of byte strings. */
  function Concat(parts: seq<seq<Byte>>): seq<Byte> {
    if parts == [] then [] else parts[0] + Concat(parts[1..])
  }

  lemma Assoc<T>(a: seq<T>, b: seq<T>, c: seq<T>)
    ensures (a + b) + c == a + (b + c)
  {
  }

  lemma {:induction false} ConcatAppend(a: seq<seq<Byte>>, b: seq<seq<Byte>>)
    ensures Concat(a + b) == Concat(a) + Concat(b)
  {
    if a == [] {
      assert a + b == b;
    } else {
      ConcatAppend(a[1..], b);
      assert (a + b)[1..] == a[1..] + b;
      Assoc(a[0], Concat(a[1..]), Concat(b));
    }
  }

  lemma ConcatCons(first: seq<Byte>, rest: seq<seq<Byte>>)
    ensures Concat([first] + rest) == first + Concat(rest)
  {
  }

  lemma ConcatSnoc(a: seq<seq<Byte>>, last: seq<Byte>)
    ensures Concat(a + [last]) == Concat(a) + last
  {
    ConcatAppend(a, [last]);
    assert Concat([last]) == last;
  }

  lemma {:induction false} ConcatEmptyParts(parts: seq<seq<Byte>>)
    requires forall i | 0 <= i < |parts| :: parts[i] == []
    ensures Concat(parts) == []
  {
    if parts != [] {
      ConcatEmptyParts(parts[1..]);
    }
  }

  /** Length of the white-space character (Unicode White_Space, in UTF-8) that s starts with, or 0. */
  function SpaceLength(s: seq<Byte>): (n: nat)
    ensures n <= |s| && n <= 3
    ensures QUOTE !in s[..n]
  {
    if |s| >= 1 && (9 <= s[0] <= 13 || s[0] == SPACE) then 1
    else if |s| >= 2 && s[0] == 0xC2 && (s[1] == 0x85 || s[1] == 0xA0) then 2
    else if |s| >= 3 && s[0] == 0xE1 && s[1] == 0x9A && s[2] == 0x80 then 3
    else if |s| >= 3 && s[0] == 0xE2 && s[1] == 0x80 && (0x80 <= s[2] <= 0x8A || s[2] in {0xA8, 0xA9, 0xAF}) then 3
    else if |s| >= 3 && s[0] == 0xE2 && s[1] == 0x81 && s[2] == 0x9F then 3
    else if |s| >= 3 && s[0] == 0xE3 && s[1] == 0x80 && s[2] == 0x80 then 3
    else 0
  }

  function TrimLeft(s: seq<Byte>): (t: seq<Byte>)
    ensures QUOTE in s ==> QUOTE in t
  {
    var n := SpaceLength(s);
    if n == 0 then s
    else
      assert s == s[..n] + s[n..];
      TrimLeft(s[n..])
  }

  predicate EndsInSpace(s: seq<Byte>, k: nat) {
    0 < k <= |s| && SpaceLength(s[|s| - k..]) == k
  }

  function TrimRight(s: seq<Byte>): (t: seq<Byte>)
    ensures QUOTE in s ==> QUOTE in t
  {
    var n := if EndsInSpace(s, 1) then 1 else if EndsInSpace(s, 2) then 2 else if EndsInSpace(s, 3) then 3 else 0;
    if n == 0 then s
    else
      assert s == s[..|s| - n] + s[|s| - n..] && s[|s| - n..][..n] == s[|s| - n..];
      TrimRight(s[..|s| - n])
  }

  /** strings.TrimSpace. */
  function TrimSpace(s: seq<Byte>): (t: seq<Byte>)
    ensures QUOTE in s ==> QUOTE in t
  {
    TrimRight(TrimLeft(s))
  }
}

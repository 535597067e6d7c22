/** The few string operations the command helpers and the overlay styling rely on. */
module Strings {

  /** `s.startsWith(prefix)`. */
  predicate StartsWith(s: string, prefix: string) {
    |prefix| <= |s| && s[..|prefix|] == prefix
  }

  lemma StartsWithConcat(prefix: string, rest: string)
    ensures StartsWith(prefix + rest, prefix)
    ensures (prefix + rest)[|prefix|..] == rest
  {
    assert (prefix + rest)[..|prefix|] == prefix;
  }

  /** `s.repeat(n)` for a count that JavaScript accepts (a negative count throws). */
  function Repeat(s: string, n: nat): (r: string)
    ensures |r| == n * |s|
    ensures n > 0 ==> r == s + Repeat(s, n - 1)
  {
    if n == 0 then "" else s + Repeat(s, n - 1)
  }

  /** Repeating a one-character string gives that character at every position. */
  lemma {:induction false} RepeatChar(c: char, n: nat)
    ensures forall i | 0 <= i < n :: Repeat([c], n)[i] == c
  {
    if n > 0 {
      RepeatChar(c, n - 1);
    }
  }

  /** The number of copies of `c` that `s` starts with. */
  function CountLeading(c: char, s: string): (n: nat)
    ensures n <= |s|
    ensures forall i :: 0 <= i < n ==> s[i] == c
    ensures n < |s| ==> s[n] != c
  {
    if s == [] || s[0] != c then 0 else 1 + CountLeading(c, s[1..])
  }

  /** `CountLeading` counts a run of `c` exactly when something else follows it. */
  lemma {:induction false} CountLeadingRun(c: char, n: nat, rest: string)
    requires rest != [] && rest[0] != c
    ensures CountLeading(c, Repeat([c], n) + rest) == n
  {
    if n > 0 {
      var tail := Repeat([c], n - 1) + rest;
      assert Repeat([c], n) + rest == [c] + tail;
      assert ([c] + tail)[1..] == tail;
      CountLeadingRun(c, n - 1, rest);
    } else {
      assert Repeat([c], 0) + rest == rest;
    }
  }

  /** Lower-cases the ASCII letters of one character. */
  function AsciiLowerChar(ch: char): (r: char)
    ensures 'A' <= ch <= 'Z' ==> 'a' <= r <= 'z' && r as int - ch as int == 32
    ensures !('A' <= ch <= 'Z') ==> r == ch
  {
    if 'A' <= ch <= 'Z' then (ch as int + 32) as char else ch
  }

  /** `s.toLowerCase()` restricted to ASCII letters. */
  function AsciiLower(s: string): (r: string)
    ensures |r| == |s|
    ensures forall i :: 0 <= i < |s| ==> r[i] == AsciiLowerChar(s[i])
  {
    if s == [] then [] else [AsciiLowerChar(s[0])] + AsciiLower(s[1..])
  }

  /** Lower-casing twice is lower-casing once. */
  lemma AsciiLowerIdempotent(s: string)
    ensures AsciiLower(AsciiLower(s)) == AsciiLower(s)
  {
  }
}

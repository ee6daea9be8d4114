/**
 * The two string operations of Python that the client relies on: the substring
 * test `sub in s` and the decimal rendering `str(n)` of an integer.
 */
module Strings {

  /** Python's `sub in s` for strings, computed by scanning start positions. */
  predicate Contains(s: string, sub: string)
    decreases |s|
  {
    sub <= s || (|s| > 0 && Contains(s[1..], sub))
  }

  /** Reference meaning of a substring test: `sub` occupies positions i .. i + |sub| of `s`. */
  ghost predicate OccursAt(s: string, sub: string, i: int)
  {
    0 <= i && i + |sub| <= |s| && s[i..i + |sub|] == sub
  }

  lemma {:induction false} ContainsIffOccurs(s: string, sub: string)
    ensures Contains(s, sub) <==> exists i :: OccursAt(s, sub, i)
    decreases |s|
  {
    if sub <= s {
      assert OccursAt(s, sub, 0);
    } else if |s| == 0 {
      assert forall i :: OccursAt(s, sub, i) ==> sub <= s;
    } else {
      ContainsIffOccurs(s[1..], sub);
      forall j | OccursAt(s[1..], sub, j)
        ensures OccursAt(s, sub, j + 1)
      {
        assert s[1..][j..j + |sub|] == s[j + 1..j + 1 + |sub|];
      }
      forall i | OccursAt(s, sub, i)
        ensures OccursAt(s[1..], sub, i - 1)
      {
        assert s[1..][i - 1..i - 1 + |sub|] == s[i..i + |sub|];
      }
    }
  }

  function DigitChar(d: int): char
    requires 0 <= d < 10
  {
    (48 + d) as char
  }

  function DigitValue(c: char): int
  {
    c as int - 48
  }

  /** The decimal digits of a natural number, most significant first, without leading zeros. */
  function NatDigits(n: nat): (s: string)
    ensures |s| > 0
    ensures forall i :: 0 <= i < |s| ==> '0' <= s[i] <= '9'
    ensures n > 0 ==> s[0] != '0'
  {
    if n < 10 then [DigitChar(n)] else NatDigits(n / 10) + [DigitChar(n % 10)]
  }

  /** Python's `str(n)` (and an f-string's `{n}`) for an integer. */
  function DecimalString(n: int): string
  {
    if n < 0 then "-" + NatDigits(-n) else NatDigits(n)
  }

  /** Reads a string of decimal digits back as a number. */
  function ParseDigits(s: string): int
  {
    if s == [] then 0 else ParseDigits(s[..|s| - 1]) * 10 + DigitValue(s[|s| - 1])
  }

  /** Python's `int(s)` on the strings that `str` produces. */
  function ParseDecimal(s: string): int
  {
    if |s| > 0 && s[0] == '-' then -ParseDigits(s[1..]) else ParseDigits(s)
  }

  lemma {:induction false} ParseNatDigits(n: nat)
    ensures ParseDigits(NatDigits(n)) == n
  {
    if n >= 10 {
      var s := NatDigits(n);
      assert s == NatDigits(n / 10) + [DigitChar(n % 10)];
      assert s[..|s| - 1] == NatDigits(n / 10);
      ParseNatDigits(n / 10);
    }
  }

  /** `str` loses nothing: the integer can be read back from its rendering. */
  lemma DecimalRoundTrip(n: int)
    ensures ParseDecimal(DecimalString(n)) == n
  {
    if n < 0 {
      var s := DecimalString(n);
      assert s[1..] == NatDigits(-n);
      ParseNatDigits(-n);
    } else {
      ParseNatDigits(n);
    }
  }

  lemma DecimalStringInjective(a: int, b: int)
    requires DecimalString(a) == DecimalString(b)
    ensures a == b
  {
    DecimalRoundTrip(a);
    DecimalRoundTrip(b);
  }
}

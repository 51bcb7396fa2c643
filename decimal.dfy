/** Decimal rendering of natural numbers, as Python's `str(n)` does it for
    non-negative ints, together with the parser that inverts it. Every NAF
    identifier in both converters is a letter prefix followed by such a
    decimal, so injectivity of `prefix + Dec(n)` is what keeps ids apart. */
module Decimal {

  predicate IsDigit(c: char) {
    '0' <= c <= '9'
  }

  predicate AllDigits(s: string) {
    forall k :: 0 <= k < |s| ==> IsDigit(s[k])
  }

  predicate NoDigits(s: string) {
    forall k :: 0 <= k < |s| ==> !IsDigit(s[k])
  }

  function DigitChar(d: nat): (c: char)
    requires d < 10
    ensures IsDigit(c)
  {
    ('0' as int + d) as char
  }

  function DigitValue(c: char): (d: nat)
    requires IsDigit(c)
    ensures d < 10
  {
    c as int - '0' as int
  }

  /** The decimal digits of `n`, most significant first, without leading zeros. */
  function Dec(n: nat): (s: string)
    ensures |s| >= 1
    ensures AllDigits(s)
    ensures (s[0] == '0') == (n == 0)
    decreases n
  {
    if n < 10 then [DigitChar(n)] else Dec(n / 10) + [DigitChar(n % 10)]
  }

  /** Reads a string of decimal digits back as a number. */
  function Parse(s: string): nat
    requires AllDigits(s)
    decreases |s|
  {
    if |s| == 0 then 0 else 10 * Parse(s[..|s| - 1]) + DigitValue(s[|s| - 1])
  }

  lemma {:induction false} ParseDec(n: nat)
    ensures Parse(Dec(n)) == n
    decreases n
  {
    var s := Dec(n);
    if n >= 10 {
      ParseDec(n / 10);
      assert s[..|s| - 1] == Dec(n / 10);
    } else {
      assert s[..|s| - 1] == [];
    }
  }

  lemma DecInjective(m: nat, n: nat)
    ensures Dec(m) == Dec(n) <==> m == n
  {
    ParseDec(m);
    ParseDec(n);
  }

  /** In a digit-free prefix followed by digits, the digits start exactly
      where the prefix ends. */
  lemma DigitBoundary(p: string, d: string, k: nat)
    requires NoDigits(p) && AllDigits(d)
    requires k < |p + d|
    ensures IsDigit((p + d)[k]) <==> k >= |p|
  {
    if k < |p| {
      assert (p + d)[k] == p[k];
    } else {
      assert (p + d)[k] == d[k - |p|];
    }
  }

  /** Two identifiers made of a digit-free prefix and a decimal are equal
      exactly when both the prefixes and the numbers are equal. */
  lemma PrefixedDecInjective(p: string, q: string, m: nat, n: nat)
    requires NoDigits(p) && NoDigits(q)
    ensures p + Dec(m) == q + Dec(n) <==> p == q && m == n
  {
    if p + Dec(m) == q + Dec(n) {
      var s := p + Dec(m);
      var k := if |p| < |q| then |p| else |q|;
      DigitBoundary(p, Dec(m), k);
      DigitBoundary(q, Dec(n), k);
      assert |p| == |q|;
      assert p == s[..|p|] == q;
      assert Dec(m) == s[|p|..] == Dec(n);
      DecInjective(m, n);
    }
  }
}

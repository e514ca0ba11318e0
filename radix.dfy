/** Number.prototype.toString(base) on non-negative integers, and its inverse.
    Job identifiers are the base-36 rendering of a millisecond timestamp; file
    names and error messages embed timestamps and exit codes in base 10. */
module Radix {
  import opened Wrappers

  type Base = b: nat | 2 <= b <= 36 witness 10

  /** The digit for d: '0'..'9', then the lower-case letters. */
  function DigitChar(d: nat): char
    requires d < 36
  {
    if d < 10 then ('0' as int + d) as char else ('a' as int + d - 10) as char
  }

  predicate IsDigit(c: char, base: Base)
  {
    ('0' <= c <= '9' && c as int - '0' as int < base) ||
    ('a' <= c <= 'z' && c as int - 'a' as int + 10 < base)
  }

  function DigitValue(c: char, base: Base): (d: nat)
    requires IsDigit(c, base)
    ensures d < base && DigitChar(d) == c
  {
    if '0' <= c <= '9' then c as int - '0' as int else c as int - 'a' as int + 10
  }

  predicate AllDigits(s: string, base: Base)
  {
    forall k :: 0 <= k < |s| ==> IsDigit(s[k], base)
  }

  /** A canonical numeral: non-empty and without a leading zero, except "0". */
  predicate Canonical(s: string, base: Base)
  {
    |s| >= 1 && AllDigits(s, base) && (s[0] == '0' ==> |s| == 1)
  }

  /** n written in the given base, most significant digit first. */
  function Render(n: nat, base: Base): (s: string)
    ensures Canonical(s, base)
    ensures n < base <==> |s| == 1
    decreases n
  {
    if n < base then [DigitChar(n)]
    else
      DivFacts(n, base);
      var high := Render(n / base, base);
      assert n / base >= 1;
      assert high[0] != '0';
      high + [DigitChar(n % base)]
  }

  /** The value of a numeral; parseInt(s, base) on a string of digits. */
  function Parse(s: string, base: Base): nat
    requires AllDigits(s, base)
  {
    if s == [] then 0
    else Parse(s[..|s| - 1], base) * base + DigitValue(s[|s| - 1], base)
  }

  /** a < b implies a*c + c <= b*c, stated without a precondition so that it
      can be instantiated in both directions. */
  lemma {:induction false} MulStep(a: nat, b: nat, c: nat)
    ensures a < b ==> a * c + c <= b * c
    decreases c
  {
    if c > 0 {
      MulStep(a, b, c - 1);
      assert a * c == a * (c - 1) + a && b * c == b * (c - 1) + b;
    }
  }

  /** Euclidean division recovers quotient and digit. */
  lemma DivModUnique(q: nat, base: Base, d: nat)
    requires d < base
    ensures (q * base + d) / base == q && (q * base + d) % base == d
  {
    var n := q * base + d;
    var q', r' := n / base, n % base;
    assert n == q' * base + r' && 0 <= r' < base;
    MulStep(q, q', base);
    MulStep(q', q, base);
  }

  lemma DigitRoundTrip(d: nat, base: Base)
    requires d < base
    ensures IsDigit(DigitChar(d), base) && DigitValue(DigitChar(d), base) == d
  {
  }

  lemma DivFacts(n: nat, base: Base)
    ensures n == (n / base) * base + n % base && n % base < base
    ensures n >= base ==> n / base < n
  {
  }

  lemma {:induction false} RenderThenParse(n: nat, base: Base)
    ensures Parse(Render(n, base), base) == n
    decreases n
  {
    var s := Render(n, base);
    if n < base {
      DigitRoundTrip(n, base);
      assert s == [DigitChar(n)];
      assert s[..0] == [];
      assert Parse(s, base) == Parse([], base) * base + n;
    } else {
      var q, d := n / base, n % base;
      DivFacts(n, base);
      var high := Render(q, base);
      RenderThenParse(q, base);
      DigitRoundTrip(d, base);
      assert s == high + [DigitChar(d)];
      assert s[..|s| - 1] == high;
      assert Parse(s, base) == Parse(high, base) * base + d;
      assert Parse(high, base) == q;
    }
  }

  lemma {:induction false} ParsePositive(s: string, base: Base)
    requires Canonical(s, base) && s[0] != '0'
    ensures Parse(s, base) >= 1
    decreases |s|
  {
    var p := s[..|s| - 1];
    assert Parse(s, base) == Parse(p, base) * base + DigitValue(s[|s| - 1], base);
    if |s| > 1 {
      assert p[0] == s[0];
      ParsePositive(p, base);
      MulStep(0, Parse(p, base), base);
    } else {
      assert p == [];
      assert DigitChar(DigitValue(s[0], base)) == s[0];
    }
  }

  lemma {:induction false} ParseThenRender(s: string, base: Base)
    requires Canonical(s, base)
    ensures Render(Parse(s, base), base) == s
    decreases |s|
  {
    var c := s[|s| - 1];
    var d := DigitValue(c, base);
    var p := s[..|s| - 1];
    assert Parse(s, base) == Parse(p, base) * base + d;
    if |s| == 1 {
      assert p == [];
      assert Render(d, base) == [DigitChar(d)];
    } else {
      assert p[0] == s[0];
      ParsePositive(p, base);
      ParseThenRender(p, base);
      var q := Parse(p, base);
      var n := q * base + d;
      DivModUnique(q, base, d);
      MulStep(0, q, base);
      assert n >= base;
      assert Render(n, base) == Render(q, base) + [DigitChar(d)];
      assert s == p + [c];
    }
  }

  /** Rendering loses nothing: distinct numbers have distinct numerals. */
  lemma RenderInjective(m: nat, n: nat, base: Base)
    requires Render(m, base) == Render(n, base)
    ensures m == n
  {
    RenderThenParse(m, base);
    RenderThenParse(n, base);
  }

  /** The value of a non-empty string of decimal digits, if it is one. */
  function Numeral(s: string): Option<nat>
  {
    if s != [] && AllDigits(s, 10) then Some(Parse(s, 10)) else None
  }

  lemma NumeralOfDecimal(n: nat)
    ensures Numeral(Decimal(n)) == Some(n)
  {
    RenderThenParse(n, 10);
  }

  /** Number.prototype.toString(36). */
  function Base36(n: nat): string
  {
    Render(n, 36)
  }

  /** A number in a template literal or string concatenation. */
  function Decimal(n: nat): string
  {
    Render(n, 10)
  }

  /** An integer exit code in a string: a minus sign, then its magnitude. */
  function IntText(i: int): (s: string)
    ensures |s| >= 1
    ensures s[0] == '-' <==> i < 0
    ensures i >= 0 ==> Canonical(s, 10) && Parse(s, 10) == i
    ensures i < 0 ==> Canonical(s[1..], 10) && Parse(s[1..], 10) == -i
  {
    if i < 0 then
      RenderThenParse(-i, 10);
      "-" + Decimal(-i)
    else
      RenderThenParse(i, 10);
      Decimal(i)
  }
}

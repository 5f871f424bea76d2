/** Sizes of rendered text: UTF-16 units, escaped JSON bytes and decimal numerals. */
module TextSize {

  /** A size that is the sum of a cost for each character. */
  function Cost(f: char -> nat, s: string): nat {
    if s == [] then 0 else f(s[0]) + Cost(f, s[1..])
  }

  lemma {:induction false} CostConcat(f: char -> nat, a: string, b: string)
    ensures Cost(f, a + b) == Cost(f, a) + Cost(f, b)
  {
    if a == [] {
      assert a + b == b;
    } else {
      CostConcat(f, a[1..], b);
      assert (a + b)[1..] == a[1..] + b;
    }
  }

  /** Bytes of the UTF-8 encoding of a character. */
  function Utf8(c: char): nat {
    if c as int <= 0x7F then 1 else if c as int <= 0x7FF then 2 else if c as int <= 0xFFFF then 3 else 4
  }

  lemma {:induction false} Utf8Bound(s: string)
    ensures Cost(Utf8, s) <= 4 * |s|
  {
    if s != [] { Utf8Bound(s[1..]); }
  }

  /** Code units of the UTF-16 encoding of a character. */
  function Units(c: char): nat {
    if c as int <= 0xFFFF then 1 else 2
  }

  /** Bytes of a character in ASCII-only JSON, as encoding/json escapes it and asciiJSON widens it. */
  function Escaped(c: char): nat {
    if c == '"' || c == '\\' || c == '\n' || c == '\r' || c == '\t' || c as int == 8 || c as int == 12 then 2
    else if c as int < 0x20 || c == '<' || c == '>' || c == '&' then 6
    else if c as int <= 0x7F then 1
    else if c as int <= 0xFFFF then 6
    else 12
  }

  function Digit(n: nat): char
    requires n < 10
  {
    (n + '0' as int) as char
  }

  predicate Numeral(s: string) {
    forall i | 0 <= i < |s| :: '0' <= s[i] <= '9'
  }

  /** The decimal numeral that %d prints. */
  function Decimal(n: nat): (s: string)
    ensures s != [] && Numeral(s)
  {
    if n < 10 then [Digit(n)] else Decimal(n / 10) + [Digit(n % 10)]
  }

  /** The number that a numeral denotes. */
  function Denoted(s: string): nat
    requires Numeral(s)
  {
    if s == [] then 0 else 10 * Denoted(s[..|s| - 1]) + (s[|s| - 1] as int - '0' as int)
  }

  lemma {:induction false} DecimalDenotes(n: nat)
    ensures Denoted(Decimal(n)) == n && (n > 0 ==> Decimal(n)[0] != '0')
  {
    if n >= 10 {
      DecimalDenotes(n / 10);
      assert Decimal(n)[..|Decimal(n)| - 1] == Decimal(n / 10);
    } else {
      assert [Digit(n)][..0] == [];
    }
  }

  function Digits(n: nat): nat {
    |Decimal(n)|
  }

  lemma {:induction false} DigitsMonotone(m: nat, n: nat)
    requires m <= n
    ensures Digits(m) <= Digits(n)
    decreases n
  {
    if m >= 10 { DigitsMonotone(m / 10, n / 10); }
  }

  /** Digits cost one unit and one byte each. */
  lemma {:induction false} NumeralCost(s: string)
    requires Numeral(s)
    ensures Cost(Units, s) == |s| && Cost(Escaped, s) == |s|
  {
    if s != [] { NumeralCost(s[1..]); }
  }
}

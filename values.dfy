/**
 * Cell values as they arrive from the JSON document, and the two string
 * operations the generator applies to them: Python's `str()` and
 * `str.upper()`.
 */
module Values {

  /** A scalar JSON value: a string, an integer, a boolean or null. */
  datatype Value = Text(s: string) | Integer(n: int) | Boolean(b: bool) | Null

  /** The character of a decimal digit. */
  function DigitChar(d: nat): char
    requires d < 10
  {
    ('0' as int + d) as char
  }

  /** The numeric value of a character read as a decimal digit. */
  function DigitValue(c: char): int
  {
    c as int - '0' as int
  }

  /** The decimal numeral of a natural number, most significant digit first. */
  function NatDigits(n: nat): (r: string)
    ensures |r| >= 1
    decreases n
  {
    if n < 10 then [DigitChar(n)] else NatDigits(n / 10) + [DigitChar(n % 10)]
  }

  /** The numeral is made of digits only, and has no leading zero. */
  lemma {:induction false} NatDigitsAreDigits(n: nat)
    ensures forall i :: 0 <= i < |NatDigits(n)| ==> '0' <= NatDigits(n)[i] <= '9'
    ensures NatDigits(n)[0] == '0' ==> n == 0
    decreases n
  {
    if n >= 10 {
      NatDigitsAreDigits(n / 10);
      assert NatDigits(n)[0] == NatDigits(n / 10)[0];
    }
  }

  /** Reads a string of decimal digits back as a number (Python's `int()` on digits). */
  function ParseDigits(s: string): int
  {
    if s == [] then 0 else 10 * ParseDigits(s[..|s| - 1]) + DigitValue(s[|s| - 1])
  }

  /** Reads an optionally signed decimal numeral. */
  function ParseInt(s: string): int
  {
    if |s| > 0 && s[0] == '-' then -ParseDigits(s[1..]) else ParseDigits(s)
  }

  /** Python's `str()` on a cell value. */
  function Str(v: Value): string
  {
    match v
    case Text(s) => s
    case Integer(n) => if n < 0 then "-" + NatDigits(-n) else NatDigits(n)
    case Boolean(b) => if b then "True" else "False"
    case Null => "None"
  }

  lemma {:induction false} ParseNatDigits(n: nat)
    ensures ParseDigits(NatDigits(n)) == n
    decreases n
  {
    if n >= 10 {
      var s := NatDigits(n);
      assert s[..|s| - 1] == NatDigits(n / 10);
      ParseNatDigits(n / 10);
    }
  }

  /** `int(str(n)) == n`: the numeral of an integer cell reads back as the integer. */
  lemma IntegerRoundTrip(n: int)
    ensures ParseInt(Str(Integer(n))) == n
  {
    if n < 0 {
      var s := Str(Integer(n));
      assert s[1..] == NatDigits(-n);
      ParseNatDigits(-n);
    } else {
      NatDigitsAreDigits(n);
      ParseNatDigits(n);
    }
  }

  /** Upper-casing of one character; only ASCII letters are mapped. */
  function UpperChar(c: char): char
  {
    if 'a' <= c <= 'z' then (c as int - 32) as char else c
  }

  /** Python's `str.upper()`, restricted to the ASCII case mapping. */
  function Upper(s: string): string
  {
    seq(|s|, i requires 0 <= i < |s| => UpperChar(s[i]))
  }

  /**
   * Upper-casing keeps the length, leaves no lower-case ASCII letter,
   * keeps every other character and moves each lower-case letter to its
   * capital, 32 code points lower.
   */
  lemma UpperCases(s: string)
    ensures |Upper(s)| == |s|
    ensures forall i :: 0 <= i < |s| ==> !('a' <= Upper(s)[i] <= 'z')
    ensures forall i :: 0 <= i < |s| && !('a' <= s[i] <= 'z') ==> Upper(s)[i] == s[i]
    ensures forall i :: 0 <= i < |s| && 'a' <= s[i] <= 'z' ==> Upper(s)[i] as int + 32 == s[i] as int
  {
  }

  /** Upper-casing a header label twice is the same as once. */
  lemma UpperIdempotent(s: string)
    ensures Upper(Upper(s)) == Upper(s)
  {
  }
}

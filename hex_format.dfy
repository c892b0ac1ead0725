/** The `0x%x` rendering that the platform report uses for image timestamps. */
module HexFormat {

  predicate IsHexDigit(c: char) {
    '0' <= c <= '9' || 'a' <= c <= 'f'
  }

  /** The value of one lower-case hexadecimal digit. */
  function DigitValue(c: char): (d: nat)
    requires IsHexDigit(c)
    ensures d < 16
  {
    if c <= '9' then c as int - '0' as int else c as int - 'a' as int + 10
  }

  /** The lower-case digit `%x` prints for a value below 16. */
  function HexDigit(d: nat): (c: char)
    requires d < 16
    ensures IsHexDigit(c) && DigitValue(c) == d
  {
    if d < 10 then ('0' as int + d) as char else ('a' as int + d - 10) as char
  }

  /** The digits `%x` prints for n: most significant first, no leading zeros. */
  function HexDigits(n: nat): (s: string)
    ensures |s| >= 1
    ensures forall i :: 0 <= i < |s| ==> IsHexDigit(s[i])
    ensures s[0] == '0' ==> n == 0
    decreases n
  {
    if n < 16 then [HexDigit(n)] else HexDigits(n / 16) + [HexDigit(n % 16)]
  }

  /** Reads a string of hexadecimal digits back as a number. */
  function ParseHex(s: string): nat
    requires forall i :: 0 <= i < |s| ==> IsHexDigit(s[i])
  {
    if s == [] then 0 else ParseHex(s[..|s| - 1]) * 16 + DigitValue(s[|s| - 1])
  }

  /** The text of `boost::format("0x%x") % n`. */
  function FormatId(n: nat): string {
    "0x" + HexDigits(n)
  }

  /** Reading the digits back gives the number that was printed. */
  lemma {:induction false} HexRoundTrip(n: nat)
    ensures ParseHex(HexDigits(n)) == n
    decreases n
  {
    if n >= 16 {
      var s := HexDigits(n);
      assert s[..|s| - 1] == HexDigits(n / 16);
      HexRoundTrip(n / 16);
    }
  }

  /** Two timestamps render to the same id text only when they are equal. */
  lemma FormatIdInjective(a: nat, b: nat)
    requires FormatId(a) == FormatId(b)
    ensures a == b
  {
    assert HexDigits(a) == FormatId(a)[2..];
    assert HexDigits(b) == FormatId(b)[2..];
    HexRoundTrip(a);
    HexRoundTrip(b);
  }
}

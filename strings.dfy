/**
 * Character classes, decimal rendering and path joining as the workflow
 * uses them. Python's Unicode-aware `str` predicates are restricted to ASCII.
 */
module Strings {

  /** Python's `str.isspace` on the ASCII range: tab, newline, vertical tab,
      form feed, carriage return, the four separators 0x1C-0x1F and space. */
  predicate IsSpace(c: char) {
    c == ' ' || ('\t' <= c <= '\r') || ('\U{1C}' <= c <= '\U{1F}')
  }

  /** `not s.strip()`: the text is empty or holds only whitespace. */
  predicate IsBlank(s: string) {
    forall i :: 0 <= i < |s| ==> IsSpace(s[i])
  }

  predicate IsDigit(c: char) {
    '0' <= c <= '9'
  }

  predicate IsUpper(c: char) {
    'A' <= c <= 'Z'
  }

  predicate IsLower(c: char) {
    'a' <= c <= 'z'
  }

  /** `str.isalnum` on a single ASCII character. */
  predicate IsAlnum(c: char) {
    IsDigit(c) || IsUpper(c) || IsLower(c)
  }

  /** `str.lower` on a single ASCII character. */
  function Lower(c: char): (d: char)
    ensures IsUpper(c) ==> IsLower(d) && d as int == c as int + 32
    ensures !IsUpper(c) ==> d == c
  {
    if IsUpper(c) then (c as int + 32) as char else c
  }

  function DigitChar(d: nat): (c: char)
    requires d < 10
    ensures IsDigit(c) && c as int - '0' as int == d
  {
    ('0' as int + d) as char
  }

  predicate AllDigits(s: string) {
    forall i :: 0 <= i < |s| ==> IsDigit(s[i])
  }

  /** `str(n)` for a non-negative integer: its decimal digits, no leading zero. */
  function NatToDecimal(n: nat): (s: string)
    ensures |s| >= 1 && AllDigits(s)
    ensures s[0] == '0' ==> s == "0" && n == 0
    decreases n
  {
    if n < 10 then [DigitChar(n)] else NatToDecimal(n / 10) + [DigitChar(n % 10)]
  }

  /** The value of a string of decimal digits, read most significant first. */
  function DecimalValue(s: string): nat
    requires AllDigits(s)
  {
    if s == [] then 0 else DecimalValue(s[..|s| - 1]) * 10 + (s[|s| - 1] as int - '0' as int)
  }

  /** `str(i)` for any integer: a minus sign before the digits of a negative one. */
  function IntToDecimal(i: int): (s: string)
    ensures |s| >= 1
    ensures i < 0 <==> s[0] == '-'
    ensures var digits := if i < 0 then s[1..] else s;
      |digits| >= 1 && AllDigits(digits) && (digits[0] == '0' ==> digits == "0" && i == 0)
  {
    if i < 0 then "-" + NatToDecimal(-i) else NatToDecimal(i)
  }

  /** `int(s)` on the strings `IntToDecimal` produces. */
  function ParseInt(s: string): int {
    if |s| > 0 && s[0] == '-' && AllDigits(s[1..]) then -(DecimalValue(s[1..]) as int)
    else if AllDigits(s) then DecimalValue(s)
    else 0
  }

  lemma {:induction false} DecimalRoundTrip(n: nat)
    ensures DecimalValue(NatToDecimal(n)) == n
  {
    if n >= 10 {
      var s := NatToDecimal(n);
      assert s[..|s| - 1] == NatToDecimal(n / 10);
      DecimalRoundTrip(n / 10);
    }
  }

  /** Reading back the decimal form of an item id gives the id: the string id
      determines the numeric one. */
  lemma IntRoundTrip(i: int)
    ensures ParseInt(IntToDecimal(i)) == i
  {
    if i < 0 {
      assert IntToDecimal(i)[1..] == NatToDecimal(-i);
      DecimalRoundTrip(-i);
    } else {
      DecimalRoundTrip(i);
    }
  }

  lemma IntToDecimalInjective(i: int, j: int)
    ensures IntToDecimal(i) == IntToDecimal(j) <==> i == j
  {
    IntRoundTrip(i);
    IntRoundTrip(j);
  }

  /** `Path(dir) / rel` for a normalised directory: an absolute `rel`
      replaces the directory; otherwise `rel` follows the directory, after a
      separator unless the directory is empty or already ends in one. */
  function Join(dir: string, rel: string): (p: string)
    ensures |p| >= |rel| && p[|p| - |rel|..] == rel
    ensures rel != [] && rel[0] == '/' ==> p == rel
    ensures !(rel != [] && rel[0] == '/') ==> p == dir + rel || p == dir + "/" + rel
    ensures !(rel != [] && rel[0] == '/') ==> (p == dir + "/" + rel <==> dir != [] && dir[|dir| - 1] != '/')
  {
    if rel != [] && rel[0] == '/' then rel
    else if dir == [] then rel
    else if dir[|dir| - 1] == '/' then dir + rel
    else dir + "/" + rel
  }
}

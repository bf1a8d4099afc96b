/** Python's `int(value)` on a `str` (base 10) and `str(n)` on an `int`: the conversions
    `parse_positive_int` and the length-limit message rely on. */
module PyInt {
  import opened Wrappers
  import opened PyText

  predicate IsDigit(c: char) { '0' <= c <= '9' }

  function DigitValue(c: char): (d: nat)
    requires IsDigit(c)
    ensures d < 10
  {
    c as int - '0' as int
  }

  function DigitChar(d: nat): (c: char)
    requires d < 10
    ensures IsDigit(c) && DigitValue(c) == d
  {
    ('0' as int + d) as char
  }

  /** Every character is a digit or an underscore. */
  predicate DigitsOrUnderscores(s: string) {
    forall k :: 0 <= k < |s| ==> IsDigit(s[k]) || s[k] == '_'
  }

  /** The digit part Python's `int()` accepts: one or more digits, with single
      underscores allowed between two digits ("1_000", but not "_1", "1_" or "1__0"). */
  predicate IsDigitRun(s: string) {
    |s| > 0 && IsDigit(s[0]) && IsDigit(s[|s| - 1]) && DigitsOrUnderscores(s) &&
    forall k :: 0 <= k < |s| - 1 && s[k] == '_' ==> s[k + 1] != '_'
  }

  /** The decimal value of the digits of `s`, underscores ignored. */
  function DigitsValue(s: string): nat
    requires DigitsOrUnderscores(s)
  {
    if s == [] then 0
    else if s[|s| - 1] == '_' then DigitsValue(s[..|s| - 1])
    else 10 * DigitsValue(s[..|s| - 1]) + DigitValue(s[|s| - 1])
  }

  /** The whitespace `int()` ignores around a number: the ASCII characters
      " \t\n\v\f\r", and every non-ASCII character `str.isspace()` accepts (CPython turns
      those into ' ' first). The ASCII separators U+001C..U+001F are not among them. */
  predicate IntSpace(c: char) {
    ('\t' <= c <= '\r') || c == ' ' || (c as int >= 128 && IsSpace(c))
  }

  /** `int(s)` for a `str` in base 10: surrounding `IntSpace` whitespace is ignored, an
      optional sign may precede the digits, and anything else raises ValueError (None here). */
  function ParseInt(s: string): (r: Option<int>)
    ensures r.Some? ==> StripBy(s, IntSpace) != []
  {
    var t := StripBy(s, IntSpace);
    if t != [] && (t[0] == '+' || t[0] == '-') then
      var body := t[1..];
      if IsDigitRun(body) then
        Some(if t[0] == '-' then 0 - DigitsValue(body) as int else DigitsValue(body))
      else None
    else if IsDigitRun(t) then Some(DigitsValue(t))
    else None
  }

  /** `str(n)` for a non-negative `n`: its decimal digits, most significant first. */
  function NatToString(n: nat): (r: string)
    ensures IsDigitRun(r)
    ensures forall k :: 0 <= k < |r| ==> IsDigit(r[k])
    ensures r[0] != '0' || r == "0"
    ensures DigitsValue(r) == n
  {
    if n < 10 then [DigitChar(n)]
    else
      var prefix := NatToString(n / 10);
      var r := prefix + [DigitChar(n % 10)];
      assert r[..|r| - 1] == prefix;
      r
  }

  /** `str(n)`: a '-' exactly for a negative number, then its decimal digits with no
      leading zero (just "0" for zero). */
  function IntToString(n: int): (r: string)
    ensures r != [] && IsDigit(r[|r| - 1])
    ensures (r[0] == '-') == (n < 0)
    ensures forall k :: (if n < 0 then 1 else 0) <= k < |r| ==> IsDigit(r[k])
    ensures n >= 0 ==> r[0] != '0' || r == "0"
    ensures n < 0 ==> |r| > 1 && r[1] != '0'
  {
    if n < 0 then "-" + NatToString(-n) else NatToString(n)
  }

  /** The decimal form of an integer has no `int()` whitespace to strip. */
  lemma IntToStringUnpadded(n: int)
    ensures StripBy(IntToString(n), IntSpace) == IntToString(n)
  {
    var t := IntToString(n);
    assert IsDigit(t[0]) || t[0] == '-' by {
      if n >= 0 { assert t == NatToString(n); }
    }
    assert !IntSpace(t[0]) && !IntSpace(t[|t| - 1]);
    TrimmedIsFixed(t, IntSpace);
  }

  /** `int(str(n)) == n`: parsing the decimal form of any integer gives it back. */
  lemma ParseIntToString(n: int)
    ensures ParseInt(IntToString(n)) == Some(n)
  {
    var t := IntToString(n);
    IntToStringUnpadded(n);
    if n < 0 {
      assert t[1..] == NatToString(-n);
    } else {
      assert t == NatToString(n);
    }
  }

  /** The ASCII separators U+001C..U+001F are whitespace to `str.isspace()`, but `int()`
      does not skip them: a string starting with one is always refused. */
  lemma SeparatorNeverSkipped(c: char, s: string)
    requires '\U{1C}' <= c <= '\U{1F}'
    ensures IsSpace(c) && ParseInt([c] + s) == None
  {
  }
}

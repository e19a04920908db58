/**
 * The string operations the command handlers use: Python's `int(s)` on a
 * command argument (base 10), `'%i' % n`, and `s.lower()`, restricted to
 * ASCII characters.
 */
module Text {
  import opened Host

  predicate IsDigit(c: char) { '0' <= c <= '9' }

  /**
   * The ASCII whitespace `int()` skips around a number: tab, line feed,
   * vertical tab, form feed, carriage return and space. The separators
   * 0x1c..0x1f, which `str.isspace()` also accepts, are not skipped.
   */
  predicate IsSpace(c: char) { c == ' ' || 9 <= c as int <= 13 }

  function DigitChar(d: nat): (c: char)
    requires d < 10
    ensures IsDigit(c)
  {
    ('0' as int + d) as char
  }

  function DigitValue(c: char): nat
    requires IsDigit(c)
  {
    c as int - '0' as int
  }

  /** `str(n)` for a non-negative `n`: decimal digits, no leading zero. */
  function NatToString(n: nat): (s: string)
    ensures |s| > 0 && forall i :: 0 <= i < |s| ==> IsDigit(s[i])
  {
    if n < 10 then [DigitChar(n)] else NatToString(n / 10) + [DigitChar(n % 10)]
  }

  /** `str(n)`, and so also `'%i' % n`. */
  function IntToString(n: int): string
  {
    if n < 0 then "-" + NatToString(-n) else NatToString(n)
  }

  /** `s` with the whitespace `int()` skips removed from both ends. */
  function Strip(s: string): (t: string)
    ensures |t| > 0 ==> !IsSpace(t[0]) && !IsSpace(t[|t| - 1])
    decreases |s|
  {
    if |s| > 0 && IsSpace(s[0]) then Strip(s[1..])
    else if |s| > 0 && IsSpace(s[|s| - 1]) then Strip(s[..|s| - 1])
    else s
  }

  /**
   * A base-10 digit string as `int()` accepts it: at least one digit, and an
   * underscore only between two digits.
   */
  predicate DigitString(s: string) {
    && DigitsOrUnderscores(s)
    && |s| > 0
    && IsDigit(s[0])
    && IsDigit(s[|s| - 1])
    && forall i :: 0 <= i < |s| ==> IsDigit(s[i]) || (s[i] == '_' && 0 < i < |s| - 1 && IsDigit(s[i + 1]))
  }

  predicate DigitsOrUnderscores(s: string) {
    forall i :: 0 <= i < |s| ==> IsDigit(s[i]) || s[i] == '_'
  }

  /** The number the digits of `s` spell, underscores skipped. */
  function DigitsValue(s: string): nat
    requires DigitsOrUnderscores(s)
  {
    if s == [] then 0
    else if s[|s| - 1] == '_' then DigitsValue(s[..|s| - 1])
    else 10 * DigitsValue(s[..|s| - 1]) + DigitValue(s[|s| - 1])
  }

  /**
   * `int(s)`: surrounding whitespace is ignored, then an optional sign and a
   * digit string; anything else raises `ValueError`, modelled as `None`.
   */
  function ParseInt(s: string): (r: Option<int>)
    ensures r.Some? <==>
      var t := Strip(s);
      DigitString(t) || (|t| > 0 && (t[0] == '+' || t[0] == '-') && DigitString(t[1..]))
  {
    var t := Strip(s);
    if |t| > 0 && (t[0] == '+' || t[0] == '-') then
      if DigitString(t[1..]) then
        var n: int := DigitsValue(t[1..]);
        Some(if t[0] == '-' then -n else n)
      else None
    else if DigitString(t) then Some(DigitsValue(t))
    else None
  }

  /** `s.lower()` on ASCII letters. */
  function ToLower(s: string): (t: string)
    ensures |t| == |s|
    ensures forall i :: 0 <= i < |s| ==> (t[i] == s[i] <==> !('A' <= s[i] <= 'Z'))
    ensures forall i :: 0 <= i < |s| && 'A' <= s[i] <= 'Z' ==> t[i] as int == s[i] as int + 32
    ensures forall i :: 0 <= i < |s| ==> !('A' <= t[i] <= 'Z')
  {
    seq(|s|, i requires 0 <= i < |s| => if 'A' <= s[i] <= 'Z' then (s[i] as int + 32) as char else s[i])
  }

  lemma {:induction false} NatToStringValue(n: nat)
    ensures DigitsValue(NatToString(n)) == n
  {
    var s := NatToString(n);
    if n >= 10 {
      assert s[..|s| - 1] == NatToString(n / 10);
      NatToStringValue(n / 10);
    }
  }

  /** A leading file separator 0x1c is not skipped, so `int()` rejects it. */
  lemma ParseIntRejectsSeparator()
    ensures ParseInt([28 as char, '5']) == None
    ensures ParseInt(['5', 31 as char]) == None
  {
    assert Strip([28 as char, '5']) == [28 as char, '5'];
    assert Strip(['5', 31 as char]) == ['5', 31 as char];
  }

  lemma StripKeeps(s: string)
    requires |s| > 0 && !IsSpace(s[0]) && !IsSpace(s[|s| - 1])
    ensures Strip(s) == s
  {
  }

  /** Reading back what `str(n)` wrote gives `n`: `int(str(n)) == n`. */
  lemma ParseIntToString(n: int)
    ensures ParseInt(IntToString(n)) == Some(n)
  {
    var s := IntToString(n);
    if n < 0 {
      var d := NatToString(-n);
      assert s[1..] == d;
      StripKeeps(s);
      NatToStringValue(-n);
    } else {
      StripKeeps(s);
      NatToStringValue(n);
    }
  }
}

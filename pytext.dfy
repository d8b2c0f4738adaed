/** The pieces of Python's string handling that the step interpreter relies
    on: `str()` of integers and of `None`, `int()` on a string, slicing,
    `startswith` and ASCII `lower()`. */
module PyText {
  import opened Wrappers

  predicate IsDigit(c: char) {
    '0' <= c <= '9'
  }

  function DigitValue(c: char): (d: nat)
    requires IsDigit(c)
    ensures d < 10
  {
    (c as int) - ('0' as int)
  }

  function DigitChar(d: nat): (c: char)
    requires d < 10
    ensures IsDigit(c) && DigitValue(c) == d
  {
    (('0' as int) + d) as char
  }

  predicate AllDigits(s: string) {
    forall k :: 0 <= k < |s| ==> IsDigit(s[k])
  }

  /** `str(n)` for a non-negative integer: its decimal digits, no leading zero. */
  function NatToString(n: nat): (s: string)
    ensures |s| >= 1 && AllDigits(s)
    ensures |s| > 1 ==> s[0] != '0'
    decreases n
  {
    if n < 10 then [DigitChar(n)] else NatToString(n / 10) + [DigitChar(n % 10)]
  }

  /** `str(i)` for any integer. */
  function IntToString(i: int): string {
    if i < 0 then "-" + NatToString(-i) else NatToString(i)
  }

  /** The number a string of decimal digits denotes. */
  function DigitsValue(s: string): nat
    requires AllDigits(s)
  {
    if s == [] then 0 else DigitsValue(s[..|s| - 1]) * 10 + DigitValue(s[|s| - 1])
  }

  lemma {:induction false} DigitsValueOfNatToString(n: nat)
    ensures DigitsValue(NatToString(n)) == n
    decreases n
  {
    var s := NatToString(n);
    if n >= 10 {
      DigitsValueOfNatToString(n / 10);
      assert s[..|s| - 1] == NatToString(n / 10);
    }
  }

  /** Python's `str.isspace()`: the characters `int()` strips from both ends. */
  predicate IsSpace(c: char) {
    var n := c as int;
    (9 <= n <= 13) || (28 <= n <= 32) || n == 0x85 || n == 0xA0 || n == 0x1680
    || (0x2000 <= n <= 0x200A) || n == 0x2028 || n == 0x2029 || n == 0x202F
    || n == 0x205F || n == 0x3000
  }

  function StripLeft(s: string): (r: string)
    ensures |r| <= |s|
  {
    if s != [] && IsSpace(s[0]) then StripLeft(s[1..]) else s
  }

  function StripRight(s: string): (r: string)
    ensures |r| <= |s|
  {
    if s != [] && IsSpace(s[|s| - 1]) then StripRight(s[..|s| - 1]) else s
  }

  function Strip(s: string): string {
    StripRight(StripLeft(s))
  }

  /** The digit part of a base-10 integer literal as `int()` accepts it:
      digits, with single underscores allowed between two digits. */
  predicate IsDigitGroups(s: string) {
    && s != []
    && IsDigit(s[0])
    && IsDigit(s[|s| - 1])
    && (forall k :: 0 <= k < |s| ==> IsDigit(s[k]) || s[k] == '_')
    && (forall k :: 0 <= k < |s| - 1 ==> !(s[k] == '_' && s[k + 1] == '_'))
  }

  function RemoveUnderscores(s: string): (r: string)
    ensures (forall k :: 0 <= k < |s| ==> IsDigit(s[k]) || s[k] == '_') ==> AllDigits(r)
  {
    if s == [] then []
    else if s[|s| - 1] == '_' then RemoveUnderscores(s[..|s| - 1])
    else RemoveUnderscores(s[..|s| - 1]) + [s[|s| - 1]]
  }

  /** Python's `int(s)` on a string: surrounding white space is stripped, an
      optional sign may precede the digits; any other input raises
      ValueError, modelled as None. */
  function ParseInt(s: string): Option<int> {
    var t := Strip(s);
    var negative := t != [] && t[0] == '-';
    var body := if t != [] && (t[0] == '-' || t[0] == '+') then t[1..] else t;
    if IsDigitGroups(body) then
      var n: int := DigitsValue(RemoveUnderscores(body));
      Some(if negative then -n else n)
    else
      None
  }

  lemma RemoveUnderscoresOfDigits(s: string)
    requires AllDigits(s)
    ensures RemoveUnderscores(s) == s
  {
    if s != [] {
      RemoveUnderscoresOfDigits(s[..|s| - 1]);
      assert s == s[..|s| - 1] + [s[|s| - 1]];
    }
  }

  /** `int(str(i)) == i`: the decimal rendering of every integer parses back
      to that integer. */
  lemma ParseIntOfIntToString(i: int)
    ensures ParseInt(IntToString(i)) == Some(i)
  {
    var s := IntToString(i);
    var digits := NatToString(if i < 0 then -i else i);
    assert !IsSpace(s[0]) && !IsSpace(s[|s| - 1]);
    assert StripLeft(s) == s;
    assert Strip(s) == s;
    var body := if s[0] == '-' || s[0] == '+' then s[1..] else s;
    assert body == digits;
    RemoveUnderscoresOfDigits(digits);
    DigitsValueOfNatToString(if i < 0 then -i else i);
  }

  /** `str(n)` for every natural number parses back to n. */
  lemma ParseIntOfNatToString(n: nat)
    ensures ParseInt(NatToString(n)) == Some(n)
  {
    ParseIntOfIntToString(n);
  }

  /** `str(x)` of the value `element.get_attribute(...)` returns: the string
      itself, or "None" for a missing attribute. */
  function PyStr(o: Option<string>): string {
    match o
    case Some(s) => s
    case None => "None"
  }

  /** `s[:n]`: at most the first n characters. */
  function Take(s: string, n: nat): (r: string)
    ensures |r| <= n && r <= s
    ensures |s| <= n ==> r == s
  {
    if |s| <= n then s else s[..n]
  }

  predicate StartsWith(s: string, prefix: string) {
    |prefix| <= |s| && s[..|prefix|] == prefix
  }

  /** ASCII case folding of one character. */
  function LowerChar(c: char): char {
    if 'A' <= c <= 'Z' then ((c as int) + 32) as char else c
  }

  /** `s.lower()` for ASCII letters. */
  function Lower(s: string): (r: string)
    ensures |r| == |s|
    ensures forall k :: 0 <= k < |s| ==> r[k] == LowerChar(s[k])
  {
    seq(|s|, k requires 0 <= k < |s| => LowerChar(s[k]))
  }
}

/**
 * The few JavaScript built-ins the client relies on: the `||` default of a
 * string that may be missing, string conversion of `undefined` inside a
 * template or a `+`, decimal printing of a non-negative integer, and
 * `String.prototype.trim`.
 */
module Js {
  import opened Types

  /** A string value that `||` treats as true: present and not "". */
  predicate Truthy(o: Option<string>) {
    o.Some? && o.value != ""
  }

  /** `o || d` where `o` is a string or `undefined`. */
  function Or(o: Option<string>, d: string): (r: string)
    ensures Truthy(o) ==> r == o.value
    ensures !Truthy(o) ==> r == d
  {
    if Truthy(o) then o.value else d
  }

  /** `String(o)`, as in `${o}` or `o + ' '`: `undefined` prints as "undefined". */
  function Text(o: Option<string>): (r: string)
    ensures o.Some? ==> r == o.value
    ensures o.None? ==> r == "undefined"
  {
    match o
    case Some(v) => v
    case None => "undefined"
  }

  // ---------------------------------------------------------------------
  // Decimal printing of integers (`${idx}`, `${Date.now()}`)
  // ---------------------------------------------------------------------

  predicate IsDigit(c: char) {
    '0' <= c <= '9'
  }

  predicate AllDigits(s: string) {
    forall i :: 0 <= i < |s| ==> IsDigit(s[i])
  }

  function DigitChar(d: nat): (c: char)
    requires d < 10
    ensures IsDigit(c)
  {
    (48 + d) as char
  }

  function DigitValue(c: char): (d: nat)
    requires IsDigit(c)
    ensures d < 10
  {
    c as int - 48
  }

  /** The decimal form JavaScript prints for the non-negative integer `n`. */
  function Decimal(n: nat): (s: string)
    ensures |s| > 0
    ensures AllDigits(s)
    ensures s[0] == '0' ==> n == 0
    decreases n
  {
    if n < 10 then [DigitChar(n)] else Decimal(n / 10) + [DigitChar(n % 10)]
  }

  /** The value of a string of decimal digits. */
  function ParseDecimal(s: string): nat
    requires AllDigits(s)
  {
    if s == [] then 0 else ParseDecimal(s[..|s| - 1]) * 10 + DigitValue(s[|s| - 1])
  }

  /** Printing loses nothing: reading the digits back gives the number. */
  lemma {:induction false} ParseDecimalOfDecimal(n: nat)
    ensures ParseDecimal(Decimal(n)) == n
    decreases n
  {
    var s := Decimal(n);
    if n >= 10 {
      ParseDecimalOfDecimal(n / 10);
      assert s[..|s| - 1] == Decimal(n / 10);
    }
  }

  /** Two numbers print alike only when they are equal. */
  lemma DecimalInjective(a: nat, b: nat)
    requires Decimal(a) == Decimal(b)
    ensures a == b
  {
    ParseDecimalOfDecimal(a);
    ParseDecimalOfDecimal(b);
  }

  // ---------------------------------------------------------------------
  // String.prototype.trim
  // ---------------------------------------------------------------------

  /** ECMAScript WhiteSpace and LineTerminator code points, which `trim` strips. */
  predicate IsWhitespace(c: char) {
    || c == '\t' || c == '\n' || c == '\U{000B}' || c == '\U{000C}' || c == '\r'
    || c == ' ' || c == '\U{00A0}' || c == '\U{1680}'
    || ('\U{2000}' <= c <= '\U{200A}')
    || c == '\U{2028}' || c == '\U{2029}' || c == '\U{202F}' || c == '\U{205F}'
    || c == '\U{3000}' || c == '\U{FEFF}'
  }

  predicate Blank(s: string) {
    forall i :: 0 <= i < |s| ==> IsWhitespace(s[i])
  }

  /** Drops the longest all-whitespace prefix. */
  function TrimStart(s: string): (r: string)
    ensures |r| <= |s| && r == s[|s| - |r|..]
    ensures Blank(s[..|s| - |r|])
    ensures r == [] || !IsWhitespace(r[0])
  {
    if |s| > 0 && IsWhitespace(s[0]) then
      var r := TrimStart(s[1..]);
      assert s[1..][..|s| - 1 - |r|] == s[1..|s| - |r|];
      r
    else
      s
  }

  /** Drops the longest all-whitespace suffix. */
  function TrimEnd(s: string): (r: string)
    ensures |r| <= |s| && r == s[..|r|]
    ensures Blank(s[|r|..])
    ensures r == [] || !IsWhitespace(r[|r| - 1])
  {
    if |s| > 0 && IsWhitespace(s[|s| - 1]) then
      var t := s[..|s| - 1];
      var r := TrimEnd(t);
      assert r == s[..|r|] by { assert r == t[..|r|]; }
      assert Blank(s[|r|..]) by {
        assert t[|r|..] == s[|r|..|s| - 1];
        forall i | |r| <= i < |s| ensures IsWhitespace(s[i]) {
          if i < |s| - 1 { assert s[i] == t[|r|..][i - |r|]; }
        }
      }
      r
    else
      s
  }

  /** `s.trim()` */
  function Trim(s: string): (r: string)
    ensures |r| <= |s|
    ensures r == [] || (!IsWhitespace(r[0]) && !IsWhitespace(r[|r| - 1]))
    ensures r == [] <==> Blank(s)
  {
    var t := TrimStart(s);
    var r := TrimEnd(t);
    assert r != [] ==> r[0] == t[0];
    assert r == [] ==> t[0..] == t && s[..|s| - |t|] == s;
    r
  }
}

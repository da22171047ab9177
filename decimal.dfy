/** Decimal numerals: `String(n)` for a non-negative integer, `Number(s)` for
    a string of decimal digits, and the two round trips between them. */
module Decimal {
  import opened JsValues

  predicate IsDigit(c: char) {
    '0' <= c <= '9'
  }

  /** A string of decimal digits (possibly empty). */
  predicate IsDigits(s: string) {
    forall i :: 0 <= i < |s| ==> IsDigit(s[i])
  }

  /** The numeral `String(n)` produces: non-empty digits, no leading zero
      except for "0" itself. */
  predicate IsCanonical(s: string) {
    IsDigits(s) && |s| > 0 && (s[0] == '0' ==> |s| == 1)
  }

  function DigitChar(d: nat): (c: char)
    requires d < 10
    ensures IsDigit(c)
  {
    ('0' as int + d) as char
  }

  function DigitValue(c: char): (d: nat)
    requires IsDigit(c)
    ensures d < 10 && DigitChar(d) == c
  {
    c as int - '0' as int
  }

  /** `String(n)` for a non-negative integer. */
  function Show(n: nat): (s: string)
    ensures IsCanonical(s)
    ensures s[0] == '0' <==> n == 0
  {
    if n < 10 then [DigitChar(n)] else Show(n / 10) + [DigitChar(n % 10)]
  }

  /** `String(i)` for any integer: a minus sign before a negative value.
      The text is a sign exactly for a negative value, followed by the
      numeral of the magnitude. */
  function ShowInt(i: int): (s: string)
    ensures |s| > 0 && (s[0] == '-' <==> i < 0)
    ensures i >= 0 ==> IsCanonical(s) && Parse(s) == i
    ensures i < 0 ==> IsCanonical(s[1..]) && Parse(s[1..]) == -i
  {
    ParseShow(if i < 0 then -i else i);
    if i < 0 then "-" + Show(-i) else Show(i)
  }

  /** `Number(s)` for a string of decimal digits. */
  function Parse(s: string): (n: nat)
    requires IsDigits(s)
    ensures n == 0 <==> forall k :: 0 <= k < |s| ==> s[k] == '0'
  {
    if s == [] then 0 else Parse(s[..|s| - 1]) * 10 + DigitValue(s[|s| - 1])
  }

  /** Reading back the numeral of n gives n. */
  lemma {:induction false} ParseShow(n: nat)
    ensures Parse(Show(n)) == n
  {
    var s := Show(n);
    if n >= 10 {
      assert s[..|s| - 1] == Show(n / 10);
      ParseShow(n / 10);
    }
  }

  /** Writing the number a canonical numeral denotes gives the numeral back. */
  lemma {:induction false} ShowParse(s: string)
    requires IsCanonical(s)
    ensures Show(Parse(s)) == s
  {
    if |s| > 1 {
      var p := s[..|s| - 1];
      assert IsCanonical(p);
      assert p[0] != '0';
      ShowParse(p);
      var n := Parse(s);
      assert n / 10 == Parse(p) && n % 10 == DigitValue(s[|s| - 1]);
    }
  }

  /** A numeric input as the form holds it: the numeral of a present
      number, '' for an absent one. */
  function ShowOptional(n: Option<nat>): (s: string)
    ensures s == "" <==> n.None?
    ensures s == "" || IsCanonical(s)
  {
    if n.Some? then Show(n.value) else ""
  }

  /** A numeric input as it is saved: absent for '', the number otherwise. */
  function ParseOptional(s: string): (n: Option<nat>)
    requires IsDigits(s)
    ensures n.None? <==> s == ""
    ensures n == Some(0) <==> s != "" && forall k :: 0 <= k < |s| ==> s[k] == '0'
  {
    if s == "" then None else Some(Parse(s))
  }

  /** A stored number shown in its input and saved again is the same number. */
  lemma {:induction false} OptionalRoundTrip(n: Option<nat>)
    ensures ParseOptional(ShowOptional(n)) == n
  {
    if n.Some? {
      ParseShow(n.value);
    }
  }

  /** A numeral without leading zeros, saved and shown again, is the same text. */
  lemma {:induction false} OptionalTextRoundTrip(s: string)
    requires s == "" || IsCanonical(s)
    ensures ShowOptional(ParseOptional(s)) == s
  {
    if s != "" {
      ShowParse(s);
    }
  }
}

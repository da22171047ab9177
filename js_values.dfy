/** JavaScript value conventions the tabs lean on: optional values, the
    whitespace set of `String.prototype.trim`, and the `x || ''`,
    `x || undefined` and `x || null` idioms on strings. */
module JsValues {

  /** An optional value: `undefined`/`null` is `None`. */
  datatype Option<+T> = None | Some(value: T) {
    function GetOr(default: T): T {
      match this
      case Some(v) => v
      case None => default
    }
  }

  /** The ECMAScript WhiteSpace and LineTerminator code points: exactly the
      characters that `trim()` strips. */
  predicate IsJsWhitespace(c: char) {
    || c == '\t' || c == '\n' || c == '\U{000B}' || c == '\U{000C}' || c == '\r'
    || c == ' ' || c == '\U{00A0}' || c == '\U{1680}'
    || ('\U{2000}' <= c <= '\U{200A}')
    || c == '\U{2028}' || c == '\U{2029}' || c == '\U{202F}' || c == '\U{205F}'
    || c == '\U{3000}' || c == '\U{FEFF}'
  }

  /** Every character of `s` is whitespace (the empty string included). */
  predicate IsBlank(s: string) {
    forall i :: 0 <= i < |s| ==> IsJsWhitespace(s[i])
  }

  /** `s` with its leading whitespace removed. */
  function TrimStart(s: string): (r: string)
    ensures |r| <= |s| && r == s[|s| - |r|..]
    ensures IsBlank(s[..|s| - |r|])
    ensures r != [] ==> !IsJsWhitespace(r[0])
  {
    if s != [] && IsJsWhitespace(s[0]) then TrimStart(s[1..]) else s
  }

  /** `s` with its trailing whitespace removed. */
  function TrimEnd(s: string): (r: string)
    ensures |r| <= |s| && r == s[..|r|]
    ensures IsBlank(s[|r|..])
    ensures r != [] ==> !IsJsWhitespace(r[|r| - 1])
  {
    if s != [] && IsJsWhitespace(s[|s| - 1]) then TrimEnd(s[..|s| - 1]) else s
  }

  /** `s.trim()`: the slice of `s` left after removing every leading and
      every trailing whitespace character; empty exactly when `s` is blank,
      and otherwise starting and ending with a non-whitespace character. */
  function Trim(s: string): (r: string)
    ensures exists i, j :: 0 <= i <= j <= |s| && r == s[i..j] && IsBlank(s[..i]) && IsBlank(s[j..])
    ensures r == [] <==> IsBlank(s)
    ensures r != [] ==> !IsJsWhitespace(r[0]) && !IsJsWhitespace(r[|r| - 1])
  {
    TrimBlank(s);
    var t := TrimStart(s);
    var r := TrimEnd(t);
    TrimSlice(s, t, r);
    r
  }

  /** The string left after trimming both ends is the slice of `s` between
      the two trimmed runs. */
  lemma TrimSlice(s: string, t: string, r: string)
    requires |t| <= |s| && t == s[|s| - |t|..]
    requires |r| <= |t| && r == t[..|r|]
    ensures r == s[|s| - |t|..|s| - |t| + |r|]
    ensures s[|s| - |t| + |r|..] == t[|r|..]
    ensures r != [] ==> r[0] == t[0]
  {
  }

  /** Trimming both ends leaves nothing exactly when the string is blank. */
  lemma TrimBlank(s: string)
    ensures TrimEnd(TrimStart(s)) == [] <==> IsBlank(s)
  {
    var t := TrimStart(s);
    var n := |s| - |t|;
    if TrimEnd(t) == [] {
      assert IsBlank(t[0..]);
      forall k | 0 <= k < |s| ensures IsJsWhitespace(s[k]) {
        if k < n {
          assert s[k] == s[..n][k];
        } else {
          assert s[k] == t[k - n];
        }
      }
    } else {
      assert t != [] && s[n] == t[0];
    }
  }

  /** An optional string with '' as the fallback: absent becomes the empty string. */
  function OrEmpty(x: Option<string>): (r: string)
    ensures r == "" <==> x.None? || x == Some("")
    ensures x.Some? ==> r == x.value
  {
    x.GetOr("")
  }

  /** A string with absent as the fallback: the empty string becomes absent. */
  function EmptyToNone(s: string): (r: Option<string>)
    ensures r.None? <==> s == ""
    ensures r.Some? ==> r.value == s
  {
    if s == "" then None else Some(s)
  }

  /** An optional string with none as the fallback: absent or empty gives no value. */
  function NonEmpty(x: Option<string>): (r: Option<string>)
    ensures r.None? <==> x.None? || x == Some("")
    ensures r.Some? ==> r == x
  {
    if x.Some? && x.value != "" then x else None
  }

  /** Reading a field into a form and writing it back gives the field back
      exactly when the field was not present-but-empty. */
  lemma EmptyToNoneOrEmpty(x: Option<string>)
    ensures EmptyToNone(OrEmpty(x)) == x <==> x != Some("")
  {
  }

  /** Writing a form string and reading it back always gives the string. */
  lemma OrEmptyEmptyToNone(s: string)
    ensures OrEmpty(EmptyToNone(s)) == s
  {
  }
}

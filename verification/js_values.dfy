/**
 * The few JavaScript value rules the blog client relies on: nullable and
 * possibly-missing fields, truthiness, `a || fallback`, string conversion in
 * template literals, `String.prototype.trim` and `String.prototype.length`
 * (which counts UTF-16 code units).
 */
module JsValues {

  /** A JSON/JavaScript field that may be `null`, missing (`undefined`) or hold a value. */
  datatype Js<+T> = Null | Undefined | Val(v: T)

  datatype Option<+T> = None | Some(value: T)

  /** Truthiness of a string-valued field: `""`, `null` and `undefined` are falsy. */
  predicate TruthyString(x: Js<string>) {
    x.Val? && x.v != ""
  }

  /** Truthiness of a boolean-valued field. */
  predicate TruthyBool(x: Js<bool>) {
    x.Val? && x.v
  }

  /** `x || fallback` where `x` is a string-valued field. */
  function OrString(x: Js<string>, fallback: string): (r: string)
    ensures r == fallback || x == Val(r)
    ensures r == "" ==> fallback == ""
    ensures TruthyString(x) ==> x == Val(r)
  {
    if TruthyString(x) then x.v else fallback
  }

  /** `${x}` inside a template literal: `null` and `undefined` print as words. */
  function Show(x: Js<string>): (r: string)
    ensures x.Val? ==> r == x.v
    ensures x == Null ==> r == "null"
    ensures x == Undefined ==> r == "undefined"
  {
    match x
    case Null => "null"
    case Undefined => "undefined"
    case Val(s) => s
  }

  /**
   * The code points `String.prototype.trim` removes: the ECMAScript
   * WhiteSpace set (TAB, VT, FF, ZWNBSP and every space separator) and the
   * LineTerminator set (LF, CR, LS, PS).
   */
  predicate IsJsSpace(c: char) {
    || c == '\t' || c == '\n' || c == '\U{B}' || c == '\U{C}' || c == '\r'
    || c == ' ' || c == '\U{A0}' || c == '\U{1680}'
    || ('\U{2000}' <= c <= '\U{200A}')
    || c == '\U{2028}' || c == '\U{2029}' || c == '\U{202F}' || c == '\U{205F}'
    || c == '\U{3000}' || c == '\U{FEFF}'
  }

  /** Every character of `s` is one `trim` removes. */
  predicate IsBlank(s: string) {
    forall i :: 0 <= i < |s| ==> IsJsSpace(s[i])
  }

  /** Leading-space removal: the result is empty or starts with a non-space. */
  function TrimStart(s: string): (r: string)
    ensures |r| <= |s|
    ensures r == [] || !IsJsSpace(r[0])
  {
    if s != [] && IsJsSpace(s[0]) then TrimStart(s[1..]) else s
  }

  /** Trailing-space removal: the result is empty or ends with a non-space. */
  function TrimEnd(s: string): (r: string)
    ensures |r| <= |s|
    ensures r == [] || !IsJsSpace(r[|r| - 1])
  {
    if s != [] && IsJsSpace(s[|s| - 1]) then TrimEnd(s[..|s| - 1]) else s
  }

  /** `s.trim()`. */
  function Trim(s: string): (r: string)
    ensures |r| <= |s|
    ensures r == [] || (!IsJsSpace(r[0]) && !IsJsSpace(r[|r| - 1]))
  {
    var t := TrimStart(s);
    TrimEndIsPrefix(t);
    TrimEnd(t)
  }

  /** `trimStart` keeps a suffix of the string. */
  lemma {:induction false} TrimStartIsSuffix(s: string)
    ensures TrimStart(s) == s[|s| - |TrimStart(s)|..]
  {
    if s != [] && IsJsSpace(s[0]) {
      TrimStartIsSuffix(s[1..]);
      assert s[1..][|s| - 1 - |TrimStart(s)|..] == s[|s| - |TrimStart(s)|..];
    }
  }

  /** `trimEnd` keeps a prefix of the string. */
  lemma {:induction false} TrimEndIsPrefix(s: string)
    ensures TrimEnd(s) == s[..|TrimEnd(s)|]
  {
    if s != [] && IsJsSpace(s[|s| - 1]) {
      TrimEndIsPrefix(s[..|s| - 1]);
      assert s[..|s| - 1][..|TrimEnd(s)|] == s[..|TrimEnd(s)|];
    }
  }

  /** Everything `trimStart` removes is space. */
  lemma {:induction false} TrimStartDropsSpaces(s: string)
    ensures forall i :: 0 <= i < |s| - |TrimStart(s)| ==> IsJsSpace(s[i])
  {
    if s != [] && IsJsSpace(s[0]) {
      TrimStartDropsSpaces(s[1..]);
      forall i | 1 <= i < |s| - |TrimStart(s)|
        ensures IsJsSpace(s[i])
      {
        assert s[i] == s[1..][i - 1];
      }
    }
  }

  /** Everything `trimEnd` removes is space. */
  lemma {:induction false} TrimEndDropsSpaces(s: string)
    ensures forall i :: |TrimEnd(s)| <= i < |s| ==> IsJsSpace(s[i])
  {
    if s != [] && IsJsSpace(s[|s| - 1]) {
      TrimEndDropsSpaces(s[..|s| - 1]);
      forall i | |TrimEnd(s)| <= i < |s| - 1
        ensures IsJsSpace(s[i])
      {
        assert s[i] == s[..|s| - 1][i];
      }
    }
  }

  /** A blank string loses everything to `trimStart`. */
  lemma {:induction false} TrimStartOfBlank(s: string)
    requires IsBlank(s)
    ensures TrimStart(s) == []
  {
    if s != [] {
      assert IsJsSpace(s[0]);
      assert IsBlank(s[1..]) by {
        forall i | 0 <= i < |s| - 1 ensures IsJsSpace(s[1..][i]) {
          assert s[1..][i] == s[i + 1];
        }
      }
      TrimStartOfBlank(s[1..]);
    }
  }

  /** A string that opens with a non-space keeps it through `trimEnd`. */
  lemma {:induction false} TrimEndKeepsFirst(s: string)
    requires s != [] && !IsJsSpace(s[0])
    ensures TrimEnd(s) != []
  {
    if IsJsSpace(s[|s| - 1]) {
      assert |s| > 1;
      TrimEndKeepsFirst(s[..|s| - 1]);
    }
  }

  /** `!s.trim()` holds exactly for the blank strings, the empty one included. */
  lemma TrimEmptyIffBlank(s: string)
    ensures Trim(s) == [] <==> IsBlank(s)
  {
    if IsBlank(s) {
      TrimStartOfBlank(s);
    } else {
      var t := TrimStart(s);
      TrimStartDropsSpaces(s);
      if t != [] {
        TrimEndKeepsFirst(t);
      }
    }
  }

  /** `!s.trim()`: the string is empty once trimmed. */
  function TrimsToEmpty(s: string): (b: bool)
    ensures b <==> IsBlank(s)
  {
    TrimEmptyIffBlank(s);
    Trim(s) == []
  }

  /** Number of UTF-16 code units of a code point. */
  function CodeUnits(c: char): (n: nat)
    ensures 1 <= n <= 2
  {
    if c as int > 0xFFFF then 2 else 1
  }

  /** `s.length`: UTF-16 code units, at least one per character. */
  function Utf16Length(s: string): (n: nat)
    ensures |s| <= n <= 2 * |s|
  {
    if s == [] then 0 else CodeUnits(s[0]) + Utf16Length(s[1..])
  }

  /** On characters of the Basic Multilingual Plane `length` counts characters. */
  lemma {:induction false} Utf16LengthBmp(s: string)
    requires forall i :: 0 <= i < |s| ==> s[i] as int <= 0xFFFF
    ensures Utf16Length(s) == |s|
  {
    if s != [] {
      Utf16LengthBmp(s[1..]);
    }
  }
}

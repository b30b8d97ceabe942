/**
 * The pieces of JavaScript semantics the questionnaire code relies on:
 * optional values, number values, `String.prototype.trim`, and the two
 * defaulting operators `||` and `??` as they act on optional numbers and
 * strings.
 */
module Js {

  /**
   * An absent or present value: an optional field left `undefined`, or a store
   * field holding `null`, where the code only tests for presence by truthiness.
   */
  datatype Option<+T> = None | Some(value: T) {
    /** `x ?? d`: the value if present, the default otherwise. */
    function GetOr(default: T): T {
      match this
      case Some(v) => v
      case None => default
    }
  }

  /** A JavaScript number; infinities are not represented. */
  datatype JsNumber = NaN | Num(value: real)

  /** The characters `trim` removes: ECMAScript's WhiteSpace and LineTerminator. */
  predicate IsWhitespace(c: char) {
    || c == '\U{9}' || c == '\U{B}' || c == '\U{C}' || c == ' '
    || c == '\U{A0}' || c == '\U{FEFF}' || c == '\U{1680}'
    || ('\U{2000}' <= c <= '\U{200A}')
    || c == '\U{202F}' || c == '\U{205F}' || c == '\U{3000}'
    || c == '\n' || c == '\r' || c == '\U{2028}' || c == '\U{2029}'
  }

  /** Every character of `s` is white space (so the empty string is blank). */
  predicate Blank(s: string) {
    forall i :: 0 <= i < |s| ==> IsWhitespace(s[i])
  }

  function TrimStart(s: string): string {
    if |s| > 0 && IsWhitespace(s[0]) then TrimStart(s[1..]) else s
  }

  function TrimEnd(s: string): string {
    if |s| > 0 && IsWhitespace(s[|s| - 1]) then TrimEnd(s[..|s| - 1]) else s
  }

  /** `s.trim()`. */
  function Trim(s: string): string {
    TrimEnd(TrimStart(s))
  }

  lemma {:induction false} TrimStartShape(s: string)
    ensures TrimStart(s) == "" <==> Blank(s)
    ensures TrimStart(s) != "" ==> !IsWhitespace(TrimStart(s)[0])
  {
    if |s| > 0 && IsWhitespace(s[0]) {
      TrimStartShape(s[1..]);
      assert Blank(s) <==> Blank(s[1..]) by {
        if Blank(s[1..]) {
          forall i | 0 <= i < |s| ensures IsWhitespace(s[i]) {
            if i > 0 { assert s[i] == s[1..][i - 1]; }
          }
        }
      }
    }
  }

  lemma {:induction false} TrimEndShape(s: string)
    ensures TrimEnd(s) == "" <==> Blank(s)
  {
    if |s| > 0 && IsWhitespace(s[|s| - 1]) {
      TrimEndShape(s[..|s| - 1]);
      assert Blank(s) <==> Blank(s[..|s| - 1]) by {
        if Blank(s[..|s| - 1]) {
          forall i | 0 <= i < |s| ensures IsWhitespace(s[i]) {
            if i < |s| - 1 { assert s[i] == s[..|s| - 1][i]; }
          }
        }
      }
    }
  }

  /** `!s.trim()` holds exactly for the strings made of white space only. */
  lemma TrimEmptyIffBlank(s: string)
    ensures Trim(s) == "" <==> Blank(s)
  {
    TrimStartShape(s);
    var t := TrimStart(s);
    TrimEndShape(t);
    if t != "" {
      assert !Blank(t) by { assert !IsWhitespace(t[0]); }
    }
  }

  /** A character outside the Basic Multilingual Plane takes a surrogate pair in UTF-16. */
  predicate Astral(c: char) {
    c as int > 0xFFFF
  }

  /** `s.length`: the number of UTF-16 code units, two for each astral character. */
  function Utf16Length(s: string): nat {
    if |s| == 0 then 0 else (if Astral(s[0]) then 2 else 1) + Utf16Length(s[1..])
  }

  /**
   * `s.length` lies between the number of characters and twice that, and it
   * equals the number of characters exactly when no character is astral.
   */
  lemma {:induction false} Utf16LengthBounds(s: string)
    ensures |s| <= Utf16Length(s) <= 2 * |s|
    ensures Utf16Length(s) == |s| <==> forall i :: 0 <= i < |s| ==> !Astral(s[i])
  {
    if |s| > 0 {
      Utf16LengthBounds(s[1..]);
      assert (forall i :: 0 <= i < |s| ==> !Astral(s[i])) <==>
             !Astral(s[0]) && (forall i :: 0 <= i < |s[1..]| ==> !Astral(s[1..][i])) by {
        if !Astral(s[0]) && (forall i :: 0 <= i < |s[1..]| ==> !Astral(s[1..][i])) {
          forall i | 0 <= i < |s| ensures !Astral(s[i]) {
            if i > 0 { assert s[i] == s[1..][i - 1]; }
          }
        }
      }
    }
  }

  /** `o || d` on an optional number: `undefined` and `0` both give `d`. */
  function OrNumber(o: Option<real>, default: real): real {
    if o.Some? && o.value != 0.0 then o.value else default
  }

  /** `o || d` on an optional string: `undefined` and `""` both give `d`. */
  function OrText(o: Option<string>, default: string): string {
    if o.Some? && o.value != "" then o.value else default
  }

  /** The truthiness of an optional number (`undefined` and `0` are falsy). */
  predicate TruthyNumber(o: Option<real>) {
    o.Some? && o.value != 0.0
  }

  /** The truthiness of an optional string (`undefined` and `""` are falsy). */
  predicate TruthyText(o: Option<string>) {
    o.Some? && o.value != ""
  }
}

/** The pieces of the JavaScript runtime that the chat core leans on: optional
    values, thrown values, settled promises, and the two string functions the
    core calls (`trim` for the blank-input guard, `toLowerCase` for provider
    lookup). */
module Runtime {

  /** `T | null | undefined` */
  datatype Option<+T> = None | Some(value: T) {
    /** A destructuring default: `x = d` takes `d` when `x` is undefined */
    function GetOr(default: T): T {
      match this
      case Some(v) => v
      case None => default
    }
  }

  /** What a `throw` or a rejected promise carries: an `Error` instance, whose
      `message` can be read, or any other value */
  datatype Thrown = ErrorObject(message: string) | NonErrorValue

  /** How an awaited promise settles */
  datatype Settled<+T> = Fulfilled(value: T) | Rejected(reason: Thrown)

  /** The TypeError V8 raises when a property is read off `undefined` */
  function ReadOfUndefined(property: string): Thrown {
    ErrorObject("Cannot read properties of undefined (reading '" + property + "')")
  }

  /** The code points `String.prototype.trim` strips: ECMAScript's WhiteSpace
      (TAB, VT, FF, ZWNBSP and the Unicode Space_Separator category) and
      LineTerminator (LF, CR, LS, PS) */
  predicate IsTrimmable(c: char) {
    c == '\t' || c == '\n' || c == '\U{000B}' || c == '\U{000C}' || c == '\r'
    || c == ' ' || c == '\U{00A0}' || c == '\U{1680}' || ('\U{2000}' <= c <= '\U{200A}')
    || c == '\U{2028}' || c == '\U{2029}' || c == '\U{202F}' || c == '\U{205F}'
    || c == '\U{3000}' || c == '\U{FEFF}'
  }

  function TrimStart(s: string): string {
    if s != [] && IsTrimmable(s[0]) then TrimStart(s[1..]) else s
  }

  function TrimEnd(s: string): string {
    if s != [] && IsTrimmable(s[|s| - 1]) then TrimEnd(s[..|s| - 1]) else s
  }

  /** `s.trim()` */
  function Trim(s: string): string {
    TrimEnd(TrimStart(s))
  }

  /** `!s.trim()`: the trimmed string is the empty, falsy string */
  predicate IsBlank(s: string) {
    Trim(s) == ""
  }

  lemma {:induction false} TrimStartEmpty(s: string)
    ensures TrimStart(s) == "" <==> forall i :: 0 <= i < |s| ==> IsTrimmable(s[i])
  {
    if s != [] && IsTrimmable(s[0]) {
      TrimStartEmpty(s[1..]);
      assert forall i :: 1 <= i < |s| ==> s[i] == s[1..][i - 1];
    }
  }

  lemma {:induction false} TrimEndEmpty(s: string)
    ensures TrimEnd(s) == "" <==> forall i :: 0 <= i < |s| ==> IsTrimmable(s[i])
  {
    if s != [] && IsTrimmable(s[|s| - 1]) {
      TrimEndEmpty(s[..|s| - 1]);
      assert forall i :: 0 <= i < |s| - 1 ==> s[i] == s[..|s| - 1][i];
    }
  }

  lemma {:induction false} TrimEndKeepsNonEmpty(s: string)
    requires exists i :: 0 <= i < |s| && !IsTrimmable(s[i])
    ensures TrimEnd(s) != ""
  {
    TrimEndEmpty(s);
  }

  lemma {:induction false} TrimStartSuffix(s: string)
    ensures |TrimStart(s)| <= |s| && TrimStart(s) == s[|s| - |TrimStart(s)|..]
    ensures forall i :: 0 <= i < |s| - |TrimStart(s)| ==> IsTrimmable(s[i])
  {
    if s != [] && IsTrimmable(s[0]) {
      TrimStartSuffix(s[1..]);
    }
  }

  /** The guard `!s.trim()` holds exactly for strings made only of
      whitespace and line terminators, the empty string included */
  lemma {:induction false} BlankIffAllTrimmable(s: string)
    ensures IsBlank(s) <==> forall i :: 0 <= i < |s| ==> IsTrimmable(s[i])
  {
    TrimStartEmpty(s);
    TrimStartSuffix(s);
    var t := TrimStart(s);
    if forall i :: 0 <= i < |s| ==> IsTrimmable(s[i]) {
      assert t == "";
    } else {
      var k :| 0 <= k < |s| && !IsTrimmable(s[k]);
      assert |s| - |t| <= k;
      assert t[k - (|s| - |t|)] == s[k];
      TrimEndKeepsNonEmpty(t);
    }
  }

  /** The ASCII part of `toLowerCase` */
  function LowerChar(c: char): char {
    if 'A' <= c <= 'Z' then (c as int + 32) as char else c
  }

  /** `s.toLowerCase()` on ASCII letters; other characters are kept */
  function ToLower(s: string): string {
    seq(|s|, i requires 0 <= i < |s| => LowerChar(s[i]))
  }

  predicate HasNoUpper(s: string) {
    forall i :: 0 <= i < |s| ==> !('A' <= s[i] <= 'Z')
  }

  /** Lower-casing leaves a string without upper-case letters unchanged */
  lemma ToLowerFixesLower(s: string)
    requires HasNoUpper(s)
    ensures ToLower(s) == s
  {
  }
}

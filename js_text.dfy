/** The pieces of JavaScript's value and string behaviour that
    `scripts/statusline/statusline_toggle.js` relies on: truthiness,
    conversion to a string, and `String.prototype.trim`. */
module JsText {
  import opened JsonValue

  /** A character that the regular-expression class `\s` matches and `trim()`
      removes: the WhiteSpace and LineTerminator characters of ECMAScript. */
  predicate IsJsSpace(c: char) {
    c == '\t' || c == '\n' || c == '\U{0b}' || c == '\U{0c}' || c == '\r' || c == ' '
    || c == '\U{a0}' || c == '\U{1680}' || ('\U{2000}' <= c <= '\U{200a}')
    || c == '\U{2028}' || c == '\U{2029}' || c == '\U{202f}' || c == '\U{205f}'
    || c == '\U{3000}' || c == '\U{feff}'
  }

  /** `if (v)` for a parsed JSON value: every array and object is truthy. */
  predicate JsTruthy(v: Json) {
    match v
    case JNull => false
    case JBool(b) => b
    case JInt(n) => n != 0
    case JStr(s) => s != ""
    case JArr(_) => true
    case JObj(_) => true
  }

  /** `String(v)`, which is also what a template literal inserts and what a
      regular expression's `test` searches. An array joins its elements with
      commas, writing `null` as nothing. */
  function JsString(v: Json): string {
    match v
    case JNull => "null"
    case JBool(b) => if b then "true" else "false"
    case JInt(n) => IntToString(n)
    case JStr(s) => s
    case JArr(items) =>
      Join(",", seq(|items|, i requires 0 <= i < |items| => if items[i].JNull? then "" else JsString(items[i])))
    case JObj(_) => "[object Object]"
  }

  /** The text with its leading whitespace removed. */
  function TrimStart(s: string): (r: string)
    ensures |r| <= |s| && r == s[|s| - |r|..]
    ensures forall i :: 0 <= i < |s| - |r| ==> IsJsSpace(s[i])
    ensures r == [] || !IsJsSpace(r[0])
  {
    if s != [] && IsJsSpace(s[0]) then TrimStart(s[1..]) else s
  }

  /** The text with its trailing whitespace removed. */
  function TrimEnd(s: string): (r: string)
    ensures |r| <= |s| && r == s[..|r|]
    ensures forall i :: |r| <= i < |s| ==> IsJsSpace(s[i])
    ensures r == [] || !IsJsSpace(r[|r| - 1])
  {
    if s != [] && IsJsSpace(s[|s| - 1]) then TrimEnd(s[..|s| - 1]) else s
  }

  /** `s.trim()`: the infix of `s` left after removing whitespace at both
      ends; empty exactly when `s` is all whitespace. */
  function Trim(s: string): (r: string)
    ensures r == [] || (!IsJsSpace(r[0]) && !IsJsSpace(r[|r| - 1]))
    ensures r == [] <==> forall i :: 0 <= i < |s| ==> IsJsSpace(s[i])
    // `r` is `s` with a run of whitespace removed at each end.
    ensures exists i, j :: (0 <= i <= j <= |s| && r == s[i..j]
      && (forall k :: 0 <= k < i ==> IsJsSpace(s[k]))
      && (forall k :: j <= k < |s| ==> IsJsSpace(s[k])))
  {
    var t := TrimStart(s);
    var r := TrimEnd(t);
    assert r != [] ==> r[0] == t[0];
    TrimEnds(s, t, r);
    r
  }

  /** Cutting whitespace from the start of `s` to give `t`, then from the end
      of `t` to give `r`, leaves `r` as an infix of `s` with whitespace on
      either side. */
  lemma TrimEnds(s: string, t: string, r: string)
    requires |t| <= |s| && t == s[|s| - |t|..] && forall k :: 0 <= k < |s| - |t| ==> IsJsSpace(s[k])
    requires |r| <= |t| && r == t[..|r|] && forall k :: |r| <= k < |t| ==> IsJsSpace(t[k])
    ensures var i, j := |s| - |t|, |s| - |t| + |r|;
      && 0 <= i <= j <= |s| && r == s[i..j]
      && (forall k :: 0 <= k < i ==> IsJsSpace(s[k]))
      && (forall k :: j <= k < |s| ==> IsJsSpace(s[k]))
  {
    var i, j := |s| - |t|, |s| - |t| + |r|;
    forall k | j <= k < |s|
      ensures IsJsSpace(s[k])
    {
      assert s[k] == t[k - i];
    }
  }
}

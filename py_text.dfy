/** The pieces of Python's string behaviour the scripts rely on: truthiness of
    JSON values, `str()` and `repr()` as used by f-strings, and `str.strip()`. */
module PyText {
  import opened JsonValue

  /** `c.isspace()` for a single character: the characters whose Unicode
      bidirectional class is WS, B or S, or whose category is Zs. */
  predicate IsPySpace(c: char) {
    c == '\t' || c == '\n' || c == '\U{0b}' || c == '\U{0c}' || c == '\r'
    || ('\U{1c}' <= c <= '\U{1f}') || c == ' ' || c == '\U{85}' || c == '\U{a0}'
    || c == '\U{1680}' || ('\U{2000}' <= c <= '\U{200a}') || c == '\U{2028}'
    || c == '\U{2029}' || c == '\U{202f}' || c == '\U{205f}' || c == '\U{3000}'
  }

  /** `s.lstrip()` */
  function StripStart(s: string): (r: string)
    ensures |r| <= |s| && r == s[|s| - |r|..]
    ensures forall i :: 0 <= i < |s| - |r| ==> IsPySpace(s[i])
    ensures r == [] || !IsPySpace(r[0])
  {
    if s != [] && IsPySpace(s[0]) then StripStart(s[1..]) else s
  }

  /** `s.rstrip()` */
  function StripEnd(s: string): (r: string)
    ensures |r| <= |s| && r == s[..|r|]
    ensures forall i :: |r| <= i < |s| ==> IsPySpace(s[i])
    ensures r == [] || !IsPySpace(r[|r| - 1])
  {
    if s != [] && IsPySpace(s[|s| - 1]) then StripEnd(s[..|s| - 1]) else s
  }

  /** `s.strip()`: the longest infix of `s` that neither starts nor ends with
      whitespace; empty exactly when `s` is all whitespace. */
  function Strip(s: string): (r: string)
    ensures r == [] || (!IsPySpace(r[0]) && !IsPySpace(r[|r| - 1]))
    ensures r == [] <==> forall i :: 0 <= i < |s| ==> IsPySpace(s[i])
    // `r` is `s` with a run of whitespace removed at each end.
    ensures exists i, j :: (0 <= i <= j <= |s| && r == s[i..j]
      && (forall k :: 0 <= k < i ==> IsPySpace(s[k]))
      && (forall k :: j <= k < |s| ==> IsPySpace(s[k])))
  {
    var t := StripStart(s);
    var r := StripEnd(t);
    assert r != [] ==> r[0] == t[0];
    StripEnds(s, t, r);
    r
  }

  /** Cutting whitespace from the start of `s` to give `t`, then from the end
      of `t` to give `r`, leaves `r` as an infix of `s` with whitespace on
      either side. */
  lemma StripEnds(s: string, t: string, r: string)
    requires |t| <= |s| && t == s[|s| - |t|..] && forall k :: 0 <= k < |s| - |t| ==> IsPySpace(s[k])
    requires |r| <= |t| && r == t[..|r|] && forall k :: |r| <= k < |t| ==> IsPySpace(t[k])
    ensures var i, j := |s| - |t|, |s| - |t| + |r|;
      && 0 <= i <= j <= |s| && r == s[i..j]
      && (forall k :: 0 <= k < i ==> IsPySpace(s[k]))
      && (forall k :: j <= k < |s| ==> IsPySpace(s[k]))
  {
    var i, j := |s| - |t|, |s| - |t| + |r|;
    forall k | j <= k < |s|
      ensures IsPySpace(s[k])
    {
      assert s[k] == t[k - i];
    }
  }

  /** `bool(v)` for a parsed JSON value. */
  predicate PyTruthy(v: Json) {
    match v
    case JNull => false
    case JBool(b) => b
    case JInt(n) => n != 0
    case JStr(s) => s != ""
    case JArr(items) => items != []
    case JObj(fields) => fields != map[]
  }

  function Escape(s: string, quote: char): string {
    if s == [] then ""
    else
      var c := s[0];
      var e :=
        if c == '\\' then "\\\\"
        else if c == quote then ['\\', quote]
        else if c == '\n' then "\\n"
        else if c == '\r' then "\\r"
        else if c == '\t' then "\\t"
        else [c];
      e + Escape(s[1..], quote)
  }

  /** `repr(s)` for a string: single quotes unless the text holds a single
      quote and no double quote. */
  function QuoteString(s: string): string {
    var q := if '\'' in s && '"' !in s then '"' else '\'';
    [q] + Escape(s, q) + [q]
  }

  /** `repr(v)` for a parsed JSON value (strings quoted, containers recursive). */
  function PyRepr(v: Json): string
    decreases v, 1
  {
    if v.JStr? then QuoteString(v.s) else PyStr(v)
  }

  /** `str(v)`, which is what `f"{v}"` inserts. Dicts keep their insertion
      order in Python and a map has none, so an object prints as `{...}`. */
  function PyStr(v: Json): string
    decreases v, 0
  {
    match v
    case JNull => "None"
    case JBool(b) => if b then "True" else "False"
    case JInt(n) => IntToString(n)
    case JStr(s) => s
    case JArr(items) =>
      "[" + Join(", ", seq(|items|, i requires 0 <= i < |items| => PyRepr(items[i]))) + "]"
    case JObj(_) => "{...}"
  }
}

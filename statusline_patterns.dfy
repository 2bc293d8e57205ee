/** The regular expressions of `scripts/statusline/statusline_toggle.js`, and
    the `test`, `replace` and global `replace` calls made with them.

    Tried at a fixed start position, a match is a function of that start:
    `MatchAt` gives the match that a backtracking engine reports first. For
    the command patterns `\s+` is always followed by a character outside
    `\s` and `[^']*` runs to the next quote, so there is only one candidate;
    where a greedy run can give characters back (the optional separator after
    a command, the second run of `RepeatedSeparators`), `MatchAt` spells out
    which match the engine settles on. A search then tries the start
    positions from left to right, as `RegExp.prototype.exec` does. */
module StatuslinePatterns {
  import opened JsonValue
  import opened JsText

  const PluginName := "agent-dispatcher"
  const Marker := PluginName + "-statusline"
  const ScriptPath := "scripts/statusline/statusline.js"

  /** The literal `lit` occurs in `s` at position `i`. */
  predicate StartsAt(s: string, i: nat, lit: string) {
    i + |lit| <= |s| && s[i..i + |lit|] == lit
  }

  /** The end of the longest run of `\s` from `i`. */
  function SkipSpaces(s: string, i: nat): (j: nat)
    requires i <= |s|
    ensures i <= j <= |s|
    ensures j == |s| || !IsJsSpace(s[j])
    decreases |s| - i
  {
    if i < |s| && IsJsSpace(s[i]) then SkipSpaces(s, i + 1) else i
  }

  predicate IsSeparatorChar(c: char) {
    c == ';' || c == '&'
  }

  /** The end of the longest run of `[;&]` from `i`. */
  function SkipSeparators(s: string, i: nat): (j: nat)
    requires i <= |s|
    ensures i <= j <= |s|
    ensures j == |s| || !IsSeparatorChar(s[j])
    decreases |s| - i
  {
    if i < |s| && IsSeparatorChar(s[i]) then SkipSeparators(s, i + 1) else i
  }

  /** The length of `(?:;|&&|\\n)?` at `i`: a semicolon, a double ampersand,
      or a backslash followed by the letter n. */
  function SeparatorLength(s: string, i: nat): (n: nat)
    requires i <= |s|
    ensures i + n <= |s|
  {
    if StartsAt(s, i, ";") then 1
    else if StartsAt(s, i, "&&") || StartsAt(s, i, "\\n") then 2
    else 0
  }

  /** The first quote at or after `i`, or `|s|` when there is none. */
  function NextQuote(s: string, i: nat): (j: nat)
    requires i <= |s|
    ensures i <= j <= |s|
    ensures j == |s| || s[j] == '\''
    decreases |s| - i
  {
    if i < |s| && s[i] != '\'' then NextQuote(s, i + 1) else i
  }

  /** The first quote at or after `i` is at `j`. */
  lemma {:induction false} NextQuoteAt(s: string, i: nat, j: nat)
    requires i <= j <= |s|
    requires forall k :: i <= k < j ==> s[k] != '\''
    requires j == |s| || s[j] == '\''
    ensures NextQuote(s, i) == j
    decreases j - i
  {
    if i < j {
      NextQuoteAt(s, i + 1, j);
    }
  }

  /** The two ways of recognising this plugin's command: by the marker
      comment, or (for commands written before the marker existed) by the
      plugin name followed later by the script path. */
  datatype Flavor = Marked | Legacy

  /** The quoted part of a command pattern, `[^']*#\s*MARKER[^']*` or
      `[^']*PLUGIN[^']*scripts/statusline/statusline\.js[^']*`, on a text
      that holds no quote. */
  predicate BodyMatches(body: string, flavor: Flavor) {
    match flavor
    case Marked =>
      exists h :: 0 <= h < |body| && body[h] == '#' && StartsAt(body, SkipSpaces(body, h + 1), Marker)
    case Legacy =>
      exists p, q :: 0 <= p && p + |PluginName| <= q && q + |ScriptPath| <= |body|
                     && StartsAt(body, p, PluginName) && StartsAt(body, q, ScriptPath)
  }

  /** The end of a match of `bash\s+-lc\s+'<body>'` that starts at `k`. */
  function CommandEnd(s: string, k: nat, flavor: Flavor): (e: Option<nat>)
    requires k <= |s|
    ensures e.Some? ==> k < e.value <= |s|
  {
    if !StartsAt(s, k, "bash") then None
    else
      var a := SkipSpaces(s, k + 4);
      if a == k + 4 || !StartsAt(s, a, "-lc") then None
      else
        var b := SkipSpaces(s, a + 3);
        if b == a + 3 || !StartsAt(s, b, "'") then None
        else
          var q := NextQuote(s, b + 1);
          if q == |s| || !BodyMatches(s[b + 1..q], flavor) then None
          else Some(q + 1)
  }

  /** `cmd` is `bash -lc '<body>'`, written with single spaces, whose body
      holds no quote and has the shape `flavor` looks for. */
  predicate IsSingleSpacedCommand(cmd: string, flavor: Flavor) {
    && |cmd| >= 11
    && cmd[..4] == "bash" && cmd[4] == ' ' && cmd[5..8] == "-lc" && cmd[8] == ' ' && cmd[9] == '\''
    && cmd[|cmd| - 1] == '\''
    && (forall i :: 10 <= i < |cmd| - 1 ==> cmd[i] != '\'')
    && BodyMatches(cmd[10..|cmd| - 1], flavor)
  }

  lemma {:induction false} QuotedScriptIsSingleSpaced(script: string, flavor: Flavor)
    requires '\'' !in script && BodyMatches(script, flavor)
    ensures IsSingleSpacedCommand("bash -lc '" + script + "'", flavor)
  {
    var cmd := "bash -lc '" + script + "'";
    assert cmd[..4] == "bash" && cmd[5..8] == "-lc";
    assert cmd[10..|cmd| - 1] == script;
    forall i | 10 <= i < |cmd| - 1
      ensures cmd[i] != '\''
    {
      assert cmd[i] == script[i - 10];
    }
  }

  /** Wherever such a command occurs in a text, the command pattern of its
      flavour matches it exactly there, from its first character to its
      closing quote. */
  lemma {:induction false} SingleSpacedCommandEnd(s: string, k: nat, cmd: string, flavor: Flavor)
    requires IsSingleSpacedCommand(cmd, flavor)
    requires k + |cmd| <= |s| && s[k..k + |cmd|] == cmd
    ensures CommandEnd(s, k, flavor) == Some(k + |cmd|)
  {
    SingleSpacedPrefix(s, k, cmd, flavor);
    SingleSpacedBody(s, k, cmd, flavor);
  }

  lemma {:induction false} SingleSpacedPrefix(s: string, k: nat, cmd: string, flavor: Flavor)
    requires IsSingleSpacedCommand(cmd, flavor)
    requires k + |cmd| <= |s| && s[k..k + |cmd|] == cmd
    ensures StartsAt(s, k, "bash") && SkipSpaces(s, k + 4) == k + 5 && StartsAt(s, k + 5, "-lc")
    ensures SkipSpaces(s, k + 8) == k + 9 && StartsAt(s, k + 9, "'")
  {
    assert s[k..k + 4] == cmd[..4];
    assert s[k + 4] == cmd[4] && s[k + 5] == cmd[5] && cmd[5] == cmd[5..8][0];
    InnerSlice(s, k, |cmd|, 5, 8);
    assert s[k + 8] == cmd[8] && s[k + 9] == cmd[9];
    assert s[k + 9..k + 10] == "'";
  }

  lemma {:induction false} SingleSpacedBody(s: string, k: nat, cmd: string, flavor: Flavor)
    requires IsSingleSpacedCommand(cmd, flavor)
    requires k + |cmd| <= |s| && s[k..k + |cmd|] == cmd
    ensures NextQuote(s, k + 10) == k + |cmd| - 1
    ensures s[k + 10..k + |cmd| - 1] == cmd[10..|cmd| - 1]
  {
    var n := |cmd|;
    forall i | k + 10 <= i < k + n - 1
      ensures s[i] != '\''
    {
      assert s[i] == cmd[i - k];
    }
    assert s[k + n - 1] == cmd[n - 1];
    NextQuoteAt(s, k + 10, k + n - 1);
    InnerSlice(s, k, n, 10, n - 1);
  }

  lemma InnerSlice(s: string, k: nat, n: nat, i: nat, j: nat)
    requires k + n <= |s| && i <= j <= n
    ensures s[k..k + n][i..j] == s[k + i..k + j]
  {
    var inner := s[k..k + n][i..j];
    assert forall t :: 0 <= t < j - i ==> inner[t] == s[k + i..k + j][t];
  }

  // Command: `markerRegex` or `legacyRegex`.
  // Surrounded: a removal pattern, that is a command pattern with
  //   `\s*(?:;|&&|\\n)?\s*` before it and `\s*(?:;|&&|\\n)?` after it.
  // LeadingSeparators: `^\s*[;&]+\s*`.
  // TrailingSeparators: `\s*[;&]+\s*$`.
  // RepeatedSeparators: `\s*[;&]+\s*[;&]+\s*` (used with the global flag).
  datatype Pattern =
    | Command(flavor: Flavor)
    | Surrounded(flavor: Flavor)
    | LeadingSeparators
    | TrailingSeparators
    | RepeatedSeparators

  /** The end of the match of `p` that starts at `i`, if there is one. No
      pattern matches the empty text. */
  function MatchAt(s: string, i: nat, p: Pattern): (e: Option<nat>)
    requires i <= |s|
    ensures e.Some? ==> i < e.value <= |s|
  {
    match p
    case Command(flavor) => CommandEnd(s, i, flavor)
    case Surrounded(flavor) =>
      var j := SkipSpaces(s, i);
      var k := SkipSpaces(s, j + SeparatorLength(s, j));
      (match CommandEnd(s, k, flavor)
       case None => None
       case Some(c) =>
         var t := SkipSpaces(s, c);
         Some(t + SeparatorLength(s, t)))
    case LeadingSeparators =>
      var j := SkipSpaces(s, i);
      var r := SkipSeparators(s, j);
      if i != 0 || r == j then None else Some(SkipSpaces(s, r))
    case TrailingSeparators =>
      var j := SkipSpaces(s, i);
      var r := SkipSeparators(s, j);
      if r == j || SkipSpaces(s, r) != |s| then None else Some(|s|)
    case RepeatedSeparators =>
      var j := SkipSpaces(s, i);
      var r := SkipSeparators(s, j);
      if r == j then None
      else
        var w := SkipSpaces(s, r);
        var r2 := SkipSeparators(s, w);
        // Greedy: a second run after whitespace. Otherwise the first run
        // gives up its last character to the second, if it has two.
        if w > r && r2 > w then Some(SkipSpaces(s, r2))
        else if r - j >= 2 then Some(w)
        else None
  }

  /** The leftmost position in `from..last` where `hit` holds. */
  function FirstWhere(from: nat, last: nat, hit: nat -> bool): (m: Option<nat>)
    requires from <= last
    ensures m.Some? ==> from <= m.value <= last && hit(m.value)
    ensures m.Some? ==> forall k :: from <= k < m.value ==> !hit(k)
    ensures m.None? ==> forall k :: from <= k <= last ==> !hit(k)
    decreases last - from
  {
    if hit(from) then Some(from)
    else if from == last then None
    else FirstWhere(from + 1, last, hit)
  }

  /** The leftmost start, at or after `from`, of a match of `p`. */
  function FirstMatch(s: string, from: nat, p: Pattern): (m: Option<nat>)
    requires from <= |s|
    ensures m.Some? ==> from <= m.value <= |s| && MatchAt(s, m.value, p).Some?
    ensures m.Some? ==> forall k :: from <= k < m.value ==> MatchAt(s, k, p).None?
    ensures m.None? ==> forall k :: from <= k <= |s| ==> MatchAt(s, k, p).None?
  {
    var hit := (k: nat) => k <= |s| && MatchAt(s, k, p).Some?;
    assert forall k: nat :: hit(k) == (k <= |s| && MatchAt(s, k, p).Some?);
    FirstWhere(from, |s|, hit)
  }

  /** `regex.test(s)`, from the start of `s`. */
  predicate Test(s: string, p: Pattern) {
    FirstMatch(s, 0, p).Some?
  }

  function SubstitutionPiece(c: char, s: string, start: nat, end: nat): string
    requires start <= end <= |s|
  {
    if c == '$' then "$"
    else if c == '&' then s[start..end]
    else if c == '`' then s[..start]
    else s[end..]
  }

  /** The text a replacement string stands for when it replaces the match
      `s[start..end]`: `$$` is a dollar sign, `$&` the match, `` $` `` the
      text before it and `$'` the text after it; everything else is itself
      (the patterns have no capture groups). */
  function Substitution(rep: string, s: string, start: nat, end: nat): string
    requires start <= end <= |s|
  {
    if rep == [] then ""
    else if rep[0] == '$' && |rep| >= 2 && rep[1] in "$&`'" then
      SubstitutionPiece(rep[1], s, start, end) + Substitution(rep[2..], s, start, end)
    else [rep[0]] + Substitution(rep[1..], s, start, end)
  }

  /** A replacement string that stands for itself: no dollar sign in it is
      followed by one of the characters that make a substitution pattern. */
  predicate Literal(rep: string) {
    forall i :: 0 <= i < |rep| - 1 && rep[i] == '$' ==> rep[i + 1] !in "$&`'"
  }

  lemma {:induction false} LiteralSubstitution(rep: string, s: string, start: nat, end: nat)
    requires start <= end <= |s|
    requires Literal(rep)
    ensures Substitution(rep, s, start, end) == rep
    decreases |rep|
  {
    if rep != [] {
      assert Literal(rep[1..]) by {
        forall i | 0 <= i < |rep[1..]| - 1 && rep[1..][i] == '$'
          ensures rep[1..][i + 1] !in "$&`'"
        {
          assert rep[i + 1] == '$';
        }
      }
      LiteralSubstitution(rep[1..], s, start, end);
    }
  }

  /** A replacement string without a `$` stands for itself. */
  lemma NoDollarIsLiteral(rep: string)
    requires '$' !in rep
    ensures Literal(rep)
  {
  }

  /** Two literal replacement strings stay literal when joined, unless the
      first ends with a dollar sign that the second completes. */
  lemma LiteralJoin(a: string, b: string)
    requires Literal(a) && Literal(b)
    requires a == [] || b == [] || a[|a| - 1] != '$' || b[0] !in "$&`'"
    ensures Literal(a + b)
  {
    forall i | 0 <= i < |a + b| - 1 && (a + b)[i] == '$'
      ensures (a + b)[i + 1] !in "$&`'"
    {
      if i < |a| - 1 {
        assert (a + b)[i + 1] == a[i + 1];
      } else if i == |a| - 1 {
        assert (a + b)[i + 1] == b[0];
      } else {
        assert (a + b)[i] == b[i - |a|] && (a + b)[i + 1] == b[i - |a| + 1];
      }
    }
  }

  /** `s.replace(regex, rep)` for a pattern without the global flag: only the
      leftmost match is replaced. */
  function ReplaceFirst(s: string, p: Pattern, rep: string): string {
    match FirstMatch(s, 0, p)
    case None => s
    case Some(k) =>
      var e := MatchAt(s, k, p).value;
      s[..k] + Substitution(rep, s, k, e) + s[e..]
  }

  /** The global replacement from position `from` on: each match, leftmost
      first, is replaced, and the search resumes where the match ended. */
  function ReplaceAllFrom(s: string, from: nat, p: Pattern, rep: string): string
    requires from <= |s|
    decreases |s| - from
  {
    match FirstMatch(s, from, p)
    case None => s[from..]
    case Some(k) =>
      var e := MatchAt(s, k, p).value;
      s[from..k] + Substitution(rep, s, k, e) + ReplaceAllFrom(s, e, p, rep)
  }

  /** `s.replace(regex, rep)` for a pattern with the global flag. */
  function ReplaceAll(s: string, p: Pattern, rep: string): string {
    ReplaceAllFrom(s, 0, p, rep)
  }

  /** A global replacement splits the text into the stretches between matches
      and the matches themselves, in order and without overlap: replacing
      every match by itself (`$&`) gives the text back. */
  lemma ReplaceAllByMatchIsIdentity(s: string, p: Pattern)
    ensures ReplaceAll(s, p, "$&") == s
  {
    ReplaceAllFromByMatch(s, 0, p);
  }

  lemma {:induction false} ReplaceAllFromByMatch(s: string, from: nat, p: Pattern)
    requires from <= |s|
    ensures ReplaceAllFrom(s, from, p, "$&") == s[from..]
    decreases |s| - from
  {
    match FirstMatch(s, from, p)
    case None =>
    case Some(k) =>
      var e := MatchAt(s, k, p).value;
      MatchSubstitution(s, k, e);
      ReplaceAllFromByMatch(s, e, p);
      Regrouped(s, from, k, e);
  }

  /** `$&` stands for the match. */
  lemma MatchSubstitution(s: string, start: nat, end: nat)
    requires start <= end <= |s|
    ensures Substitution("$&", s, start, end) == s[start..end]
  {
    assert "$&"[1] == '&' && "$&"[2..] == [];
  }

  lemma Regrouped(s: string, i: nat, j: nat, k: nat)
    requires i <= j <= k <= |s|
    ensures s[i..j] + s[j..k] + s[k..] == s[i..]
  {
  }
}

/** `validate_role_name` of `scripts/ai_lib.py`: a full match of the pattern
    `^[a-z0-9]+(?:-[a-z0-9]+)*$`, i.e. lower-case kebab-case. */
module RoleName {
  import opened JsonValue

  predicate IsSegmentChar(c: char) {
    'a' <= c <= 'z' || '0' <= c <= '9'
  }

  /** The pattern, read left to right: `needChar` holds at the start of a
      segment, where `[a-z0-9]` must follow; inside a segment either another
      such character, or a single `-` opening the next segment, or the end. */
  function MatchesFrom(s: string, needChar: bool): bool
    decreases |s|
  {
    if s == [] then !needChar
    else if IsSegmentChar(s[0]) then MatchesFrom(s[1..], false)
    else if s[0] == '-' && !needChar then MatchesFrom(s[1..], true)
    else false
  }

  /** Kebab-case, stated on characters: non-empty, only `[a-z0-9-]`, no hyphen
      at either end and no two hyphens in a row. */
  predicate IsKebabCase(s: string) {
    && |s| > 0
    && (forall i :: 0 <= i < |s| ==> IsSegmentChar(s[i]) || s[i] == '-')
    && s[0] != '-'
    && s[|s| - 1] != '-'
    && (forall i :: 0 <= i < |s| - 1 ==> !(s[i] == '-' && s[i + 1] == '-'))
  }

  /** What may follow inside a segment: nothing, a kebab-case rest, or a
      hyphen and then a kebab-case rest. */
  predicate SegmentTail(s: string) {
    s == [] || IsKebabCase(s) || (s[0] == '-' && IsKebabCase(s[1..]))
  }

  /** The scanner accepts exactly the kebab-case names. */
  lemma {:induction false} MatchesFromIsKebabCase(s: string)
    ensures MatchesFrom(s, true) <==> IsKebabCase(s)
    ensures MatchesFrom(s, false) <==> SegmentTail(s)
    decreases |s|
  {
    if s != [] {
      var t := s[1..];
      MatchesFromIsKebabCase(t);
      if IsSegmentChar(s[0]) {
        assert s == [s[0]] + t;
        if t != [] && t[0] == '-' {
          assert IsKebabCase(s) ==> IsKebabCase(t[1..]) by {
            if IsKebabCase(s) {
              forall i | 0 <= i < |t[1..]| - 1 ensures !(t[1..][i] == '-' && t[1..][i + 1] == '-') {
                assert t[1..][i] == s[i + 2] && t[1..][i + 1] == s[i + 3];
              }
            }
          }
          assert IsKebabCase(t[1..]) ==> IsKebabCase(s) by {
            if IsKebabCase(t[1..]) {
              forall i | 0 <= i < |s| ensures IsSegmentChar(s[i]) || s[i] == '-' {
                if i >= 2 { assert s[i] == t[1..][i - 2]; }
              }
              forall i | 0 <= i < |s| - 1 ensures !(s[i] == '-' && s[i + 1] == '-') {
                if i >= 2 { assert s[i] == t[1..][i - 2] && s[i + 1] == t[1..][i - 1]; }
              }
            }
          }
        } else if t != [] {
          assert IsKebabCase(s) ==> IsKebabCase(t) by {
            if IsKebabCase(s) {
              forall i | 0 <= i < |t| - 1 ensures !(t[i] == '-' && t[i + 1] == '-') {
                assert t[i] == s[i + 1] && t[i + 1] == s[i + 2];
              }
            }
          }
          assert IsKebabCase(t) ==> IsKebabCase(s) by {
            if IsKebabCase(t) {
              forall i | 0 <= i < |s| ensures IsSegmentChar(s[i]) || s[i] == '-' {
                if i >= 1 { assert s[i] == t[i - 1]; }
              }
              forall i | 0 <= i < |s| - 1 ensures !(s[i] == '-' && s[i + 1] == '-') {
                if i >= 1 { assert s[i] == t[i - 1] && s[i + 1] == t[i]; }
              }
            }
          }
        }
      }
    }
  }

  /** `validate_role_name(name)`, with `None` as `Option.None`: true exactly
      for a kebab-case name, so `None` and the empty name are rejected. */
  function ValidateRoleName(name: Option<string>): (valid: bool)
    ensures valid <==> name.Some? && IsKebabCase(name.value)
  {
    var s := if name.Some? then name.value else "";
    MatchesFromIsKebabCase(s);
    MatchesFrom(s, true)
  }
}

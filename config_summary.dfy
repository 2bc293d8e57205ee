/** `summarize_config` of `scripts/ai_lib.py`: a text rendering of the roles
    and providers of a configuration, each section in sorted key order. */
module ConfigSummary {
  import opened JsonValue
  import opened PyText

  /** `a < b` on Python strings: lexicographic on code points. */
  predicate Less(a: string, b: string)
    decreases |a|
  {
    if a == [] then b != []
    else if b == [] then false
    else if a[0] != b[0] then a[0] < b[0]
    else Less(a[1..], b[1..])
  }

  lemma {:induction false} LessIrreflexive(a: string)
    ensures !Less(a, a)
    decreases |a|
  {
    if a != [] {
      LessIrreflexive(a[1..]);
    }
  }

  lemma {:induction false} LessTransitive(a: string, b: string, c: string)
    requires Less(a, b) && Less(b, c)
    ensures Less(a, c)
    decreases |a|
  {
    if a != [] && b != [] && c != [] && a[0] == b[0] && b[0] == c[0] {
      LessTransitive(a[1..], b[1..], c[1..]);
    }
  }

  lemma {:induction false} LessTotal(a: string, b: string)
    requires a != b
    ensures Less(a, b) || Less(b, a)
    decreases |a|
  {
    if a != [] && b != [] && a[0] == b[0] {
      assert a == [a[0]] + a[1..] && b == [b[0]] + b[1..];
      LessTotal(a[1..], b[1..]);
    }
  }

  /** Strictly increasing, hence also free of duplicates. */
  ghost predicate StrictlySorted(ks: seq<string>) {
    forall i, j :: 0 <= i < j < |ks| ==> Less(ks[i], ks[j])
  }

  /** `ks` is `sorted(keys)`: the keys, each once, in increasing order. */
  ghost predicate IsSortedOrder(ks: seq<string>, keys: set<string>) {
    StrictlySorted(ks) && (forall k :: k in ks <==> k in keys) && |ks| == |keys|
  }

  /** Inserting `x` at the place where the smaller keys end keeps the
      sequence strictly sorted. */
  lemma InsertKeepsSorted(ks: seq<string>, i: nat, x: string)
    requires StrictlySorted(ks) && i <= |ks|
    requires forall j :: 0 <= j < i ==> Less(ks[j], x)
    requires i < |ks| ==> Less(x, ks[i])
    ensures StrictlySorted(ks[..i] + [x] + ks[i..])
  {
    var next := ks[..i] + [x] + ks[i..];
    forall a, b | 0 <= a < b < |next|
      ensures Less(next[a], next[b])
    {
      if b == i {
        assert next[a] == ks[a];
      } else if a == i {
        assert next[b] == ks[b - 1];
        if b - 1 > i { LessTransitive(x, ks[i], ks[b - 1]); }
      } else if a < i < b {
        assert next[a] == ks[a] && next[b] == ks[b - 1];
      }
    }
  }

  /** `sorted(keys)`, by insertion. */
  method SortedKeys(keys: set<string>) returns (ks: seq<string>)
    ensures IsSortedOrder(ks, keys)
  {
    ks := [];
    var rest := keys;
    while rest != {}
      invariant rest <= keys
      invariant StrictlySorted(ks)
      invariant forall k :: k in ks <==> k in keys - rest
      invariant |ks| == |keys - rest|
      decreases rest
    {
      var x :| x in rest;
      var i := 0;
      while i < |ks| && Less(ks[i], x)
        invariant 0 <= i <= |ks|
        invariant forall j :: 0 <= j < i ==> Less(ks[j], x)
      {
        i := i + 1;
      }
      if i < |ks| {
        assert ks[i] != x;
        LessTotal(ks[i], x);
      }
      var next := ks[..i] + [x] + ks[i..];
      InsertKeepsSorted(ks, i, x);
      assert keys - (rest - {x}) == (keys - rest) + {x};
      ks := next;
      rest := rest - {x};
    }
  }

  /** `sorted(keys)` is determined by the keys: two strictly increasing
      listings of the same set are the same sequence. */
  lemma {:induction false} SortedOrderUnique(a: seq<string>, b: seq<string>, keys: set<string>)
    requires IsSortedOrder(a, keys) && IsSortedOrder(b, keys)
    ensures a == b
    decreases |a|
  {
    if a != [] {
      assert b != [] by { assert a[0] in keys; }
      SameLeast(a, b, keys);
      TailSortedOrder(a, keys);
      TailSortedOrder(b, keys);
      SortedOrderUnique(a[1..], b[1..], keys - {a[0]});
      assert a == [a[0]] + a[1..] && b == [b[0]] + b[1..];
    }
  }

  /** Two listings of the same keys in increasing order start with the same key. */
  lemma SameLeast(a: seq<string>, b: seq<string>, keys: set<string>)
    requires IsSortedOrder(a, keys) && IsSortedOrder(b, keys)
    requires a != [] && b != []
    ensures a[0] == b[0]
  {
    if a[0] != b[0] {
      assert a[0] in b && b[0] in a;
      var j :| 0 <= j < |b| && b[j] == a[0];
      var i :| 0 <= i < |a| && a[i] == b[0];
      assert Less(b[0], a[0]) && Less(a[0], b[0]);
      LessTransitive(a[0], b[0], a[0]);
      LessIrreflexive(a[0]);
    }
  }

  /** Dropping the least key of a sorted listing leaves a sorted listing of
      the other keys. */
  lemma TailSortedOrder(a: seq<string>, keys: set<string>)
    requires IsSortedOrder(a, keys) && a != []
    ensures IsSortedOrder(a[1..], keys - {a[0]})
  {
    forall k | k in a[1..] ensures k != a[0] {
      var i :| 0 <= i < |a[1..]| && a[1..][i] == k;
      assert Less(a[0], a[i + 1]);
      LessIrreflexive(a[0]);
    }
    assert forall k :: k in a <==> k == a[0] || k in a[1..] by {
      assert a == [a[0]] + a[1..];
    }
  }

  /** The object that a `config.get(name, {})` section holds, when it is one. */
  function Section(config: Object, name: string): Json {
    Get(config, name, JObj(map[]))
  }

  /** A section `summarize_config` can walk: an object whose entries are all
      objects. Anything else raises AttributeError (`.keys()` or `.get()` on a
      value that is not a dict). */
  predicate Walkable(section: Json) {
    section.JObj? && forall k :: k in section.fields ==> section.fields[k].JObj?
  }

  /** One role line: `- {role}: {on|off} (provider: {provider})[ - {desc}]`,
      with `enabled` defaulting to true and `provider` to `claude`. */
  function RoleLine(role: string, cfg: Object): string {
    var enabled := if PyTruthy(Get(cfg, "enabled", JBool(true))) then "on" else "off";
    var provider := Get(cfg, "provider", JStr("claude"));
    var desc := Get(cfg, "description", JStr(""));
    var suffix := if PyTruthy(desc) then " - " + PyStr(desc) else "";
    "- " + role + ": " + enabled + " (provider: " + PyStr(provider) + ")" + suffix
  }

  /** One provider line: `- {name} ({kind})[ (model=…, command=…)]`, with `kind`
      defaulting to `custom` and each detail shown only when truthy. */
  function ProviderLine(name: string, provider: Object): string {
    var kind := Get(provider, "kind", JStr("custom"));
    var model := Get(provider, "model", JNull);
    var command := Get(provider, "command", JNull);
    var extra :=
      (if PyTruthy(model) then ["model=" + PyStr(model)] else [])
      + (if PyTruthy(command) then ["command=" + PyStr(command)] else []);
    var details := if extra != [] then " (" + Join(", ", extra) + ")" else "";
    "- " + name + " (" + PyStr(kind) + ")" + details
  }

  /** A role or provider with none of the optional fields is shown with the
      defaults `on`, `claude` and `custom`. */
  lemma LineDefaults(name: string)
    ensures RoleLine(name, map[]) == "- " + name + ": on (provider: claude)"
    ensures ProviderLine(name, map[]) == "- " + name + " (custom)"
  {
  }

  /** The parts of the rendering: the role and provider names in the order
      shown, and the lines joined into the summary. */
  datatype Rendering = Rendering(roleNames: seq<string>, providerNames: seq<string>, lines: seq<string>)

  /** `lines` shows the entries of `section`, one line each, in the order
      `names`, which is `sorted(section.keys())`. */
  ghost predicate ShowsSection(line: (string, Object) -> string, section: Json, names: seq<string>, lines: seq<string>)
    requires Walkable(section)
  {
    && IsSortedOrder(names, section.fields.Keys)
    && |lines| == |names|
    && forall i :: 0 <= i < |names| ==> lines[i] == line(names[i], section.fields[names[i]].fields)
  }

  /** A loop over the sorted keys has seen every entry of the section. */
  lemma EveryEntryVisited(entries: map<string, Json>, names: seq<string>)
    requires IsSortedOrder(names, entries.Keys)
    requires forall j :: 0 <= j < |names| ==> entries[names[j]].JObj?
    ensures Walkable(JObj(entries))
  {
    forall k | k in entries ensures entries[k].JObj? {
      assert k in names;
      var j :| 0 <= j < |names| && names[j] == k;
    }
  }

  /** One loop of `summarize_config`: a line per entry of the section, in
      sorted key order, written by `line` (`RoleLine` or `ProviderLine`);
      `None` when the section cannot be walked. */
  method RenderSection(line: (string, Object) -> string, section: Json) returns (rendered: Option<(seq<string>, seq<string>)>)
    ensures rendered.Some? <==> Walkable(section)
    ensures rendered.Some? ==> ShowsSection(line, section, rendered.value.0, rendered.value.1)
  {
    if !section.JObj? {
      return None;
    }
    var entries := section.fields;
    var names := SortedKeys(entries.Keys);
    var lines := [];
    for i := 0 to |names|
      invariant |lines| == i
      invariant forall j :: 0 <= j < i ==> entries[names[j]].JObj?
      invariant forall j :: 0 <= j < i ==> lines[j] == line(names[j], entries[names[j]].fields)
    {
      var entry := entries[names[i]];
      if !entry.JObj? {
        assert !Walkable(section) by { assert names[i] in entries; }
        return None;
      }
      lines := lines + [line(names[i], entry.fields)];
    }
    EveryEntryVisited(entries, names);
    rendered := Some((names, lines));
  }

  /** Where the two headed sections sit in the lines of a summary. */
  lemma TwoSections(first: string, firstLines: seq<string>, second: string, secondLines: seq<string>)
    ensures var lines := [first] + firstLines + [second] + secondLines;
      && |lines| == 2 + |firstLines| + |secondLines|
      && lines[0] == first && lines[1..1 + |firstLines|] == firstLines
      && lines[1 + |firstLines|] == second && lines[2 + |firstLines|..] == secondLines
  {
    var lines := [first] + firstLines + [second] + secondLines;
    assert lines[1..1 + |firstLines|] == firstLines;
    assert lines[2 + |firstLines|..] == secondLines;
  }

  /** A configuration whose roles and providers `summarize_config` can walk. */
  predicate CanSummarize(config: Object) {
    Walkable(Section(config, "roles")) && Walkable(Section(config, "providers"))
  }

  /** `text` is the summary of `config`, laid out as `rendering` says:
      `"Roles:"`, a line per role, `"Providers:"`, a line per provider, each
      section in sorted key order, joined by newlines. */
  ghost predicate Summarizes(config: Object, rendering: Rendering, text: string)
    requires CanSummarize(config)
  {
    var lines := rendering.lines;
    var roleCount := |rendering.roleNames|;
    && text == Join("\n", lines)
    && |lines| == 2 + roleCount + |rendering.providerNames|
    && lines[0] == "Roles:"
    && ShowsSection(RoleLine, Section(config, "roles"), rendering.roleNames, lines[1..1 + roleCount])
    && lines[1 + roleCount] == "Providers:"
    && ShowsSection(ProviderLine, Section(config, "providers"), rendering.providerNames, lines[2 + roleCount..])
  }

  /** `summarize_config(config)`: the summary, which has 2 + |roles| +
      |providers| lines; AttributeError when either section cannot be
      walked. */
  method SummarizeConfig(config: Object) returns (summary: Result<string>, rendering: Rendering)
    ensures summary.Ok? <==> CanSummarize(config)
    ensures summary.Raised? ==> summary.error == "AttributeError"
    ensures summary.Ok? ==> Summarizes(config, rendering, summary.value)
    ensures summary.Ok? ==>
      |rendering.lines| == 2 + |Section(config, "roles").fields| + |Section(config, "providers").fields|
  {
    rendering := Rendering([], [], []);
    var roles := RenderSection(RoleLine, Section(config, "roles"));
    if roles.None? {
      return Raised("AttributeError"), rendering;
    }
    var providers := RenderSection(ProviderLine, Section(config, "providers"));
    if providers.None? {
      return Raised("AttributeError"), rendering;
    }
    var (roleNames, roleLines) := roles.value;
    var (providerNames, providerLines) := providers.value;
    var lines := ["Roles:"] + roleLines + ["Providers:"] + providerLines;
    TwoSections("Roles:", roleLines, "Providers:", providerLines);
    rendering := Rendering(roleNames, providerNames, lines);
    summary := Ok(Join("\n", lines));
  }

  /** A configuration has one summary: however it is laid out, the text is the
      same. */
  lemma SummaryIsUnique(config: Object, r1: Rendering, text1: string, r2: Rendering, text2: string)
    requires CanSummarize(config)
    requires Summarizes(config, r1, text1) && Summarizes(config, r2, text2)
    ensures text1 == text2
  {
    var n1, n2 := |r1.roleNames|, |r2.roleNames|;
    var lines1, lines2 := r1.lines, r2.lines;
    SameSectionLines(RoleLine, Section(config, "roles"),
                     r1.roleNames, lines1[1..1 + n1], r2.roleNames, lines2[1..1 + n2]);
    SameSectionLines(ProviderLine, Section(config, "providers"),
                     r1.providerNames, lines1[2 + n1..], r2.providerNames, lines2[2 + n2..]);
    SameLayout(lines1, lines2, n1);
  }

  /** A section has one rendering. */
  lemma SameSectionLines(line: (string, Object) -> string, section: Json,
                         names1: seq<string>, lines1: seq<string>, names2: seq<string>, lines2: seq<string>)
    requires Walkable(section)
    requires ShowsSection(line, section, names1, lines1) && ShowsSection(line, section, names2, lines2)
    ensures names1 == names2 && lines1 == lines2
  {
    SortedOrderUnique(names1, names2, section.fields.Keys);
  }

  lemma SameLayout(lines1: seq<string>, lines2: seq<string>, n: nat)
    requires |lines1| == |lines2| && 2 + n <= |lines1|
    requires lines1[0] == lines2[0] && lines1[1 + n] == lines2[1 + n]
    requires lines1[1..1 + n] == lines2[1..1 + n] && lines1[2 + n..] == lines2[2 + n..]
    ensures lines1 == lines2
  {
    forall i | 0 <= i < |lines1| ensures lines1[i] == lines2[i] {
      if 1 <= i < 1 + n {
        assert lines1[i] == lines1[1..1 + n][i - 1];
      } else if 2 + n <= i {
        assert lines1[i] == lines1[2 + n..][i - 2 - n];
      }
    }
  }
}

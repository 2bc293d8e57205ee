/** The routing configuration store of `scripts/ai_lib.py`: the compiled-in
    defaults, the recursive merge of a stored configuration over them, and the
    load/save pair that reads and replaces the one `"aiArchitect"` entry of the
    shared settings document.

    The settings document is the object `_load_json` returned: the parsed file,
    or the empty object when the file is missing or is not valid JSON. */
module ConfigStore {
  import opened JsonValue

  /** The reserved top-level key of the settings document. */
  const ConfigKey := "aiArchitect"

  function RoleDefaults(description: string): Json {
    JObj(map["enabled" := JBool(true), "provider" := JStr("claude"), "description" := JStr(description)])
  }

  /** `DEFAULT_CONFIG`: four roles and three providers, and nothing else (no
      `targets` and no `implicit` entry). */
  const DefaultConfig: Object := map[
    "roles" := JObj(map[
      "planning" := RoleDefaults("Planning and sequencing work"),
      "architect" := RoleDefaults("System design and architecture decisions"),
      "review" := RoleDefaults("Code and design reviews"),
      "qa" := RoleDefaults("Testing strategy and QA feedback")
    ]),
    "providers" := JObj(map[
      "claude" := JObj(map["kind" := JStr("claude"), "notes" := JStr("Built-in Claude Code agent")]),
      "codex" := JObj(map["kind" := JStr("codex"), "model" := JStr("gpt-5.2-codex")]),
      "gemini" := JObj(map["kind" := JStr("gemini"), "model" := JStr("gemini-1.5-pro")])
    ])
  ]

  /** The defaults hold a `roles` and a `providers` section and nothing
      else; every role and every provider is an object. */
  lemma DefaultSections()
    ensures DefaultConfig.Keys == {"roles", "providers"}
    ensures DefaultConfig["roles"].JObj? && DefaultConfig["providers"].JObj?
    ensures DefaultConfig["roles"].fields.Keys == {"planning", "architect", "review", "qa"}
    ensures DefaultConfig["providers"].fields.Keys == {"claude", "codex", "gemini"}
    ensures forall k :: k in DefaultConfig["roles"].fields ==> DefaultConfig["roles"].fields[k].JObj?
    ensures forall k :: k in DefaultConfig["providers"].fields ==> DefaultConfig["providers"].fields[k].JObj?
  {
  }

  /** What the merge stores under a key of the override, given what the merged
      copy held there (`JNull` standing for `merged.get(key)` returning None):
      the recursive merge when both are objects, otherwise the override value. */
  function MergeValue(current: Json, value: Json): Json
    decreases value, 2
  {
    if value.JObj? && current.JObj? then JObj(Merged(current.fields, value.fields)) else value
  }

  /** The result of `_deep_merge(base, override)`. */
  function Merged(base: Object, override: Object): Object
    decreases JObj(override), 1
  {
    map k | k in base.Keys + override.Keys ::
      if k in override then MergeValue(Get(base, k, JNull), override[k]) else base[k]
  }

  /** `_deep_merge`: copy `base`, then visit the keys of `override` one at a
      time, updating the copy in place and recursing where both sides hold an
      object. Dafny maps are values, so `base` is never changed. */
  method DeepMerge(base: Object, override: Object) returns (merged: Object)
    ensures merged == Merged(base, override)
    decreases JObj(override)
  {
    merged := base;
    var pending := override.Keys;
    while pending != {}
      invariant pending <= override.Keys
      invariant merged.Keys == base.Keys + (override.Keys - pending)
      invariant forall k :: k in merged ==>
        merged[k] == if k in override && k !in pending then MergeValue(Get(base, k, JNull), override[k]) else base[k]
      decreases pending
    {
      var key :| key in pending;
      var value := override[key];
      var current := Get(merged, key, JNull);
      if value.JObj? && current.JObj? {
        var nested := DeepMerge(current.fields, value.fields);
        merged := merged[key := JObj(nested)];
      } else {
        merged := merged[key := value];
      }
      pending := pending - {key};
    }
  }

  /** The keys of the merge are those of either side; a key only the base has
      keeps the base value; a key of the override takes the override value
      wholesale unless both values are objects, which are merged recursively. */
  lemma MergedEntries(base: Object, override: Object)
    ensures Merged(base, override).Keys == base.Keys + override.Keys
    ensures forall k :: k in base && k !in override ==> Merged(base, override)[k] == base[k]
    ensures forall k :: k in override && !(override[k].JObj? && k in base && base[k].JObj?) ==>
      Merged(base, override)[k] == override[k]
    ensures forall k :: k in override && override[k].JObj? && k in base && base[k].JObj? ==>
      Merged(base, override)[k] == JObj(Merged(base[k].fields, override[k].fields))
  {
  }

  /** Merging an object with itself gives it back. */
  lemma {:induction false} MergedSelf(m: Object)
    ensures Merged(m, m) == m
    decreases JObj(m), 1
  {
    forall k | k in m
      ensures Merged(m, m)[k] == m[k]
    {
      MergeValueSelf(m[k]);
    }
  }

  lemma {:induction false} MergeValueSelf(v: Json)
    ensures MergeValue(v, v) == v
    decreases v, 2
  {
    if v.JObj? {
      MergedSelf(v.fields);
    }
  }

  /** Merging the same override a second time changes nothing. */
  lemma {:induction false} MergedTwice(base: Object, override: Object)
    ensures Merged(Merged(base, override), override) == Merged(base, override)
    decreases JObj(override), 1
  {
    var once := Merged(base, override);
    forall k | k in override
      ensures Merged(once, override)[k] == once[k]
    {
      MergeValueTwice(Get(base, k, JNull), override[k]);
    }
  }

  lemma {:induction false} MergeValueTwice(current: Json, value: Json)
    ensures MergeValue(MergeValue(current, value), value) == MergeValue(current, value)
    decreases value, 2
  {
    if value.JObj? {
      if current.JObj? {
        MergedTwice(current.fields, value.fields);
      } else {
        MergeValueSelf(value);
      }
    }
  }

  /** Merging the same base under an already merged result changes nothing:
      `_deep_merge(b, _deep_merge(b, o)) == _deep_merge(b, o)`. */
  lemma {:induction false} MergedAbsorbsBase(base: Object, override: Object)
    ensures Merged(base, Merged(base, override)) == Merged(base, override)
    decreases JObj(override), 1
  {
    var once := Merged(base, override);
    forall k | k in once
      ensures Merged(base, once)[k] == once[k]
    {
      if k in override {
        MergeValueAbsorbs(Get(base, k, JNull), override[k]);
      } else {
        MergeValueSelf(base[k]);
      }
    }
  }

  lemma {:induction false} MergeValueAbsorbs(current: Json, value: Json)
    ensures MergeValue(current, MergeValue(current, value)) == MergeValue(current, value)
    decreases value, 2
  {
    if value.JObj? && current.JObj? {
      MergedAbsorbsBase(current.fields, value.fields);
    }
  }

  /** Merging two overrides with no key in common, one after the other, is
      the same as merging them together first. */
  lemma MergedAssociative(a: Object, b: Object, c: Object)
    requires b.Keys !! c.Keys
    ensures Merged(Merged(a, b), c) == Merged(a, Merged(b, c))
  {
    var left, right := Merged(Merged(a, b), c), Merged(a, Merged(b, c));
    forall k | k in left
      ensures k in right && left[k] == right[k]
    {
      if k in c {
        assert Merged(b, c)[k] == c[k];
      } else if k in b {
        assert Merged(b, c)[k] == b[k];
      }
    }
  }

  /** `load_config`: the stored entry merged over the defaults; the defaults
      alone when the entry is missing or is not an object. Either way the
      result carries every default key, `roles` and `providers` among them. */
  function LoadConfig(settings: Object): (config: Object)
    ensures (ConfigKey !in settings || !settings[ConfigKey].JObj?) ==> config == DefaultConfig
    ensures DefaultConfig.Keys <= config.Keys
    ensures "roles" in config && "providers" in config
  {
    var stored := Get(settings, ConfigKey, JObj(map[]));
    if !stored.JObj? then DefaultConfig
    else
      MergedEntries(DefaultConfig, stored.fields);
      assert stored.fields == map[] ==> Merged(DefaultConfig, stored.fields) == DefaultConfig;
      Merged(DefaultConfig, stored.fields)
  }

  /** `save_config`: the settings document with its `"aiArchitect"` entry
      replaced by `config`; every other entry is kept as it was. */
  function SaveConfig(settings: Object, config: Object): (saved: Object)
    ensures ConfigKey in saved && saved[ConfigKey] == JObj(config)
    ensures forall k :: k != ConfigKey ==> (k in saved <==> k in settings)
    ensures forall k :: k != ConfigKey && k in settings ==> saved[k] == settings[k]
  {
    settings[ConfigKey := JObj(config)]
  }

  /** Loading after a save sees the saved configuration merged over the defaults. */
  lemma LoadAfterSave(settings: Object, config: Object)
    ensures LoadConfig(SaveConfig(settings, config)) == Merged(DefaultConfig, config)
  {
  }

  /** Saving what was loaded and loading again gives the same configuration. */
  lemma SaveLoadFixedPoint(settings: Object)
    ensures LoadConfig(SaveConfig(settings, LoadConfig(settings))) == LoadConfig(settings)
  {
    var stored := Get(settings, ConfigKey, JObj(map[]));
    if stored.JObj? {
      MergedAbsorbsBase(DefaultConfig, stored.fields);
    } else {
      MergedSelf(DefaultConfig);
    }
  }
}

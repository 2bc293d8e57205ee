/** `main` of `scripts/ai_config.py`: load the configuration, apply one
    command to it in place, save it back when the command changes settings,
    and print the summary.

    The settings file is an object whose one field is the parsed document;
    `save_config` replaces that field. The category and target of
    `set-target` arrive already checked by argparse against `CATEGORIES` and
    `TARGETS`, whose values are not part of this model. */
module ConfigCommands {
  import opened JsonValue
  import opened PyText
  import opened Routing
  import ConfigStore
  import ConfigSummary
  import ImplicitRouting

  datatype Command =
    | Setup
    | Summary
    | SetTarget(category: string, target: string)
    | SetImplicit(state: string)
    | Unrecognised(name: string)

  /** `config.setdefault("targets", {})[category] = target`, on a copy:
      TypeError when `targets` holds something that is not an object. Only
      the one category of `targets` changes; every other key is kept. */
  function WithTarget(config: Object, category: string, target: string): (updated: Result<Object>)
    ensures updated.Raised? <==> "targets" in config && !config["targets"].JObj?
    ensures updated.Ok? ==>
      var targets := Get(config, "targets", JObj(map[]));
      && updated.value.Keys == config.Keys + {"targets"}
      && (forall k :: k in config && k != "targets" ==> updated.value[k] == config[k])
      && updated.value["targets"].JObj?
      && updated.value["targets"].fields.Keys == targets.fields.Keys + {category}
      && updated.value["targets"].fields[category] == JStr(target)
      && (forall c :: c in targets.fields && c != category ==> updated.value["targets"].fields[c] == targets.fields[c])
  {
    var targets := Get(config, "targets", JObj(map[]));
    if !targets.JObj? then Raised("TypeError")
    else Ok(config["targets" := JObj(targets.fields[category := JStr(target)])])
  }

  /** `config["implicit"] = state == "on"`, on a copy: only `implicit` changes. */
  function WithImplicit(config: Object, state: string): (updated: Object)
    ensures updated.Keys == config.Keys + {"implicit"}
    ensures updated["implicit"] == JBool(state == "on")
    ensures forall k :: k in config && k != "implicit" ==> updated[k] == config[k]
  {
    config["implicit" := JBool(state == "on")]
  }

  /** The settings file under the project root. */
  class SettingsFile {
    var document: Object

    constructor (document: Object)
      ensures this.document == document
    {
      this.document := document;
    }

    /** `save_config(root, config)` */
    method SaveConfig(config: Object)
      modifies this
      ensures document == ConfigStore.SaveConfig(old(document), config)
    {
      document := ConfigStore.SaveConfig(document, config);
    }
  }

  /** The end of one run: the exit code and the printed lines, or the
      exception that escaped after the lines printed before it. */
  datatype Outcome = Exit(code: int, printed: seq<string>) | Aborted(error: string, printed: seq<string>)

  /** Print the summary as the last step of a command that exits with 0. */
  method PrintSummary(config: Object, printed: seq<string>) returns (outcome: Outcome)
    ensures outcome.Exit? <==> ConfigSummary.CanSummarize(config)
    ensures outcome.Exit? ==>
      && outcome.code == 0 && |outcome.printed| == |printed| + 1 && outcome.printed[..|printed|] == printed
      && exists rendering :: ConfigSummary.Summarizes(config, rendering, outcome.printed[|printed|])
    ensures outcome.Aborted? ==> outcome == Aborted("AttributeError", printed)
  {
    var summary, rendering := ConfigSummary.SummarizeConfig(config);
    if summary.Raised? {
      return Aborted(summary.error, printed);
    }
    outcome := Exit(0, printed + [summary.value]);
    assert outcome.printed[|printed|] == summary.value;
  }

  /** The configuration a command prints and saves: `config` after the
      command's update. */
  function Updated(command: Command, config: Object): Result<Object> {
    match command
    case SetTarget(category, target) => WithTarget(config, category, target)
    case SetImplicit(state) => Ok(WithImplicit(config, state))
    case _ => Ok(config)
  }

  /** What a command prints before the summary: only `setup` says where it
      wrote the settings. */
  function Preamble(command: Command, root: string): seq<string> {
    if command.Setup? then ["Initialized settings at " + root + "/.claude/settings.json"] else []
  }

  /** The run of `ai_config.py` for one parsed command. */
  method Execute(command: Command, root: string, file: SettingsFile) returns (outcome: Outcome)
    modifies file
    // Which commands save, and what they save.
    ensures command.Setup? ==>
      file.document == ConfigStore.SaveConfig(old(file.document), ConfigStore.LoadConfig(old(file.document)))
    ensures command.SetTarget? ==>
      var updated := WithTarget(ConfigStore.LoadConfig(old(file.document)), command.category, command.target);
      && (updated.Ok? ==> file.document == ConfigStore.SaveConfig(old(file.document), updated.value))
      && (updated.Raised? ==> file.document == old(file.document) && outcome == Aborted("TypeError", []))
    ensures command.SetImplicit? ==>
      file.document == ConfigStore.SaveConfig(old(file.document),
                                              WithImplicit(ConfigStore.LoadConfig(old(file.document)), command.state))
    ensures command.Summary? || command.Unrecognised? ==> file.document == old(file.document)
    // An unrecognised command exits with 1 and prints nothing.
    ensures command.Unrecognised? ==> outcome == Exit(1, [])
    // A recognised command exits with 0 exactly when its update applies and
    // the result can be summarised; it prints its preamble, then the summary
    // of the updated configuration, or aborts after the preamble.
    ensures !command.Unrecognised? ==>
      var updated := Updated(command, ConfigStore.LoadConfig(old(file.document)));
      var preamble := Preamble(command, root);
      && (outcome.Exit? <==> updated.Ok? && ConfigSummary.CanSummarize(updated.value))
      && (outcome.Exit? ==>
            && outcome.code == 0
            && |outcome.printed| == |preamble| + 1 && outcome.printed[..|preamble|] == preamble
            && exists rendering :: ConfigSummary.Summarizes(updated.value, rendering, outcome.printed[|preamble|]))
      && (outcome.Aborted? ==>
            outcome == Aborted(if updated.Raised? then "TypeError" else "AttributeError", preamble))
  {
    var config := ConfigStore.LoadConfig(file.document);

    if command.Setup? {
      file.SaveConfig(config);
      outcome := PrintSummary(config, ["Initialized settings at " + root + "/.claude/settings.json"]);
      return;
    }

    if command.Summary? {
      outcome := PrintSummary(config, []);
      return;
    }

    if command.SetTarget? {
      var updated := WithTarget(config, command.category, command.target);
      if updated.Raised? {
        return Aborted(updated.error, []);
      }
      config := updated.value;
      file.SaveConfig(config);
      outcome := PrintSummary(config, []);
      return;
    }

    if command.SetImplicit? {
      config := WithImplicit(config, command.state);
      file.SaveConfig(config);
      outcome := PrintSummary(config, []);
      return;
    }

    outcome := Exit(1, []);
  }

  /** After `set-target`, loading the settings again resolves the category to
      the new target. */
  lemma SetTargetTakesEffect(document: Object, category: Category, target: string)
    requires WithTarget(ConfigStore.LoadConfig(document), category.Name(), target).Ok?
    ensures var saved := ConfigStore.SaveConfig(document,
                                                WithTarget(ConfigStore.LoadConfig(document), category.Name(), target).value);
      TargetFor(ConfigStore.LoadConfig(saved), category) == Ok(JStr(target))
  {
    var updated := WithTarget(ConfigStore.LoadConfig(document), category.Name(), target).value;
    ConfigStore.LoadAfterSave(document, updated);
    ConfigStore.MergedEntries(ConfigStore.DefaultConfig, updated);
  }

  /** After `set-target <category> off`, implicit routing of a prompt
      classified in that category never calls a provider. */
  lemma OffTargetIsNeverCalled(document: Object, category: Category, payload: Object,
                               classify: Json -> Option<Category>, runProvider: Call -> ProviderResult)
    requires WithTarget(ConfigStore.LoadConfig(document), category.Name(), "off").Ok?
    requires classify(ImplicitRouting.PromptOf(payload)) == Some(category)
    ensures var saved := ConfigStore.SaveConfig(document,
                                                WithTarget(ConfigStore.LoadConfig(document), category.Name(), "off").value);
      ImplicitRouting.Route(Some(JObj(payload)), classify, saved, runProvider) == ImplicitRouting.Silent
  {
    SetTargetTakesEffect(document, category, "off");
  }

  /** After `set-implicit off`, implicit routing never calls a provider and
      prints nothing, whatever the prompt. */
  lemma ImplicitOffSilencesRouting(document: Object, payload: Object,
                                   classify: Json -> Option<Category>, runProvider: Call -> ProviderResult)
    ensures var saved := ConfigStore.SaveConfig(document, WithImplicit(ConfigStore.LoadConfig(document), "off"));
      ImplicitRouting.Route(Some(JObj(payload)), classify, saved, runProvider) == ImplicitRouting.Silent
  {
    var updated := WithImplicit(ConfigStore.LoadConfig(document), "off");
    ConfigStore.LoadAfterSave(document, updated);
    ConfigStore.MergedEntries(ConfigStore.DefaultConfig, updated);
  }
}

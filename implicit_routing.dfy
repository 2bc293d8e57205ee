/** `main` of `scripts/ai_route.py`: classify a prompt passed through on
    standard input and, when routing applies, run the configured provider and
    print its advice or a fallback notice. It is a chain of early returns and
    is modelled as one function.

    `classify_prompt` is a collaborator whose code is not part of this model;
    it is a parameter. The payload is `None` when standard input is not valid
    JSON. */
module ImplicitRouting {
  import opened JsonValue
  import opened PyText
  import opened Routing
  import ConfigStore

  /** The run that does nothing: no output, no provider call, exit code 0. */
  const Silent := Run([], None, 0)

  /** `payload.get("prompt", "") or ""` */
  function PromptOf(payload: Object): (prompt: Json)
    ensures "prompt" in payload && PyTruthy(payload["prompt"]) ==> prompt == payload["prompt"]
    ensures !("prompt" in payload && PyTruthy(payload["prompt"])) ==> prompt == JStr("")
  {
    var stored := Get(payload, "prompt", JStr(""));
    if PyTruthy(stored) then stored else JStr("")
  }

  /** `config.get("implicit", True)`, as a truth value: a missing key counts as on. */
  predicate ImplicitEnabled(config: Object): (on: bool)
    ensures "implicit" !in config ==> on
    ensures "implicit" in config ==> (on <==> PyTruthy(config["implicit"]))
  {
    PyTruthy(Get(config, "implicit", JBool(true)))
  }

  /** The run of `ai_route.py`. */
  function Route(payload: Option<Json>, classify: Json -> Option<Category>, settings: Object,
                 runProvider: Call -> ProviderResult): (run: Run)
    // Every run that completes exits with 0; a provider call is always in
    // implicit mode, for the classified category, to a non-built-in target.
    ensures run.Run? ==> run.exitCode == 0
    ensures run.Run? && run.call.Some? ==>
      && payload.Some? && payload.value.JObj?
      && var prompt := PromptOf(payload.value.fields);
      && run.call.value.mode == Implicit
      && classify(prompt) == Some(run.call.value.category)
      && run.call.value.userPrompt == prompt
      && !IsBuiltIn(run.call.value.target)
    // ... and only when `implicit` is on in the loaded configuration, to the
    // target configured for that category.
    ensures run.Run? && run.call.Some? ==>
      && ImplicitEnabled(ConfigStore.LoadConfig(settings))
      && TargetFor(ConfigStore.LoadConfig(settings), run.call.value.category) == Ok(run.call.value.target)
    // It crashes exactly on a payload that is not an object, and on a
    // `targets` entry that is not an object once routing applies.
    ensures run.Crashed? <==>
      && payload.Some?
      && (|| !payload.value.JObj?
          || (&& classify(PromptOf(payload.value.fields)).Some?
              && ImplicitEnabled(ConfigStore.LoadConfig(settings))
              && TargetFor(ConfigStore.LoadConfig(settings), classify(PromptOf(payload.value.fields)).value).Raised?))
    // Malformed JSON on standard input: nothing happens.
    ensures payload.None? ==> run == Silent
    // A run that calls no provider prints nothing.
    ensures run.Run? && run.call.None? ==> run.printed == []
  {
    if payload.None? then Silent
    else if !payload.value.JObj? then Crashed("AttributeError")
    else
      var prompt := PromptOf(payload.value.fields);
      var category := classify(prompt);
      if category.None? then Silent
      else
        var config := ConfigStore.LoadConfig(settings);
        if !ImplicitEnabled(config) then Silent
        else
          match TargetFor(config, category.value)
          case Raised(e) => Crashed(e)
          case Ok(target) =>
            if IsBuiltIn(target) then Silent
            else
              var call := Call(target, category.value, prompt, Implicit);
              var result := runProvider(call);
              if result.status != 0 then
                Run(["Provider routing failed; continue with Claude."]
                    + (if result.error != "" then ["Provider error: " + result.error] else []), Some(call), 0)
              else if result.output == "" then
                Run(["Provider routing produced no output; continue with Claude."], Some(call), 0)
              else
                Run(["Provider routing (use as primary guidance):",
                     "Category: " + category.value.Name(),
                     "Provider: " + PyStr(target),
                     result.output], Some(call), 0)
  }

  /** When the classifier finds no category, the settings are never consulted
      and nothing happens, whatever they hold. */
  lemma UnclassifiedIsSilent(payload: Object, classify: Json -> Option<Category>, settings: Object,
                             runProvider: Call -> ProviderResult)
    requires classify(PromptOf(payload)) == None
    ensures Route(Some(JObj(payload)), classify, settings, runProvider) == Silent
  {
  }

  /** With `implicit` off in the loaded configuration, an object payload never
      reaches a provider and nothing is printed. */
  lemma DisabledIsSilent(payload: Object, classify: Json -> Option<Category>, settings: Object,
                         runProvider: Call -> ProviderResult)
    requires !ImplicitEnabled(ConfigStore.LoadConfig(settings))
    ensures Route(Some(JObj(payload)), classify, settings, runProvider) == Silent
  {
  }

  /** A category routed to `claude` or `off` never reaches a provider. */
  lemma BuiltInTargetIsSilent(payload: Object, classify: Json -> Option<Category>, settings: Object,
                              runProvider: Call -> ProviderResult, category: Category)
    requires classify(PromptOf(payload)) == Some(category)
    requires TargetFor(ConfigStore.LoadConfig(settings), category).Ok?
    requires IsBuiltIn(TargetFor(ConfigStore.LoadConfig(settings), category).value)
    ensures Route(Some(JObj(payload)), classify, settings, runProvider) == Silent
  {
  }

  /** The converse of `Route`'s contract: once the prompt is classified,
      `implicit` is on and the configured target is an external provider,
      that provider is called with the prompt. */
  lemma ConfiguredTargetIsCalled(payload: Object, classify: Json -> Option<Category>, settings: Object,
                                 runProvider: Call -> ProviderResult, category: Category, target: Json)
    requires classify(PromptOf(payload)) == Some(category)
    requires ImplicitEnabled(ConfigStore.LoadConfig(settings))
    requires TargetFor(ConfigStore.LoadConfig(settings), category) == Ok(target)
    requires !IsBuiltIn(target)
    ensures var run := Route(Some(JObj(payload)), classify, settings, runProvider);
      run.Run? && run.call == Some(Call(target, category, PromptOf(payload), Implicit))
  {
  }

  /** With no `targets` entry, routing is on by default and a classified
      prompt goes to `codex`. */
  lemma DefaultsRouteToCodex(payload: Object, classify: Json -> Option<Category>, settings: Object,
                             runProvider: Call -> ProviderResult, category: Category)
    requires classify(PromptOf(payload)) == Some(category)
    requires ConfigStore.ConfigKey !in settings
    ensures var run := Route(Some(JObj(payload)), classify, settings, runProvider);
      run.Run? && run.call == Some(Call(JStr("codex"), category, PromptOf(payload), Implicit))
  {
  }

  /** A provider that fails gives the failure notice, followed by its error
      when it reported one. */
  lemma ReportsFailure(payload: Object, classify: Json -> Option<Category>, settings: Object,
                       runProvider: Call -> ProviderResult)
    ensures var run := Route(Some(JObj(payload)), classify, settings, runProvider);
      run.Run? && run.call.Some? && runProvider(run.call.value).status != 0 ==>
        var result := runProvider(run.call.value);
        run.printed == ["Provider routing failed; continue with Claude."]
                       + (if result.error != "" then ["Provider error: " + result.error] else [])
  {
  }

  /** A provider that succeeds without output gives the no-output notice. */
  lemma ReportsNoOutput(payload: Object, classify: Json -> Option<Category>, settings: Object,
                        runProvider: Call -> ProviderResult)
    ensures var run := Route(Some(JObj(payload)), classify, settings, runProvider);
      run.Run? && run.call.Some? && runProvider(run.call.value).status == 0 && runProvider(run.call.value).output == "" ==>
        run.printed == ["Provider routing produced no output; continue with Claude."]
  {
  }

  /** A provider that succeeds with output has it printed after a header
      naming the category and the provider. */
  lemma ReportsAdvice(payload: Object, classify: Json -> Option<Category>, settings: Object,
                      runProvider: Call -> ProviderResult)
    ensures var run := Route(Some(JObj(payload)), classify, settings, runProvider);
      run.Run? && run.call.Some? && runProvider(run.call.value).status == 0 && runProvider(run.call.value).output != "" ==>
        run.printed == ["Provider routing (use as primary guidance):",
                        "Category: " + run.call.value.category.Name(),
                        "Provider: " + PyStr(run.call.value.target),
                        runProvider(run.call.value).output]
  {
  }
}

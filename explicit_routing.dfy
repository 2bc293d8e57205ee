/** `main` of `scripts/ai_exec.py`: run the provider routed for a category the
    caller names, with the fallback notices when it is not used or fails.

    Argument parsing, reading standard input and printing are not modelled:
    the parsed arguments and the text on standard input are inputs, and the
    printed lines are part of the returned `Run`. */
module ExplicitRouting {
  import opened JsonValue
  import opened PyText
  import opened Routing
  import ConfigStore

  /** The parsed command line: `--category`, `--mode` (argparse supplies
      `explicit` when it is absent), `--provider` and `--prompt`. */
  datatype Args = Args(category: Category, mode: Mode, provider: Option<string>, prompt: Option<string>)

  /** `args.provider or config.get("targets", {}).get(args.category, "codex")`:
      a non-empty `--provider` wins and the configuration is then not consulted. */
  function ResolveTarget(args: Args, config: Object): (target: Result<Json>)
    ensures args.provider.Some? && args.provider.value != "" ==> target == Ok(JStr(args.provider.value))
    ensures args.provider.None? || args.provider.value == "" ==> target == TargetFor(config, args.category)
  {
    if args.provider.Some? && args.provider.value != "" then Ok(JStr(args.provider.value))
    else TargetFor(config, args.category)
  }

  function DefaultPrompt(category: Category): string {
    "Provide " + category.Name() + " guidance based on the current project."
  }

  /** The run of `ai_exec.py` for the given arguments, standard input, settings
      document and provider runner. */
  method Execute(args: Args, stdin: string, settings: Object, runProvider: Call -> ProviderResult) returns (run: Run)
    // Target resolution: an exception escapes only from the configured lookup.
    ensures run.Crashed? <==> ResolveTarget(args, ConfigStore.LoadConfig(settings)).Raised?
    // Every run that completes exits with 0.
    ensures run.Run? ==> run.exitCode == 0
    // The provider is called exactly when the target is neither `claude` nor `off`.
    ensures run.Run? ==>
      var target := ResolveTarget(args, ConfigStore.LoadConfig(settings)).value;
      && (run.call.None? <==> IsBuiltIn(target))
      && (run.call.None? ==>
            run.printed == ["Routing target for " + args.category.Name() + " is '" + PyStr(target) + "'. No external provider invoked."])
      && (run.call.Some? ==>
            run.call.value.target == target && run.call.value.category == args.category && run.call.value.mode == args.mode)
    // The user prompt: `--prompt` if non-empty, else stripped standard input if
    // non-empty, else the category's default request.
    ensures run.Run? && run.call.Some? && args.prompt.Some? && args.prompt.value != "" ==>
      run.call.value.userPrompt == JStr(args.prompt.value)
    ensures run.Run? && run.call.Some? && !(args.prompt.Some? && args.prompt.value != "") && Strip(stdin) != "" ==>
      run.call.value.userPrompt == JStr(Strip(stdin))
    ensures run.Run? && run.call.Some? && !(args.prompt.Some? && args.prompt.value != "") && Strip(stdin) == "" ==>
      run.call.value.userPrompt == JStr(DefaultPrompt(args.category))
    // Fallback selection on the provider's result.
    ensures run.Run? && run.call.Some? ==>
      var result := runProvider(run.call.value);
      var target := run.call.value.target;
      && (result.status != 0 ==>
            run.printed == ["Provider invocation failed. Falling back to Claude."]
                           + (if result.error != "" then ["Provider error: " + result.error] else []))
      && (result.status == 0 && result.output == "" ==>
            run.printed == ["Provider produced no output. Falling back to Claude."])
      && (result.status == 0 && result.output != "" ==>
            run.printed == ["Provider output (" + PyStr(target) + ", " + args.category.Name() + "):", result.output])
  {
    var userPrompt := ChoosePrompt(args, stdin);

    var config := ConfigStore.LoadConfig(settings);
    var resolved := ResolveTarget(args, config);
    if resolved.Raised? {
      return Crashed(resolved.error);
    }
    var target := resolved.value;

    if IsBuiltIn(target) {
      return Run(["Routing target for " + args.category.Name() + " is '" + PyStr(target) + "'. No external provider invoked."], None, 0);
    }

    var call := Call(target, args.category, JStr(userPrompt), args.mode);
    var result := runProvider(call);
    var printed := Report(call, result);
    run := Run(printed, Some(call), 0);
  }

  /** The user prompt: `--prompt` if non-empty, else stripped standard input
      if non-empty, else the category's default request. */
  method ChoosePrompt(args: Args, stdin: string) returns (userPrompt: string)
    ensures args.prompt.Some? && args.prompt.value != "" ==> userPrompt == args.prompt.value
    ensures !(args.prompt.Some? && args.prompt.value != "") && Strip(stdin) != "" ==> userPrompt == Strip(stdin)
    ensures !(args.prompt.Some? && args.prompt.value != "") && Strip(stdin) == "" ==> userPrompt == DefaultPrompt(args.category)
  {
    userPrompt := if args.prompt.Some? then args.prompt.value else "";
    if userPrompt == "" {
      userPrompt := Strip(stdin);
    }
    if userPrompt == "" {
      userPrompt := DefaultPrompt(args.category);
    }
  }

  /** The lines printed after the provider ran: a fallback notice with the
      error when it failed, a notice when it printed nothing, else its output
      under a header naming the provider and the category. */
  method Report(call: Call, result: ProviderResult) returns (printed: seq<string>)
    ensures result.status != 0 ==>
      printed == ["Provider invocation failed. Falling back to Claude."]
                 + (if result.error != "" then ["Provider error: " + result.error] else [])
    ensures result.status == 0 && result.output == "" ==>
      printed == ["Provider produced no output. Falling back to Claude."]
    ensures result.status == 0 && result.output != "" ==>
      printed == ["Provider output (" + PyStr(call.target) + ", " + call.category.Name() + "):", result.output]
  {
    if result.status != 0 {
      printed := ["Provider invocation failed. Falling back to Claude."];
      if result.error != "" {
        printed := printed + ["Provider error: " + result.error];
      }
      return;
    }

    if result.output == "" {
      return ["Provider produced no output. Falling back to Claude."];
    }

    printed := ["Provider output (" + PyStr(call.target) + ", " + call.category.Name() + "):", result.output];
  }
}

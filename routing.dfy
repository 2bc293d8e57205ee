/** What the two routing scripts (`scripts/ai_exec.py`, `scripts/ai_route.py`)
    share: categories, modes, the call handed to the provider runner, and the
    target lookup in the loaded configuration.

    `run_provider` and `build_ai_prompt` are collaborators whose code is not
    part of this model: a script receives the runner as a function from the
    call it makes to the `(status, output, error)` triple it gets back, and the
    call records the inputs of `build_ai_prompt` rather than its result. */
module Routing {
  import opened JsonValue

  datatype Category = Planning | Architecture | Review {
    function Name(): string {
      match this
      case Planning => "planning"
      case Architecture => "architecture"
      case Review => "review"
    }
  }

  datatype Mode = Implicit | Explicit

  /** One invocation of `run_provider`: the target provider, the category and
      user prompt from which the provider prompt is built, and the mode. */
  datatype Call = Call(target: Json, category: Category, userPrompt: Json, mode: Mode)

  /** `(status, output, error)` as `run_provider` returns it. */
  datatype ProviderResult = ProviderResult(status: int, output: string, error: string)

  /** What one run of a routing script did: the lines it printed, the provider
      call it made (at most one), and its exit code; or the exception that
      escaped it. */
  datatype Run = Run(printed: seq<string>, call: Option<Call>, exitCode: int) | Crashed(error: string)

  /** `config.get("targets", {}).get(category, "codex")`; AttributeError when
      `targets` is present but is not an object. */
  function TargetFor(config: Object, category: Category): (target: Result<Json>)
    ensures target.Raised? <==> "targets" in config && !config["targets"].JObj?
    // The configured target when there is one, otherwise `codex`.
    ensures target.Ok? && "targets" in config && category.Name() in config["targets"].fields ==>
      target.value == config["targets"].fields[category.Name()]
    ensures target.Ok? && ("targets" !in config || category.Name() !in config["targets"].fields) ==>
      target.value == JStr("codex")
  {
    var targets := Get(config, "targets", JObj(map[]));
    if !targets.JObj? then Raised("AttributeError")
    else Ok(Get(targets.fields, category.Name(), JStr("codex")))
  }

  /** The targets that mean "no external provider": the built-in assistant and
      the disabled sentinel. */
  predicate IsBuiltIn(target: Json) {
    target == JStr("claude") || target == JStr("off")
  }
}

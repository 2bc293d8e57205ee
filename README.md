# agent-dispatcher routing and statusline, in Dafny

This project models the core of the `agent-dispatcher` plugin. The plugin routes
planning, architecture and review requests from Claude Code to an external
provider (Codex, Gemini, …) and keeps its own statusline entry in the project
settings. The model covers five pieces:

- **Configuration store** (`ConfigStore`, `ConfigSummary`, `RoleName`):
  - `DEFAULT_CONFIG`.
  - The recursive `_deep_merge`, as a method that updates a copy key by key and as the function that specifies it.
  - `load_config` / `save_config`, as transforms of the settings document.
  - `summarize_config`: two loops that render the roles and the providers in sorted key order.
  - `validate_role_name`: the kebab-case pattern.
- **Explicit routing** (`ExplicitRouting`): `main` of `ai_exec.py`.
  - The prompt is picked from `--prompt`, then standard input, then a default request.
  - The target is `--provider`, then `targets[category]`, then `codex`.
  - The `claude`/`off` targets short-circuit.
  - Three fallback reports cover the provider's result.
- **Implicit routing** (`ImplicitRouting`): `main` of `ai_route.py`, a guard chain of early returns written as one function.
- **Configuration commands** (`ConfigCommands`): `main` of `ai_config.py` over a settings-file object.
  - `setup`, `summary`, `set-target` and `set-implicit` are modelled, with which of them save and what they save.
- **Statusline toggle** (`StatuslinePatterns`, `StatuslineToggle`): `statusline_toggle.js`.
  - The command it installs.
  - Its regular expressions, as matchers at a position together with JavaScript's `test` and `replace`.
  - `removeOurCommand`, as a loop over the removal patterns followed by the separator clean-up.
  - The enable and disable branches, as methods of a settings-file object.

Shared value types live in `JsonValue` (JSON values, `Option`, `Result` for raised exceptions). The Python and JavaScript text conventions live in `PyText` and `JsText`: truthiness, `str()` / `String()`, `strip()` / `trim()`. The collaborators `classify_prompt`, `run_provider` and `build_ai_prompt` are not defined in the modelled files. The routing functions take them as function-valued parameters.

Each script keeps its own outcome type, because the scripts end differently:
- `Routing.Run` is shared by the two routing scripts. It records the provider call made, and a crash carries no printed lines, since both scripts can raise only before they print.
- `ConfigCommands.Outcome` keeps the lines `ai_config.py` printed before an exception, because `setup` prints before `summarize_config` can raise.
- `StatuslineToggle.Outcome` is the one line the Node script prints before it exits with 0, or what it throws.

The two settings-file classes differ too. `ConfigCommands.SettingsFile` stands for the shared settings document, of which `save_config` rewrites one entry. `StatuslineToggle.SettingsFile` stands for the Node script's own `settings` object, which it writes back whole.

## Model

| member | source | states |
|---|---|---|
| ConfigStore.DeepMerge | scripts/ai_lib.py:80-87 | the in-place loop over the override's keys ends with exactly `Merged(base, override)` |
| ConfigStore.MergedEntries | scripts/ai_lib.py:80-87 | the merged keys are the union of both key sets; a key only in `base` keeps its base value; an override value replaces the base value unless both are objects |
| ConfigStore.MergedSelf | scripts/ai_lib.py:80-87 | merging an object with itself gives it back |
| ConfigStore.MergeValueSelf | scripts/ai_lib.py:83-86 | storing a value over itself gives it back, recursively through nested objects |
| ConfigStore.MergedTwice | scripts/ai_lib.py:80-87 | merging the same override a second time changes nothing |
| ConfigStore.MergeValueTwice | scripts/ai_lib.py:83-86 | the per-key step is idempotent in the override value |
| ConfigStore.MergedAbsorbsBase | scripts/ai_lib.py:80-87 | merging a merge result back over its base gives the merge result |
| ConfigStore.MergeValueAbsorbs | scripts/ai_lib.py:83-86 | the per-key step absorbs the current value |
| ConfigStore.MergedAssociative | scripts/ai_lib.py:80-87 | merging two overrides with disjoint keys one after the other equals merging them together first |
| ConfigStore.DefaultSections | scripts/ai_lib.py:11-48 | `DEFAULT_CONFIG` holds the four roles and the three providers, each an object, and no other key |
| ConfigStore.LoadConfig | scripts/ai_lib.py:90-95 | a missing or non-object `aiArchitect` entry loads exactly the defaults; every load carries every default key, `roles` and `providers` among them |
| ConfigStore.SaveConfig | scripts/ai_lib.py:98-102 | only the `aiArchitect` entry changes; every other key and value of the settings is kept |
| ConfigStore.LoadAfterSave | scripts/ai_lib.py:90-102 | loading after a save yields the saved configuration merged over the defaults |
| ConfigStore.SaveLoadFixedPoint | scripts/ai_lib.py:90-105 | saving what was loaded and loading again yields the same configuration |
| ConfigSummary.LessIrreflexive | scripts/ai_lib.py:112 | Python's string order never puts a string before itself |
| ConfigSummary.LessTransitive | scripts/ai_lib.py:112 | Python's string order is transitive |
| ConfigSummary.LessTotal | scripts/ai_lib.py:112 | any two different strings are ordered one way or the other |
| ConfigSummary.SortedKeys | scripts/ai_lib.py:112 | `sorted(keys)`: each key exactly once, in strictly increasing order |
| ConfigSummary.LineDefaults | scripts/ai_lib.py:113-132 | the line formats `RoleLine` (lines 113-118) and `ProviderLine` (lines 122-132) show an entry without fields as `on`, provider `claude`, and kind `custom` |
| ConfigSummary.RenderSection | scripts/ai_lib.py:112-118 | one line per entry, in sorted key order, each written by the section's line format; no result exactly when some entry is not an object or the section is not one |
| ConfigSummary.SummarizeConfig | scripts/ai_lib.py:108-134 | `Roles:`, the role lines, `Providers:`, the provider lines, joined by newlines; 2 + roles + providers lines; AttributeError exactly when a section cannot be walked |
| RoleName.MatchesFromIsKebabCase | scripts/ai_lib.py:9 | the left-to-right scanner for `^[a-z0-9]+(?:-[a-z0-9]+)*$` accepts exactly the non-empty names of `[a-z0-9-]` with no hyphen at either end and no doubled hyphen |
| RoleName.ValidateRoleName | scripts/ai_lib.py:137-138 | true exactly for a kebab-case name; `None` and the empty name are rejected |
| Routing.TargetFor | scripts/ai_route.py:24 | the target configured for the category when `targets` has one, `codex` when `targets` or the category is missing; AttributeError exactly when `targets` is not an object |
| ExplicitRouting.ResolveTarget | scripts/ai_exec.py:27 | a non-empty `--provider` wins without consulting the configuration; otherwise the configured target lookup |
| ExplicitRouting.ChoosePrompt | scripts/ai_exec.py:19-23 | `--prompt` if non-empty, else stripped standard input if non-empty, else `Provide <category> guidance based on the current project.` |
| ExplicitRouting.Report | scripts/ai_exec.py:36-48 | failure notice plus the error line only when the error is non-empty; the no-output notice; or the output under `Provider output (<target>, <category>):` |
| ExplicitRouting.Execute | scripts/ai_exec.py:17-48 | raises only from the configured target lookup; exit code 0; the provider is called exactly when the target is neither `claude` nor `off`, and is then called with the resolved target, the category, the chosen prompt and `--mode`; otherwise the "No external provider invoked" line names the target; the report follows the provider's result |
| ImplicitRouting.Route | scripts/ai_route.py:8-45 | crashes exactly on a payload that is not an object, and on a `targets` entry that is not an object once a classified prompt meets `implicit` on; otherwise exit code 0; malformed JSON does nothing; a run without a provider call prints nothing; a provider call is made only when `implicit` is on in the loaded configuration, in implicit mode, for the classified category and prompt, to the target configured for that category, which is not `claude`/`off` |
| ImplicitRouting.ConfiguredTargetIsCalled | scripts/ai_route.py:14-29 | conversely, a classified prompt with `implicit` on and an external target configured for its category calls that target with the prompt |
| ImplicitRouting.PromptOf | scripts/ai_route.py:14 | the payload's `prompt`, or the empty string when it is missing or falsy |
| ImplicitRouting.ImplicitEnabled | scripts/ai_route.py:21 | `implicit` is on when it is truthy, and when it is missing |
| ImplicitRouting.UnclassifiedIsSilent | scripts/ai_route.py:14-17 | no category: nothing happens, whatever the settings |
| ImplicitRouting.DisabledIsSilent | scripts/ai_route.py:19-22 | `implicit` falsy in the loaded configuration: nothing happens |
| ImplicitRouting.BuiltInTargetIsSilent | scripts/ai_route.py:24-26 | a `claude` or `off` target: nothing happens |
| ImplicitRouting.DefaultsRouteToCodex | scripts/ai_route.py:20-29 | with no stored configuration, `implicit` defaults to on and the target to `codex` |
| ImplicitRouting.ReportsFailure | scripts/ai_route.py:31-35 | a failed provider gives the "continue with Claude" notice, with the error line only when the error is non-empty |
| ImplicitRouting.ReportsNoOutput | scripts/ai_route.py:37-39 | success without output gives the no-output notice |
| ImplicitRouting.ReportsAdvice | scripts/ai_route.py:41-44 | success with output prints the header, the category, the provider and the output |
| ConfigCommands.WithTarget | scripts/ai_config.py:40 | `targets[category] = target`, creating `targets`; every other key and every other category is kept; TypeError exactly when `targets` is present and not an object |
| ConfigCommands.WithImplicit | scripts/ai_config.py:46 | `implicit` becomes `state == "on"`; every other key is kept |
| ConfigCommands.PrintSummary | scripts/ai_config.py:32-33 | exit code 0 with the summary of `config` appended to the printed lines exactly when its sections can be walked; otherwise AttributeError after the lines already printed |
| ConfigCommands.Execute | scripts/ai_config.py:24-51 | `setup` saves the loaded configuration unchanged; `set-target` / `set-implicit` save the updated configuration; `summary` and an unknown command never save; an unknown command exits with 1 and prints nothing; a known one exits with 0 exactly when its update applies and the result can be summarised, printing `Initialized settings at …` for `setup` and then the summary of the updated configuration; otherwise it raises TypeError (`targets` not an object) or AttributeError after that first line |
| ConfigSummary.SortedOrderUnique | scripts/ai_lib.py:112 | `sorted(keys)` is determined by the keys: two increasing listings of the same set are equal |
| ConfigSummary.SummaryIsUnique | scripts/ai_lib.py:108-134 | a configuration has exactly one summary text, so the summary the commands print is the one `summarize_config` builds |
| ConfigCommands.SetTargetTakesEffect | scripts/ai_config.py:39-41 | after `set-target`, the next load resolves the category to the new target |
| ConfigCommands.OffTargetIsNeverCalled | scripts/ai_config.py:39-41 | after `set-target <category> off`, implicit routing of a prompt in that category does nothing |
| ConfigCommands.ImplicitOffSilencesRouting | scripts/ai_config.py:45-47 | after `set-implicit off`, implicit routing does nothing for any prompt |
| JsText.Trim | scripts/statusline/statusline_toggle.js:58 | `trim()` is the text with a run of whitespace cut from each end, leaving no whitespace at either end; empty exactly when the text is all whitespace |
| PyText.Strip | scripts/ai_exec.py:21 | `strip()` is the text with a run of whitespace cut from each end, leaving no whitespace at either end; empty exactly when the text is all whitespace |
| StatuslinePatterns.NextQuoteAt | scripts/statusline/statusline_toggle.js:40-41 | `[^']*'` stops at the first quote after the start |
| StatuslinePatterns.CommandEnd | scripts/statusline/statusline_toggle.js:40-41 | a match of `markerRegex` / `legacyRegex` at a position ends after it, within the text |
| StatuslinePatterns.MatchAt | scripts/statusline/statusline_toggle.js:47-48 | no removal or clean-up pattern matches the empty text: a match ends after its start and within the text |
| StatuslinePatterns.FirstMatch | scripts/statusline/statusline_toggle.js:53 | the search finds the leftmost position where the pattern matches, and nothing when it matches nowhere |
| StatuslinePatterns.SingleSpacedCommandEnd | scripts/statusline/statusline_toggle.js:40 | wherever a single-spaced `bash -lc '…'` command with the marker comment occurs, the marker pattern matches exactly that command |
| StatuslinePatterns.QuotedScriptIsSingleSpaced | scripts/statusline/statusline_toggle.js:34 | a quote-free script carrying the marker comment, wrapped in `bash -lc '…'`, is such a command |
| StatuslinePatterns.LiteralSubstitution | scripts/statusline/statusline_toggle.js:102 | a replacement string with no `$$`, `$&`, `` $` `` or `$'` pattern is inserted as written |
| StatuslinePatterns.LiteralJoin | scripts/statusline/statusline_toggle.js:26-35 | two such replacement strings joined where no pattern is formed are again one |
| StatuslinePatterns.ReplaceAllByMatchIsIdentity | scripts/statusline/statusline_toggle.js:53 | a global replace cuts the text into the stretches between matches and the matches, in order and without overlap: replacing every match by itself (`$&`) gives the text back |
| StatuslineToggle.BuildOurCommand | scripts/statusline/statusline_toggle.js:26-35 | `bash -lc '…'` around a body that carries the marker comment and holds no quote unless the Node path brings one |
| StatuslineToggle.ScriptSteps | scripts/statusline/statusline_toggle.js:28-32 | the script is its three steps joined by `; ` |
| StatuslineToggle.ScriptHasMarker | scripts/statusline/statusline_toggle.js:31 | the script ends with the marker comment, so it is a body of the marker pattern |
| StatuslineToggle.ScriptHasNoQuote | scripts/statusline/statusline_toggle.js:26-32 | the script holds no single quote when the Node path holds none |
| StatuslineToggle.OurCommandIsMarked | scripts/statusline/statusline_toggle.js:26-35 | `buildOurCommand()` is a single-spaced marked command when the Node path holds no quote |
| StatuslineToggle.OurCommandIsLiteral | scripts/statusline/statusline_toggle.js:26-35 | `buildOurCommand()` is inserted as written by `replace` when the Node path forms no `$` pattern |
| StatuslineToggle.RemoveOurCommand | scripts/statusline/statusline_toggle.js:44-64 | the loop over the two removal patterns followed by the clean-up computes `WithoutOurCommand` |
| StatuslineToggle.RemovingLoneCommandLeavesNothing | scripts/statusline/statusline_toggle.js:44-64 | removing a command that is nothing but a marked command leaves the empty text |
| StatuslineToggle.Cleanup | scripts/statusline/statusline_toggle.js:58-61 | a command that is only whitespace cleans up to the empty text |
| StatuslineToggle.CleanupOfLoneSeparator | scripts/statusline/statusline_toggle.js:58-61 | the clean-up reduces a lone ` ; ` to nothing |
| StatuslineToggle.Enabled | scripts/statusline/statusline_toggle.js:91-121 | enabling raises exactly when a command statusline's non-string command matches one of the two patterns |
| StatuslineToggle.EnabledStatusLine | scripts/statusline/statusline_toggle.js:91-121 | a successful enable changes only `statusLine`, which becomes a command statusline with a string command |
| StatuslineToggle.EnableFromNothing | scripts/statusline/statusline_toggle.js:92-96 | no statusline: `{type: "command", command: ourCommand}` |
| StatuslineToggle.EnableReplaces | scripts/statusline/statusline_toggle.js:100-105 | a marked command has every marked copy replaced by ours; otherwise a legacy command has every legacy copy replaced |
| StatuslineToggle.EnableAppends | scripts/statusline/statusline_toggle.js:106-113 | a command with neither copy gets ` ; ` and ours appended, or ours alone when it is empty |
| StatuslineToggle.EnableWrapsText | scripts/statusline/statusline_toggle.js:114-121 | any other statusline becomes `echo "<value>" ; ours`, or ours alone when the value is empty |
| StatuslineToggle.ReplacingLoneCommandKeepsIt | scripts/statusline/statusline_toggle.js:100-102 | replacing a lone marked command by itself gives it back |
| StatuslineToggle.EnableKeepsOurCommand | scripts/statusline/statusline_toggle.js:100-102 | a statusline that runs exactly our command is left as it is by enabling |
| StatuslineToggle.EnableTwice | scripts/statusline/statusline_toggle.js:92-102 | from no statusline, enabling twice equals enabling once |
| StatuslineToggle.Disabled | scripts/statusline/statusline_toggle.js:66-89 | nothing is written unless a string command matches one of the patterns; then the rest of the command is kept, or the entry is deleted when nothing is left; raises exactly on a matching non-string command; a matching string command is always written; when nothing is written the line is `Statusline was not enabled.` without a truthy statusline command and `Statusline for agent-dispatcher was not enabled.` when the command is not ours |
| StatuslineToggle.DisableRemoves | scripts/statusline/statusline_toggle.js:72-81 | a matching string command loses our command, and the entry goes when nothing else is left |
| StatuslineToggle.DisableLoneCommand | scripts/statusline/statusline_toggle.js:72-81 | a statusline running only a marked command is deleted on disable |
| StatuslineToggle.EnableThenDisable | scripts/statusline/statusline_toggle.js:66-96 | from no statusline, enable then disable leaves the settings without a statusline |
| StatuslineToggle.OurCommandRoundTrips | scripts/statusline/statusline_toggle.js:25-96 | for the command `buildOurCommand()` builds from a safe Node path, enabling twice equals enabling once and enable-then-disable removes the statusline |
| StatuslineToggle.SettingsFile.Toggle | scripts/statusline/statusline_toggle.js:66-124 | `disable` runs the disable branch and anything else enables; the document and the printed line follow `Disabled` / `Enabled` |
| StatuslineToggle.SettingsFile.Disable | scripts/statusline/statusline_toggle.js:66-89 | the in-place disable branch leaves the document and prints the line that `Disabled` describes |
| StatuslineToggle.SettingsFile.Enable | scripts/statusline/statusline_toggle.js:91-124 | the in-place enable branch leaves the document that `Enabled` describes and prints the enabled line |

## Left out

- File and process I/O is not modelled. This covers reading and writing the settings file, directory creation, JSON formatting (indentation, key order, trailing newline), printing and `process.exit`. The settings document is a value. Printed lines are part of a run's outcome.
- Non-object top-level documents are left out. A settings file whose JSON is not an object (a list, a number) is not modelled: the document is always an object.
- Root resolution (`project_root`, `_find_project_root`, `settings_path`) is not modelled. It depends on the environment and the file system; the root is an input, a path written without a trailing slash (for the root `/` itself, `Preamble` would print `//.claude/settings.json` where Python prints `/.claude/settings.json`).
- Argument parsing is not modelled: argparse, `process.argv`, `toLowerCase()` and standard-input reading. Parsed values and the text read are inputs.
- `classify_prompt`, `run_provider`, `build_ai_prompt`, `CATEGORIES` and `TARGETS` are not part of this model. The classifier and the runner are parameters. A provider call records the inputs of `build_ai_prompt` rather than its result. The categories are the three that `ai_exec.py` accepts.
- JSON numbers are integers. Floating-point values are not modelled, nor JavaScript's exponent notation for integers of 1e21 and above. `JSON.parse` in `statusline_toggle.js` reads numbers as doubles, so an integer above 2^53 is rounded there, while `JsText.JsString` prints its exact digits.
- PyText.PyStr: `str()` of a dict prints as `{...}` because a map keeps no insertion order. Strings inside a list are quoted with simplified escapes for control characters.
- The `lastIndex` state of the global regular expressions is not modelled. Each of them is tested once from position 0, and `replace` with a global pattern starts from 0 and resets it, so the state never changes a result here.
- `process.execPath` is an input. The round-trip lemmas assume the Node path holds no single quote and forms no `$` replacement pattern (`SafeNodePath`). Another path would end the quoted script early, or be rewritten by `replace`.
- StatuslineToggle.EnableTwice: proved only from settings without a statusline. From an arbitrary earlier command, a second enable is not always a no-op: an unterminated single quote in the user's command lets the marker pattern match across it.
- StatuslineToggle.EnableThenDisable: proved only from settings without a statusline, for the same reason: disabling from an arbitrary command can cut across a user's unterminated quote.
- StatuslineToggle.OurCommandRoundTrips: proved only from settings without a statusline, since it combines the two lemmas above for the command built from a safe Node path.

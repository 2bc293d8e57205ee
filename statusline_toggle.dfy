/** `scripts/statusline/statusline_toggle.js`: switch this plugin's statusline
    on or off in the project settings.

    Enabling installs a `bash -lc '…'` command tagged with a marker comment.
    It replaces an earlier copy of that command if there is one, appends it
    to a command the user already has, or wraps a text statusline into one.
    Disabling cuts the plugin's command out of the statusline command and
    deletes the statusline when nothing else is left.

    The settings file is an object whose one field is the parsed document.
    The Node executable path (`process.execPath`) and the lower-cased action
    argument are inputs, and a run's printed line is part of its outcome. */
module StatuslineToggle {
  import opened JsonValue
  import opened JsText
  import opened StatuslinePatterns

  const SetPluginDir := "plugin_dir=\"${CLAUDE_PLUGIN_ROOT:-}\""
  const ExitWithoutPluginDir := "if [ -z \"$plugin_dir\" ]; then exit 0; fi"

  /** The last step of the shell script: run the statusline script with Node,
      followed by the marker comment. */
  function RunScript(nodePath: string): string {
    "\"" + nodePath + "\" \"${plugin_dir}" + ScriptPath + "\" # " + Marker
  }

  /** The shell script: the three steps joined by `; `. */
  function Script(nodePath: string): string {
    Join("; ", [SetPluginDir, ExitWithoutPluginDir, RunScript(nodePath)])
  }

  /** `buildOurCommand()`: a login shell that exits quietly when the plugin
      root is unset and otherwise runs the statusline script with Node. */
  function BuildOurCommand(nodePath: string): (command: string)
    ensures |command| >= 11 && command[..10] == "bash -lc '" && command[|command| - 1] == '\''
    // The quoted body carries the marker comment, and no quote that would
    // end it early unless the Node path brings one.
    ensures BodyMatches(command[10..|command| - 1], Marked)
    ensures '\'' !in nodePath ==> '\'' !in command[10..|command| - 1]
  {
    var script := Script(nodePath);
    ScriptHasMarker(nodePath);
    var command := "bash -lc '" + script + "'";
    assert command[10..|command| - 1] == script;
    if '\'' in nodePath then command
    else
      ScriptHasNoQuote(nodePath);
      command
  }

  lemma ScriptSteps(nodePath: string)
    ensures Script(nodePath) == SetPluginDir + "; " + (ExitWithoutPluginDir + "; " + RunScript(nodePath))
  {
    var third := RunScript(nodePath);
    assert Join("; ", [third]) == third;
    assert [ExitWithoutPluginDir, third][1..] == [third];
    assert Join("; ", [ExitWithoutPluginDir, third]) == ExitWithoutPluginDir + "; " + third;
    assert [SetPluginDir, ExitWithoutPluginDir, third][1..] == [ExitWithoutPluginDir, third];
    assert Join("; ", [SetPluginDir, ExitWithoutPluginDir, third])
        == SetPluginDir + "; " + Join("; ", [ExitWithoutPluginDir, third]);
  }

  lemma SetPluginDirFacts()
    ensures '\'' !in SetPluginDir && Literal(SetPluginDir) && SetPluginDir[|SetPluginDir| - 1] == '"'
  {
    assert Literal(SetPluginDir);
  }

  lemma ExitWithoutPluginDirFacts()
    ensures '\'' !in ExitWithoutPluginDir && Literal(ExitWithoutPluginDir)
  {
    assert Literal(ExitWithoutPluginDir);
  }

  /** The script holds no quote when the Node path holds none. */
  lemma {:induction false} ScriptHasNoQuote(nodePath: string)
    requires '\'' !in nodePath
    ensures '\'' !in Script(nodePath)
  {
    ScriptSteps(nodePath);
    SetPluginDirFacts();
    ExitWithoutPluginDirFacts();
    assert '\'' !in "\" \"${plugin_dir}";
    assert '\'' !in ScriptPath;
    assert '\'' !in "\" # " + Marker;
  }

  /** The script ends with the marker comment, so its text is a body of the
      marker pattern. */
  lemma {:induction false} ScriptHasMarker(nodePath: string)
    ensures BodyMatches(Script(nodePath), Marked)
  {
    ScriptSteps(nodePath);
    var pre := SetPluginDir + "; " + (ExitWithoutPluginDir + "; " + ("\"" + nodePath + "\" \"${plugin_dir}" + ScriptPath));
    assert Script(nodePath) == pre + "\" # " + Marker;
    MarkerCommentMatches(pre);
  }

  /** Any text that ends with the marker comment is a body of the marker
      pattern. */
  lemma {:induction false} MarkerCommentMatches(pre: string)
    ensures BodyMatches(pre + "\" # " + Marker, Marked)
  {
    var body := pre + "\" # " + Marker;
    var h := |pre| + 2;
    assert body[h] == '#' && body[h + 1] == ' ' && body[h + 2] == Marker[0] == 'a';
    assert SkipSpaces(body, h + 1) == h + 2;
    assert body[h + 2..h + 2 + |Marker|] == Marker;
  }

  /** A Node path that the command can carry intact: it does not close the
      single-quoted script, and as part of a replacement string it stands for
      itself. */
  predicate SafeNodePath(nodePath: string) {
    '\'' !in nodePath && Literal(nodePath)
  }

  /** Our command is a single-spaced `bash -lc` command whose body carries
      the marker comment. */
  lemma OurCommandIsMarked(nodePath: string)
    requires '\'' !in nodePath
    ensures IsSingleSpacedCommand(BuildOurCommand(nodePath), Marked)
  {
    ScriptHasNoQuote(nodePath);
    ScriptHasMarker(nodePath);
    QuotedScriptIsSingleSpaced(Script(nodePath), Marked);
  }

  /** The last step of the script as a replacement string stands for itself. */
  lemma {:induction false} RunScriptIsLiteral(nodePath: string)
    requires Literal(nodePath)
    ensures Literal(RunScript(nodePath)) && RunScript(nodePath)[0] == '"'
  {
    var plugin := "\" \"${plugin_dir}";
    RunScriptPieces();
    LiteralJoin("\"", nodePath);
    LiteralJoin("\"" + nodePath, plugin);
    LiteralJoin("\"" + nodePath + plugin, ScriptPath);
    LiteralJoin("\"" + nodePath + plugin + ScriptPath, "\" # ");
    LiteralJoin("\"" + nodePath + plugin + ScriptPath + "\" # ", Marker);
  }

  lemma RunScriptPieces()
    ensures Literal("\"") && Literal("\" \"${plugin_dir}") && "\" \"${plugin_dir}"[0] == '"'
    ensures Literal(ScriptPath) && ScriptPath[0] == 's'
    ensures Literal("\" # ") && Literal(Marker) && Marker[0] == 'a'
  {
    assert Literal("\" \"${plugin_dir}");
    NoDollarIsLiteral("\"");
    NoDollarIsLiteral(ScriptPath);
    NoDollarIsLiteral("\" # ");
    NoDollarIsLiteral(Marker);
  }

  /** Our command as a replacement string stands for itself. */
  lemma {:induction false} OurCommandIsLiteral(nodePath: string)
    requires Literal(nodePath)
    ensures Literal(BuildOurCommand(nodePath))
  {
    ScriptSteps(nodePath);
    SetPluginDirFacts();
    ExitWithoutPluginDirFacts();
    RunScriptIsLiteral(nodePath);
    var run := RunScript(nodePath);
    LiteralJoin(ExitWithoutPluginDir, "; ");
    LiteralJoin(ExitWithoutPluginDir + "; ", run);
    LiteralJoin(SetPluginDir, "; ");
    LiteralJoin(SetPluginDir + "; ", ExitWithoutPluginDir + "; " + run);
    var script := Script(nodePath);
    assert Literal(script) && script[|script| - 1] == run[|run| - 1];
    LiteralJoin("bash -lc '", script);
    LiteralJoin("bash -lc '" + script, "'");
  }

  /** The removal patterns, in the order they are applied. */
  const RemovalPatterns := [Surrounded(Marked), Surrounded(Legacy)]

  /** The command after each of `patterns`, in turn, has replaced every one of
      its matches with ` ; `. */
  function StripMatches(command: string, patterns: seq<Pattern>): string
    decreases |patterns|
  {
    if patterns == [] then command
    else ReplaceAll(StripMatches(command, patterns[..|patterns| - 1]), patterns[|patterns| - 1], " ; ")
  }

  /** The clean-up after the removal: trim, drop separators at the start and
      at the end, and fold every run of two or more separators into ` ; `. */
  function Cleanup(command: string): (cleaned: string)
    ensures (forall i :: 0 <= i < |command| ==> IsJsSpace(command[i])) ==> cleaned == ""
  {
    var trimmed := Trim(command);
    var headless := ReplaceFirst(trimmed, LeadingSeparators, "");
    var tailless := ReplaceFirst(headless, TrailingSeparators, "");
    ReplaceAll(tailless, RepeatedSeparators, " ; ")
  }

  /** What `removeOurCommand` makes of a command. */
  function WithoutOurCommand(command: string): string {
    Cleanup(StripMatches(command, RemovalPatterns))
  }

  /** `removeOurCommand(currentCommand)` */
  method RemoveOurCommand(currentCommand: string) returns (newCommand: string)
    ensures newCommand == WithoutOurCommand(currentCommand)
  {
    newCommand := currentCommand;
    for i := 0 to |RemovalPatterns|
      invariant newCommand == StripMatches(currentCommand, RemovalPatterns[..i])
    {
      assert RemovalPatterns[..i + 1][..i] == RemovalPatterns[..i];
      newCommand := ReplaceAll(newCommand, RemovalPatterns[i], " ; ");
    }
    assert RemovalPatterns[..|RemovalPatterns|] == RemovalPatterns;
    newCommand := Trim(newCommand);
    newCommand := ReplaceFirst(newCommand, LeadingSeparators, "");
    newCommand := ReplaceFirst(newCommand, TrailingSeparators, "");
    newCommand := ReplaceAll(newCommand, RepeatedSeparators, " ; ");
  }

  /** A statusline command that is nothing but a marked command disappears
      entirely. */
  lemma {:induction false} RemovingLoneCommandLeavesNothing(command: string)
    requires IsSingleSpacedCommand(command, Marked)
    ensures WithoutOurCommand(command) == ""
  {
    LoneCommandIsRemoved(command);
    assert RemovalPatterns[..1] == [Surrounded(Marked)];
    assert StripMatches(command, RemovalPatterns[..1]) == " ; ";
    LoneSeparatorHasNoCommand();
    CleanupOfLoneSeparator();
  }

  /** The first removal pattern replaces a lone marked command by ` ; `. */
  lemma {:induction false} LoneCommandIsRemoved(command: string)
    requires IsSingleSpacedCommand(command, Marked)
    ensures ReplaceAll(command, Surrounded(Marked), " ; ") == " ; "
  {
    var n := |command|;
    LoneCommandMatches(command);
    assert ReplaceAllFrom(command, n, Surrounded(Marked), " ; ") == [];
    LiteralSubstitution(" ; ", command, 0, n);
  }

  lemma {:induction false} LoneCommandMatches(command: string)
    requires IsSingleSpacedCommand(command, Marked)
    ensures FirstMatch(command, 0, Surrounded(Marked)) == Some(0)
    ensures MatchAt(command, 0, Surrounded(Marked)) == Some(|command|)
  {
    LoneCommandMatchesAtStart(command);
  }

  lemma {:induction false} LoneCommandMatchesAtStart(command: string)
    requires IsSingleSpacedCommand(command, Marked)
    ensures MatchAt(command, 0, Surrounded(Marked)) == Some(|command|)
  {
    var n := |command|;
    assert command[0..n] == command;
    SingleSpacedCommandEnd(command, 0, command, Marked);
    LoneCommandEdges(command);
    assert SkipSpaces(command, 0 + SeparatorLength(command, 0)) == 0;
    assert SkipSpaces(command, n) + SeparatorLength(command, SkipSpaces(command, n)) == n;
  }

  lemma {:induction false} LoneCommandEdges(command: string)
    requires IsSingleSpacedCommand(command, Marked)
    ensures SkipSpaces(command, 0) == 0 && SeparatorLength(command, 0) == 0
    ensures SkipSpaces(command, |command|) == |command| && SeparatorLength(command, |command|) == 0
  {
    assert command[0] == command[..4][0] == 'b';
  }

  lemma LoneSeparatorHasNoCommand()
    ensures ReplaceAll(" ; ", Surrounded(Legacy), " ; ") == " ; "
  {
    assert forall k :: 0 <= k <= 3 ==> MatchAt(" ; ", k, Surrounded(Legacy)).None?;
  }

  lemma CleanupOfLoneSeparator()
    ensures Cleanup(" ; ") == ""
  {
    LoneSeparatorTrimmed();
    LoneSeparatorDropped();
    NothingLeftToClean();
  }

  lemma LoneSeparatorTrimmed()
    ensures Trim(" ; ") == ";"
  {
    assert TrimStart(" ; ") == "; " by {
      assert " ; "[1..] == "; ";
    }
    assert TrimEnd("; ") == ";" by {
      assert "; "[..1] == ";";
    }
  }

  lemma LoneSeparatorDropped()
    ensures ReplaceFirst(";", LeadingSeparators, "") == ""
  {
    assert SkipSpaces(";", 0) == 0;
    assert SkipSeparators(";", 0) == 1;
    assert MatchAt(";", 0, LeadingSeparators) == Some(1);
  }

  lemma NothingLeftToClean()
    ensures ReplaceFirst("", TrailingSeparators, "") == ""
    ensures ReplaceAll("", RepeatedSeparators, " ; ") == ""
  {
    assert MatchAt("", 0, TrailingSeparators) == None;
    assert MatchAt("", 0, RepeatedSeparators) == None;
  }

  /** `settings.statusLine`; an absent entry reads as `null`, which is just as
      falsy as `undefined`. */
  function StatusLine(settings: Object): Json {
    Get(settings, "statusLine", JNull)
  }

  /** A statusline object of type `command`. */
  predicate IsCommandStatusLine(statusLine: Json) {
    statusLine.JObj? && Get(statusLine.fields, "type", JNull) == JStr("command")
  }

  /** The entry enabling writes in place of a missing or non-command statusline. */
  function FreshStatusLine(command: string): Json {
    JObj(map["type" := JStr("command"), "command" := JStr(command)])
  }

  /** The statusline object with its `command` replaced. */
  function WithCommand(statusLine: Json, command: string): Json
    requires statusLine.JObj?
  {
    JObj(statusLine.fields["command" := JStr(command)])
  }

  /** `test` on a value: a non-string is searched as its string conversion. */
  predicate Matches(command: Json, flavor: Flavor) {
    Test(JsString(command), Command(flavor))
  }

  /** `settings.statusLine.command || ""` */
  function CurrentCommand(statusLine: Json): Json
    requires statusLine.JObj?
  {
    var stored := Get(statusLine.fields, "command", JNull);
    if JsTruthy(stored) then stored else JStr("")
  }

  /** The settings after enabling, or the TypeError raised by calling
      `replace` on a non-string command in which a pattern matches. Only
      `statusLine` changes, and it becomes a command statusline. */
  function Enabled(settings: Object, ourCommand: string): (r: Result<Object>)
    ensures r.Raised? <==>
      && IsCommandStatusLine(StatusLine(settings))
      && var current := CurrentCommand(StatusLine(settings));
      && !current.JStr? && (Matches(current, Marked) || Matches(current, Legacy))
  {
    var statusLine := StatusLine(settings);
    if !JsTruthy(statusLine) then
      Ok(settings["statusLine" := FreshStatusLine(ourCommand)])
    else if IsCommandStatusLine(statusLine) then
      var current := CurrentCommand(statusLine);
      if Matches(current, Marked) then
        if current.JStr? then
          Ok(settings["statusLine" := WithCommand(statusLine, ReplaceAll(current.s, Command(Marked), ourCommand))])
        else Raised("TypeError")
      else if Matches(current, Legacy) then
        if current.JStr? then
          Ok(settings["statusLine" := WithCommand(statusLine, ReplaceAll(current.s, Command(Legacy), ourCommand))])
        else Raised("TypeError")
      else
        var command := if JsTruthy(current) then JsString(current) + " ; " + ourCommand else ourCommand;
        Ok(settings["statusLine" := WithCommand(statusLine, command)])
    else
      var value := if statusLine.JObj? then Get(statusLine.fields, "value", JNull) else JNull;
      var existing := if JsTruthy(value) then value else JStr("");
      var command := if JsTruthy(existing) then "echo \"" + JsString(existing) + "\" ; " + ourCommand else ourCommand;
      Ok(settings["statusLine" := FreshStatusLine(command)])
  }

  /** Enabling changes only the statusline, and leaves a command statusline
      with a string command. */
  lemma EnabledStatusLine(settings: Object, ourCommand: string)
    requires Enabled(settings, ourCommand).Ok?
    ensures var after := Enabled(settings, ourCommand).value;
      && "statusLine" in after
      && after == settings["statusLine" := after["statusLine"]]
      && IsCommandStatusLine(after["statusLine"])
      && "command" in after["statusLine"].fields
      && after["statusLine"].fields["command"].JStr?
  {
  }

  /** A command statusline with no copy of ours gets ours appended after
      ` ; `; an empty one gets ours alone. */
  lemma EnableAppends(settings: Object, ourCommand: string)
    requires IsCommandStatusLine(StatusLine(settings))
    requires !Matches(CurrentCommand(StatusLine(settings)), Marked)
    requires !Matches(CurrentCommand(StatusLine(settings)), Legacy)
    ensures var current := CurrentCommand(StatusLine(settings));
      var command := if JsTruthy(current) then JsString(current) + " ; " + ourCommand else ourCommand;
      Enabled(settings, ourCommand) == Ok(settings["statusLine" := WithCommand(StatusLine(settings), command)])
  {
  }

  /** A command statusline whose string command holds a copy of ours (or,
      failing that, of the legacy command) has every copy replaced by ours. */
  lemma EnableReplaces(settings: Object, ourCommand: string, flavor: Flavor)
    requires IsCommandStatusLine(StatusLine(settings))
    requires CurrentCommand(StatusLine(settings)).JStr?
    requires Matches(CurrentCommand(StatusLine(settings)), flavor)
    requires flavor == Legacy ==> !Matches(CurrentCommand(StatusLine(settings)), Marked)
    ensures var statusLine := StatusLine(settings);
      Enabled(settings, ourCommand)
        == Ok(settings["statusLine" := WithCommand(statusLine, ReplaceAll(CurrentCommand(statusLine).s, Command(flavor), ourCommand))])
  {
  }

  /** A missing or falsy statusline becomes our command alone. */
  lemma EnableFromNothing(settings: Object, ourCommand: string)
    requires !JsTruthy(StatusLine(settings))
    ensures Enabled(settings, ourCommand) == Ok(settings["statusLine" := FreshStatusLine(ourCommand)])
  {
  }

  /** A statusline that is not a command is wrapped: its truthy `value` is
      echoed before our command. */
  lemma EnableWrapsText(settings: Object, ourCommand: string)
    requires JsTruthy(StatusLine(settings)) && !IsCommandStatusLine(StatusLine(settings))
    ensures var statusLine := StatusLine(settings);
      var value := if statusLine.JObj? then Get(statusLine.fields, "value", JNull) else JNull;
      Enabled(settings, ourCommand)
        == Ok(settings["statusLine" := FreshStatusLine(if JsTruthy(value) then "echo \"" + JsString(value) + "\" ; " + ourCommand else ourCommand)])
  {
  }

  /** Replacing a marked command by itself, where it is the whole text,
      changes nothing. */
  lemma {:induction false} ReplacingLoneCommandKeepsIt(command: string)
    requires IsSingleSpacedCommand(command, Marked) && Literal(command)
    ensures Test(command, Command(Marked))
    ensures ReplaceAll(command, Command(Marked), command) == command
  {
    var n := |command|;
    assert command[0..n] == command;
    SingleSpacedCommandEnd(command, 0, command, Marked);
    assert FirstMatch(command, 0, Command(Marked)) == Some(0);
    assert ReplaceAllFrom(command, n, Command(Marked), command) == [];
    LiteralSubstitution(command, command, 0, n);
    assert command[0..0] + command + [] == command;
  }

  /** A command statusline whose command is exactly our command, which the
      marker pattern finds and which replacing by itself gives back, is left
      as it is by enabling. */
  lemma EnableKeepsOurCommand(settings: Object, ourCommand: string)
    requires ourCommand != "" && Test(ourCommand, Command(Marked))
    requires ReplaceAll(ourCommand, Command(Marked), ourCommand) == ourCommand
    requires IsCommandStatusLine(StatusLine(settings))
    requires Get(StatusLine(settings).fields, "command", JNull) == JStr(ourCommand)
    ensures Enabled(settings, ourCommand) == Ok(settings)
  {
    var statusLine := StatusLine(settings);
    assert CurrentCommand(statusLine) == JStr(ourCommand);
    EnableReplaces(settings, ourCommand, Marked);
    assert WithCommand(statusLine, ourCommand) == statusLine by {
      assert statusLine.fields["command" := JStr(ourCommand)] == statusLine.fields;
    }
    assert settings["statusLine" := statusLine] == settings;
  }

  /** Enabling twice in a project without a statusline is the same as
      enabling once. */
  lemma EnableTwice(settings: Object, ourCommand: string)
    requires IsSingleSpacedCommand(ourCommand, Marked) && Literal(ourCommand)
    requires !JsTruthy(StatusLine(settings))
    ensures Enabled(settings, ourCommand).Ok?
    ensures Enabled(Enabled(settings, ourCommand).value, ourCommand) == Enabled(settings, ourCommand)
  {
    var once := settings["statusLine" := FreshStatusLine(ourCommand)];
    assert StatusLine(once) == FreshStatusLine(ourCommand);
    ReplacingLoneCommandKeepsIt(ourCommand);
    EnableKeepsOurCommand(once, ourCommand);
  }

  /** Disabling right after enabling in a project without a statusline
      removes the statusline entry and reports it. */
  lemma EnableThenDisable(settings: Object, ourCommand: string)
    requires IsSingleSpacedCommand(ourCommand, Marked) && Literal(ourCommand)
    requires !JsTruthy(StatusLine(settings))
    ensures Enabled(settings, ourCommand).Ok?
    ensures Disabled(Enabled(settings, ourCommand).value)
              == Ok(Change(settings - {"statusLine"}, true, DisabledMessage))
  {
    var once := settings["statusLine" := FreshStatusLine(ourCommand)];
    EnableFromNothing(settings, ourCommand);
    assert StatusLine(once) == FreshStatusLine(ourCommand);
    DisableLoneCommand(once, ourCommand);
    assert once - {"statusLine"} == settings - {"statusLine"};
  }

  /** A statusline that runs nothing but a marked command is removed by
      disabling. */
  lemma DisableLoneCommand(settings: Object, command: string)
    requires IsSingleSpacedCommand(command, Marked) && Literal(command)
    requires StatusLine(settings).JObj? && Get(StatusLine(settings).fields, "command", JNull) == JStr(command)
    ensures Disabled(settings) == Ok(Change(settings - {"statusLine"}, true, DisabledMessage))
  {
    ReplacingLoneCommandKeepsIt(command);
    RemovingLoneCommandLeavesNothing(command);
    DisableRemoves(settings);
  }

  /** A statusline whose string command holds our command or the legacy one
      loses it on disabling; when nothing else is left, the whole entry goes. */
  lemma DisableRemoves(settings: Object)
    requires StatusLine(settings).JObj?
    requires var current := Get(StatusLine(settings).fields, "command", JNull);
      current.JStr? && current.s != "" && (Matches(current, Marked) || Matches(current, Legacy))
    ensures var statusLine := StatusLine(settings);
      var rest := WithoutOurCommand(statusLine.fields["command"].s);
      Disabled(settings) == Ok(Change(if rest == "" then settings - {"statusLine"}
                                      else settings["statusLine" := WithCommand(statusLine, rest)],
                                      true, DisabledMessage))
  {
    var statusLine := StatusLine(settings);
    assert JsTruthy(statusLine) && JsTruthy(Get(statusLine.fields, "command", JNull));
  }

  /** The round trips hold for the command this script builds, whatever the
      Node path, as long as that path has no single quote and no `$`
      replacement pattern. */
  lemma OurCommandRoundTrips(settings: Object, nodePath: string)
    requires SafeNodePath(nodePath)
    requires !JsTruthy(StatusLine(settings))
    ensures var ours := BuildOurCommand(nodePath);
      && Enabled(settings, ours).Ok?
      && Enabled(Enabled(settings, ours).value, ours) == Enabled(settings, ours)
      && Disabled(Enabled(settings, ours).value) == Ok(Change(settings - {"statusLine"}, true, DisabledMessage))
  {
    var ours := BuildOurCommand(nodePath);
    OurCommandIsMarked(nodePath);
    OurCommandIsLiteral(nodePath);
    EnableTwice(settings, ours);
    EnableThenDisable(settings, ours);
  }

  /** What disabling did: the settings after it, whether they were written,
      and the line printed. */
  datatype Change = Change(settings: Object, written: bool, message: string)

  const DisabledMessage := "Statusline for " + PluginName + " disabled for this project.\n"
  const NotOursMessage := "Statusline for " + PluginName + " was not enabled.\n"
  const NoStatusLineMessage := "Statusline was not enabled.\n"
  const EnabledMessage := "Statusline for " + PluginName + " enabled for this project.\n"

  /** `settings.statusLine && settings.statusLine.command` */
  predicate HasCommand(settings: Object) {
    var statusLine := StatusLine(settings);
    JsTruthy(statusLine) && statusLine.JObj? && JsTruthy(Get(statusLine.fields, "command", JNull))
  }

  /** `hasMarker || hasLegacy` for the statusline's command. */
  predicate CommandIsOurs(settings: Object)
    requires HasCommand(settings)
  {
    var current := StatusLine(settings).fields["command"];
    Matches(current, Marked) || Matches(current, Legacy)
  }

  /** The outcome of disabling, or the TypeError raised by calling `replace`
      on a non-string command in which a pattern matches. */
  function Disabled(settings: Object): (r: Result<Change>)
    // It raises exactly on a command of ours that is not a string.
    ensures r.Raised? <==>
      HasCommand(settings) && CommandIsOurs(settings) && !StatusLine(settings).fields["command"].JStr?
    // A command of ours that is a string is always written back.
    ensures r.Ok? && HasCommand(settings) && CommandIsOurs(settings) ==> r.value.written
    // When nothing is written, the line says why.
    ensures r.Ok? && !r.value.written ==>
      r.value.message == (if HasCommand(settings) then NotOursMessage else NoStatusLineMessage)
    // Nothing is written unless one of the two patterns finds our command.
    ensures r.Ok? && !r.value.written ==> r.value.settings == settings
    ensures r.Ok? && r.value.written ==>
      var statusLine := StatusLine(settings);
      && statusLine.JObj? && "command" in statusLine.fields
      && var current := statusLine.fields["command"];
      && current.JStr? && (Matches(current, Marked) || Matches(current, Legacy))
      && var rest := WithoutOurCommand(current.s);
      && r.value.message == DisabledMessage
      && (rest == "" ==> r.value.settings == settings - {"statusLine"})
      && (rest != "" ==> r.value.settings == settings["statusLine" := WithCommand(statusLine, rest)])
    ensures r.Raised? ==>
      var statusLine := StatusLine(settings);
      && statusLine.JObj? && "command" in statusLine.fields
      && var current := statusLine.fields["command"];
      && !current.JStr? && (Matches(current, Marked) || Matches(current, Legacy))
  {
    var statusLine := StatusLine(settings);
    if !HasCommand(settings) then
      Ok(Change(settings, false, NoStatusLineMessage))
    else
      var current := statusLine.fields["command"];
      if !CommandIsOurs(settings) then
        Ok(Change(settings, false, NotOursMessage))
      else if !current.JStr? then
        Raised("TypeError")
      else
        var rest := WithoutOurCommand(current.s);
        var updated := if rest == "" then settings - {"statusLine"} else settings["statusLine" := WithCommand(statusLine, rest)];
        Ok(Change(updated, true, DisabledMessage))
  }

  /** After a run: the line printed, or the exception that escaped. */
  datatype Outcome = Printed(message: string) | Threw(error: string)

  /** The project's settings file. */
  class SettingsFile {
    var document: Object

    constructor (document: Object)
      ensures this.document == document
    {
      this.document := document;
    }

    /** One run of the script with the given action and Node path. */
    method Toggle(action: string, nodePath: string) returns (outcome: Outcome)
      modifies this
      ensures action == "disable" ==>
        match Disabled(old(document))
        case Ok(change) => document == change.settings && outcome == Printed(change.message)
        case Raised(e) => document == old(document) && outcome == Threw(e)
      ensures action != "disable" ==>
        match Enabled(old(document), BuildOurCommand(nodePath))
        case Ok(settings) => document == settings && outcome == Printed(EnabledMessage)
        case Raised(e) => document == old(document) && outcome == Threw(e)
    {
      var ourCommand := BuildOurCommand(nodePath);
      if action == "disable" {
        outcome := Disable();
      } else {
        outcome := Enable(ourCommand);
      }
    }

    /** The `disable` branch of the script. */
    method Disable() returns (outcome: Outcome)
      modifies this
      ensures match Disabled(old(document))
        case Ok(change) => document == change.settings && outcome == Printed(change.message)
        case Raised(e) => document == old(document) && outcome == Threw(e)
    {
      var settings := document;
      var statusLine := StatusLine(settings);
      if JsTruthy(statusLine) && statusLine.JObj? && JsTruthy(Get(statusLine.fields, "command", JNull)) {
        var currentCommand := statusLine.fields["command"];
        var hasMarker := Matches(currentCommand, Marked);
        var hasLegacy := Matches(currentCommand, Legacy);
        if hasMarker || hasLegacy {
          if !currentCommand.JStr? {
            return Threw("TypeError");
          }
          var newCommand := RemoveOurCommand(currentCommand.s);
          if newCommand == "" {
            settings := settings - {"statusLine"};
          } else {
            settings := settings["statusLine" := WithCommand(statusLine, newCommand)];
          }
          document := settings;
          return Printed(DisabledMessage);
        }
        return Printed(NotOursMessage);
      }
      return Printed(NoStatusLineMessage);
    }

    /** The enabling branch of the script, installing `ourCommand`. */
    method Enable(ourCommand: string) returns (outcome: Outcome)
      modifies this
      ensures match Enabled(old(document), ourCommand)
        case Ok(settings) => document == settings && outcome == Printed(EnabledMessage)
        case Raised(e) => document == old(document) && outcome == Threw(e)
    {
      var settings := document;
      var statusLine := StatusLine(settings);
      if !JsTruthy(statusLine) {
        settings := settings["statusLine" := FreshStatusLine(ourCommand)];
      } else if IsCommandStatusLine(statusLine) {
        var currentCommand := Get(statusLine.fields, "command", JNull);
        if !JsTruthy(currentCommand) {
          currentCommand := JStr("");
        }
        if Matches(currentCommand, Marked) {
          if !currentCommand.JStr? {
            return Threw("TypeError");
          }
          settings := settings["statusLine" := WithCommand(statusLine, ReplaceAll(currentCommand.s, Command(Marked), ourCommand))];
        } else if Matches(currentCommand, Legacy) {
          if !currentCommand.JStr? {
            return Threw("TypeError");
          }
          settings := settings["statusLine" := WithCommand(statusLine, ReplaceAll(currentCommand.s, Command(Legacy), ourCommand))];
        } else {
          var separator := " ; ";
          var command := if JsTruthy(currentCommand) then JsString(currentCommand) + separator + ourCommand else ourCommand;
          settings := settings["statusLine" := WithCommand(statusLine, command)];
        }
      } else {
        var existingText := if statusLine.JObj? then Get(statusLine.fields, "value", JNull) else JNull;
        if !JsTruthy(existingText) {
          existingText := JStr("");
        }
        var command := if JsTruthy(existingText) then "echo \"" + JsString(existingText) + "\" ; " + ourCommand else ourCommand;
        settings := settings["statusLine" := FreshStatusLine(command)];
      }

      document := settings;
      outcome := Printed(EnabledMessage);
    }
  }
}

/** Properties of the generation pipeline as a whole: when a command runs and
    which, what is left behind for cleanup, when errors are reported, and what
    the command finds in its environment. */
module PipelineProperties {
  import opened Wrappers
  import opened Paths
  import opened CodeGenerator
  import opened Rules
  import opened Diagnostics
  import opened ClassNames
  import opened Pipeline

  /** The rule the pipeline acts on: none when the configuration file is
      missing, does not parse, or has no rule for the input's extension. */
  function SelectedRule(request: Request, w: World, host: Host): Option<Rule> {
    var configPath := ConfigPath(host.projectFileName);
    if configPath !in w.fileSystem then None
    else match host.parseSheet(w.fileSystem[configPath])
      case ParseFailed(_, _) => None
      case Parsed(rules) => FindRule(rules, InputExtension(request.inputFilePath))
  }

  /** The command of a rule whose properties are all readable. */
  function CommandOf(rule: Rule): Option<string> {
    match ReadSettings(rule)
    case Success(settings) => settings.command
    case Failure(_) => None
  }

  /** Whether a request gets as far as starting its command. */
  predicate Runs(request: Request, w: World, host: Host, projectFound: bool, outputType: Result<Option<string>, Exception>) {
    && projectFound
    && SelectedRule(request, w, host).Some?
    && outputType.Success?
    && CommandOf(SelectedRule(request, w, host).value).Some?
  }

  /** The argument line cmd.exe receives for a command. */
  function CommandLine(command: string, tempName: string): string {
    if '\r' in command then "/c " + tempName + ".cmd" else "/c " + command
  }

  /** `Exec` starts exactly one process, with the command line for the command. */
  lemma PrelaunchStartsOne(w: World, command: string, directory: string, tempName: string)
    ensures var (w1, commandLine) := Prelaunch(w, command, directory, tempName);
      && commandLine == CommandLine(command, tempName)
      && w1.launched == w.launched + [commandLine]
      && w1.environment == w.environment
  {
  }

  /** `Execute` leaves the world as the process left it, and produces the
      tool's text, the tool-failure message or an exception report. */
  lemma ExecuteEndsAfterLaunch(command: string, settings: Settings, directory: string, w: World, host: Host)
    ensures var (w1, commandLine) := Prelaunch(w, command, directory, host.tempFileName);
      var t := Execute(command, settings, directory, w, host);
      && t.world == AfterLaunch(w1, host.run(commandLine, w1.environment, w1.fileSystem))
      && (t.output.Code? || t.output.message.ToolFailed? || t.output.message.ExceptionReport?)
  {
    var (w1, commandLine) := Prelaunch(w, command, directory, host.tempFileName);
    var launch := host.run(commandLine, w1.environment, w1.fileSystem);
    var w2 := AfterLaunch(w1, launch);
    var t := Execute(command, settings, directory, w, host);
    match launch
    case LaunchFailed(_) =>
    case Exited(exitCode, out, err, _) =>
      if exitCode != 0 {
        var errorText := Load(settings.errorsIn, Text.Trim(out), Text.Trim(err), w2, host.expand);
        if HasPattern(settings.errorRx) {
          match host.matches(settings.errorRx.value, errorText)
          case None =>
          case Some(ms) =>
        }
      }
  }

  /** Whatever happens to the process, `Execute` records one launch and changes
      neither the environment nor (beyond the script) the list of temporary files. */
  lemma ExecuteRecordsOneLaunch(command: string, settings: Settings, directory: string, w: World, host: Host)
    ensures var t := Execute(command, settings, directory, w, host);
      && t.world.launched == w.launched + [CommandLine(command, host.tempFileName)]
      && t.world.environment == w.environment
      && t.world.tmpFiles == w.tmpFiles + (if '\r' in command then [host.tempFileName, host.tempFileName + ".cmd"] else [])
  {
    PrelaunchStartsOne(w, command, directory, host.tempFileName);
    ExecuteEndsAfterLaunch(command, settings, directory, w, host);
  }

  /** At most one command runs per request, and it runs exactly when a rule was
      found, the output extension could be computed and the rule has a command.
      In particular a missing configuration file, a file that does not parse or a
      missing rule starts nothing and changes nothing. */
  lemma AtMostOneCommand(request: Request, w: World, host: Host, projectFound: bool, outputType: Result<Option<string>, Exception>)
    ensures var t := Generation(request, w, host, projectFound, outputType);
      && (Runs(request, w, host, projectFound, outputType) ==>
            t.world.launched
              == w.launched + [CommandLine(CommandOf(SelectedRule(request, w, host).value).value, host.tempFileName)])
      && (!Runs(request, w, host, projectFound, outputType) ==> t.world.launched == w.launched)
      && (SelectedRule(request, w, host).None? ==> t.world == w && t.diagnostics == [])
  {
    var t := Generation(request, w, host, projectFound, outputType);
    if Runs(request, w, host, projectFound, outputType) {
      var rule := SelectedRule(request, w, host).value;
      var settings := ReadSettings(rule).value;
      var className := Sanitize(GetFileNameWithoutExtension(request.inputFilePath));
      var env2 := Published(w.environment, host.projectFileName, request.inputFilePath, outputType.value,
                            request.fileNameSpace, className);
      var w1 := w.(environment := env2);
      assert t == Execute(settings.command.value, settings, GetDirectoryName(request.inputFilePath), w1, host);
      ExecuteRecordsOneLaunch(settings.command.value, settings, GetDirectoryName(request.inputFilePath), w1, host);
    }
  }

  /** Temporary files are only added for a command containing a carriage return, and then
      exactly the two names of `WriteTempScript`. */
  lemma TemporaryFilesOnlyForScripts(request: Request, w: World, host: Host, projectFound: bool, outputType: Result<Option<string>, Exception>)
    ensures var t := Generation(request, w, host, projectFound, outputType);
      if Runs(request, w, host, projectFound, outputType)
         && '\r' in CommandOf(SelectedRule(request, w, host).value).value
      then t.world.tmpFiles == w.tmpFiles + [host.tempFileName, host.tempFileName + ".cmd"]
      else t.world.tmpFiles == w.tmpFiles
  {
    if Runs(request, w, host, projectFound, outputType) {
      var rule := SelectedRule(request, w, host).value;
      var settings := ReadSettings(rule).value;
      var className := Sanitize(GetFileNameWithoutExtension(request.inputFilePath));
      var env2 := Published(w.environment, host.projectFileName, request.inputFilePath, outputType.value,
                            request.fileNameSpace, className);
      var w1 := w.(environment := env2);
      ExecuteRecordsOneLaunch(settings.command.value, settings, GetDirectoryName(request.inputFilePath), w1, host);
    }
  }

  /** The command finds the context in its environment: the environment it runs
      with is the one it started from with the five AG_ variables published. */
  lemma ContextPublished(request: Request, w: World, host: Host, projectFound: bool, outputType: Result<Option<string>, Exception>)
    requires Runs(request, w, host, projectFound, outputType)
    ensures Generation(request, w, host, projectFound, outputType).world.environment
      == Published(w.environment, host.projectFileName, request.inputFilePath, outputType.value,
                   request.fileNameSpace, Sanitize(GetFileNameWithoutExtension(request.inputFilePath)))
  {
    var rule := SelectedRule(request, w, host).value;
    var settings := ReadSettings(rule).value;
    var className := Sanitize(GetFileNameWithoutExtension(request.inputFilePath));
    var env2 := Published(w.environment, host.projectFileName, request.inputFilePath, outputType.value,
                          request.fileNameSpace, className);
    var w1 := w.(environment := env2);
    assert Generation(request, w, host, projectFound, outputType)
      == Execute(settings.command.value, settings, GetDirectoryName(request.inputFilePath), w1, host);
    ExecuteRecordsOneLaunch(settings.command.value, settings, GetDirectoryName(request.inputFilePath), w1, host);
  }

  /** A missing configuration file, one that does not parse and a missing rule
      are reported by their own messages, the first and the last naming the
      configuration path (and the extension); nothing runs and nothing changes. */
  lemma EarlyMessages(request: Request, w: World, host: Host, outputType: Result<Option<string>, Exception>)
    ensures var configPath, ext := ConfigPath(host.projectFileName), InputExtension(request.inputFilePath);
      var t := Generation(request, w, host, true, outputType);
      && (configPath !in w.fileSystem ==>
            && t.output == Comment(ConfigMissing(configPath))
            && IsInfix(configPath, MessageText(t.output.message))
            && t.world == w && t.diagnostics == [])
      && (configPath in w.fileSystem && host.parseSheet(w.fileSystem[configPath]).ParseFailed? ==>
            var sheet := host.parseSheet(w.fileSystem[configPath]);
            && t.output == Comment(ParseProblem(configPath, sheet.message, sheet.token))
            && t.world == w && t.diagnostics == [])
      && (configPath in w.fileSystem && host.parseSheet(w.fileSystem[configPath]).Parsed?
          && SelectedRule(request, w, host).None? ==>
            && t.output == Comment(RuleMissing(configPath, ext))
            && IsInfix(configPath, MessageText(t.output.message)) && IsInfix(ext, MessageText(t.output.message))
            && t.world == w && t.diagnostics == [])
  {
    var configPath, ext := ConfigPath(host.projectFileName), InputExtension(request.inputFilePath);
    ConfigMissingNamesPath(configPath);
    RuleMissingNamesExtensionAndPath(configPath, ext);
  }

  /** Once a rule is found, the two ways to stop before the command: when the
      output extension cannot be computed, its exception is reported with only
      the first two AG_ variables set; when a property of the rule cannot be
      read, the first such property is reported with all five set. Nothing runs
      and nothing is reported in either case. */
  lemma LateMessages(request: Request, w: World, host: Host, outputType: Result<Option<string>, Exception>)
    ensures var t := Generation(request, w, host, true, outputType);
      var found := SelectedRule(request, w, host);
      && (found.Some? && outputType.Failure? ==>
            && t.output == Comment(ExceptionReport(outputType.error))
            && t.world == w.(environment := SetVariable(SetVariable(w.environment, ProjectFileNameVariable, Some(host.projectFileName)),
                                                        InputFileNameVariable, Some(request.inputFilePath)))
            && t.diagnostics == [])
      && (found.Some? && outputType.Success? && ReadSettings(found.value).Failure? ==>
            && t.output == Comment(PropertyProblem(ConfigPath(host.projectFileName), ReadSettings(found.value).error.message,
                                                   ReadSettings(found.value).error.property))
            && t.world == w.(environment := Published(w.environment, host.projectFileName, request.inputFilePath,
                                                      outputType.value, request.fileNameSpace,
                                                      Sanitize(GetFileNameWithoutExtension(request.inputFilePath))))
            && t.diagnostics == [])
  {
  }

  /** A request that runs its command ends as `Execute` of that command, in the
      world with the context published; any other request reports nothing and
      yields no code. With `DiagnosticsOnlyOnFailure`, `DiagnosticsOnFailure` and
      `CodeOnlyOnSuccess` this gives the routing of the whole request. */
  lemma RoutedThroughExecute(request: Request, w: World, host: Host, projectFound: bool, outputType: Result<Option<string>, Exception>)
    ensures Runs(request, w, host, projectFound, outputType) ==>
      var rule := SelectedRule(request, w, host).value;
      Generation(request, w, host, projectFound, outputType)
        == Execute(CommandOf(rule).value, ReadSettings(rule).value, GetDirectoryName(request.inputFilePath),
                   w.(environment := Published(w.environment, host.projectFileName, request.inputFilePath, outputType.value,
                                               request.fileNameSpace, Sanitize(GetFileNameWithoutExtension(request.inputFilePath)))),
                   host)
    ensures !Runs(request, w, host, projectFound, outputType) ==>
      var t := Generation(request, w, host, projectFound, outputType);
      t.diagnostics == [] && !t.output.Code?
  {
    if Runs(request, w, host, projectFound, outputType) {
      var rule := SelectedRule(request, w, host).value;
      var settings := ReadSettings(rule).value;
      var className := Sanitize(GetFileNameWithoutExtension(request.inputFilePath));
      var env2 := Published(w.environment, host.projectFileName, request.inputFilePath, outputType.value,
                            request.fileNameSpace, className);
      assert Generation(request, w, host, projectFound, outputType)
        == Execute(settings.command.value, settings, GetDirectoryName(request.inputFilePath), w.(environment := env2), host);
    } else if projectFound {
      var t := Generation(request, w, host, projectFound, outputType);
      var configPath := ConfigPath(host.projectFileName);
      var ext := InputExtension(request.inputFilePath);
      assert t == ConfigApplied(request, configPath, ext, w, host, outputType);
      match RuleLookup(configPath, ext, w, host)
      case Failure(_) =>
      case Success(rule) =>
        assert SelectedRule(request, w, host) == Some(rule);
        assert t == RuleApplied(rule, request, configPath, w, host, outputType);
        if outputType.Success? {
          var className := Sanitize(GetFileNameWithoutExtension(request.inputFilePath));
          var env2 := Published(w.environment, host.projectFileName, request.inputFilePath, outputType.value,
                                request.fileNameSpace, className);
          assert CommandOf(rule).None?;
          assert t == SettingsApplied(rule, configPath, GetDirectoryName(request.inputFilePath), w.(environment := env2), host);
        }
    }
  }

  /** A command containing a carriage return is run from a script: the preamble that changes to the
      input's directory followed by the command itself, beside an empty
      temporary file. */
  lemma ScriptHoldsPreambleAndCommand(w: World, command: string, directory: string, tempName: string)
    requires '\r' in command
    ensures var (w1, _) := Prelaunch(w, command, directory, tempName);
      && tempName + ".cmd" in w1.fileSystem
      && w1.fileSystem[tempName + ".cmd"] == ScriptPreamble(directory) + command
      && tempName in w1.fileSystem && w1.fileSystem[tempName] == ""
  {
  }

  /** Errors are reported only when the command exited with a non-zero code and
      an error pattern is configured; the output is then the tool-failure message,
      and one diagnostic is made per successful match. */
  lemma DiagnosticsOnlyOnFailure(command: string, settings: Settings, directory: string, w: World, host: Host)
    ensures var (w1, commandLine) := Prelaunch(w, command, directory, host.tempFileName);
      var launch := host.run(commandLine, w1.environment, w1.fileSystem);
      var t := Execute(command, settings, directory, w, host);
      t.diagnostics != [] ==>
        && launch.Exited? && launch.exitCode != 0
        && HasPattern(settings.errorRx)
        && t.output == Comment(ToolFailed(command, Text.Trim(launch.standardError), Text.Trim(launch.standardOut)))
        && exists ms :: host.matches(settings.errorRx.value,
                                     Load(settings.errorsIn, Text.Trim(launch.standardOut), Text.Trim(launch.standardError),
                                          AfterLaunch(w1, launch), host.expand)) == Some(ms)
                        && |t.diagnostics| == SuccessCount(ms)
  {
    var (w1, commandLine) := Prelaunch(w, command, directory, host.tempFileName);
    var launch := host.run(commandLine, w1.environment, w1.fileSystem);
    var t := Execute(command, settings, directory, w, host);
    if t.diagnostics != [] {
      var stdErr := Text.Trim(launch.standardError);
      var stdOut := Text.Trim(launch.standardOut);
      var errorText := Load(settings.errorsIn, stdOut, stdErr, AfterLaunch(w1, launch), host.expand);
      var ms := host.matches(settings.errorRx.value, errorText).value;
      DiagnosticsCount(ms);
    }
  }

  /** Conversely, a command that exits with a non-zero code gives the
      tool-failure message; with an error pattern every successful match of it
      in the errors source is reported, in order, and without one nothing is. */
  lemma DiagnosticsOnFailure(command: string, settings: Settings, directory: string, w: World, host: Host)
    ensures var (w1, commandLine) := Prelaunch(w, command, directory, host.tempFileName);
      var launch := host.run(commandLine, w1.environment, w1.fileSystem);
      var t := Execute(command, settings, directory, w, host);
      launch.Exited? && launch.exitCode != 0 ==>
        var failed := Comment(ToolFailed(command, Text.Trim(launch.standardError), Text.Trim(launch.standardOut)));
        var errorText := Load(settings.errorsIn, Text.Trim(launch.standardOut), Text.Trim(launch.standardError),
                              AfterLaunch(w1, launch), host.expand);
        && (!HasPattern(settings.errorRx) ==> t.output == failed && t.diagnostics == [])
        && (HasPattern(settings.errorRx) && host.matches(settings.errorRx.value, errorText).Some? ==>
              t.output == failed && t.diagnostics == MatchDiagnostics(host.matches(settings.errorRx.value, errorText).value))
        && (HasPattern(settings.errorRx) && host.matches(settings.errorRx.value, errorText).None? ==>
              t.output == Comment(ExceptionReport(PatternError(settings.errorRx.value))) && t.diagnostics == [])
  {
  }

  /** Generated code comes only from a command that exited with code 0, and
      then nothing is reported; a command that could not be started is reported
      as the launcher's exception. */
  lemma CodeOnlyOnSuccess(command: string, settings: Settings, directory: string, w: World, host: Host)
    ensures var (w1, commandLine) := Prelaunch(w, command, directory, host.tempFileName);
      var launch := host.run(commandLine, w1.environment, w1.fileSystem);
      var t := Execute(command, settings, directory, w, host);
      && (t.output.Code? <==> launch.Exited? && launch.exitCode == 0)
      && (t.output.Code? ==>
            t.diagnostics == []
            && t.output.text == Text.Trim(Load(settings.resultIn, Text.Trim(launch.standardOut), Text.Trim(launch.standardError),
                                               AfterLaunch(w1, launch), host.expand)))
      && (launch.LaunchFailed? ==>
            t.output == Comment(ExceptionReport(ProcessError(launch.description))) && t.diagnostics == [])
  {
  }

  /** The "missing command" message is never produced: a rule without a command
      ends in a null-reference report instead. */
  lemma NeverMissingCommand(request: Request, w: World, host: Host, projectFound: bool, outputType: Result<Option<string>, Exception>)
    ensures var t := Generation(request, w, host, projectFound, outputType);
      !(t.output.Comment? && t.output.message.MissingCommand?)
    ensures projectFound && SelectedRule(request, w, host).Some? && outputType.Success?
            && ReadSettings(SelectedRule(request, w, host).value).Success?
            && CommandOf(SelectedRule(request, w, host).value).None? ==>
      Generation(request, w, host, projectFound, outputType).output == Comment(ExceptionReport(NullReference))
  {
    if Runs(request, w, host, projectFound, outputType) {
      var rule := SelectedRule(request, w, host).value;
      var settings := ReadSettings(rule).value;
      var className := Sanitize(GetFileNameWithoutExtension(request.inputFilePath));
      var env2 := Published(w.environment, host.projectFileName, request.inputFilePath, outputType.value,
                            request.fileNameSpace, className);
      var w1 := w.(environment := env2);
      assert Generation(request, w, host, projectFound, outputType)
        == Execute(settings.command.value, settings, GetDirectoryName(request.inputFilePath), w1, host);
      ExecuteEndsAfterLaunch(settings.command.value, settings, GetDirectoryName(request.inputFilePath), w1, host);
    }
  }
}

/** The generation pipeline of `AnyGenerator.GenerateCode`, as functions of the
    state it starts from: find the `.anygen` file beside the project, pick the
    rule for the input's extension, publish the context in environment variables,
    run the rule's command through cmd.exe, and turn the outcome into generated
    text or into a message, reporting pattern matches as errors on failure. */
module Pipeline {
  import opened Wrappers
  import opened Text
  import opened Paths
  import opened CodeGenerator
  import opened Rules
  import opened Diagnostics
  import opened ClassNames

  /** How a launch of cmd.exe ends: its exit code, its captured output streams and
      the files as the command left them, or the exception starting it raised. */
  datatype Launch =
    | Exited(exitCode: int, standardOut: string, standardError: string, fileSystem: map<string, string>)
    | LaunchFailed(description: string)

  /** What the generator receives from outside: the project's file name, the
      property-sheet parser, `Environment.ExpandEnvironmentVariables`, the name
      `Path.GetTempFileName` hands out, the process runner (arguments, environment,
      files) and the regular-expression engine (pattern, text; none for a pattern
      it rejects). */
  datatype Host = Host(
    projectFileName: string,
    parseSheet: string -> SheetResult,
    expand: (string, map<string, string>) -> string,
    tempFileName: string,
    run: (string, map<string, string>, map<string, string>) -> Launch,
    matches: (string, string) -> Option<seq<Match>>)

  /** The messages `GenerateMessage` wraps in a comment of a generated file. */
  datatype Message =
    | ConfigMissing(path: string)
    | RuleMissing(path: string, ext: string)
    | MissingCommand(path: string, ext: string)
    | ToolFailed(command: string, stdErr: string, stdOut: string)
    | PropertyProblem(path: string, message: string, property: string)
    | ParseProblem(path: string, message: string, token: string)
    | ExceptionReport(exception: Exception)

  /** What `GenerateCode` produces: the tool's text, or a message. */
  datatype Output = Code(text: string) | Comment(message: Message)

  function ExceptionName(e: Exception): string {
    match e
    case ArgumentNull => "System.ArgumentNullException"
    case NullReference => "System.NullReferenceException"
    case IndexOutOfRange => "System.IndexOutOfRangeException"
    case ComError(_) => "System.Runtime.InteropServices.COMException"
    case ProcessError(d) => d
    case PatternError(_) => "System.ArgumentException"
  }

  /** The text of each message, as the format strings lay it out. */
  function MessageText(m: Message): (r: string)
    ensures m.ConfigMissing? ==> EndsWith(r, m.path)
    ensures m.RuleMissing? || m.MissingCommand? ==> EndsWith(r, m.path + "\r\n")
    ensures m.ToolFailed? ==> EndsWith(r, "\r\nStdOut:\r\n" + m.stdOut)
    ensures m.PropertyProblem? ==> EndsWith(r, " in property" + m.property)
    ensures m.ParseProblem? ==> EndsWith(r, "--found '" + m.token + "'")
    ensures m.ExceptionReport? ==> r == ExceptionName(m.exception)
  {
    match m
    case ConfigMissing(path) =>
      Suffixed("AnyGen Failed.\r\nUnable to locate AnyGen config file at:\r\n", path)
    case RuleMissing(path, ext) =>
      Suffixed("No matching rule for [." + ext + "] in AnyGen configuration file ", path + "\r\n")
    case MissingCommand(path, ext) =>
      Suffixed("Missing command for [." + ext + "] in AnyGen configuration file ", path + "\r\n")
    case ToolFailed(command, stdErr, stdOut) =>
      Suffixed("Tool returned error.\r\nCommand:" + command + "\r\nStdErr:\r\n" + stdErr, "\r\nStdOut:\r\n" + stdOut)
    case PropertyProblem(path, message, property) =>
      Suffixed("Error in AnyGen configuration file " + path + "\r\n" + message, " in property" + property)
    case ParseProblem(path, message, token) =>
      Suffixed("Error in AnyGen configuration file " + path + ".\r\n" + message, "--found '" + token + "'")
    case ExceptionReport(e) => ExceptionName(e)
  }

  /** `text + suffix`, which ends with `suffix`. */
  function Suffixed(text: string, suffix: string): (r: string)
    ensures EndsWith(r, suffix)
  {
    var r := text + suffix;
    assert r[|r| - |suffix|..] == suffix;
    r
  }

  predicate EndsWith(text: string, suffix: string) {
    |suffix| <= |text| && text[|text| - |suffix|..] == suffix
  }

  predicate IsInfixAt(part: string, text: string, i: int) {
    0 <= i <= |text| - |part| && text[i..i + |part|] == part
  }

  ghost predicate IsInfix(part: string, text: string) {
    exists i :: IsInfixAt(part, text, i)
  }

  lemma InfixOfConcat(before: string, part: string, after: string)
    ensures IsInfix(part, before + part + after)
  {
    assert IsInfixAt(part, before + part + after, |before|);
  }

  /** The configuration-missing message names the expected path. */
  lemma ConfigMissingNamesPath(path: string)
    ensures IsInfix(path, MessageText(ConfigMissing(path)))
  {
    var a := "AnyGen Failed.\r\nUnable to locate AnyGen config file at:\r\n";
    assert MessageText(ConfigMissing(path)) == a + path + "";
    InfixOfConcat(a, path, "");
  }

  /** The rule-missing message names the extension and the configuration path. */
  lemma RuleMissingNamesExtensionAndPath(path: string, ext: string)
    ensures IsInfix(path, MessageText(RuleMissing(path, ext))) && IsInfix(ext, MessageText(RuleMissing(path, ext)))
  {
    var b := "No matching rule for [.";
    var c := "] in AnyGen configuration file ";
    var t := MessageText(RuleMissing(path, ext));
    assert t == b + ext + (c + path + "\r\n");
    InfixOfConcat(b, ext, c + path + "\r\n");
    assert t == (b + ext + c) + path + "\r\n";
    InfixOfConcat(b + ext + c, path, "\r\n");
  }

  /** The tool-failure message carries the command and both captured streams. */
  lemma ToolFailedNamesCommandAndStreams(command: string, stdErr: string, stdOut: string)
    ensures var t := MessageText(ToolFailed(command, stdErr, stdOut));
      IsInfix(command, t) && IsInfix(stdErr, t) && IsInfix(stdOut, t)
  {
    var d := "Tool returned error.\r\nCommand:";
    var e := "\r\nStdErr:\r\n";
    var f := "\r\nStdOut:\r\n";
    var t := MessageText(ToolFailed(command, stdErr, stdOut));
    assert t == d + command + (e + stdErr + f + stdOut);
    InfixOfConcat(d, command, e + stdErr + f + stdOut);
    assert t == (d + command + e) + stdErr + (f + stdOut);
    InfixOfConcat(d + command + e, stdErr, f + stdOut);
    assert t == (d + command + e + stdErr + f) + stdOut + "";
    InfixOfConcat(d + command + e + stdErr + f, stdOut, "");
  }

  /** The environment variables the command can read. */
  const ProjectFileNameVariable := "AG_PROJECTFILENAME"
  const InputFileNameVariable := "AG_INPUTFILENAME"
  const OutputFileTypeVariable := "AG_OUTPUTFILETYPE"
  const NamespaceVariable := "AG_NAMESPACE"
  const ClassNameVariable := "AG_CLASSNAME"

  /** The configuration file: beside the project, named after it, suffix ".anygen". */
  function ConfigPath(projectFileName: string): (r: string)
    ensures var dir, name := GetDirectoryName(projectFileName), GetFileNameWithoutExtension(projectFileName) + ".anygen";
      && |dir| + |name| <= |r| && r[..|dir|] == dir && r[|r| - |name|..] == name
      && (dir == [] ==> r == name)
      && (dir != [] ==> r == dir + (if IsSeparator(dir[|dir| - 1]) then "" else "\\") + name)
  {
    var base := GetFileNameWithoutExtension(projectFileName);
    var name := base + ".anygen";
    assert name[1] == if |base| > 1 then base[1] else if |base| == 1 then '.' else 'a';
    assert !IsRooted(name);
    Combine(GetDirectoryName(projectFileName), name)
  }

  /** The input's extension without its dot, as rules name it. */
  function InputExtension(inputFilePath: string): (ext: string)
    ensures GetExtension(inputFilePath) == [] ==> ext == []
    ensures GetExtension(inputFilePath) != [] ==> ext == GetExtension(inputFilePath)[1..]
    ensures forall i :: 0 <= i < |ext| ==> ext[i] != '.' && !IsSeparator(ext[i])
  {
    ExtensionWithoutDot(inputFilePath);
    RemoveDots(GetExtension(inputFilePath))
  }

  /** `Environment.SetEnvironmentVariable`: a null or empty value deletes the variable. */
  function SetVariable(environment: map<string, string>, name: string, value: Option<string>): (r: map<string, string>)
    ensures forall v :: v != name ==> (v in r <==> v in environment) && (v in r ==> r[v] == environment[v])
    ensures name in r <==> value.Some? && value.value != ""
    ensures name in r ==> r[name] == value.value
  {
    if value.None? || value.value == "" then environment - {name} else environment[name := value.value]
  }

  /** The observable state the pipeline works on: the files, the process
      environment, the generator's list of temporary files, and the argument lines
      cmd.exe has been started with. */
  datatype World = World(fileSystem: map<string, string>, environment: map<string, string>, tmpFiles: seq<string>, launched: seq<string>)

  /** `Load`: a source named (after expansion) "stderr" or "stdout" gives that
      stream; otherwise the file named by the unexpanded text, if it exists, gives
      its contents; otherwise the empty text. */
  function Load(fromWhere: string, stdOut: string, stdErr: string, w: World, expand: (string, map<string, string>) -> string): (r: string)
    ensures expand(fromWhere, w.environment) == "stderr" ==> r == stdErr
    ensures expand(fromWhere, w.environment) == "stdout" ==> r == stdOut
    ensures expand(fromWhere, w.environment) !in {"stderr", "stdout"} ==>
      r == if fromWhere in w.fileSystem then w.fileSystem[fromWhere] else ""
  {
    var name := expand(fromWhere, w.environment);
    if name == "stderr" then stdErr
    else if name == "stdout" then stdOut
    else if fromWhere in w.fileSystem then w.fileSystem[fromWhere]
    else ""
  }

  /** The existence test uses the unexpanded text: a source such as "%OUT%\x.txt"
      reads nothing even when the file it expands to exists. */
  lemma LoadIgnoresExpandedFileName(fromWhere: string, stdOut: string, stdErr: string, w: World, expand: (string, map<string, string>) -> string)
    requires expand(fromWhere, w.environment) !in {"stderr", "stdout"}
    requires fromWhere !in w.fileSystem
    ensures Load(fromWhere, stdOut, stdErr, w, expand) == ""
  {
  }

  /** The lines `Exec` puts before a command containing a carriage return. */
  function ScriptPreamble(directory: string): string {
    "@echo off\r\n@setlocal \r\n@cd \"" + directory + "\"\r\n\r\n"
  }

  /** `Exec` up to the start of cmd.exe: the world it starts in and its argument
      line. A command holding '\r' becomes a script file behind the preamble,
      written by `WriteTempScript` next to the empty temporary file, and both names
      join the list of temporary files; any other command is passed directly. */
  function Prelaunch(w: World, command: string, directory: string, tempName: string): (r: (World, string))
    ensures r.0.environment == w.environment && r.0.launched == w.launched + [r.1]
    ensures '\r' in command ==>
      && r.1 == "/c " + tempName + ".cmd"
      && r.0.tmpFiles == w.tmpFiles + [tempName, tempName + ".cmd"]
      && r.0.fileSystem == w.fileSystem[tempName := ""][tempName + ".cmd" := ScriptPreamble(directory) + command]
    ensures '\r' !in command ==> r.1 == "/c " + command && r.0.tmpFiles == w.tmpFiles && r.0.fileSystem == w.fileSystem
  {
    if '\r' in command then
      var path := tempName + ".cmd";
      var commandLine := "/c " + path;
      (w.(fileSystem := w.fileSystem[tempName := ""][path := ScriptPreamble(directory) + command],
          tmpFiles := w.tmpFiles + [tempName, path],
          launched := w.launched + [commandLine]),
       commandLine)
    else
      var commandLine := "/c " + command;
      (w.(launched := w.launched + [commandLine]), commandLine)
  }

  /** The world once cmd.exe has finished: its files as the command left them. */
  function AfterLaunch(w: World, launch: Launch): World {
    if launch.Exited? then w.(fileSystem := launch.fileSystem) else w
  }

  /** One generation request as it unfolds: the output, the world before the
      temporary files are deleted, the diagnostics reported as errors (in order),
      and whether the output extension was asked for. */
  datatype Trace = Trace(output: Output, world: World, diagnostics: seq<Diagnostic>, queriedExtension: bool)

  predicate HasPattern(rx: Option<string>) {
    rx.Some? && rx.value != ""
  }

  /** The command and its outcome: exit code 0 gives the trimmed result source;
      any other exit code reports each match of `error-rx` in the errors source and
      gives the failure message with the command and both trimmed streams. */
  function Execute(command: string, settings: Settings, directory: string, w: World, host: Host): (t: Trace)
    ensures t.queriedExtension
  {
    var (w1, commandLine) := Prelaunch(w, command, directory, host.tempFileName);
    var launch := host.run(commandLine, w1.environment, w1.fileSystem);
    var w2 := AfterLaunch(w1, launch);
    match launch
    case LaunchFailed(description) => Trace(Comment(ExceptionReport(ProcessError(description))), w2, [], true)
    case Exited(exitCode, out, err, _) =>
      var stdErr := Trim(err);
      var stdOut := Trim(out);
      if exitCode != 0 then
        var failed := Comment(ToolFailed(command, stdErr, stdOut));
        var errorText := Load(settings.errorsIn, stdOut, stdErr, w2, host.expand);
        if HasPattern(settings.errorRx) then
          match host.matches(settings.errorRx.value, errorText)
          case None => Trace(Comment(ExceptionReport(PatternError(settings.errorRx.value))), w2, [], true)
          case Some(ms) => Trace(failed, w2, MatchDiagnostics(ms), true)
        else
          Trace(failed, w2, [], true)
      else
        Trace(Code(Trim(Load(settings.resultIn, stdOut, stdErr, w2, host.expand))), w2, [], true)
  }

  /** The inputs `GenerateCode` reads from the generator's fields. */
  datatype Request = Request(inputFilePath: string, fileNameSpace: string)

  /** `GenerateCode` up to its `finally` block. `projectFound` says whether the
      project could be looked up through the site; `outputType` is what
      `GetDefaultExtension` yields. */
  function Generation(request: Request, w: World, host: Host, projectFound: bool, outputType: Result<Option<string>, Exception>): (t: Trace)
    ensures !projectFound ==> t.output == Comment(ExceptionReport(ArgumentNull))
    ensures !t.queriedExtension ==> t.world == w && t.diagnostics == []
  {
    if !projectFound then Trace(Comment(ExceptionReport(ArgumentNull)), w, [], false)
    else
      ConfigApplied(request, ConfigPath(host.projectFileName), InputExtension(request.inputFilePath), w, host, outputType)
  }

  /** The configuration at `configPath` read and parsed and the rule for `ext`
      looked up in it; when one of these fails, the message `GenerateCode` then
      returns. */
  function RuleLookup(configPath: string, ext: string, w: World, host: Host): (r: Result<Rule, Output>)
    ensures r.Success? ==> configPath in w.fileSystem && RuleMatches(r.value, ext)
    ensures r.Failure? ==> r.error.Comment?
  {
    if configPath !in w.fileSystem then Failure(Comment(ConfigMissing(configPath)))
    else match host.parseSheet(w.fileSystem[configPath])
      case ParseFailed(message, token) => Failure(Comment(ParseProblem(configPath, message, token)))
      case Parsed(rules) =>
        match FindRule(rules, ext)
        case None => Failure(Comment(RuleMissing(configPath, ext)))
        case Some(rule) => Success(rule)
  }

  /** The three ways the lookup fails, each with its own message: no file at
      `configPath`, a file that does not parse, a sheet without a rule for `ext`. */
  lemma LookupOutcomes(configPath: string, ext: string, w: World, host: Host)
    ensures configPath !in w.fileSystem ==>
      RuleLookup(configPath, ext, w, host) == Failure(Comment(ConfigMissing(configPath)))
    ensures configPath in w.fileSystem && host.parseSheet(w.fileSystem[configPath]).ParseFailed? ==>
      var sheet := host.parseSheet(w.fileSystem[configPath]);
      RuleLookup(configPath, ext, w, host) == Failure(Comment(ParseProblem(configPath, sheet.message, sheet.token)))
    ensures configPath in w.fileSystem && host.parseSheet(w.fileSystem[configPath]).Parsed? ==>
      var rules := host.parseSheet(w.fileSystem[configPath]).rules;
      && ((forall j :: 0 <= j < |rules| ==> !RuleMatches(rules[j], ext)) ==>
            RuleLookup(configPath, ext, w, host) == Failure(Comment(RuleMissing(configPath, ext))))
      && ((exists j :: 0 <= j < |rules| && RuleMatches(rules[j], ext)) ==>
            RuleLookup(configPath, ext, w, host) == Success(FindRule(rules, ext).value))
  {
  }

  /** What follows once the project is known: the configuration file is read and
      parsed, and the rule for the input's extension `ext` is looked up and applied. */
  function ConfigApplied(request: Request, configPath: string, ext: string, w: World, host: Host,
                         outputType: Result<Option<string>, Exception>): (t: Trace)
    ensures t.queriedExtension <==> RuleLookup(configPath, ext, w, host).Success?
    ensures !t.queriedExtension ==>
      t.output == RuleLookup(configPath, ext, w, host).error && t.world == w && t.diagnostics == []
  {
    match RuleLookup(configPath, ext, w, host)
    case Failure(output) => Trace(output, w, [], false)
    case Success(rule) => RuleApplied(rule, request, configPath, w, host, outputType)
  }

  /** The five `SetVariable` calls of `GenerateCode`, in their order. */
  function Published(environment: map<string, string>, projectFileName: string, inputFilePath: string,
                     outputExtension: Option<string>, fileNameSpace: string, className: string): map<string, string>
  {
    var env1 := SetVariable(SetVariable(environment, ProjectFileNameVariable, Some(projectFileName)),
                            InputFileNameVariable, Some(inputFilePath));
    SetVariable(SetVariable(SetVariable(env1, OutputFileTypeVariable, outputExtension),
                            NamespaceVariable, Some(fileNameSpace)),
                ClassNameVariable, Some(className))
  }

  /** Each of the five AG_ variables is set exactly when its value is non-empty,
      and then holds it; every other variable is as it was. */
  lemma PublishedVariables(environment: map<string, string>, projectFileName: string, inputFilePath: string,
                           outputExtension: Option<string>, fileNameSpace: string, className: string)
    ensures var env := Published(environment, projectFileName, inputFilePath, outputExtension, fileNameSpace, className);
      && (ProjectFileNameVariable in env <==> projectFileName != "")
      && (ProjectFileNameVariable in env ==> env[ProjectFileNameVariable] == projectFileName)
      && (InputFileNameVariable in env <==> inputFilePath != "")
      && (InputFileNameVariable in env ==> env[InputFileNameVariable] == inputFilePath)
      && (OutputFileTypeVariable in env <==> outputExtension.Some? && outputExtension.value != "")
      && (OutputFileTypeVariable in env ==> env[OutputFileTypeVariable] == outputExtension.value)
      && (NamespaceVariable in env <==> fileNameSpace != "")
      && (NamespaceVariable in env ==> env[NamespaceVariable] == fileNameSpace)
      && (ClassNameVariable in env <==> className != "")
      && (ClassNameVariable in env ==> env[ClassNameVariable] == className)
      && forall v :: v !in {ProjectFileNameVariable, InputFileNameVariable, OutputFileTypeVariable, NamespaceVariable, ClassNameVariable} ==>
           (v in env <==> v in environment) && (v in env ==> env[v] == environment[v])
  {
  }

  /** What follows once a rule is found: the context is published in the
      environment, the settings are read and the command is run. */
  function RuleApplied(rule: Rule, request: Request, configPath: string, w: World, host: Host,
                       outputType: Result<Option<string>, Exception>): (t: Trace)
    ensures t.queriedExtension
  {
    var className := Sanitize(GetFileNameWithoutExtension(request.inputFilePath));
    var env1 := SetVariable(SetVariable(w.environment, ProjectFileNameVariable, Some(host.projectFileName)),
                            InputFileNameVariable, Some(request.inputFilePath));
    match outputType
    case Failure(e) => Trace(Comment(ExceptionReport(e)), w.(environment := env1), [], true)
    case Success(outputExtension) =>
      var env2 := Published(w.environment, host.projectFileName, request.inputFilePath, outputExtension,
                            request.fileNameSpace, className);
      SettingsApplied(rule, configPath, GetDirectoryName(request.inputFilePath), w.(environment := env2), host)
  }

  /** The rule's settings are read; the command, when there is one, is run in
      `directory`. */
  function SettingsApplied(rule: Rule, configPath: string, directory: string, w: World, host: Host): (t: Trace)
    ensures t.queriedExtension
  {
    match ReadSettings(rule)
    case Failure(PropertyError(message, property)) =>
      Trace(Comment(PropertyProblem(configPath, message, property)), w, [], true)
    case Success(settings) =>
      if settings.command.None? then Trace(Comment(ExceptionReport(NullReference)), w, [], true)
      else Execute(settings.command.value, settings, directory, w, host)
  }

  /** The `finally` block: every listed temporary file that exists is deleted. */
  function Cleanup(fileSystem: map<string, string>, tmpFiles: seq<string>): (r: map<string, string>)
    ensures forall f :: f in r <==> f in fileSystem && f !in tmpFiles
    ensures forall f :: f in r ==> r[f] == fileSystem[f]
  {
    map f | f in fileSystem && f !in tmpFiles :: fileSystem[f]
  }
}

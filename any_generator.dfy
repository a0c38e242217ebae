/** The `AnyGenerator` object: the sited generator it extends, its list of
    temporary files, and the parts of the machine it acts on (files, process
    environment, started commands). Each method is proved to do what the
    corresponding function of `Pipeline` describes. */
module AnyGen {
  import opened Wrappers
  import opened Text
  import opened Paths
  import opened CodeGenerator
  import opened GeneratorWithSite
  import opened Rules
  import opened Diagnostics
  import opened ClassNames
  import opened Pipeline

  class AnyGenerator {
    /** The base-class part: input path, namespace, progress sink, site and caches. */
    const generator: CodeGeneratorWithSite
    var tmpFiles: seq<string>
    var fileSystem: map<string, string>
    var environment: map<string, string>
    var launched: seq<string>

    ghost predicate Valid()
      reads this, generator
    {
      generator.Valid()
    }

    function State(): World
      reads this
    {
      World(fileSystem, environment, tmpFiles, launched)
    }

    constructor (fileSystem: map<string, string>, environment: map<string, string>)
      ensures Valid() && fresh(generator) && fresh(generator.base)
      ensures State() == World(fileSystem, environment, [], [])
      ensures generator.base.inputFilePath == "" && generator.base.fileNameSpace == ""
      ensures generator.base.codeGeneratorProgress == null
      ensures generator.site == None && generator.codeDomProvider == None && generator.serviceProvider == null
    {
      generator := new CodeGeneratorWithSite();
      tmpFiles := [];
      this.fileSystem := fileSystem;
      this.environment := environment;
      launched := [];
    }

    /** Creates the empty temporary file, records it and the script beside it,
        and writes the script. */
    method WriteTempScript(text: string, tempName: string) returns (path: string)
      modifies this
      ensures path == tempName + ".cmd"
      ensures tmpFiles == old(tmpFiles) + [tempName, path]
      ensures fileSystem == old(fileSystem)[tempName := ""][path := text]
      ensures environment == old(environment) && launched == old(launched)
    {
      var tmpFilename := tempName;
      fileSystem := fileSystem[tmpFilename := ""];
      tmpFiles := tmpFiles + [tmpFilename];
      tmpFilename := tmpFilename + ".cmd";
      tmpFiles := tmpFiles + [tmpFilename];
      fileSystem := fileSystem[tmpFilename := text];
      path := tmpFilename;
    }

    /** Runs a command through cmd.exe, by way of a script file when it contains a carriage return. */
    method Exec(script: string, currentDirectory: string, host: Host) returns (launch: Launch)
      modifies this
      ensures var (w1, commandLine) := Prelaunch(old(State()), script, currentDirectory, host.tempFileName);
        && launch == host.run(commandLine, w1.environment, w1.fileSystem)
        && State() == AfterLaunch(w1, launch)
    {
      var commandLine: string;
      if '\r' in script {
        var text := ScriptPreamble(currentDirectory) + script;
        var scriptPath := WriteTempScript(text, host.tempFileName);
        commandLine := "/c " + scriptPath;
      } else {
        commandLine := "/c " + script;
      }
      launched := launched + [commandLine];
      launch := host.run(commandLine, environment, fileSystem);
      if launch.Exited? {
        fileSystem := launch.fileSystem;
      }
    }

    /** One pass of the loop over the matches: a successful match is reported as
        an error, its row and column made 0-based. */
    method ReportMatch(m: Match)
      modifies generator.base.codeGeneratorProgress
      ensures generator.base.codeGeneratorProgress != null ==>
        generator.base.codeGeneratorProgress.reports
          == old(generator.base.codeGeneratorProgress.reports)
             + (if m.success then [ErrorReport(DiagnosticOf(m))] else [])
    {
      if m.success {
        var row: UInt32 := 0;
        var column: UInt32 := 0;
        var level: UInt32 := 1;
        var filename := Trim(Group(m, "filename"));
        var code := Trim(Group(m, "code"));
        var message := Trim(Group(m, "message"));
        row := TryParseUInt32(Group(m, "row"));
        column := TryParseUInt32(Group(m, "column"));
        level := TryParseUInt32(Group(m, "level"));
        if row > 0 {
          row := row - 1;
        }
        if column > 0 {
          column := column - 1;
        }
        ghost var d := DiagnosticOf(m);
        assert level == d.level && message == d.message && row == d.row && column == d.column;
        assert ProgressReport(0, level, message, row, column) == ErrorReport(d);
        generator.base.GeneratorError(level, message, row, column);
      } else {
        assert generator.base.codeGeneratorProgress != null ==>
          generator.base.codeGeneratorProgress.reports + [] == generator.base.codeGeneratorProgress.reports;
      }
    }

    /** Reports every successful match as an error, in match order. */
    method ReportErrors(matches: seq<Match>)
      modifies generator.base.codeGeneratorProgress
      ensures generator.base.codeGeneratorProgress != null ==>
        generator.base.codeGeneratorProgress.reports
          == old(generator.base.codeGeneratorProgress.reports) + ErrorReports(MatchDiagnostics(matches))
    {
      var progress := generator.base.codeGeneratorProgress;
      ghost var start := if progress != null then progress.reports else [];
      for i := 0 to |matches|
        invariant progress != null ==> progress.reports == start + ErrorReports(MatchDiagnostics(matches[..i]))
      {
        ReportMatch(matches[i]);
        ReportsOfPrefix(start, matches, i);
      }
      assert matches[..|matches|] == matches;
    }

    /** The `finally` block: deletes every listed temporary file that exists. */
    method DeleteTempFiles()
      modifies this
      ensures fileSystem == Cleanup(old(fileSystem), tmpFiles)
      ensures tmpFiles == old(tmpFiles) && environment == old(environment) && launched == old(launched)
    {
      for i := 0 to |tmpFiles|
        invariant tmpFiles == old(tmpFiles) && environment == old(environment) && launched == old(launched)
        invariant fileSystem == Cleanup(old(fileSystem), tmpFiles[..i])
      {
        var f := tmpFiles[i];
        assert tmpFiles[..i + 1] == tmpFiles[..i] + [f];
        if f in fileSystem {
          fileSystem := fileSystem - {f};
        }
      }
      assert tmpFiles[..|tmpFiles|] == tmpFiles;
    }

    /** Runs the rule's command and turns its outcome into the output. */
    method RunRule(command: string, settings: Settings, directory: string, host: Host) returns (r: Output)
      modifies this, generator.base.codeGeneratorProgress
      ensures var t := Execute(command, settings, directory, old(State()), host);
        && r == t.output
        && State() == t.world
        && (generator.base.codeGeneratorProgress != null ==>
              generator.base.codeGeneratorProgress.reports
                == old(generator.base.codeGeneratorProgress.reports) + ErrorReports(t.diagnostics))
    {
      var cmdexe := Exec(command, directory, host);
      if cmdexe.LaunchFailed? {
        return Comment(ExceptionReport(ProcessError(cmdexe.description)));
      }
      var stderr := Trim(cmdexe.standardError);
      var stdout := Trim(cmdexe.standardOut);
      if cmdexe.exitCode != 0 {
        var errorText := Load(settings.errorsIn, stdout, stderr, State(), host.expand);
        if HasPattern(settings.errorRx) {
          var matches := host.matches(settings.errorRx.value, errorText);
          if matches.None? {
            return Comment(ExceptionReport(PatternError(settings.errorRx.value)));
          }
          ReportErrors(matches.value);
        }
        return Comment(ToolFailed(command, stderr, stdout));
      }
      r := Code(Trim(Load(settings.resultIn, stdout, stderr, State(), host.expand)));
    }

    /** Reads the rule's settings and runs its command in `directory`. */
    method RunSettings(rule: Rule, anygenPath: string, directory: string, host: Host) returns (r: Output)
      modifies this, generator.base.codeGeneratorProgress
      ensures var t := SettingsApplied(rule, anygenPath, directory, old(State()), host);
        && r == t.output
        && State() == t.world
        && (generator.base.codeGeneratorProgress != null ==>
              generator.base.codeGeneratorProgress.reports
                == old(generator.base.codeGeneratorProgress.reports) + ErrorReports(t.diagnostics))
    {
      var settings := ReadSettings(rule);
      if settings.Failure? {
        r := Comment(PropertyProblem(anygenPath, settings.error.message, settings.error.property));
        return;
      }
      if settings.value.command.None? {
        r := Comment(ExceptionReport(NullReference));
        return;
      }
      r := RunRule(settings.value.command.value, settings.value, directory, host);
    }

    /** Publishes the output extension, the namespace and the class name, then
        reads the rule's settings and runs its command. */
    method PublishAndRun(rule: Rule, anygenPath: string, outputExtension: Option<string>, classname: string, host: Host)
      returns (r: Output)
      modifies this, generator.base.codeGeneratorProgress
      ensures var env := SetVariable(SetVariable(SetVariable(old(environment), OutputFileTypeVariable, outputExtension),
                                                 NamespaceVariable, Some(generator.base.fileNameSpace)),
                                     ClassNameVariable, Some(classname));
        var t := SettingsApplied(rule, anygenPath, GetDirectoryName(generator.base.inputFilePath),
                                 old(State()).(environment := env), host);
        && r == t.output
        && State() == t.world
        && (generator.base.codeGeneratorProgress != null ==>
              generator.base.codeGeneratorProgress.reports
                == old(generator.base.codeGeneratorProgress.reports) + ErrorReports(t.diagnostics))
    {
      environment := SetVariable(environment, OutputFileTypeVariable, outputExtension);
      environment := SetVariable(environment, NamespaceVariable, Some(generator.base.fileNameSpace));
      environment := SetVariable(environment, ClassNameVariable, Some(classname));
      r := RunSettings(rule, anygenPath, GetDirectoryName(generator.base.inputFilePath), host);
    }

    /** The part of `GenerateCode` after the rule lookup: publishes the context,
        reads the rule's settings and runs its command. */
    method ApplyRule(rule: Rule, anygenPath: string, host: Host) returns (r: Output)
      requires Valid()
      modifies this, generator, generator.base.codeGeneratorProgress
      ensures Valid()
      ensures var t := RuleApplied(rule, Request(old(generator.base.inputFilePath), old(generator.base.fileNameSpace)),
                                   anygenPath, old(State()), host,
                                   DefaultExtensionFor(old(generator.site), old(generator.codeDomProvider)));
        && r == t.output
        && State() == t.world
        && (generator.base.codeGeneratorProgress != null ==>
              generator.base.codeGeneratorProgress.reports
                == old(generator.base.codeGeneratorProgress.reports) + ErrorReports(t.diagnostics))
      ensures generator.codeDomProvider == CacheAfter(old(generator.site), old(generator.codeDomProvider))
      ensures generator.site == old(generator.site)
      ensures old(generator.serviceProvider) != null ==> generator.serviceProvider == old(generator.serviceProvider)
    {
      ghost var w := State();
      ghost var request := Request(generator.base.inputFilePath, generator.base.fileNameSpace);
      var inputFilePath := generator.base.inputFilePath;
      var projectFilename := host.projectFileName;
      var classname := SanitizeClassName(GetFileNameWithoutExtension(inputFilePath));
      environment := SetVariable(environment, ProjectFileNameVariable, Some(projectFilename));
      environment := SetVariable(environment, InputFileNameVariable, Some(inputFilePath));
      var outputType := generator.GetDefaultExtension();
      if outputType.Failure? {
        r := Comment(ExceptionReport(outputType.error));
        assert State() == w.(environment := environment);
        assert outputType == DefaultExtensionFor(old(generator.site), old(generator.codeDomProvider));
        assert RuleApplied(rule, request, anygenPath, w, host, outputType) == Trace(r, State(), [], true);
        assert generator.base.codeGeneratorProgress == old(generator.base.codeGeneratorProgress);
        assert generator.base.codeGeneratorProgress != null ==>
          generator.base.codeGeneratorProgress.reports == old(generator.base.codeGeneratorProgress.reports);
        assert generator.base.codeGeneratorProgress != null ==>
          generator.base.codeGeneratorProgress.reports + ErrorReports([]) == generator.base.codeGeneratorProgress.reports;
        return;
      }
      ghost var env := Published(w.environment, projectFilename, inputFilePath, outputType.value,
                                 request.fileNameSpace, classname);
      assert env == SetVariable(SetVariable(SetVariable(environment, OutputFileTypeVariable, outputType.value),
                                            NamespaceVariable, Some(generator.base.fileNameSpace)),
                                ClassNameVariable, Some(classname));
      ghost var t := SettingsApplied(rule, anygenPath, GetDirectoryName(inputFilePath), w.(environment := env), host);
      assert RuleApplied(rule, request, anygenPath, w, host, Success(outputType.value)) == t;
      r := PublishAndRun(rule, anygenPath, outputType.value, classname, host);
    }

    /** The part of `GenerateCode` after the project lookup: derives the
        configuration's path from the project's and the rule key from the input's
        extension, reads and parses the configuration and applies the rule. */
    method ApplyConfig(projectFilename: string, host: Host) returns (r: Output)
      requires Valid()
      modifies this, generator, generator.base.codeGeneratorProgress
      ensures Valid()
      ensures var t := ConfigApplied(Request(generator.base.inputFilePath, generator.base.fileNameSpace),
                                     ConfigPath(projectFilename), InputExtension(generator.base.inputFilePath),
                                     old(State()), host,
                                     DefaultExtensionFor(old(generator.site), old(generator.codeDomProvider)));
        && r == t.output
        && State() == t.world
        && (generator.base.codeGeneratorProgress != null ==>
              generator.base.codeGeneratorProgress.reports
                == old(generator.base.codeGeneratorProgress.reports) + ErrorReports(t.diagnostics))
        && generator.codeDomProvider
             == if t.queriedExtension then CacheAfter(old(generator.site), old(generator.codeDomProvider))
                else old(generator.codeDomProvider)
      ensures generator.site == old(generator.site)
      ensures old(generator.serviceProvider) != null ==> generator.serviceProvider == old(generator.serviceProvider)
    {
      var anygenPath := ConfigPath(projectFilename);
      var ext := InputExtension(generator.base.inputFilePath);
      var rule := LookupRule(anygenPath, ext, host);
      if rule.Failure? {
        r := rule.error;
        assert generator.base.codeGeneratorProgress == old(generator.base.codeGeneratorProgress);
        assert generator.base.codeGeneratorProgress != null ==>
          generator.base.codeGeneratorProgress.reports == old(generator.base.codeGeneratorProgress.reports);
        assert generator.base.codeGeneratorProgress != null ==>
          generator.base.codeGeneratorProgress.reports + ErrorReports([]) == generator.base.codeGeneratorProgress.reports;
        return;
      }
      r := ApplyRule(rule.value, anygenPath, host);
    }

    /** Reads the configuration at `anygenPath`, parses it and finds the rule for
        `ext`, or the message saying which of these failed. */
    method LookupRule(anygenPath: string, ext: string, host: Host) returns (r: Result<Rule, Output>)
      ensures r == RuleLookup(anygenPath, ext, State(), host)
    {
      if anygenPath !in fileSystem {
        return Failure(Comment(ConfigMissing(anygenPath)));
      }
      var propertySheet := host.parseSheet(fileSystem[anygenPath]);
      if propertySheet.ParseFailed? {
        return Failure(Comment(ParseProblem(anygenPath, propertySheet.message, propertySheet.token)));
      }
      var rule := FindRule(propertySheet.rules, ext);
      if rule.None? {
        return Failure(Comment(RuleMissing(anygenPath, ext)));
      }
      r := Success(rule.value);
    }

    /** `GetVSProject().Project.FileName`: the project's file name, reached
        through the demand-created service provider; without a site that offers
        one, the lookup fails with `ArgumentNull`. */
    method ProjectFileName(host: Host) returns (r: Result<string, Exception>)
      requires Valid()
      modifies generator
      ensures Valid()
      ensures AsServiceProvider(generator.site).Some? ==> r == Success(host.projectFileName)
      ensures AsServiceProvider(generator.site).None? ==> r == Failure(ArgumentNull)
      ensures generator.site == old(generator.site) && generator.codeDomProvider == old(generator.codeDomProvider)
      ensures old(generator.serviceProvider) != null ==> generator.serviceProvider == old(generator.serviceProvider)
    {
      var project := generator.SiteServiceProvider();
      if project.Failure? {
        return Failure(project.error);
      }
      r := Success(host.projectFileName);
    }

    /** `GenerateCode` up to its `finally` block: looks up the project's
        configuration, finds the rule for the input's extension and applies it. */
    method GenerateBeforeCleanup(host: Host) returns (r: Output)
      requires Valid()
      modifies this, generator, generator.base.codeGeneratorProgress
      ensures Valid()
      ensures var t := Generation(Request(generator.base.inputFilePath, generator.base.fileNameSpace), old(State()), host,
                                AsServiceProvider(old(generator.site)).Some?,
                                DefaultExtensionFor(old(generator.site), old(generator.codeDomProvider)));
        && r == t.output
        && State() == t.world
        && (generator.base.codeGeneratorProgress != null ==>
              generator.base.codeGeneratorProgress.reports
                == old(generator.base.codeGeneratorProgress.reports) + ErrorReports(t.diagnostics))
        && generator.codeDomProvider
             == if t.queriedExtension then CacheAfter(old(generator.site), old(generator.codeDomProvider))
                else old(generator.codeDomProvider)
      ensures generator.site == old(generator.site)
      ensures old(generator.serviceProvider) != null ==> generator.serviceProvider == old(generator.serviceProvider)
    {
      ghost var request := Request(generator.base.inputFilePath, generator.base.fileNameSpace);
      ghost var outputType := DefaultExtensionFor(generator.site, generator.codeDomProvider);
      ghost var w := State();
      var project := ProjectFileName(host);
      if project.Failure? {
        r := Comment(ExceptionReport(project.error));
        return;
      }
      r := ApplyConfig(project.value, host);
    }

    /** `GenerateCode`: looks up the project's configuration, finds the rule for
        the input's extension, publishes the context in the environment, runs the
        rule's command and returns its result, or a message saying why it could
        not; temporary files are deleted on every way out. */
    method GenerateCode(inputFileContent: string, host: Host) returns (r: Output)
      requires Valid()
      modifies this, generator, generator.base.codeGeneratorProgress
      ensures Valid()
      ensures var t := Generation(Request(generator.base.inputFilePath, generator.base.fileNameSpace), old(State()), host,
                                AsServiceProvider(old(generator.site)).Some?,
                                DefaultExtensionFor(old(generator.site), old(generator.codeDomProvider)));
        && r == t.output
        && environment == t.world.environment
        && launched == t.world.launched
        && tmpFiles == t.world.tmpFiles
        && fileSystem == Cleanup(t.world.fileSystem, t.world.tmpFiles)
        && (generator.base.codeGeneratorProgress != null ==>
              generator.base.codeGeneratorProgress.reports
                == old(generator.base.codeGeneratorProgress.reports) + ErrorReports(t.diagnostics))
        && generator.codeDomProvider
             == if t.queriedExtension then CacheAfter(old(generator.site), old(generator.codeDomProvider))
                else old(generator.codeDomProvider)
      ensures generator.site == old(generator.site)
      ensures old(generator.serviceProvider) != null ==> generator.serviceProvider == old(generator.serviceProvider)
    {
      r := GenerateBeforeCleanup(host);
      DeleteTempFiles();
    }
  }
}

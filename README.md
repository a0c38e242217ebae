# AnyGen, modelled in Dafny

AnyGen is a Visual Studio "custom tool", a single-file generator. When a project
item names it, Visual Studio calls `Generate` with the item's path, text and
namespace. AnyGen does the following:

1. It looks for a `.anygen` property sheet beside the project file.
2. It picks the first rule whose class equals the input's extension, ignoring case.
3. It publishes the context in environment variables: `AG_PROJECTFILENAME`,
   `AG_INPUTFILENAME`, `AG_OUTPUTFILETYPE`, `AG_NAMESPACE` and `AG_CLASSNAME`.
4. It runs the rule's `command` through `cmd.exe`. A command containing a
   carriage return is written to a temporary `.cmd` script that first changes
   to the input's directory.
5. It turns the outcome into the generated file:
   - exit code 0 gives the trimmed text of the `result` source;
   - any other exit code reports every match of `error-rx` in the `errors`
     source to Visual Studio's progress sink, then gives a comment naming the
     command and both output streams;
   - a configuration problem gives a comment explaining it.
6. Temporary files are deleted on every way out.

The model follows the three classes of the generator.

| module | file | what it is |
|---|---|---|
| `CodeGenerator` | `code_generator.dfy` | `BaseCodeGenerator`: the `Generate` adapter, the progress sink, error and warning routing |
| `GeneratorWithSite` | `generator_with_site.dfy` | `BaseCodeGeneratorWithSite`: the site, the lazily created service provider and the memoised CodeDom provider, extension normalisation |
| `AnyGen` | `any_generator.dfy` | `AnyGenerator`: `GenerateCode`, `Exec`, `WriteTempScript`, the diagnostic loop, the `finally` clean-up |
| `Pipeline` | `pipeline.dfy` | the functions the `AnyGenerator` methods are proved against: `Generation`, `ConfigApplied`, `RuleLookup`, `RuleApplied`, `Published`, `SettingsApplied`, `Execute`, `Load`, `Prelaunch`, `Cleanup`, and the message texts |
| `PipelineProperties` | `pipeline_properties.dfy` | what those functions guarantee: at most one command, temporary files only for scripts, diagnostics exactly on failure, the published context, the early messages |
| `Rules` | `rules.dfy` | rule selection and reading a rule's properties |
| `Diagnostics` | `diagnostics.dfy` | a pattern match turned into a diagnostic and a progress report |
| `ClassNames` | `class_names.dfy` | the in-place class-name sanitiser |
| `Text`, `Paths`, `Wrappers` | `text.dfy`, `paths.dfy`, `wrappers.dfy` | the .NET string, number and path operations the code relies on; `Option` and `Result` |

Inheritance is modelled by composition:
- `AnyGenerator.generator` is the `CodeGeneratorWithSite` part.
- `CodeGeneratorWithSite.base` is the `BaseCodeGenerator` part.

The machine the generator acts on is held in fields of `AnyGenerator`:
- `fileSystem`: a map from path to contents;
- `environment`: the process environment;
- `tmpFiles`: the list of temporary files;
- `launched`: the argument lines `cmd.exe` was started with.

Several things come from outside and are parameters of type `Host`:
- the project's file name;
- the property-sheet parser;
- `Environment.ExpandEnvironmentVariables`;
- the name `Path.GetTempFileName` hands out;
- the process runner;
- the regular-expression engine.

The code is followed where it departs from its evident intent:
- The "missing command" guard (AnyGenerator.cs:137) tests the literal
  `"command"`, so it never fires. A rule without a `command` property reaches
  `Exec` with null and ends in a null-reference report.
  `PipelineProperties.NeverMissingCommand` proves this.
- `UInt32.TryParse` writes 0 into `level` when it fails, so the initial 1
  (AnyGenerator.cs:158) never survives. A match without a parsable `level` is
  reported with level 0 (`Diagnostics.LevelOfMatch`,
  `Diagnostics.ToolErrorExample`).
- `Load` switches on the expanded source name, but tests and reads the file
  under the unexpanded name (`Pipeline.LoadIgnoresExpandedFileName`).
- `tmpFiles` is never cleared. Every clean-up deletes every listed file that
  still exists, including those of earlier runs.
- A single-line command runs without the `cd` preamble, so it does not run in
  the input's directory.
- `GenerateCode` ignores the input text it is given.
- The rule properties are the ones the code reads: `command`, `result`,
  `errors`, `warnings`, `error-rx` and `warnings-rx`.

## Model

| member | source | states |
|---|---|---|
| CodeGenerator.GeneratorProgress.GeneratorError | BaseCodeGenerator.cs:126 | the sink receives the report with the warning flag, level, message, line and column as given, after all earlier ones |
| CodeGenerator.BaseCodeGenerator.constructor | BaseCodeGenerator.cs:20-23 | a fresh generator has empty input path and namespace and no progress sink |
| CodeGenerator.BaseCodeGenerator.Generate | BaseCodeGenerator.cs:70-101 | missing input text throws ArgumentNull with nothing changed; otherwise path, namespace and sink take the arguments; a missing result gives E_FAIL with byte count 0 and the caller's buffer untouched; a present result gives S_OK with its length and exactly those bytes in slot 0 (an empty buffer array throws) |
| CodeGenerator.BaseCodeGenerator.GeneratorError | BaseCodeGenerator.cs:123-128 | with a sink, appends one report with flag 0 and the arguments unchanged; without one, nothing happens |
| CodeGenerator.BaseCodeGenerator.GeneratorWarning | BaseCodeGenerator.cs:137-142 | the same with flag 1 |
| GeneratorWithSite.LeadingDots | BaseGeneratorWithSite.cs:126 | the number of leading '.' characters: all of them are dots and the next character is not |
| GeneratorWithSite.NormalizeExtension | BaseGeneratorWithSite.cs:124-128 | a null or empty extension is returned unchanged; any other becomes "." followed by the input with every leading dot removed, and the character after the "." is never '.' |
| GeneratorWithSite.NormalizeIdempotent | BaseGeneratorWithSite.cs:124-128 | normalising twice equals normalising once |
| GeneratorWithSite.ServiceProvider.constructor | BaseGeneratorWithSite.cs:41 | the provider wraps the site it was created for |
| GeneratorWithSite.CodeGeneratorWithSite.constructor | BaseCodeGenerator.cs:20-23 | empty path and namespace, no sink, no site, no caches |
| GeneratorWithSite.CodeGeneratorWithSite.SetSite | BaseGeneratorWithSite.cs:73-77 | the site is replaced and both caches are reset to null |
| GeneratorWithSite.CodeGeneratorWithSite.GetSite | BaseGeneratorWithSite.cs:53-67 | unsited fails with E_FAIL; a site without the interface fails with E_NOINTERFACE; otherwise the site is returned; nothing changes |
| GeneratorWithSite.CodeGeneratorWithSite.SiteServiceProvider | BaseGeneratorWithSite.cs:38-46 | an existing provider is returned unchanged; otherwise one is created at most once per site, wrapping the site, and a site that is not a service provider throws ArgumentNull |
| GeneratorWithSite.CodeGeneratorWithSite.GetCodeProvider | BaseGeneratorWithSite.cs:102-115 | returns the cached provider if any; otherwise the site's CodeDom provider, or C# when there is no CodeDom service; the result is cached |
| GeneratorWithSite.CachedProviderIsKept | BaseGeneratorWithSite.cs:103-114 | once a provider is cached, later calls return it and keep the cache |
| GeneratorWithSite.CodeGeneratorWithSite.GetDefaultExtension | BaseGeneratorWithSite.cs:121-129 | the normalised file extension of the code provider, with the cache updated as by GetCodeProvider |
| GeneratorWithSite.CodeGeneratorWithSite.DefaultExtension | BaseCodeGenerator.cs:46-57 | S_OK with the computed extension exactly when computing it succeeds, otherwise E_FAIL with "" |
| Text.LeadingWhiteSpace | AnyGenerator.cs:142-143 | the length of the white prefix: all white, followed by a non-white character or the end |
| Text.TrailingWhiteSpace | AnyGenerator.cs:142-143 | the same for the white suffix |
| Text.Trim | AnyGenerator.cs:142-143 | the result is the infix of the input that starts after its white prefix, only white text follows it, and it neither starts nor ends with white space |
| Text.TrimUntrimmed | AnyGenerator.cs:160-162 | text without white space at either end is unchanged by trimming |
| Text.TrimLeadingBlank | AnyGenerator.cs:160-162 | a leading blank is removed from otherwise trimmed text |
| Text.TrimIdempotent | AnyGenerator.cs:181 | trimming twice equals trimming once |
| Text.ToLower | AnyGenerator.cs:131-133 | same length; each upper-case letter A-Z becomes the lower-case letter 32 code points above it, every other character is kept, so no upper-case letter remains |
| Text.ParseUInt32 | AnyGenerator.cs:164-166 | parsing succeeds only on a text made of number white space (U+0009..U+000D, space), '+' and decimal digits, with at least one digit |
| Text.NoBreakSpaceRejected | AnyGenerator.cs:164-166 | a number preceded by a no-break space does not parse |
| Text.NumberSpaceAccepted | AnyGenerator.cs:164-166 | a number padded with a space before and CR LF after parses to its value |
| Text.ParseValue | AnyGenerator.cs:164-166 | the parsed number is the value of the trimmed digits after an optional '+', and digits worth 2^32 or more make parsing fail |
| Text.TryParseUInt32 | AnyGenerator.cs:164-166 | the out value is the parsed number, and 0 when parsing fails |
| Text.ParseBlank | AnyGenerator.cs:164-166 | white-only text does not parse and TryParse yields 0 |
| Text.DigitChar | AnyGenerator.cs:164-166 | the decimal digit of a value below 10 |
| Text.DecimalString | AnyGenerator.cs:164-166 | the decimal numeral of a number is non-empty, all digits, without a leading zero |
| Text.DecimalValue | AnyGenerator.cs:164-166 | the digits of a numeral have the number's value |
| Text.ParseDecimal | AnyGenerator.cs:164-166 | parsing the numeral of a 32-bit unsigned value gives that value back |
| Paths.FileNameStart | AnyGenerator.cs:99-100 | where the file-name part of a path starts: after the last separator |
| Paths.GetFileName | AnyGenerator.cs:99-100 | the file-name part holds no separator |
| Paths.FileNameIsSuffix | AnyGenerator.cs:99-100 | the file name is the suffix of the path after its last separator: a suffix, preceded by a separator unless it is the whole path |
| Paths.LastDot | AnyGenerator.cs:100 | the position of the last '.', with no '.' after it |
| Paths.GetExtension | AnyGenerator.cs:100 | empty, or "." followed by at least one character with no further dot or separator |
| Paths.ExtensionOfFileName | AnyGenerator.cs:100 | the extension is a suffix of the file name, empty exactly when the name has no '.' or ends with one |
| Paths.CutAtLastDot | AnyGenerator.cs:115 | a prefix of the name that is all of it when it has no '.', and otherwise ends just before its last '.' |
| Paths.GetFileNameWithoutExtension | AnyGenerator.cs:99-115 | the file name without its extension holds no separator |
| Paths.FileNameWithoutExtensionIsCut | AnyGenerator.cs:99-115 | it is the file name cut just before its last '.', or the whole name when it has none |
| Paths.GetDirectoryName | AnyGenerator.cs:141 | the directory part is empty or shorter than the path |
| Paths.DirectoryNameIsPrefix | AnyGenerator.cs:99-141 | empty when the path has no separator; otherwise the prefix of the path up to its last separator |
| Paths.RemoveDots | AnyGenerator.cs:100 | removing the dots leaves no dot and never lengthens the text |
| Paths.RemoveDotsConcat | AnyGenerator.cs:100 | removing dots distributes over concatenation |
| Paths.RemoveDotsChar | AnyGenerator.cs:100 | on one character it drops a dot and keeps anything else, so together with RemoveDotsConcat every other character is kept in order |
| Paths.RemoveDotsNone | AnyGenerator.cs:100 | text without dots is unchanged |
| Paths.ExtensionWithoutDot | AnyGenerator.cs:100 | the extension with its dots removed is the extension without its leading dot |
| Rules.FirstMatch | AnyGenerator.cs:107-109 | the position of the first rule whose class equals the extension ignoring case: no earlier rule matches |
| Rules.FindRule | AnyGenerator.cs:107-109 | none exactly when no rule matches; otherwise a rule of the sheet |
| Rules.EarlierRuleWins | AnyGenerator.cs:107-109 | of two matching rules, the earlier in document order is chosen |
| Rules.AsString | AnyGenerator.cs:129-135 | an absent property gives the default; a readable one gives its text; an unreadable one gives its error |
| Rules.ReadSettingsFailure | AnyGenerator.cs:129-135 | reading the settings fails exactly when some property is unreadable, and reports the first one in reading order |
| Rules.ReadSettings | AnyGenerator.cs:129-135 | the three sources of read settings hold no upper-case letter |
| Rules.ReadSettingsDefaults | AnyGenerator.cs:129-135 | an absent source is "stdout", a present one is its text lower-cased; the command and the two patterns are their texts as written, or absent |
| Diagnostics.ZeroBased | AnyGenerator.cs:168-171 | a positive value is decremented, 0 stays 0, so nothing underflows |
| Diagnostics.DiagnosticOf | AnyGenerator.cs:156-171 | row and column stay below the largest 32-bit value once made 0-based, so neither can wrap |
| Diagnostics.DiagnosticTextsTrimmed | AnyGenerator.cs:160-162 | file name, code and message are the match's groups of those names with surrounding white space removed, so neither starts nor ends with white space |
| Diagnostics.MatchDiagnostics | AnyGenerator.cs:153-175 | never more diagnostics than matches |
| Diagnostics.DiagnosticsFromSuccessfulMatches | AnyGenerator.cs:153-175 | every diagnostic is the diagnostic of a successful match |
| Diagnostics.ErrorReports | AnyGenerator.cs:173 | one report per diagnostic, in order, with flag 0 |
| Diagnostics.LevelOfMatch | AnyGenerator.cs:158-166 | the level is the parsed level group, and 0 when it is absent or does not parse |
| Diagnostics.PositionOfMatch | AnyGenerator.cs:164-171 | row and column groups holding n are reported as n-1, or 0 when n is 0 |
| Diagnostics.PositionOfAnyMatch | AnyGenerator.cs:164-171 | for any row or column group: a value `UInt32.TryParse` accepts is reported made 0-based, anything else as 0 |
| Diagnostics.AbsentPositionIsZero | AnyGenerator.cs:156-165 | an absent row or column group is reported as 0 |
| Diagnostics.DiagnosticsAppend | AnyGenerator.cs:153-175 | diagnostics follow match order |
| Diagnostics.ReportsOfPrefix | AnyGenerator.cs:153-175 | one more match adds exactly its own report, if it succeeded |
| Diagnostics.DiagnosticsOfOne | AnyGenerator.cs:155 | a failed match yields nothing, a successful one its diagnostic |
| Diagnostics.DiagnosticsCount | AnyGenerator.cs:153-175 | exactly one diagnostic per successful match |
| Diagnostics.DiagnosticsOfSuccessful | AnyGenerator.cs:153-175 | when every match succeeds, diagnostic k comes from match k |
| Diagnostics.ExamplePosition | AnyGenerator.cs:164-171 | "file.xml(4,2)" is reported at line 3, column 1 |
| Diagnostics.ExampleTexts | AnyGenerator.cs:160-162 | padded groups are reported trimmed |
| Diagnostics.ToolErrorExample | AnyGenerator.cs:156-173 | the whole diagnostic of that match, with level 0 since it has no level group |
| ClassNames.SanitizeChar | AnyGenerator.cs:118-119 | the result is always an allowed character |
| ClassNames.Sanitize | AnyGenerator.cs:115-120 | same length as the name, every character allowed |
| ClassNames.SanitizeAt | AnyGenerator.cs:117-120 | allowed characters are kept and every other one becomes '_' |
| ClassNames.SanitizeValid | AnyGenerator.cs:115-120 | a name of allowed characters is unchanged |
| ClassNames.SanitizeIdempotent | AnyGenerator.cs:115-120 | sanitising twice equals sanitising once |
| ClassNames.SanitizeClassName | AnyGenerator.cs:115-120 | the in-place loop over the character array yields the sanitised name |
| Pipeline.MessageText | AnyGenerator.cs:103-187 | each message ends with its last argument as the format string places it (the path, the path and CRLF, the stdout section, the property, the quoted token); an exception report is the exception's name |
| Pipeline.ConfigMissingNamesPath | AnyGenerator.cs:102-104 | the configuration-missing message names the path looked for |
| Pipeline.RuleMissingNamesExtensionAndPath | AnyGenerator.cs:111-113 | the rule-missing message names the extension and the configuration file |
| Pipeline.ToolFailedNamesCommandAndStreams | AnyGenerator.cs:178 | the tool-failure message holds the command, the trimmed stderr and the trimmed stdout |
| Pipeline.ConfigPath | AnyGenerator.cs:99 | lies directly beside the project: the project's directory, one '\\' unless the directory already ends with a separator, then the project's name without extension followed by ".anygen"; it is just that name when the project path has no directory |
| Pipeline.InputExtension | AnyGenerator.cs:100 | the input's extension without its leading dot, empty when it has none; no dot and no separator |
| Pipeline.SetVariable | AnyGenerator.cs:123-127 | a null or empty value removes the variable, any other sets it; no other variable changes |
| Pipeline.Load | AnyGenerator.cs:70-85 | an expanded name "stderr" gives stderr, "stdout" gives stdout; any other gives the contents of the file named by the unexpanded source if it exists, and "" otherwise |
| Pipeline.LoadIgnoresExpandedFileName | AnyGenerator.cs:71-84 | a source that is neither stream and does not exist unexpanded reads "" |
| Pipeline.Prelaunch | AnyGenerator.cs:50-65 | the environment is unchanged and the argument line is recorded as launched; a command with '\r' runs "/c" and the script path, adds the temporary name and the script to the list, creates the temporary file empty and the script with the preamble and the command, and leaves every other file as it was; any other runs "/c" and the command, with files and list unchanged |
| Pipeline.Execute | AnyGenerator.cs:141-181 | once a command has been started, the extension has been asked for |
| Pipeline.Generation | AnyGenerator.cs:92-191 | without a project the output is an ArgumentNull report; whenever the output extension was not asked for, the world is unchanged and nothing is reported |
| Pipeline.RuleLookup | AnyGenerator.cs:102-113 | a rule is found only when the configuration file exists, and its class equals the extension ignoring case; every failure is a comment |
| Pipeline.ConfigApplied | AnyGenerator.cs:102-113 | the output extension is asked for exactly when the lookup finds a rule; otherwise the output is the lookup's message, the world is unchanged and nothing is reported |
| Pipeline.LookupOutcomes | AnyGenerator.cs:102-187 | a missing file gives the configuration-missing message, an unparsable one the parse-problem message with the parser's message and token, a sheet without a matching rule the rule-missing message, and one with a matching rule its first such rule |
| Pipeline.RuleApplied | AnyGenerator.cs:115-181 | the same after a rule is found |
| Pipeline.SettingsApplied | AnyGenerator.cs:129-181 | the same once the settings are read |
| Pipeline.Cleanup | AnyGenerator.cs:192-196 | every listed file is gone and every other file is kept with its contents |
| PipelineProperties.PrelaunchStartsOne | AnyGenerator.cs:53-65 | one launch is recorded, with "/c" and the script path for a command holding '\r' and the command itself otherwise; the environment is unchanged |
| PipelineProperties.ExecuteEndsAfterLaunch | AnyGenerator.cs:141-181 | the world after the command is the world the process left, and the output is the tool's text, the failure message or an exception report |
| PipelineProperties.ExecuteRecordsOneLaunch | AnyGenerator.cs:41-65 | running the rule starts exactly one process, leaves the environment as it was, and adds the two temporary names only for a command containing a carriage return |
| PipelineProperties.AtMostOneCommand | AnyGenerator.cs:102-141 | a command is started exactly when a rule was found, the output extension computed and the rule has a command, and then exactly one; with no configuration, an unparsable one or no matching rule, nothing changes and nothing is reported |
| PipelineProperties.TemporaryFilesOnlyForScripts | AnyGenerator.cs:41-65 | the list of temporary files grows by the temporary name and its ".cmd" exactly when a command containing a carriage return runs, and is unchanged otherwise |
| PipelineProperties.ScriptHoldsPreambleAndCommand | AnyGenerator.cs:53-60 | the script holds the echo-off, setlocal and cd-to-directory preamble followed by the command, beside an empty temporary file |
| PipelineProperties.DiagnosticsOnlyOnFailure | AnyGenerator.cs:145-178 | errors are reported only after a non-zero exit with an error pattern, one per successful match, and the output is then the tool-failure message |
| PipelineProperties.DiagnosticsOnFailure | AnyGenerator.cs:145-178 | after a non-zero exit the output is the tool-failure message and the diagnostics are those of the pattern's matches in the errors source, or none without a pattern; a pattern the engine rejects gives an exception report |
| PipelineProperties.EarlyMessages | AnyGenerator.cs:102-187 | a missing configuration file gives the configuration-missing message naming its path, an unparsable one the parse-problem message with the parser's message and token, a sheet without a matching rule the rule-missing message naming path and extension; in each case nothing runs, nothing changes and nothing is reported |
| PipelineProperties.LateMessages | AnyGenerator.cs:115-184 | with a rule found, an output extension that cannot be computed gives its exception report with only AG_PROJECTFILENAME and AG_INPUTFILENAME set; an unreadable property gives the property-problem message for the first such property with all five variables set; nothing runs or is reported |
| PipelineProperties.RoutedThroughExecute | AnyGenerator.cs:102-181 | a request that runs its command ends exactly as Execute of that command in the world with the context published; any other request reports nothing and yields no code |
| PipelineProperties.CodeOnlyOnSuccess | AnyGenerator.cs:141-190 | the output is generated code exactly when the command exited with 0, and it is then the trimmed result source and nothing is reported; a command that cannot be started gives the launcher's exception report |
| PipelineProperties.NeverMissingCommand | AnyGenerator.cs:129-139 | the missing-command message is never produced; a rule without a command ends in a null-reference report |
| Pipeline.PublishedVariables | AnyGenerator.cs:123-127 | after the five assignments each AG_ variable is present exactly when its value is non-empty and then holds it; every other variable is as before |
| PipelineProperties.ContextPublished | AnyGenerator.cs:123-127 | the command runs in the starting environment with the project path, the input path, the output extension, the namespace and the sanitised class name published |
| AnyGen.AnyGenerator.constructor | AnyGenerator.cs:39 | no temporary files, nothing launched, an unsited generator |
| AnyGen.AnyGenerator.WriteTempScript | AnyGenerator.cs:41-48 | the temporary name and its ".cmd" are appended to the list, the first created empty, the second holding the script, whose path is returned |
| AnyGen.AnyGenerator.Exec | AnyGenerator.cs:50-68 | the process is started with the line and in the world Prelaunch describes, and the files are then as it left them |
| AnyGen.AnyGenerator.ReportMatch | AnyGenerator.cs:154-174 | a successful match adds exactly the report of its diagnostic; a failed one adds nothing |
| AnyGen.AnyGenerator.ReportErrors | AnyGenerator.cs:152-175 | the sink receives the reports of the diagnostics of the matches, in order |
| AnyGen.AnyGenerator.DeleteTempFiles | AnyGenerator.cs:192-196 | the files become Cleanup of the files and the list; nothing else changes |
| AnyGen.AnyGenerator.RunRule | AnyGenerator.cs:141-181 | output, world and reports are those of Execute |
| AnyGen.AnyGenerator.RunSettings | AnyGenerator.cs:129-181 | output, world and reports are those of SettingsApplied |
| AnyGen.AnyGenerator.PublishAndRun | AnyGenerator.cs:125-181 | the last three context variables are set and output, world and reports are then those of SettingsApplied |
| AnyGen.AnyGenerator.ApplyRule | AnyGenerator.cs:115-181 | output, world, reports and provider cache are those of RuleApplied |
| AnyGen.AnyGenerator.LookupRule | AnyGenerator.cs:102-113 | the rule, or the message ending the run, is RuleLookup's for the current files; nothing changes |
| AnyGen.AnyGenerator.ApplyConfig | AnyGenerator.cs:99-181 | output, world, reports and provider cache are those of ConfigApplied for the project's configuration path and the input's extension |
| AnyGen.AnyGenerator.ProjectFileName | AnyGenerator.cs:98 | the host's project file name when the site is a service provider, ArgumentNull otherwise; the site and the CodeDom cache are kept |
| AnyGen.AnyGenerator.GenerateBeforeCleanup | AnyGenerator.cs:92-191 | output, world, reports and provider cache are those of Generation |
| AnyGen.AnyGenerator.GenerateCode | AnyGenerator.cs:92-197 | output, environment, launches, temporary list and reports are those of Generation; the files are Cleanup of Generation's files; the provider cache changes only when the extension was asked for |

## Left out

- Registry registration (`Register`, `Unregister`, `RegisterClass`) and
  CodeGeneratorCustomAttribute.cs: they only write registry keys.
- The process runner, `cmd.exe`, the regular-expression engine, the
  property-sheet parser, `ExpandEnvironmentVariables` and `GetTempFileName`:
  they are parameters of `Host`. A pattern the engine rejects is modelled as
  an exception report.
- `GenerateMessage`, `GenerateExceptionMessage` and `WriteCode`: the CodeDom
  comment wrapping, the namespace declaration and UTF-8 encoding are not
  modelled. A message is the `Message` value, with its text given by
  `Pipeline.MessageText`.
- Pipeline.MessageText: an exception's text is reduced to its type name (or
  the launcher's description); the .NET message and stack trace are not
  modelled.
- `GetVSProject` and `GetService`: the project lookup is reduced to whether
  the site is a service provider. A `ServiceProvider` over a missing site
  throws `ArgumentNullException`, which is the Visual Studio shell's behaviour
  and not visible here. The project's file name comes from the host.
- `GetCodeProvider`'s `IVSMDCodeDomProvider` cast is reduced to the site's
  CodeDom service offering a provider or not.
- COM marshalling (`QueryInterface`, `AllocCoTaskMem`, `Marshal.Copy`): the
  output buffer is an array slot holding the bytes.
- `TryHardToDeleteFile`: deletion always succeeds.
- Text.ToLower: only ASCII letters are folded. Culture-sensitive case rules are
  not modelled, and rule classes are compared with the same folding.
- Text.ParseUInt32: digits with an optional '+' and surrounding number white
  space; a '-' sign, as in "-0", is not accepted, and culture-specific digits,
  a trailing NUL and thousands separators are not modelled.
- Paths.GetDirectoryName: at a drive root the model gives the volume without
  its separator ("C:" for "C:\a.xml") where .NET gives "C:\", and it gives ""
  where .NET gives null for a root path. For a project at a drive root the
  modelled `ConfigPath` is then the drive-relative "C:name.anygen" instead of
  "C:\name.anygen", and for an input at a drive root the script preamble
  changes to "C:" rather than "C:\". Other path normalisation (repeated
  separators, UNC roots) is not modelled.
- Paths.Combine: a second path that is rooted replaces the first; path roots,
  invalid characters and normalisation are not modelled.
- The input file path is assumed non-null: it is a `string` in the model.
  `Generate` sets it from its first argument (BaseCodeGenerator.cs:63), which
  the host could pass as null; the code then fails in `Path.GetExtension`, which
  the model does not represent.
- Pipeline.Execute, Pipeline.RuleApplied, Pipeline.SettingsApplied: their own
  contracts only say that the extension was asked for. Their outcomes are stated
  by lemmas: `RoutedThroughExecute` ties a running request to `Execute`, whose
  outcomes `CodeOnlyOnSuccess`, `DiagnosticsOnlyOnFailure` and
  `DiagnosticsOnFailure` give, and `LateMessages` states the outcomes of
  `RuleApplied` and `SettingsApplied` that stop before the command.
- File names and environment-variable names are compared exactly, where
  Windows ignores case. This affects the lookup of the configuration file
  (AnyGenerator.cs:102), of a rule's `result` and `errors` sources, which are
  lower-cased first (AnyGenerator.cs:131-132) and then looked up
  (AnyGenerator.cs:79-80), and `SetVariable`. So a
  rule with `result: "Gen\Out.cs"` looks up "gen\out.cs" and reads "" in the
  model when the file is stored as "Gen\Out.cs", where Windows reads the file;
  and an existing `ag_classname` variable stays beside the new `AG_CLASSNAME`
  instead of being replaced.
- Concurrency: the environment and files are the generator's alone for the
  duration of a call.
- The `warnings` and `warnings-rx` properties are read (and can fail) but not
  used, as in the code.

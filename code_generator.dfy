/** The single-file-generator adapter (`BaseCodeGenerator`): it records the request
    in its fields, runs the concrete generator and hands the produced bytes back to
    the host, and forwards errors and warnings to the host's progress sink. */
module CodeGenerator {
  import opened Wrappers
  import opened Text

  /** HRESULT values, as the signed 32-bit integers COM returns. */
  const S_OK: int := 0
  const E_FAIL: int := -2147467259          // 0x80004005
  const E_NOINTERFACE: int := -2147467262   // 0x80004002

  type Byte = b: int | 0 <= b < 256

  /** The exceptions the modelled code throws or catches. */
  datatype Exception =
    | ArgumentNull
    | NullReference
    | IndexOutOfRange
    | ComError(hresult: int)
    | ProcessError(description: string)
    | PatternError(pattern: string)

  /** One call of `IVsGeneratorProgress.GeneratorError`: `fWarning` is 0 for an
      error and 1 for a warning. */
  datatype ProgressReport = ProgressReport(fWarning: int, level: UInt32, message: string, line: UInt32, column: UInt32)

  /** The host's progress sink; it keeps every report it receives, in order. */
  class GeneratorProgress {
    var reports: seq<ProgressReport>

    constructor ()
      ensures reports == []
    {
      reports := [];
    }

    method GeneratorError(fWarning: int, level: UInt32, message: string, line: UInt32, column: UInt32)
      modifies this
      ensures reports == old(reports) + [ProgressReport(fWarning, level, message, line, column)]
    {
      reports := reports + [ProgressReport(fWarning, level, message, line, column)];
    }
  }

  /** What the concrete generator is given: the fields `Generate` has just stored
      and the input file's contents. */
  datatype CodeRequest = CodeRequest(inputFilePath: string, fileNameSpace: string, inputFileContent: string)

  /** How a call of `Generate` ends: a returned HRESULT with the byte count, or an
      exception thrown to the host. */
  datatype GenerateResult = Returned(hresult: int, pcbOutput: nat) | Threw(exception: Exception)

  class BaseCodeGenerator {
    var fileNameSpace: string
    var inputFilePath: string
    var codeGeneratorProgress: GeneratorProgress?

    constructor ()
      ensures inputFilePath == "" && fileNameSpace == "" && codeGeneratorProgress == null
    {
      inputFilePath := "";
      fileNameSpace := "";
      codeGeneratorProgress := null;
    }

    /** `IVsSingleFileGenerator.Generate`. A missing input text throws before any
        field changes; otherwise the three fields take the arguments, the concrete
        generator runs, and a missing result gives E_FAIL with no bytes while a
        present one is copied into `outputFileContents[0]` with S_OK and its length. */
    method Generate(inputFilePath: string, inputFileContents: Option<string>, defaultNamespace: string,
                    outputFileContents: array<seq<Byte>>, pGenerateProgress: GeneratorProgress?,
                    generateCode: CodeRequest -> Option<seq<Byte>>)
      returns (r: GenerateResult)
      modifies this, outputFileContents
      ensures inputFileContents.None? ==>
        r == Threw(ArgumentNull) && unchanged(this) && unchanged(outputFileContents)
      ensures inputFileContents.Some? ==>
        && this.inputFilePath == inputFilePath
        && fileNameSpace == defaultNamespace
        && codeGeneratorProgress == pGenerateProgress
      ensures inputFileContents.Some? ==>
        match generateCode(CodeRequest(inputFilePath, defaultNamespace, inputFileContents.value))
        case None =>
          r == Returned(E_FAIL, 0) && unchanged(outputFileContents)
        case Some(bytes) =>
          if outputFileContents.Length == 0 then
            r == Threw(IndexOutOfRange) && unchanged(outputFileContents)
          else
            r == Returned(S_OK, |bytes|) && outputFileContents[..] == old(outputFileContents[..])[0 := bytes]
    {
      if inputFileContents.None? {
        return Threw(ArgumentNull);
      }
      this.inputFilePath := inputFilePath;
      fileNameSpace := defaultNamespace;
      codeGeneratorProgress := pGenerateProgress;

      var bytes := generateCode(CodeRequest(this.inputFilePath, fileNameSpace, inputFileContents.value));
      if bytes.None? {
        // only the local copy of the out-array is cleared; the caller's array is untouched
        r := Returned(E_FAIL, 0);
      } else if outputFileContents.Length == 0 {
        r := Threw(IndexOutOfRange);
      } else {
        outputFileContents[0] := bytes.value;
        r := Returned(S_OK, |bytes.value|);
      }
    }

    /** Reports an error (warning flag 0) to the progress sink, if there is one. */
    method GeneratorError(level: UInt32, message: string, line: UInt32, column: UInt32)
      modifies codeGeneratorProgress
      ensures codeGeneratorProgress != null ==>
        codeGeneratorProgress.reports == old(codeGeneratorProgress.reports) + [ProgressReport(0, level, message, line, column)]
    {
      var progress := codeGeneratorProgress;
      if progress != null {
        progress.GeneratorError(0, level, message, line, column);
      }
    }

    /** Reports a warning (warning flag 1) to the progress sink, if there is one. */
    method GeneratorWarning(level: UInt32, message: string, line: UInt32, column: UInt32)
      modifies codeGeneratorProgress
      ensures codeGeneratorProgress != null ==>
        codeGeneratorProgress.reports == old(codeGeneratorProgress.reports) + [ProgressReport(1, level, message, line, column)]
    {
      var progress := codeGeneratorProgress;
      if progress != null {
        progress.GeneratorError(1, level, message, line, column);
      }
    }
  }
}

/**
 * The write-violations-report handler (src/tools/tools.ts:538-617): the same
 * summary as summarize-violations, written to
 * `<outputDirectory>/accessibility-test-results/<uuid>.sarif`, creating the
 * folder when it is missing, and returned as the tool's answer.
 *
 * The file system is a class whose state the handler changes; the output
 * directory, the fresh uuid and the JSON serialisation are parameters, and
 * each file-system call's rejection is an input.
 */
module Report {
  import opened Wrappers
  import opened Schema
  import opened Summary

  const ResultsFolder: string := "accessibility-test-results"
  const ReportExtension: string := ".sarif"
  const SummaryErrorPrefix: string := "Error summarizing violations content: "

  /** `path.join(a, b)` for a relative `b`, without normalisation. */
  function JoinPath(a: string, b: string): string
  {
    a + "/" + b
  }

  function ResultsDirectory(outputDirectory: string): string
  {
    JoinPath(outputDirectory, ResultsFolder)
  }

  /** Where the report for `uuid` goes (tools.ts:567-578). */
  function ReportPath(outputDirectory: string, uuid: string): string
  {
    JoinPath(ResultsDirectory(outputDirectory), uuid + ReportExtension)
  }

  /** Reports written under different uuids never overwrite each other. */
  lemma ReportPathsDistinct(outputDirectory: string, u1: string, u2: string)
    requires u1 != u2
    ensures ReportPath(outputDirectory, u1) != ReportPath(outputDirectory, u2)
  {
    var prefix := ResultsDirectory(outputDirectory) + "/";
    assert ReportPath(outputDirectory, u1) == prefix + u1 + ReportExtension;
    assert ReportPath(outputDirectory, u2) == prefix + u2 + ReportExtension;
    if |u1| == |u2| {
      assert (prefix + u1 + ReportExtension)[|prefix|..|prefix| + |u1|] == u1;
      assert (prefix + u2 + ReportExtension)[|prefix|..|prefix| + |u2|] == u2;
    }
  }

  /**
   * What write-violations-report answers: `dirExists` is whether the
   * results folder is there already, `mkdirFailure` and `writeFailure` the
   * rejections of creating it and of writing the file.
   */
  function ReportResponse(input: SummaryInput, dirExists: bool, mkdirFailure: Option<string>, writeFailure: Option<string>)
    : Response<FormattedSummary>
  {
    var issues := SummaryIssues(input);
    if issues != [] then Rejected(issues)
    else if !dirExists && mkdirFailure.Some? then ToolError(SummaryErrorPrefix + mkdirFailure.value)
    else if writeFailure.Some? then ToolError(SummaryErrorPrefix + writeFailure.value)
    else Payload(Summarize(input.violations))
  }

  /** Without a file-system failure, the report tool answers exactly what the summary tool answers. */
  lemma ReportAnswersLikeSummary(input: SummaryInput, dirExists: bool)
    ensures ReportResponse(input, dirExists, None, None) == SummarizeTool(input)
  {
  }

  /** The report tool fails only on a valid input and a file-system rejection that happens. */
  lemma ReportFailsOnlyOnIo(input: SummaryInput, dirExists: bool, mkdirFailure: Option<string>, writeFailure: Option<string>)
    ensures ReportResponse(input, dirExists, mkdirFailure, writeFailure).ToolError? <==>
      ValidSummaryInput(input) && ((!dirExists && mkdirFailure.Some?) || writeFailure.Some?)
    ensures ReportResponse(input, dirExists, mkdirFailure, writeFailure).Rejected? <==> !ValidSummaryInput(input)
    ensures dirExists ==>
      ReportResponse(input, dirExists, mkdirFailure, writeFailure) == ReportResponse(input, dirExists, None, writeFailure)
  {
  }

  /** The directories and files the handler can see. */
  class FileSystem {
    var directories: set<string>
    var files: map<string, string>

    constructor (directories: set<string>, files: map<string, string>)
      ensures this.directories == directories && this.files == files
    {
      this.directories := directories;
      this.files := files;
    }

    /** `fs.existsSync(p)`, for a directory. */
    predicate DirectoryExists(p: string)
      reads this
    {
      p in directories
    }

    /** `fs.mkdirSync(p, { recursive: true })`; `failure` is its rejection, if any. */
    method MakeDirectory(p: string, failure: Option<string>) returns (error: Option<string>)
      modifies this
      ensures error == failure
      ensures directories == if failure.None? then old(directories) + {p} else old(directories)
      ensures files == old(files)
    {
      error := failure;
      if failure.None? {
        directories := directories + {p};
      }
    }

    /** `fs.writeFile(p, content)`, which replaces any earlier content. */
    method WriteFile(p: string, content: string, failure: Option<string>) returns (error: Option<string>)
      modifies this
      ensures error == failure
      ensures directories == old(directories)
      ensures files == if failure.None? then old(files)[p := content] else old(files)
    {
      error := failure;
      if failure.None? {
        files := files[p := content];
      }
    }
  }

  /**
   * The handler. `render` is the JSON serialisation of the summary, the
   * same for the file and the answer.
   */
  method WriteViolationsReport(fs: FileSystem, input: SummaryInput, outputDirectory: string, uuid: string,
                               render: FormattedSummary -> string,
                               mkdirFailure: Option<string>, writeFailure: Option<string>)
    returns (response: Response<FormattedSummary>)
    modifies fs
    ensures var dir := ResultsDirectory(outputDirectory);
      && response == ReportResponse(input, dir in old(fs.directories), mkdirFailure, writeFailure)
      && fs.directories ==
           (if ValidSummaryInput(input) && (dir in old(fs.directories) || mkdirFailure.None?)
            then old(fs.directories) + {dir} else old(fs.directories))
      && fs.files ==
           (if response.Payload? then old(fs.files)[ReportPath(outputDirectory, uuid) := render(response.value)]
            else old(fs.files))
  {
    var issues := SummaryIssues(input);
    if issues != [] {
      return Rejected(issues);
    }
    var summary := Summarize(input.violations);
    var dir := ResultsDirectory(outputDirectory);
    if !fs.DirectoryExists(dir) {
      var failed := fs.MakeDirectory(dir, mkdirFailure);
      if failed.Some? {
        return ToolError(SummaryErrorPrefix + failed.value);
      }
    }
    var failed := fs.WriteFile(ReportPath(outputDirectory, uuid), render(summary), writeFailure);
    if failed.Some? {
      return ToolError(SummaryErrorPrefix + failed.value);
    }
    response := Payload(summary);
  }
}

/**
 * Fetching the build and test summaries of an .xcresult bundle
 * (src/xcresult-parser.ts). The command-line tool is an object that logs
 * every invocation and answers it with a fixed sequence of stdout chunks;
 * JSON parsing is a parameter that either yields a value or an error message.
 */
module XcresultParser {
  import opened Wrappers
  import opened Json
  import opened Text
  import opened Types
  import opened Utils

  /** The three reports the fetcher asks `xcresulttool` for. */
  datatype Request = BuildSummary | TestSummary | TestDetails

  /** One run of an external program with its argument list. */
  datatype Invocation = Invocation(program: string, args: seq<string>)

  /** `xcresulttool get <subject> <form> --path <path>`. */
  function Arguments(request: Request, path: string): (args: seq<string>)
    ensures |args| == 6 && args[..2] == ["xcresulttool", "get"] && args[4..] == ["--path", path]
  {
    match request
    case BuildSummary => ["xcresulttool", "get", "build-results", "summary", "--path", path]
    case TestSummary => ["xcresulttool", "get", "test-results", "summary", "--path", path]
    case TestDetails => ["xcresulttool", "get", "test-results", "tests", "--path", path]
  }

  /** Every report is fetched by running `xcrun`. */
  function Call(request: Request, path: string): Invocation
  {
    Invocation("xcrun", Arguments(request, path))
  }

  lemma CallsAreDistinct(path: string)
    ensures Call(BuildSummary, path) != Call(TestSummary, path)
    ensures Call(TestSummary, path) != Call(TestDetails, path)
    ensures Call(BuildSummary, path) != Call(TestDetails, path)
  {
    assert Call(BuildSummary, path).args[2] == "build-results";
    assert Call(TestSummary, path).args[3] == "summary";
    assert Call(TestDetails, path).args[3] == "tests";
  }

  /** What the stdout listener collects: the chunks of one run, in order. */
  function Stdout(output: Invocation -> seq<string>, request: Request, path: string): string
  {
    Concat(output(Call(request, path)))
  }

  /** A stdout listener: appends every chunk it is given to the buffer. */
  method Listen(buffer: string, chunks: seq<string>) returns (collected: string)
    ensures collected == buffer + Concat(chunks)
  {
    collected := buffer;
    for i := 0 to |chunks|
      invariant collected == buffer + Concat(chunks[..i])
    {
      assert chunks[..i + 1][..i] == chunks[..i];
      collected := collected + chunks[i];
    }
    assert chunks[..|chunks|] == chunks;
  }

  /** The `xcrun` command line: a log of its invocations and the stdout each produces. */
  class Xcrun {
    const output: Invocation -> seq<string>
    var calls: seq<Invocation>

    constructor(output: Invocation -> seq<string>)
      ensures this.output == output && calls == []
    {
      this.output := output;
      calls := [];
    }

    /** `exec.exec`: records the run and feeds its stdout to the listener of `buffer`. */
    method Exec(program: string, args: seq<string>, buffer: string) returns (collected: string)
      modifies this
      ensures calls == old(calls) + [Invocation(program, args)]
      ensures collected == buffer + Concat(output(Invocation(program, args)))
    {
      calls := calls + [Invocation(program, args)];
      collected := Listen(buffer, output(Invocation(program, args)));
    }
  }

  /** The result of a fetch (a summary or the message of the error raised) and the runs it made. */
  datatype Fetch = Fetch(outcome: Result<XcresultSummaryResult, string>, calls: seq<Invocation>)

  const InvalidBuildResult := "Invalid build result format"
  const InvalidTestResult := "Invalid test result format"
  const BuildParseError := "Failed to parse build result JSON: "
  const TestParseError := "Failed to parse test result JSON: "

  /** `parsedBuildResult.status !== 'failed'` on a value the build guard accepted. */
  predicate BuildFailed(build: Value)
    requires IsBuildResult(build)
  {
    build.fields["status"] == JString("failed")
  }

  /** Whether the build summary parses, passes its guard and reports a status other than "failed". */
  predicate ReachesTests(output: Invocation -> seq<string>, path: string, parse: string -> Result<Value, string>)
  {
    var build := parse(Stdout(output, BuildSummary, path));
    build.Success? && IsBuildResult(build.value) && !BuildFailed(build.value)
  }

  /**
   * The test summary as returned: its `testFailures` replaced by the failures
   * extracted from the test tree when the summary has a truthy `testFailures`
   * (an empty array is truthy), left as it was otherwise.
   */
  function WithExtractedFailures(summary: Value, details: Value): (test: TestResult)
    ensures test.(testFailures := AsTestResult(summary).testFailures) == AsTestResult(summary)
    ensures FieldTruthy(summary, "testFailures") ==>
      test.testFailures == Some(Failures(AsDetailedTestResult(details).testNodes))
    ensures !FieldTruthy(summary, "testFailures") ==> test == AsTestResult(summary)
  {
    if FieldTruthy(summary, "testFailures")
    then AsTestResult(summary).(testFailures := Some(Failures(AsDetailedTestResult(details).testNodes)))
    else AsTestResult(summary)
  }

  /**
   * `getXcresultSummary`: the build summary is fetched, parsed and checked;
   * a failed build stops there, otherwise the test summary and the test
   * tree are fetched (in that order), then parsed and checked.
   */
  function FetchSummary(output: Invocation -> seq<string>, path: string, parse: string -> Result<Value, string>): (fetch: Fetch)
    ensures |fetch.calls| == 1 || |fetch.calls| == 3
    ensures fetch.calls[0] == Call(BuildSummary, path)
    ensures |fetch.calls| == 3 <==> ReachesTests(output, path, parse)
    ensures |fetch.calls| == 3 ==> fetch.calls[1] == Call(TestSummary, path) && fetch.calls[2] == Call(TestDetails, path)
    ensures fetch.outcome.Success? ==>
      var build := parse(Stdout(output, BuildSummary, path));
      build.Success? && IsBuildResult(build.value) && fetch.outcome.value.buildResult == AsBuildResult(build.value)
    ensures fetch.outcome.Success? ==> (fetch.outcome.value.testResult.None? <==> |fetch.calls| == 1)
  {
    var buildCall := Call(BuildSummary, path);
    match parse(Stdout(output, BuildSummary, path))
    case Failure(message) => Fetch(Failure(BuildParseError + message), [buildCall])
    case Success(build) =>
      if !IsBuildResult(build) then Fetch(Failure(InvalidBuildResult), [buildCall])
      else if BuildFailed(build) then Fetch(Success(XcresultSummaryResult(AsBuildResult(build), None)), [buildCall])
      else
        var calls := [buildCall, Call(TestSummary, path), Call(TestDetails, path)];
        match TestOutcome(output, path, parse)
        case Failure(message) => Fetch(Failure(message), calls)
        case Success(test) => Fetch(Success(XcresultSummaryResult(AsBuildResult(build), Some(test))), calls)
  }

  /**
   * The test phase of `getXcresultSummary`: both test reports parsed (the
   * summary first), then checked by their guards, then the failures extracted.
   */
  function TestOutcome(output: Invocation -> seq<string>, path: string, parse: string -> Result<Value, string>)
    : (outcome: Result<TestResult, string>)
    ensures outcome.Success? <==>
      var summary := parse(Stdout(output, TestSummary, path));
      var details := parse(Stdout(output, TestDetails, path));
      summary.Success? && details.Success? && IsTestResult(summary.value) && IsDetailedTestResult(details.value)
    ensures outcome.Success? ==>
      outcome.value == WithExtractedFailures(parse(Stdout(output, TestSummary, path)).value, parse(Stdout(output, TestDetails, path)).value)
  {
    match parse(Stdout(output, TestSummary, path))
    case Failure(message) => Failure(TestParseError + message)
    case Success(summary) =>
      match parse(Stdout(output, TestDetails, path))
      case Failure(message) => Failure(TestParseError + message)
      case Success(details) =>
        if !IsTestResult(summary) || !IsDetailedTestResult(details) then Failure(InvalidTestResult)
        else Success(WithExtractedFailures(summary, details))
  }

  /** Runs the two test reports, in order, and returns the test summary or the error raised. */
  method FetchTestResult(tool: Xcrun, path: string, parse: string -> Result<Value, string>)
    returns (result: Result<TestResult, string>)
    modifies tool
    ensures result == TestOutcome(tool.output, path, parse)
    ensures tool.calls == old(tool.calls) + [Call(TestSummary, path), Call(TestDetails, path)]
  {
    var testSummaryOutput := "";
    var testDetailsOutput := "";
    testSummaryOutput := tool.Exec("xcrun", Arguments(TestSummary, path), testSummaryOutput);
    testDetailsOutput := tool.Exec("xcrun", Arguments(TestDetails, path), testDetailsOutput);
    assert testSummaryOutput == Stdout(tool.output, TestSummary, path);
    assert testDetailsOutput == Stdout(tool.output, TestDetails, path);

    var parsedSummary := parse(testSummaryOutput);
    if parsedSummary.Failure? {
      return Failure(TestParseError + parsedSummary.error);
    }
    var parsedDetails := parse(testDetailsOutput);
    if parsedDetails.Failure? {
      return Failure(TestParseError + parsedDetails.error);
    }
    if !IsTestResult(parsedSummary.value) || !IsDetailedTestResult(parsedDetails.value) {
      return Failure(InvalidTestResult);
    }

    var summary := AsTestResult(parsedSummary.value);
    if FieldTruthy(parsedSummary.value, "testFailures") {
      var failures := ExtractTestFailures(AsDetailedTestResult(parsedDetails.value));
      FailuresAreFailedCasesInPreOrder(AsDetailedTestResult(parsedDetails.value).testNodes);
      summary := summary.(testFailures := Some(failures));
    }
    return Success(summary);
  }

  /** `getXcresultSummary` on the tool object: runs the tool and returns the summary or the error raised. */
  method GetXcresultSummary(tool: Xcrun, path: string, parse: string -> Result<Value, string>)
    returns (result: Result<XcresultSummaryResult, string>)
    modifies tool
    ensures result == FetchSummary(tool.output, path, parse).outcome
    ensures tool.calls == old(tool.calls) + FetchSummary(tool.output, path, parse).calls
  {
    var buildOutput := "";
    buildOutput := tool.Exec("xcrun", Arguments(BuildSummary, path), buildOutput);
    assert buildOutput == Stdout(tool.output, BuildSummary, path);

    var parsedBuild := parse(buildOutput);
    if parsedBuild.Failure? {
      return Failure(BuildParseError + parsedBuild.error);
    }
    var build := parsedBuild.value;
    if !IsBuildResult(build) {
      return Failure(InvalidBuildResult);
    }

    var testResult: Option<TestResult> := None;
    if build.fields["status"] != JString("failed") {
      var tests := FetchTestResult(tool, path, parse);
      if tests.Failure? {
        return Failure(tests.error);
      }
      testResult := Some(tests.value);
    }
    return Success(XcresultSummaryResult(AsBuildResult(build), testResult));
  }

  /** A build summary that does not parse is reported with the parser's message, and nothing else is run. */
  lemma BuildParseFailureStops(output: Invocation -> seq<string>, path: string, parse: string -> Result<Value, string>)
    requires parse(Stdout(output, BuildSummary, path)).Failure?
    ensures FetchSummary(output, path, parse) ==
      Fetch(Failure(BuildParseError + parse(Stdout(output, BuildSummary, path)).error), [Call(BuildSummary, path)])
  {
  }

  /** A build summary the guard rejects is reported as an invalid format, and nothing else is run. */
  lemma InvalidBuildResultStops(output: Invocation -> seq<string>, path: string, parse: string -> Result<Value, string>)
    requires parse(Stdout(output, BuildSummary, path)).Success?
    requires !IsBuildResult(parse(Stdout(output, BuildSummary, path)).value)
    ensures FetchSummary(output, path, parse) == Fetch(Failure(InvalidBuildResult), [Call(BuildSummary, path)])
  {
  }

  /** A failed build is returned with no test result after the one run, whatever the test reports would hold. */
  lemma FailedBuildShortCircuits(output: Invocation -> seq<string>, path: string, parse: string -> Result<Value, string>)
    requires parse(Stdout(output, BuildSummary, path)).Success?
    requires IsBuildResult(parse(Stdout(output, BuildSummary, path)).value)
    requires BuildFailed(parse(Stdout(output, BuildSummary, path)).value)
    ensures FetchSummary(output, path, parse) ==
      Fetch(Success(XcresultSummaryResult(AsBuildResult(parse(Stdout(output, BuildSummary, path)).value), None)),
            [Call(BuildSummary, path)])
  {
  }

  /**
   * Once the tests are fetched, a test report that does not parse is an
   * error carrying the message of the first one that fails, the summary's
   * before the tree's; no partial result is returned.
   */
  lemma TestParseFailure(output: Invocation -> seq<string>, path: string, parse: string -> Result<Value, string>)
    requires ReachesTests(output, path, parse)
    requires parse(Stdout(output, TestSummary, path)).Failure? || parse(Stdout(output, TestDetails, path)).Failure?
    ensures FetchSummary(output, path, parse).outcome ==
      Failure(TestParseError +
        if parse(Stdout(output, TestSummary, path)).Failure?
        then parse(Stdout(output, TestSummary, path)).error
        else parse(Stdout(output, TestDetails, path)).error)
  {
  }

  /** Two parsed test reports of which either fails its guard give the invalid test format error. */
  lemma InvalidTestResultFails(output: Invocation -> seq<string>, path: string, parse: string -> Result<Value, string>)
    requires ReachesTests(output, path, parse)
    requires parse(Stdout(output, TestSummary, path)).Success? && parse(Stdout(output, TestDetails, path)).Success?
    requires !IsTestResult(parse(Stdout(output, TestSummary, path)).value)
             || !IsDetailedTestResult(parse(Stdout(output, TestDetails, path)).value)
    ensures FetchSummary(output, path, parse).outcome == Failure(InvalidTestResult)
  {
  }

  /**
   * With all three reports valid, the result holds the build summary and the
   * test summary; the test summary's failures become one record per failed
   * test case of the test tree, in pre-order, exactly when the summary had
   * a truthy `testFailures`, and are left as they were otherwise.
   */
  lemma SuccessfulFetch(output: Invocation -> seq<string>, path: string, parse: string -> Result<Value, string>)
    requires ReachesTests(output, path, parse)
    requires parse(Stdout(output, TestSummary, path)).Success? && parse(Stdout(output, TestDetails, path)).Success?
    requires IsTestResult(parse(Stdout(output, TestSummary, path)).value)
    requires IsDetailedTestResult(parse(Stdout(output, TestDetails, path)).value)
    ensures
      var summary := parse(Stdout(output, TestSummary, path)).value;
      var details := AsDetailedTestResult(parse(Stdout(output, TestDetails, path)).value);
      var fetch := FetchSummary(output, path, parse);
      && fetch.outcome.Success?
      && fetch.outcome.value.buildResult == AsBuildResult(parse(Stdout(output, BuildSummary, path)).value)
      && fetch.outcome.value.testResult.Some?
      && fetch.outcome.value.testResult.value.(testFailures := AsTestResult(summary).testFailures) == AsTestResult(summary)
      && fetch.outcome.value.testResult.value.testFailures ==
           if FieldTruthy(summary, "testFailures")
           then Some(FailureRecords(FailedTestCases(PreOrder(details.testNodes))))
           else AsTestResult(summary).testFailures
  {
    FailuresAreFailedCasesInPreOrder(AsDetailedTestResult(parse(Stdout(output, TestDetails, path)).value).testNodes);
  }

  /** An empty `testFailures` array is truthy, so it is replaced by the extracted failures too. */
  lemma EmptyTestFailuresAreReplaced(summary: Value, details: Value)
    requires summary.JObject? && "testFailures" in summary.fields
    requires summary.fields["testFailures"] == JArray([])
    ensures WithExtractedFailures(summary, details).testFailures == Some(Failures(AsDetailedTestResult(details).testNodes))
  {
  }

  /** A summary without `testFailures` keeps it absent. */
  lemma AbsentTestFailuresStayAbsent(summary: Value, details: Value)
    requires summary.JObject? && "testFailures" !in summary.fields
    ensures WithExtractedFailures(summary, details).testFailures.None?
  {
    assert AsTestResult(summary).testFailures.None?;
  }
}

/**
 * The Markdown report of a build and its tests (src/markdown-generator.ts).
 * The report is a sequence of sections, each emitted only when its guard
 * holds. The workspace root (the GITHUB_WORKSPACE variable, or "" when it is
 * unset) and the formatting of durations are parameters.
 */
module MarkdownGenerator {
  import opened Wrappers
  import opened Text
  import opened Types

  /** Formats the time between two instants, in seconds, as minutes with two decimals. */
  type MinutesFormat = (int, int) -> string

  const TestStatisticsHeading := "## Test Statistics\n\n"
  const StatisticsHeader := "| \U{2705} Passed | \U{274C} Failed | \U{23ED}\U{FE0F} Skipped | \U{1F504} Expected | \U{1F4CA} Total |\n"
  const StatisticsRule := "|-----------|-----------|------------|-------------|----------|\n"
  const TestResultsHeading := "## Test Results\n\n"
  const TestFailuresHeading := "### \U{274C} Test Failures\n\n"
  const FailuresHeader := "| Location | Details |\n"
  const FailuresRule := "|----------|----------|\n"
  const DeviceResultsHeading := "### \U{1F4F1} Device Results\n\n"
  const DevicesHeader := "| Device | Passed | Failed | Skipped | Configuration |\n"
  const DevicesRule := "|---------|---------|---------|----------|---------------|\n"
  const BuildResultsHeading := "## Build Results\n\n"
  const FailedStatus := "\U{274C} Failed"
  const PassedStatus := "\U{2705} Passed"
  const EnvironmentHeading := "### Environment\n"
  const BuildErrorsHeading := "### \U{274C} Build Errors\n\n"
  const ErrorsHeader := "| Location | Error |\n"
  const ErrorsRule := "|----------|-------|\n"
  const WarningsHeading := "### \U{26A0}\U{FE0F} Warnings\n\n"
  const NoFailureDetails := "No failure details"
  const UnknownError := "Unknown error"
  const AnalyzerWarningsHeading := "### \U{1F50D} Analyzer Warnings\n\n"

  /** Whether the report has its test sections: the build did not fail and there is a test summary. */
  predicate ShowsTests(build: BuildResult, test: Option<TestResult>)
  {
    build.status != "failed" && test.Some?
  }

  // Test sections.

  /** The counts row: passed, failed, skipped, expected failures, total. */
  function StatisticsRow(test: TestResult): string
  {
    "| " + IntToString(test.passedTests) + " | " + IntToString(test.failedTests)
    + " | " + IntToString(test.skippedTests) + " | " + IntToString(test.expectedFailures)
    + " | " + IntToString(test.totalTestCount) + " |\n\n"
  }

  /**
   * Where a failure happened: "Unknown location" without a location record;
   * otherwise the file path with the first occurrence of the workspace root
   * and its slash removed, then ":" and the line number when there is a
   * non-zero one.
   */
  function FailureLocation(failure: TestFailure, workspace: string): string
  {
    if failure.sourceCodeContext.Some? && failure.sourceCodeContext.value.location.Some? then
      var location := failure.sourceCodeContext.value.location.value;
      var relativePath := RemoveFirst(OrElse(location.filePath, ""), workspace + "/");
      if location.lineNumber.Some? && location.lineNumber.value != 0
      then relativePath + ":" + IntToString(location.lineNumber.value)
      else relativePath
    else "Unknown location"
  }

  /** The failure text on one table line, "No failure details" when there is none. */
  function FailureDetails(failure: TestFailure): (details: string)
    ensures '\n' !in details
    ensures failure.failureText.None? || failure.failureText == Some("") ==> details == NoFailureDetails
  {
    assert '\n' !in NoFailureDetails;
    ReplaceNewlines(OrElse(failure.failureText, NoFailureDetails))
  }

  function FailureRow(failure: TestFailure, workspace: string): string
  {
    "| `" + FailureLocation(failure, workspace) + "` | " + FailureDetails(failure) + " |\n"
  }

  function FailureRows(failures: seq<TestFailure>, workspace: string): string
  {
    if failures == [] then "" else FailureRow(failures[0], workspace) + FailureRows(failures[1..], workspace)
  }

  function TestFailuresBlock(test: TestResult, workspace: string): (block: string)
    ensures block == "" <==> test.testFailures.None? || test.testFailures.value == []
    ensures block != "" ==> TestFailuresHeading <= block
  {
    if test.testFailures.Some? && |test.testFailures.value| > 0 then
      TestFailuresHeading + (FailuresHeader + FailuresRule + FailureRows(test.testFailures.value, workspace) + "\n")
    else ""
  }

  /** The table line of one device, or nothing for an entry without a device. */
  function DeviceRow(entry: DeviceAndConfiguration): (row: string)
    ensures row == "" <==> entry.device.None?
  {
    match entry.device
    case None => ""
    case Some(device) =>
      var configurationName :=
        if entry.testPlanConfiguration.Some?
        then Or(entry.testPlanConfiguration.value.configurationName, "Default Configuration")
        else "Default Configuration";
      "| " + Or(device.deviceName, "Unknown Device") + "<br>(" + Or(device.platform, "Unknown Platform")
      + ") | \U{2705} " + IntToString(entry.passedTests) + " | \U{274C} " + IntToString(entry.failedTests)
      + " | \U{23ED}\U{FE0F} " + IntToString(entry.skippedTests) + " | " + configurationName + " |\n"
  }

  function DeviceRows(entries: seq<DeviceAndConfiguration>): string
  {
    if entries == [] then "" else DeviceRow(entries[0]) + DeviceRows(entries[1..])
  }

  function DeviceResultsBlock(test: TestResult): (block: string)
    ensures block == "" <==> test.devicesAndConfigurations.None? || test.devicesAndConfigurations.value == []
    ensures block != "" ==> DeviceResultsHeading <= block
  {
    if test.devicesAndConfigurations.Some? && |test.devicesAndConfigurations.value| > 0 then
      DeviceResultsHeading + (DevicesHeader + DevicesRule + DeviceRows(test.devicesAndConfigurations.value) + "\n")
    else ""
  }

  /** Statistics, results, failures and devices, only when the build did not fail and there is a test summary. */
  function TestSections(build: BuildResult, test: Option<TestResult>, workspace: string, minutes: MinutesFormat): (sections: string)
    ensures sections == "" <==> !ShowsTests(build, test)
    ensures ShowsTests(build, test) ==>
      TestStatisticsHeading + StatisticsHeader + StatisticsRule + StatisticsRow(test.value) + TestResultsHeading <= sections
  {
    if ShowsTests(build, test) then
      var t := test.value;
      var table := TestStatisticsHeading + StatisticsHeader + StatisticsRule + StatisticsRow(t);
      var results := "**Duration**: " + minutes(t.startTime, t.finishTime) + " minutes\n\n"
                     + TestFailuresBlock(t, workspace) + DeviceResultsBlock(t);
      var rest := TestResultsHeading + results;
      assert TestResultsHeading <= rest;
      PrefixAfter(table, TestResultsHeading, rest);
      table + rest
    else ""
  }

  // Build sections.

  function StatusText(build: BuildResult): (status: string)
    ensures status == FailedStatus <==> build.status == "failed"
    ensures status == FailedStatus || status == PassedStatus
  {
    if build.status == "failed" then FailedStatus else PassedStatus
  }

  function BuildResultsBlock(build: BuildResult, minutes: MinutesFormat): (block: string)
    ensures BuildResultsHeading + "**Status**: " + StatusText(build) <= block
  {
    var status := BuildResultsHeading + "**Status**: " + StatusText(build);
    var rest := "\n" + "**Duration**: " + minutes(build.startTime, build.endTime) + " minutes\n\n";
    assert status <= status + rest;
    status + rest
  }

  function EnvironmentBlock(build: BuildResult): (block: string)
    ensures block == "" <==> build.destination.None?
    ensures block != "" ==> EnvironmentHeading <= block
  {
    match build.destination
    case None => ""
    case Some(destination) =>
      EnvironmentHeading
      + "- \U{1F4F1} Device: " + Or(destination.deviceName, "Unknown") + "\n"
      + "- \U{1F5A5}\U{FE0F} Platform: " + Or(destination.platform, "Unknown") + "\n"
      + "- \U{1F4E6} OS Version: " + Or(destination.osVersion, "Unknown") + "\n\n"
  }

  /**
   * Where a build error happened: the source URL up to its first '#', with
   * the first occurrence of the workspace root and its slash removed;
   * "Unknown file" when nothing is left and "Unknown location" without a
   * source URL.
   */
  function ErrorLocation(issue: BuildIssue, workspace: string): (location: string)
    ensures issue.sourceURL.None? || issue.sourceURL == Some("") ==> location == "Unknown location"
    ensures '#' !in location
  {
    if issue.sourceURL.Some? && issue.sourceURL.value != "" then
      var url := TextBefore(issue.sourceURL.value, '#');
      Or(RemoveFirst(url, workspace + "/"), "Unknown file")
    else "Unknown location"
  }

  /** The error message on one table line, "Unknown error" when there is none. */
  function ErrorMessage(issue: BuildIssue): (message: string)
    ensures '\n' !in message
    ensures issue.message.None? || issue.message == Some("") ==> message == UnknownError
  {
    assert '\n' !in UnknownError;
    ReplaceNewlines(OrElse(issue.message, UnknownError))
  }

  function ErrorRow(issue: BuildIssue, workspace: string): string
  {
    "| \U{1F4CD} `" + ErrorLocation(issue, workspace) + "`| " + ErrorMessage(issue) + " |\n"
  }

  function ErrorRows(issues: seq<BuildIssue>, workspace: string): string
  {
    if issues == [] then "" else ErrorRow(issues[0], workspace) + ErrorRows(issues[1..], workspace)
  }

  function BuildErrorsBlock(build: BuildResult, workspace: string): (block: string)
    ensures block == "" <==> !(build.errorCount > 0 && build.errors.Some?)
    ensures block != "" ==> BuildErrorsHeading <= block
  {
    if build.errorCount > 0 && build.errors.Some? then
      var heading := BuildErrorsHeading + ErrorsHeader + ErrorsRule;
      var rows := ErrorRows(build.errors.value, workspace) + "\n";
      assert BuildErrorsHeading <= heading;
      assert heading <= heading + rows;
      heading + rows
    else ""
  }

  function WarningsBlock(build: BuildResult): (block: string)
    ensures block == "" <==> build.warningCount <= 0
    ensures block != "" ==> WarningsHeading <= block
  {
    if build.warningCount > 0 then
      WarningsHeading + "Total Warnings: " + IntToString(build.warningCount) + "\n\n"
    else ""
  }

  function AnalyzerWarningsBlock(build: BuildResult): (block: string)
    ensures block == "" <==> build.analyzerWarningCount <= 0
    ensures block != "" ==> AnalyzerWarningsHeading <= block
  {
    if build.analyzerWarningCount > 0 then
      AnalyzerWarningsHeading + "Total Analyzer Warnings: " + IntToString(build.analyzerWarningCount) + "\n\n"
    else ""
  }

  /** The whole report: the test sections (if any), then the build sections. */
  function MarkdownSummary(build: BuildResult, test: Option<TestResult>, workspace: string, minutes: MinutesFormat): (markdown: string)
    ensures ShowsTests(build, test) ==> TestStatisticsHeading <= markdown
    ensures !ShowsTests(build, test) ==> BuildResultsHeading + "**Status**: " + StatusText(build) <= markdown
    ensures TestSections(build, test, workspace, minutes) + (BuildResultsHeading + "**Status**: " + StatusText(build)) <= markdown
  {
    var tests := TestSections(build, test, workspace, minutes);
    var buildResults := BuildResultsBlock(build, minutes);
    var others := EnvironmentBlock(build) + BuildErrorsBlock(build, workspace) + WarningsBlock(build) + AnalyzerWarningsBlock(build);
    PrefixOfPrefix(BuildResultsHeading + "**Status**: " + StatusText(build), buildResults, buildResults + others);
    assert ShowsTests(build, test) ==> TestStatisticsHeading <= tests + (buildResults + others) by {
      if ShowsTests(build, test) {
        var table := TestStatisticsHeading + StatisticsHeader + StatisticsRule + StatisticsRow(test.value);
        PrefixOfPrefix(TestStatisticsHeading, TestStatisticsHeading + StatisticsHeader, TestStatisticsHeading + StatisticsHeader + StatisticsRule);
        PrefixOfPrefix(TestStatisticsHeading, TestStatisticsHeading + StatisticsHeader + StatisticsRule, table);
        PrefixOfPrefix(TestStatisticsHeading, table, table + TestResultsHeading);
        PrefixOfPrefix(TestStatisticsHeading, table + TestResultsHeading, tests);
        PrefixOfPrefix(TestStatisticsHeading, tests, tests + (buildResults + others));
      }
    }
    assert !ShowsTests(build, test) ==> tests + (buildResults + others) == buildResults + others;
    PrefixAfter(tests, BuildResultsHeading + "**Status**: " + StatusText(build), buildResults + others);
    tests + (buildResults + others)
  }

  lemma NextFailureRow(failures: seq<TestFailure>, i: nat, workspace: string)
    requires i < |failures|
    ensures FailureRows(failures[..i + 1], workspace) == FailureRows(failures[..i], workspace) + FailureRow(failures[i], workspace)
  {
    assert failures[..i + 1] == failures[..i] + [failures[i]];
    FailureRowsAppend(failures[..i], [failures[i]], workspace);
  }

  /** One row per failure, in the order of the failures. */
  lemma {:induction false} FailureRowsAppend(a: seq<TestFailure>, b: seq<TestFailure>, workspace: string)
    ensures FailureRows(a + b, workspace) == FailureRows(a, workspace) + FailureRows(b, workspace)
  {
    if a == [] {
      assert a + b == b;
    } else {
      assert (a + b)[0] == a[0];
      assert (a + b)[1..] == a[1..] + b;
      FailureRowsAppend(a[1..], b, workspace);
    }
  }

  lemma NextDeviceRow(entries: seq<DeviceAndConfiguration>, i: nat)
    requires i < |entries|
    ensures DeviceRows(entries[..i + 1]) == DeviceRows(entries[..i]) + DeviceRow(entries[i])
  {
    assert entries[..i + 1] == entries[..i] + [entries[i]];
    DeviceRowsAppend(entries[..i], [entries[i]]);
  }

  lemma {:induction false} DeviceRowsAppend(a: seq<DeviceAndConfiguration>, b: seq<DeviceAndConfiguration>)
    ensures DeviceRows(a + b) == DeviceRows(a) + DeviceRows(b)
  {
    if a == [] {
      assert a + b == b;
    } else {
      assert (a + b)[0] == a[0];
      assert (a + b)[1..] == a[1..] + b;
      DeviceRowsAppend(a[1..], b);
    }
  }

  lemma NextErrorRow(issues: seq<BuildIssue>, i: nat, workspace: string)
    requires i < |issues|
    ensures ErrorRows(issues[..i + 1], workspace) == ErrorRows(issues[..i], workspace) + ErrorRow(issues[i], workspace)
  {
    assert issues[..i + 1] == issues[..i] + [issues[i]];
    ErrorRowsAppend(issues[..i], [issues[i]], workspace);
  }

  lemma {:induction false} ErrorRowsAppend(a: seq<BuildIssue>, b: seq<BuildIssue>, workspace: string)
    ensures ErrorRows(a + b, workspace) == ErrorRows(a, workspace) + ErrorRows(b, workspace)
  {
    if a == [] {
      assert a + b == b;
    } else {
      assert (a + b)[0] == a[0];
      assert (a + b)[1..] == a[1..] + b;
      ErrorRowsAppend(a[1..], b, workspace);
    }
  }

  /** The counts row lists passed, failed, skipped, expected failures and total, in that order. */
  lemma StatisticsRowExample(test: TestResult)
    requires test.passedTests == 95 && test.failedTests == 2 && test.skippedTests == 3
    requires test.expectedFailures == 0 && test.totalTestCount == 100
    ensures StatisticsRow(test) == "| 95 | 2 | 3 | 0 | 100 |\n\n"
  {
    TextOfNinetyFive();
    TextOfHundred();
  }

  lemma TextOfNinetyFive()
    ensures IntToString(95) == "95"
  {
    assert NatToString(9) == "9";
    assert NatToString(95) == NatToString(9) + ['5'];
  }

  lemma TextOfHundred()
    ensures IntToString(100) == "100"
  {
    assert NatToString(1) == "1";
    assert NatToString(10) == NatToString(1) + ['0'];
    assert NatToString(100) == NatToString(10) + ['0'];
  }

  /**
   * A file under the workspace is shown relative to it, followed by its line
   * number when that is not zero.
   */
  lemma FailureLocationInWorkspace(failure: TestFailure, workspace: string, relativePath: string, line: Option<int>)
    requires failure.sourceCodeContext == Some(SourceCodeContext(Some(Location(Some(workspace + "/" + relativePath), line))))
    ensures line.Some? && line.value != 0 ==> FailureLocation(failure, workspace) == relativePath + ":" + IntToString(line.value)
    ensures line.None? || line == Some(0) ==> FailureLocation(failure, workspace) == relativePath
  {
    RemoveLeadingPattern(workspace + "/", relativePath);
  }

  /** The text of 42 is "42". */
  lemma TextOfFortyTwo()
    ensures IntToString(42) == "42"
  {
    assert NatToString(4) == "4";
    assert NatToString(42) == NatToString(4) + ['2'];
  }

  /** With no workspace, "/path/to/test.swift" at line 42 reads "path/to/test.swift:42". */
  lemma FailureLocationExample(failure: TestFailure)
    requires failure.sourceCodeContext == Some(SourceCodeContext(Some(Location(Some("/path/to/test.swift"), Some(42)))))
    ensures FailureLocation(failure, "") == "path/to/test.swift:42"
  {
    var relativePath := "path/to/test.swift";
    assert "/path/to/test.swift" == "" + "/" + relativePath;
    FailureLocationInWorkspace(failure, "", relativePath, Some(42));
    TextOfFortyTwo();
    assert relativePath + ":" + "42" == "path/to/test.swift:42";
  }

  /** A failure without a location record is shown at "Unknown location". */
  lemma FailureLocationUnknown(failure: TestFailure, workspace: string)
    requires failure.sourceCodeContext.None? || failure.sourceCodeContext.value.location.None?
    ensures FailureLocation(failure, workspace) == "Unknown location"
  {
  }

  /** A failure's text is shown with each line break replaced by `<br>`. */
  lemma FailureDetailsOfMultilineText(failure: TestFailure, first: string, second: string)
    requires failure.failureText == Some(first + "\n" + second)
    ensures FailureDetails(failure) == ReplaceNewlines(first) + "<br>" + ReplaceNewlines(second)
  {
    ReplaceNewlinesAtBreak(first, second);
  }

  /** The location of a build error is read from its source URL with the `#` fragment cut off. */
  lemma ErrorLocationOfURL(issue: BuildIssue, workspace: string, path: string, fragment: string)
    requires '#' !in path
    requires issue.sourceURL == Some(path + "#" + fragment)
    ensures ErrorLocation(issue, workspace) == Or(RemoveFirst(path, workspace + "/"), "Unknown file")
  {
    assert issue.sourceURL.value == path + ['#'] + fragment;
    TextBeforeFirstSeparator(path, '#', fragment);
  }

  /** An error's source URL under the workspace is shown relative to it, without its `#` fragment. */
  lemma ErrorLocationInWorkspace(issue: BuildIssue, workspace: string, relativePath: string, fragment: string)
    requires '#' !in workspace && '#' !in relativePath && relativePath != ""
    requires issue.sourceURL == Some(workspace + "/" + relativePath + "#" + fragment)
    ensures ErrorLocation(issue, workspace) == relativePath
  {
    ErrorLocationOfURL(issue, workspace, workspace + "/" + relativePath, fragment);
    RemoveLeadingPattern(workspace + "/", relativePath);
  }

  /**
   * With no workspace, only the first slash of the source URL is removed,
   * wherever it stands: "file:///a/b/c.swift#Line=10" reads "file://a/b/c.swift".
   */
  lemma ErrorLocationWithoutWorkspace(issue: BuildIssue, scheme: string, path: string, fragment: string)
    requires '/' !in scheme && '#' !in scheme && '#' !in path && scheme + path != ""
    requires issue.sourceURL == Some(scheme + "/" + path + "#" + fragment)
    ensures ErrorLocation(issue, "") == scheme + path
  {
    var url := scheme + ['/'] + path;
    assert scheme + "/" + path == url;
    ErrorLocationOfURL(issue, "", url, fragment);
    RemoveFirstCharacter(scheme, '/', path);
    assert "" + "/" == ['/'];
  }

  /** A source URL that is nothing but a fragment leaves no file: "Unknown file". */
  lemma ErrorLocationOfFragmentOnly(issue: BuildIssue, workspace: string, fragment: string)
    requires issue.sourceURL == Some("#" + fragment)
    ensures ErrorLocation(issue, workspace) == "Unknown file"
  {
    assert issue.sourceURL.value == [] + ['#'] + fragment;
    TextBeforeFirstSeparator([], '#', fragment);
    assert RemoveFirst([], workspace + "/") == [];
  }

  /** An entry without a device adds no row, wherever it stands among the entries. */
  lemma DeviceRowsSkipEntryWithoutDevice(before: seq<DeviceAndConfiguration>, entry: DeviceAndConfiguration, after: seq<DeviceAndConfiguration>)
    requires entry.device.None?
    ensures DeviceRows(before + [entry] + after) == DeviceRows(before + after)
  {
    var withEntry := before + [entry];
    DeviceRowsAppend(withEntry, after);
    DeviceRowsAppend(before, [entry]);
    DeviceRowsAppend(before, after);
    assert DeviceRows([entry]) == DeviceRow(entry) + DeviceRows([]) == "";
    assert DeviceRows(withEntry) == DeviceRows(before);
  }

  /** A device without a name or platform, in an entry without a configuration, gets the default labels. */
  lemma DeviceRowDefaults(entry: DeviceAndConfiguration)
    requires entry.device.Some? && entry.device.value.deviceName == "" && entry.device.value.platform == ""
    requires entry.testPlanConfiguration.None?
    ensures DeviceRow(entry) ==
      "| " + "Unknown Device" + "<br>(" + "Unknown Platform"
      + ") | \U{2705} " + IntToString(entry.passedTests) + " | \U{274C} " + IntToString(entry.failedTests)
      + " | \U{23ED}\U{FE0F} " + IntToString(entry.skippedTests) + " | " + "Default Configuration" + " |\n"
  {
  }

  /** A destination without device name, platform or OS version reads "Unknown" for each. */
  lemma EnvironmentDefaults(build: BuildResult)
    requires build.destination.Some?
    requires build.destination.value.deviceName == "" && build.destination.value.platform == ""
    requires build.destination.value.osVersion == ""
    ensures EnvironmentBlock(build) ==
      EnvironmentHeading
      + "- \U{1F4F1} Device: " + "Unknown" + "\n"
      + "- \U{1F5A5}\U{FE0F} Platform: " + "Unknown" + "\n"
      + "- \U{1F4E6} OS Version: " + "Unknown" + "\n\n"
  {
  }

  /** A failed build's report is the same with or without a test summary. */
  lemma FailedBuildIgnoresTests(build: BuildResult, test: Option<TestResult>, workspace: string, minutes: MinutesFormat)
    requires build.status == "failed"
    ensures MarkdownSummary(build, test, workspace, minutes) == MarkdownSummary(build, None, workspace, minutes)
  {
  }

  /** The rows of the failures table, appended one failure at a time. */
  method RenderFailureRows(failures: seq<TestFailure>, workspace: string) returns (rows: string)
    ensures rows == FailureRows(failures, workspace)
  {
    rows := "";
    for i := 0 to |failures|
      invariant rows == FailureRows(failures[..i], workspace)
    {
      NextFailureRow(failures, i, workspace);
      rows := rows + FailureRow(failures[i], workspace);
    }
    assert failures[..|failures|] == failures;
  }

  /** The rows of the devices table; an entry without a device adds nothing. */
  method RenderDeviceRows(entries: seq<DeviceAndConfiguration>) returns (rows: string)
    ensures rows == DeviceRows(entries)
  {
    rows := "";
    for i := 0 to |entries|
      invariant rows == DeviceRows(entries[..i])
    {
      NextDeviceRow(entries, i);
      if entries[i].device.Some? {
        rows := rows + DeviceRow(entries[i]);
      }
    }
    assert entries[..|entries|] == entries;
  }

  /** The rows of the build errors table, appended one error at a time. */
  method RenderErrorRows(issues: seq<BuildIssue>, workspace: string) returns (rows: string)
    ensures rows == ErrorRows(issues, workspace)
  {
    rows := "";
    for i := 0 to |issues|
      invariant rows == ErrorRows(issues[..i], workspace)
    {
      NextErrorRow(issues, i, workspace);
      rows := rows + ErrorRow(issues[i], workspace);
    }
    assert issues[..|issues|] == issues;
  }

  /** The statistics, results, failures and devices sections, when the report has them. */
  method RenderTestSections(build: BuildResult, test: Option<TestResult>, workspace: string, minutes: MinutesFormat)
    returns (sections: string)
    ensures sections == TestSections(build, test, workspace, minutes)
  {
    sections := "";
    if build.status != "failed" && test.Some? {
      var t := test.value;
      var failuresBlock := "";
      if t.testFailures.Some? && |t.testFailures.value| > 0 {
        var rows := RenderFailureRows(t.testFailures.value, workspace);
        failuresBlock := TestFailuresHeading + (FailuresHeader + FailuresRule + rows + "\n");
      }
      var devicesBlock := "";
      if t.devicesAndConfigurations.Some? && |t.devicesAndConfigurations.value| > 0 {
        var rows := RenderDeviceRows(t.devicesAndConfigurations.value);
        devicesBlock := DeviceResultsHeading + (DevicesHeader + DevicesRule + rows + "\n");
      }
      sections := TestStatisticsHeading + StatisticsHeader + StatisticsRule + StatisticsRow(t);
      sections := sections + (TestResultsHeading + ("**Duration**: " + minutes(t.startTime, t.finishTime) + " minutes\n\n"
                                                    + failuresBlock + devicesBlock));
    }
  }

  /** The build errors section, when the build reports errors. */
  method RenderBuildErrors(build: BuildResult, workspace: string) returns (block: string)
    ensures block == BuildErrorsBlock(build, workspace)
  {
    block := "";
    if build.errorCount > 0 && build.errors.Some? {
      var rows := RenderErrorRows(build.errors.value, workspace);
      block := BuildErrorsHeading + ErrorsHeader + ErrorsRule + (rows + "\n");
    }
  }

  /**
   * `generateMarkdownSummary`: appends the test sections, then the build
   * results, environment, build errors, warnings and analyzer warnings.
   */
  method GenerateMarkdownSummary(build: BuildResult, test: Option<TestResult>, workspace: string, minutes: MinutesFormat)
    returns (markdown: string)
    ensures markdown == MarkdownSummary(build, test, workspace, minutes)
    ensures ShowsTests(build, test) ==> TestStatisticsHeading <= markdown
    ensures !ShowsTests(build, test) ==> BuildResultsHeading + "**Status**: " + StatusText(build) <= markdown
    ensures TestSections(build, test, workspace, minutes) + (BuildResultsHeading + "**Status**: " + StatusText(build)) <= markdown
  {
    var tests := RenderTestSections(build, test, workspace, minutes);
    var buildResults := BuildResultsBlock(build, minutes);
    var environment := EnvironmentBlock(build);
    var errors := RenderBuildErrors(build, workspace);
    var warnings := WarningsBlock(build);
    var analyzerWarnings := AnalyzerWarningsBlock(build);
    markdown := tests;
    markdown := markdown + buildResults;
    markdown := markdown + environment;
    markdown := markdown + errors;
    markdown := markdown + warnings;
    markdown := markdown + analyzerWarnings;
    AppendRegroup(tests, buildResults, environment, errors, warnings, analyzerWarnings);
  }
}

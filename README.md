# xcresult-summary in Dafny

This project models the core of xcresult-summary, a GitHub Action that turns an
Xcode result bundle (`.xcresult`) into a Markdown report. The model has three
parts.

- **Result fetcher** (`XcresultParser`, parser.dfy).
  - It runs `xcrun xcresulttool get …` for the build summary.
  - It parses and checks that summary.
  - When the build did not fail, it runs the tool twice more, for the test summary and the test tree.
  - It parses and checks both test reports.
  - It replaces the summary's `testFailures` with the failures extracted from the tree.
  - The tool is a class `Xcrun`. It logs every invocation and answers each with a fixed sequence of stdout chunks.
  - JSON parsing is a parameter that yields a value or an error message.
- **Shape guards and failure extractor** (`Utils`, utils.dfy).
  - The three guards check that a parsed JSON value is an object with a fixed set of keys.
  - The extractor walks the test tree depth first and emits one record per failed test case.
  - The location matcher models the regular expression `([^:]+\.swift):(\d+):` as a leftmost match.
- **Report renderer** (`MarkdownGenerator`, markdown.dfy).
  - It builds the report by appending sections, each behind its own guard.
  - The failures, devices and build errors tables are built by loops.
  - The workspace root (`GITHUB_WORKSPACE`, or "" when unset) is a parameter.
  - The formatting of durations is a parameter of type `(int, int) -> string`.

Supporting modules:

- `Json` (json.dfy): parsed JSON values and JavaScript truthiness.
- `Types` (types.dfy): the records of src/types.ts. Optional fields are `Option`. The decoders `As…` stand for the TypeScript `as` casts.
- `Text` (text.dfy): the string operations the code relies on: `replace` with a string, `replace(/\n/g, '<br>')`, `split('#')[0]`, `||` defaults and `${n}`.
- `Wrappers` (wrappers.dfy): `Option` and `Result`.

Each imperative operation is a method proved equal to a specification function.

- `Utils.TraverseNodes` and `Utils.ExtractTestFailures` are proved against `Utils.Failures`.
- `MarkdownGenerator.GenerateMarkdownSummary` and its loops are proved against `MarkdownGenerator.MarkdownSummary`.
- `XcresultParser.GetXcresultSummary` is proved against `XcresultParser.FetchSummary`, both for the value it returns and for the tool invocations it makes.

The properties are then proved about those functions. The central one is `Utils.FailuresAreFailedCasesInPreOrder`. It says the extracted records are exactly the records of the failed test cases of the tree, in depth-first document order.

Two behaviours of the code are easy to miss:

- **Workspace prefix.** The code calls `replace(workspace + '/', '')`, which removes the first occurrence anywhere in the path. With no workspace it removes the first `/`, so `file:///a/b/c.swift#Line=10` renders as `file://a/b/c.swift` (`MarkdownGenerator.ErrorLocationWithoutWorkspace`).
- **File extension.** The location pattern matches only `.swift` files.

## Model

| member | source | states |
|---|---|---|
| Utils.IsBuildResult | src/utils.ts:9-17 | Accepts exactly the objects that have the keys `status`, `errorCount` and `warningCount`. |
| Utils.IsTestResult | src/utils.ts:19-27 | Accepts exactly the objects that have the keys `result`, `totalTestCount` and `failedTests`. |
| Utils.IsDetailedTestResult | src/utils.ts:29-39 | Accepts exactly the objects that have the keys `testNodes`, `devices` and `testPlanConfigurations`. |
| Utils.GuardsCheckKeysOnly | src/utils.ts:9-39 | Each guard accepts an object exactly when its three keys are present, and rejects the object once any one of them is removed. |
| Utils.GuardsRejectNonObjects | src/utils.ts:9-39 | No guard accepts null, a boolean, a number, a string or an array. |
| Utils.ExtractLocationFromFailureMessage | src/utils.ts:70-82 | A file path is found iff the text contains `X.swift:N:` with X free of colons. Otherwise the location is the empty record. |
| Utils.LocationOfLeftmostMatch | src/utils.ts:74-79 | For the leftmost reference `X.swift:N:` in the text, the location is the file X.swift and the line N read as a decimal number. |
| Utils.LocationOfLeadingReference | src/utils.ts:74-79 | A message that starts with `file.swift:line:` yields that file and that line. |
| Utils.MatchAt | src/utils.ts:74 | The regular expression matches at an index iff there is a colon-free run ending in `.swift`, a colon, digits and a colon. |
| Utils.FirstMatchFrom | src/utils.ts:74 | Returns the leftmost index where the pattern matches, or none when it matches nowhere. |
| Utils.IsFailedTestCase | src/utils.ts:48 | A node is recorded iff its type is "Test Case" and its result is "Failed". |
| Utils.FirstChildName | src/utils.ts:51-54 | The first child's name (`node.children?.[0]?.name`), or "" when the node has no children. |
| Utils.FailureRecord | src/utils.ts:49-57 | A record carries the node's name and the first child's name as its text. The text is "Unknown failure" when that name is missing or empty. A location record is always present. It has a file path iff the child's name contains a reference `X.swift:N:`, and it is the empty record when there is no child name. |
| Utils.FailureRecordOfLeadingReference | src/utils.ts:49-57 | A failed test case whose first child's name starts with `file.swift:line:` is recorded with that name as its text, the file `file.swift` and that line. |
| Utils.FailedTestCases | src/utils.ts:48 | Keeps exactly the nodes whose type is "Test Case" and whose result is "Failed". |
| Utils.FailureRecords | src/utils.ts:49-58 | One record per node, in order. |
| Utils.Failures | src/utils.ts:46-64 | The records the walk emits over a list of nodes: those of the first node's subtree, then those of the rest. |
| Utils.NodeFailures | src/utils.ts:47-63 | A node's own record, if it is a failed test case, then the records of its children. |
| Utils.FailuresAreFailedCasesInPreOrder | src/utils.ts:46-66 | The walk emits exactly the records of the failed test cases, at any depth, in depth-first document order. It records no other node, suites included. |
| Utils.NodeFailuresAreFailedCasesInPreOrder | src/utils.ts:47-63 | The same for one node and its subtree. |
| Utils.FailureCount | src/utils.ts:46-66 | The number of records equals the number of failed test cases in the tree. |
| Utils.NodeRecordedBeforeItsDescendants | src/utils.ts:58-62 | A failed test case comes first among the failed test cases of its subtree in pre-order, so its record precedes those of its descendants: the walk goes on into nodes it has recorded. |
| Utils.FailuresAppend | src/utils.ts:47 | Siblings keep their order: the records of a forest are those of its parts, one after the other. |
| Utils.PreOrderAppend | src/utils.ts:47 | Document order of a forest is that of its parts, one after the other. |
| Utils.FailedTestCasesAppend | src/utils.ts:48 | Filtering keeps the order of the parts. |
| Utils.FailureRecordsAppend | src/utils.ts:49-58 | Making records keeps the order of the parts. |
| Utils.NextNodeFailures | src/utils.ts:47-63 | One more loop iteration adds the records of the next node's subtree. |
| Utils.TraversalStep | src/utils.ts:47-63 | Pushing the next node's record, if any, and then walking its children extends the records of the nodes visited so far by that node's records. |
| Utils.TraverseNodes | src/utils.ts:46-64 | The recursive walk with its loop appends exactly the records of the forest to the failures collected so far. |
| Utils.ExtractTestFailures | src/utils.ts:41-68 | Returns the records of the failed test cases of the tree, in depth-first document order. |
| Text.NatToString | src/markdown-generator.ts:19 | A number's text is a non-empty run of digits, without a leading zero unless it is "0", whose decimal value is the number. |
| Text.IntToString | src/markdown-generator.ts:19 | `${n}`: a non-negative number is a non-empty run of digits whose value is the number; a negative one is `-` followed by the digits of its absolute value. |
| Text.DecimalValue | src/utils.ts:78 | `parseInt(digits, 10)` on a run of decimal digits: each digit adds to ten times the value of the digits before it. |
| Text.Or | src/markdown-generator.ts:56-59 | The or-default on a string: the default replaces the empty string. |
| Text.OrElse | src/markdown-generator.ts:29-30 | The or-default on an optional string: the default replaces an absent or empty string. |
| Text.FirstOccurrence | src/markdown-generator.ts:38 | Returns the leftmost occurrence of a pattern at or after an index, or none when there is none. |
| Text.RemoveFirst | src/markdown-generator.ts:38 | `replace(pattern, '')` removes the leftmost occurrence, wherever it is. Without one, the text is unchanged. It adds no character. |
| Text.RemoveLeadingPattern | src/markdown-generator.ts:38 | A text that starts with the pattern loses exactly that start. |
| Text.RemoveFirstCharacter | src/markdown-generator.ts:89 | Only the first occurrence of a one-character pattern is removed. |
| Text.ReplaceNewlines | src/markdown-generator.ts:29-31 | The result has no line break, and text without line breaks is unchanged. |
| Text.ReplaceNewlinesAppend | src/markdown-generator.ts:92-95 | Replacing line breaks works piece by piece. |
| Text.ReplaceNewlinesAtBreak | src/markdown-generator.ts:92-95 | Each line break becomes `<br>` between the replaced pieces around it. |
| Text.TextBefore | src/markdown-generator.ts:88 | `split('#')[0]` is a prefix without the separator, ending at the first separator or at the end. |
| Text.TextBeforeFirstSeparator | src/markdown-generator.ts:88 | The text before the separator is everything up to its first occurrence. |
| MarkdownGenerator.TestSections | src/markdown-generator.ts:13-66 | Empty iff the build failed or there is no test summary. Otherwise it starts with "## Test Statistics", the table header, the counts row and then "## Test Results". |
| MarkdownGenerator.ShowsTests | src/markdown-generator.ts:13 | The test sections are written iff the build status is not "failed" and there is a test summary. |
| MarkdownGenerator.StatisticsRow | src/markdown-generator.ts:19 | The counts row: passed, failed, skipped, expected failures and total, in that order. |
| MarkdownGenerator.StatisticsRowExample | src/markdown-generator.ts:19 | Passed 95, failed 2, skipped 3, expected 0 and total 100 give exactly the row of 95, 2, 3, 0 and 100, in that order. |
| MarkdownGenerator.TestFailuresBlock | src/markdown-generator.ts:24-45 | Empty iff `testFailures` is absent or empty. Otherwise it starts with the "Test Failures" heading. |
| MarkdownGenerator.FailureDetails | src/markdown-generator.ts:29-31 | The text has no line break. It is "No failure details" when the failure text is absent or empty. |
| MarkdownGenerator.FailureDetailsOfMultilineText | src/markdown-generator.ts:29-31 | A line break in a failure text is shown as `<br>`. |
| MarkdownGenerator.FailureLocation | src/markdown-generator.ts:33-40 | "Unknown location" without a location record. Otherwise the file path with the workspace removed, followed by `:line` for a non-zero line. |
| MarkdownGenerator.FailureLocationInWorkspace | src/markdown-generator.ts:33-40 | A file under the workspace is shown relative to it, with `:line` appended for a present, non-zero line. Without a line, or with line 0, it is the relative path alone. |
| MarkdownGenerator.FailureRow | src/markdown-generator.ts:42 | One table line: the location in backticks, then the failure details. |
| MarkdownGenerator.FailureRows | src/markdown-generator.ts:28-43 | The failure table's rows: each failure's row, in order. |
| MarkdownGenerator.FailureLocationExample | src/markdown-generator.ts:33-40 | `/path/to/test.swift` at line 42 with no workspace reads `path/to/test.swift:42`. |
| MarkdownGenerator.FailureLocationUnknown | src/markdown-generator.ts:33-34 | Without a location record the failure is at "Unknown location". |
| MarkdownGenerator.FailureRowsAppend | src/markdown-generator.ts:28-43 | One row per failure, in the order of the failures. |
| MarkdownGenerator.NextFailureRow | src/markdown-generator.ts:28-43 | One more iteration appends the next failure's row. |
| MarkdownGenerator.RenderFailureRows | src/markdown-generator.ts:28-43 | The loop appends exactly the rows of all failures, in order. |
| MarkdownGenerator.DeviceRow | src/markdown-generator.ts:55-62 | An entry gets a row iff it has a device. |
| MarkdownGenerator.DeviceRows | src/markdown-generator.ts:54-63 | The device table's rows: each entry's row, in order, with nothing for an entry without a device. |
| MarkdownGenerator.DeviceRowDefaults | src/markdown-generator.ts:56-61 | Missing names read "Unknown Device", "Unknown Platform" and "Default Configuration". |
| MarkdownGenerator.DeviceRowsSkipEntryWithoutDevice | src/markdown-generator.ts:54-63 | An entry without a device adds nothing, wherever it stands. |
| MarkdownGenerator.DeviceRowsAppend | src/markdown-generator.ts:54-63 | The device rows keep the order of the entries. |
| MarkdownGenerator.NextDeviceRow | src/markdown-generator.ts:54-63 | One more iteration appends the next entry's row, if any. |
| MarkdownGenerator.RenderDeviceRows | src/markdown-generator.ts:54-63 | The loop appends exactly the rows of the entries that have a device, in order. |
| MarkdownGenerator.DeviceResultsBlock | src/markdown-generator.ts:47-65 | Empty iff the device list is absent or empty. Otherwise it starts with the "Device Results" heading. |
| MarkdownGenerator.RenderTestSections | src/markdown-generator.ts:13-66 | The appends build exactly the test sections. |
| MarkdownGenerator.StatusText | src/markdown-generator.ts:69 | "❌ Failed" iff the status is "failed", "✅ Passed" otherwise. |
| MarkdownGenerator.BuildResultsBlock | src/markdown-generator.ts:68-70 | Starts with "## Build Results" and the status line. |
| MarkdownGenerator.EnvironmentBlock | src/markdown-generator.ts:72-77 | Empty iff there is no destination. Otherwise it starts with the "Environment" heading. |
| MarkdownGenerator.EnvironmentDefaults | src/markdown-generator.ts:74-76 | Missing device name, platform and OS version each read "Unknown". |
| MarkdownGenerator.ErrorLocation | src/markdown-generator.ts:84-90 | "Unknown location" without a source URL. The location never contains `#`. |
| MarkdownGenerator.ErrorLocationOfURL | src/markdown-generator.ts:87-90 | The location is the URL before its fragment, with the workspace removed, or "Unknown file" when nothing is left. |
| MarkdownGenerator.ErrorLocationInWorkspace | src/markdown-generator.ts:87-90 | A URL under the workspace is shown relative to it, without its fragment. |
| MarkdownGenerator.ErrorLocationWithoutWorkspace | src/markdown-generator.ts:87-90 | With no workspace only the first `/` is removed, so `file:///a/b/c.swift#Line=10` reads `file://a/b/c.swift`. |
| MarkdownGenerator.ErrorLocationOfFragmentOnly | src/markdown-generator.ts:87-89 | A URL that is only a fragment reads "Unknown file". |
| MarkdownGenerator.ErrorRow | src/markdown-generator.ts:96 | One table line: a pin, the error location in backticks, then the error message. |
| MarkdownGenerator.ErrorRows | src/markdown-generator.ts:83-97 | The build errors table's rows: each error's row, in order. |
| MarkdownGenerator.ErrorMessage | src/markdown-generator.ts:92-95 | The message has no line break. It is "Unknown error" when the message is absent or empty. |
| MarkdownGenerator.ErrorRowsAppend | src/markdown-generator.ts:83-97 | One row per build error, in order. |
| MarkdownGenerator.NextErrorRow | src/markdown-generator.ts:83-97 | One more iteration appends the next error's row. |
| MarkdownGenerator.RenderErrorRows | src/markdown-generator.ts:83-97 | The loop appends exactly the rows of all build errors, in order. |
| MarkdownGenerator.BuildErrorsBlock | src/markdown-generator.ts:79-99 | Empty iff not (error count > 0 and the errors are present). Otherwise it starts with the "Build Errors" heading. |
| MarkdownGenerator.RenderBuildErrors | src/markdown-generator.ts:79-99 | The appends build exactly the build errors block. |
| MarkdownGenerator.WarningsBlock | src/markdown-generator.ts:101-104 | Empty iff the warning count is not positive. |
| MarkdownGenerator.AnalyzerWarningsBlock | src/markdown-generator.ts:106-109 | Empty iff the analyzer warning count is not positive. |
| MarkdownGenerator.MarkdownSummary | src/markdown-generator.ts:3-112 | "## Build Results" with the status line always follows the test sections. The report opens with "## Test Statistics" iff the tests are shown, and with "## Build Results" otherwise. |
| MarkdownGenerator.FailedBuildIgnoresTests | src/markdown-generator.ts:13 | A failed build's report is the same with or without a test summary. |
| MarkdownGenerator.GenerateMarkdownSummary | src/markdown-generator.ts:3-112 | The successive appends produce exactly the report. |
| XcresultParser.Arguments | src/xcresult-parser.ts:25-29 | Every request is `xcresulttool get … --path <path>`. |
| XcresultParser.Call | src/xcresult-parser.ts:25-29 | Every report is fetched by running `xcrun` with that report's arguments. |
| XcresultParser.Stdout | src/xcresult-parser.ts:17-23 | What a run's stdout listener collects: the run's chunks, joined in order. |
| XcresultParser.CallsAreDistinct | src/xcresult-parser.ts:64-74 | The three requests are different invocations. |
| XcresultParser.Listen | src/xcresult-parser.ts:17-23 | The stdout listener appends every chunk, in order, to its buffer. |
| XcresultParser.Xcrun.constructor | src/xcresult-parser.ts:25-29 | A fresh tool has an empty invocation log. |
| XcresultParser.Xcrun.Exec | src/xcresult-parser.ts:25-29 | Running the tool logs the invocation and appends its stdout to the buffer. |
| XcresultParser.BuildFailed | src/xcresult-parser.ts:47 | A build summary that passed its guard counts as failed iff its status is the string "failed". |
| XcresultParser.ReachesTests | src/xcresult-parser.ts:35-47 | The tests are fetched iff the build summary parses, passes its guard and its status is not "failed". |
| XcresultParser.WithExtractedFailures | src/xcresult-parser.ts:92-95 | Only `testFailures` changes. It becomes the extracted failures iff the summary's `testFailures` is truthy. |
| XcresultParser.FetchSummary | src/xcresult-parser.ts:10-102 | The first run is the build summary. There is one run, or three in the order build summary, test summary, test tree: three exactly when the build summary parses, passes its guard and did not fail. A result carries the decoded build summary, and it has no test result iff only one run was made. |
| XcresultParser.TestOutcome | src/xcresult-parser.ts:76-95 | The test phase succeeds iff both test reports parse and pass their guards. Its result is then the test summary with the failures extracted from the test tree. |
| XcresultParser.FetchTestResult | src/xcresult-parser.ts:48-95 | Runs the test summary, then the test tree, and returns the result or the error of the test phase. |
| XcresultParser.BuildParseFailureStops | src/xcresult-parser.ts:35-41 | An unparsable build summary gives "Failed to parse build result JSON: " and the parser's message, after one run. |
| XcresultParser.InvalidBuildResultStops | src/xcresult-parser.ts:43-45 | A build summary the guard rejects gives "Invalid build result format", after one run. |
| XcresultParser.FailedBuildShortCircuits | src/xcresult-parser.ts:47 | A failed build returns the build summary with no test result, after one run. |
| XcresultParser.TestParseFailure | src/xcresult-parser.ts:76-83 | A test report that does not parse gives "Failed to parse test result JSON: " and the message of the first one that fails. |
| XcresultParser.InvalidTestResultFails | src/xcresult-parser.ts:85-90 | A test report that fails its guard gives "Invalid test result format". |
| XcresultParser.SuccessfulFetch | src/xcresult-parser.ts:92-101 | The result holds the build summary and the test summary unchanged except for `testFailures`. Those become the pre-order failed test cases of the tree iff the summary's field is truthy. |
| XcresultParser.EmptyTestFailuresAreReplaced | src/xcresult-parser.ts:92 | An empty `testFailures` array is truthy, so it is replaced too. |
| XcresultParser.AbsentTestFailuresStayAbsent | src/xcresult-parser.ts:92 | An absent `testFailures` stays absent. |
| XcresultParser.GetXcresultSummary | src/xcresult-parser.ts:10-102 | The method returns the fetch's result or error and logs exactly the fetch's invocations, in order. |

## Left out

- Host I/O is not part of this model: `run()` in src/main.ts (inputs, file existence, outputs, the job summary, `setFailed`) and the entry point src/index.ts.
- The older `getXcresultSummary`/`generateMarkdownSummary` in src/main.ts are a superseded variant and are not modelled.
- Running a subprocess is replaced by the `Xcrun` class. A non-zero exit status, which makes `exec.exec` reject, is not modelled. Decoding stdout bytes to text is not modelled either.
- `JSON.parse` is a parameter, and its error message is opaque. The fallback message for a thrown value that is not an `Error` is not modelled, because `JSON.parse` only throws `Error`s.
- Durations (`toFixed(2)` of a floating-point quotient) are the parameter `minutes`. JSON numbers are integers in this model.
- Types.AsBuildResult: the TypeScript casts check nothing, and this decoder, `Types.AsTestResult`, `Types.AsDetailedTestResult` and the other `As…` decoders read every JSON value as a typed record. They differ from the code where the JSON has an unexpected shape:
  - A missing number, string or list reads as 0, "" or an empty list. Where the code prints such a field (the test and device counts) it prints `undefined`.
  - A present field of the wrong type reads the same way. What the code does with it depends on the field:
    - It prints the value itself for the counts it only prints. These are `passedTests`, `failedTests`, `skippedTests`, `expectedFailures` and `totalTestCount` of the test summary, and `passedTests`, `failedTests` and `skippedTests` of each device entry. For example, `passedTests: "95"` prints `95`, where the model prints 0.
    - It compares `errorCount`, `warningCount` and `analyzerWarningCount` with 0 after converting them to numbers. A string `errorCount: "2"` is positive, so the code emits the Build Errors block. The model reads 0 and leaves the block out. A string warning count is both compared and printed.
    - It throws a TypeError on a truthy non-string where it calls a string method. The model renders the default instead. The cases are:
      - a first child's `name` such as `5`, `true`, `{}` or `[]`, through `message.match` (src/utils.ts:74); the model records "Unknown failure" with an empty location;
      - a `sourceURL`, through `.split` (src/markdown-generator.ts:88); the model shows "Unknown location";
      - a build error's `message`, through `.replace` (src/markdown-generator.ts:92); the model shows "Unknown error".
    - It compares `status`, `nodeType` and `result` with strings, so a non-string never equals them. The model's "" gives the same outcome.
  - A `children` that is a string reads as absent. The code's `for...of` (src/utils.ts:47) walks its characters and records nothing, so the outcome is the same.
  - A `testNodes` that is neither an array nor a string reads as an empty list. When `testFailures` is truthy, the code throws at src/utils.ts:47.
  - A truthy `children` that is neither an array nor a string, such as `{}` or `5`, reads as absent. The code's `for...of` throws on it (src/utils.ts:47, reached through the recursive call at :61).
  - A truthy `errors` that is not an array reads as absent, so the model leaves the Build Errors block out. When `errorCount` is positive, the code throws at `.forEach` (src/markdown-generator.ts:83).
  - A non-empty string `devicesAndConfigurations` reads as absent, so the model leaves the Device Results block out. Its `length` is positive, so the code throws at `.forEach` (src/markdown-generator.ts:54). The same holds for an object with a positive `length`.
  - A null element of `testNodes`, `children`, `errors` or `devicesAndConfigurations` makes the code throw a TypeError (src/utils.ts:48, src/markdown-generator.ts:55 and :87). The model reads it as a record of defaults, which is then skipped or rendered with default texts.
  - A truthy `destination`, `device`, `sourceCodeContext` or `location` that is not an object (`[]`, say) is rendered by the code with its default texts (src/markdown-generator.ts:72-76, 55-61, 34-40). The model reads it as absent.
- Text.DecimalValue: `parseInt` loses precision beyond 2^53. The model reads digit runs as exact natural numbers.
- Async sequencing is not modelled: the model is sequential, in the order the code awaits.
- Utils.Failures: the children of a test node are a dedicated `Children` type (absent, or a list of nodes) rather than an optional list, so the recursion over the tree is well founded.

/**
 * The shapes of the result tool's JSON (src/types.ts), and how a parsed JSON
 * value is read at one of those shapes. TypeScript's `as` casts check
 * nothing at run time; here each declared property is read from the object,
 * and a required property that is missing or of another JSON type reads as
 * a default ("" , 0 or an empty array).
 */
module Types {
  import opened Wrappers
  import opened Json

  /** A run destination or test device (the three identical device shapes of src/types.ts). */
  datatype Device = Device(
    architecture: string,
    deviceId: string,
    deviceName: string,
    modelName: string,
    osVersion: string,
    platform: string)

  /** One compiler diagnostic of a build. */
  datatype BuildIssue = BuildIssue(
    className: Option<string>,
    issueType: Option<string>,
    message: Option<string>,
    sourceURL: Option<string>,
    targetName: Option<string>)

  /**
   * The build summary. `errors` is declared required, but the renderer tests
   * whether it is there, so the model keeps it optional. Times are epoch
   * seconds; the diagnostics lists of warnings are only counted.
   */
  datatype BuildResult = BuildResult(
    analyzerWarningCount: int,
    analyzerWarnings: seq<Value>,
    destination: Option<Device>,
    endTime: int,
    errorCount: int,
    errors: Option<seq<BuildIssue>>,
    startTime: int,
    status: string,
    warningCount: int,
    warnings: seq<Value>)

  datatype TestPlanConfiguration = TestPlanConfiguration(configurationId: string, configurationName: string)

  /** The test counts of one device under one test plan configuration. */
  datatype DeviceAndConfiguration = DeviceAndConfiguration(
    device: Option<Device>,
    expectedFailures: int,
    failedTests: int,
    passedTests: int,
    skippedTests: int,
    testPlanConfiguration: Option<TestPlanConfiguration>)

  datatype Location = Location(filePath: Option<string>, lineNumber: Option<int>)

  datatype SourceCodeContext = SourceCodeContext(location: Option<Location>)

  /** One failing test occurrence. */
  datatype TestFailure = TestFailure(
    failureText: Option<string>,
    targetName: Option<string>,
    testIdentifier: Option<int>,
    testName: Option<string>,
    sourceCodeContext: Option<SourceCodeContext>)

  /** The test summary. */
  datatype TestResult = TestResult(
    devicesAndConfigurations: Option<seq<DeviceAndConfiguration>>,
    environmentDescription: string,
    expectedFailures: int,
    failedTests: int,
    finishTime: int,
    passedTests: int,
    result: string,
    skippedTests: int,
    startTime: int,
    testFailures: Option<seq<TestFailure>>,
    title: string,
    totalTestCount: int)

  /** A node of the detailed test tree: a suite, a test case, a failure message, ... */
  datatype TestNode = TestNode(
    children: Children,
    duration: Option<string>,
    name: string,
    nodeIdentifier: Option<string>,
    nodeType: string,
    result: string)

  /**
   * The optional `children` list of a node. It plays the part of
   * `Option<seq<TestNode>>`; a datatype of its own lets Dafny see that the
   * children of a node are smaller than the node.
   */
  datatype Children = Absent | Present(nodes: seq<TestNode>)

  datatype DetailedTestResult = DetailedTestResult(
    devices: seq<Device>,
    testNodes: seq<TestNode>,
    testPlanConfigurations: seq<TestPlanConfiguration>)

  /** What the fetcher returns: no test summary when the build failed. */
  datatype XcresultSummaryResult = XcresultSummaryResult(buildResult: BuildResult, testResult: Option<TestResult>)

  // Reading parsed JSON at these shapes.

  function AsDevice(v: Value): Device
  {
    Device(
      StringField(v, "architecture"), StringField(v, "deviceId"), StringField(v, "deviceName"),
      StringField(v, "modelName"), StringField(v, "osVersion"), StringField(v, "platform"))
  }

  function AsOptDevice(v: Value, key: string): Option<Device>
  {
    match OptObjectField(v, key)
    case Some(d) => Some(AsDevice(d))
    case None => None
  }

  function AsBuildIssue(v: Value): BuildIssue
  {
    BuildIssue(
      OptStringField(v, "className"), OptStringField(v, "issueType"), OptStringField(v, "message"),
      OptStringField(v, "sourceURL"), OptStringField(v, "targetName"))
  }

  function AsBuildResult(v: Value): BuildResult
  {
    BuildResult(
      analyzerWarningCount := IntField(v, "analyzerWarningCount"),
      analyzerWarnings := ArrayField(v, "analyzerWarnings"),
      destination := AsOptDevice(v, "destination"),
      endTime := IntField(v, "endTime"),
      errorCount := IntField(v, "errorCount"),
      errors := match OptArrayField(v, "errors")
                case Some(items) => Some(seq(|items|, i requires 0 <= i < |items| => AsBuildIssue(items[i])))
                case None => None,
      startTime := IntField(v, "startTime"),
      status := StringField(v, "status"),
      warningCount := IntField(v, "warningCount"),
      warnings := ArrayField(v, "warnings"))
  }

  function AsTestPlanConfiguration(v: Value): TestPlanConfiguration
  {
    TestPlanConfiguration(StringField(v, "configurationId"), StringField(v, "configurationName"))
  }

  function AsDeviceAndConfiguration(v: Value): DeviceAndConfiguration
  {
    DeviceAndConfiguration(
      device := AsOptDevice(v, "device"),
      expectedFailures := IntField(v, "expectedFailures"),
      failedTests := IntField(v, "failedTests"),
      passedTests := IntField(v, "passedTests"),
      skippedTests := IntField(v, "skippedTests"),
      testPlanConfiguration := match OptObjectField(v, "testPlanConfiguration")
                               case Some(c) => Some(AsTestPlanConfiguration(c))
                               case None => None)
  }

  function AsLocation(v: Value): Location
  {
    Location(OptStringField(v, "filePath"), OptIntField(v, "lineNumber"))
  }

  function AsTestFailure(v: Value): TestFailure
  {
    TestFailure(
      failureText := OptStringField(v, "failureText"),
      targetName := OptStringField(v, "targetName"),
      testIdentifier := OptIntField(v, "testIdentifier"),
      testName := OptStringField(v, "testName"),
      sourceCodeContext := match OptObjectField(v, "sourceCodeContext")
                           case Some(c) =>
                             Some(SourceCodeContext(
                               match OptObjectField(c, "location")
                               case Some(l) => Some(AsLocation(l))
                               case None => None))
                           case None => None)
  }

  function AsTestResult(v: Value): TestResult
  {
    TestResult(
      devicesAndConfigurations := match OptArrayField(v, "devicesAndConfigurations")
                                  case Some(items) =>
                                    Some(seq(|items|, i requires 0 <= i < |items| => AsDeviceAndConfiguration(items[i])))
                                  case None => None,
      environmentDescription := StringField(v, "environmentDescription"),
      expectedFailures := IntField(v, "expectedFailures"),
      failedTests := IntField(v, "failedTests"),
      finishTime := IntField(v, "finishTime"),
      passedTests := IntField(v, "passedTests"),
      result := StringField(v, "result"),
      skippedTests := IntField(v, "skippedTests"),
      startTime := IntField(v, "startTime"),
      testFailures := match OptArrayField(v, "testFailures")
                      case Some(items) => Some(seq(|items|, i requires 0 <= i < |items| => AsTestFailure(items[i])))
                      case None => None,
      title := StringField(v, "title"),
      totalTestCount := IntField(v, "totalTestCount"))
  }

  function AsTestNode(v: Value): TestNode
    decreases v
  {
    TestNode(
      children := if v.JObject? && "children" in v.fields && v.fields["children"].JArray?
                  then Present(AsTestNodes(v.fields["children"].items))
                  else Absent,
      duration := OptStringField(v, "duration"),
      name := StringField(v, "name"),
      nodeIdentifier := OptStringField(v, "nodeIdentifier"),
      nodeType := StringField(v, "nodeType"),
      result := StringField(v, "result"))
  }

  function AsTestNodes(vs: seq<Value>): seq<TestNode>
    decreases vs
  {
    if vs == [] then [] else [AsTestNode(vs[0])] + AsTestNodes(vs[1..])
  }

  function AsDetailedTestResult(v: Value): DetailedTestResult
  {
    var devices := ArrayField(v, "devices");
    var configurations := ArrayField(v, "testPlanConfigurations");
    DetailedTestResult(
      seq(|devices|, i requires 0 <= i < |devices| => AsDevice(devices[i])),
      AsTestNodes(ArrayField(v, "testNodes")),
      seq(|configurations|, i requires 0 <= i < |configurations| => AsTestPlanConfiguration(configurations[i])))
  }
}

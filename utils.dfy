/**
 * Shape guards for parsed JSON, and the extraction of failure records from
 * the detailed test tree (src/utils.ts).
 */
module Utils {
  import opened Wrappers
  import opened Json
  import opened Text
  import opened Types

  // Shape guards: an object (not null, not a primitive) holding a few keys.
  // Arrays never hold these keys, so only objects pass.

  const BuildResultKeys: set<string> := {"status", "errorCount", "warningCount"}
  const TestResultKeys: set<string> := {"result", "totalTestCount", "failedTests"}
  const DetailedTestResultKeys: set<string> := {"testNodes", "devices", "testPlanConfigurations"}

  predicate IsBuildResult(v: Value)
    ensures IsBuildResult(v) <==> v.JObject? && "status" in v.fields && "errorCount" in v.fields && "warningCount" in v.fields
  {
    v.JObject? && BuildResultKeys <= v.fields.Keys
  }

  predicate IsTestResult(v: Value)
    ensures IsTestResult(v) <==> v.JObject? && "result" in v.fields && "totalTestCount" in v.fields && "failedTests" in v.fields
  {
    v.JObject? && TestResultKeys <= v.fields.Keys
  }

  predicate IsDetailedTestResult(v: Value)
    ensures IsDetailedTestResult(v) <==> v.JObject? && "testNodes" in v.fields && "devices" in v.fields && "testPlanConfigurations" in v.fields
  {
    v.JObject? && DetailedTestResultKeys <= v.fields.Keys
  }

  /**
   * The guards look at keys only: any object holding the required keys passes,
   * whatever their values and whatever else it holds, and an object missing
   * any one of them fails.
   */
  lemma GuardsCheckKeysOnly(fields: map<string, Value>, key: string)
    ensures IsBuildResult(JObject(fields)) <==> "status" in fields && "errorCount" in fields && "warningCount" in fields
    ensures IsTestResult(JObject(fields)) <==> "result" in fields && "totalTestCount" in fields && "failedTests" in fields
    ensures IsDetailedTestResult(JObject(fields)) <==>
      "testNodes" in fields && "devices" in fields && "testPlanConfigurations" in fields
    ensures key in BuildResultKeys ==> !IsBuildResult(JObject(fields - {key}))
    ensures key in TestResultKeys ==> !IsTestResult(JObject(fields - {key}))
    ensures key in DetailedTestResultKeys ==> !IsDetailedTestResult(JObject(fields - {key}))
  {
  }

  /** Values that are not objects never pass a guard. */
  lemma GuardsRejectNonObjects(v: Value)
    requires !v.JObject?
    ensures !IsBuildResult(v) && !IsTestResult(v) && !IsDetailedTestResult(v)
  {
  }

  // The location pattern /([^:]+\.swift):(\d+):/.

  /**
   * The pattern matches `s` starting at index `i`, with its first group
   * `s[i..c]` (no colon, ending in ".swift", at least one character before
   * it) and its second group `s[c + 1..d]` (one or more digits), each
   * followed by a colon.
   */
  predicate SwiftLocationAt(s: string, i: nat, c: nat, d: nat)
  {
    && i + 7 <= c
    && c + 1 < d < |s|
    && (forall k :: i <= k < c ==> s[k] != ':')
    && s[c - 6..c] == ".swift"
    && s[c] == ':'
    && (forall k :: c < k < d ==> IsDigit(s[k]))
    && s[d] == ':'
  }

  /** The first colon at or after `from`, or `|s|` when there is none. */
  function ColonFrom(s: string, from: nat): (c: nat)
    requires from <= |s|
    decreases |s| - from
    ensures from <= c <= |s|
    ensures forall k :: from <= k < c ==> s[k] != ':'
    ensures c < |s| ==> s[c] == ':'
  {
    if from == |s| || s[from] == ':' then from else ColonFrom(s, from + 1)
  }

  /** The end of the run of digits that starts at `from`. */
  function DigitsFrom(s: string, from: nat): (d: nat)
    requires from <= |s|
    decreases |s| - from
    ensures from <= d <= |s|
    ensures forall k :: from <= k < d ==> IsDigit(s[k])
    ensures d < |s| ==> !IsDigit(s[d])
  {
    if from == |s| || !IsDigit(s[from]) then from else DigitsFrom(s, from + 1)
  }

  /** Where the pattern, tried at index `i`, ends its two groups; None when it fails there. */
  function MatchAt(s: string, i: nat): (r: Option<(nat, nat)>)
    requires i <= |s|
    ensures r.Some? ==> SwiftLocationAt(s, i, r.value.0, r.value.1)
    ensures r.None? ==> forall c: nat, d: nat :: !SwiftLocationAt(s, i, c, d)
  {
    var c := ColonFrom(s, i);
    if c < |s| && i + 7 <= c && s[c - 6..c] == ".swift" then
      var d := DigitsFrom(s, c + 1);
      if c + 1 < d < |s| && s[d] == ':' then Some((c, d))
      else
        assert forall c': nat, d': nat :: SwiftLocationAt(s, i, c', d') ==> c' == c && d' == d;
        None
    else
      assert forall c': nat, d': nat :: SwiftLocationAt(s, i, c', d') ==> c' == c;
      None
  }

  /** The leftmost match at or after index `from`. */
  function FirstMatchFrom(s: string, from: nat): (r: Option<(nat, nat, nat)>)
    requires from <= |s|
    decreases |s| - from
    ensures r.Some? ==> from <= r.value.0 && SwiftLocationAt(s, r.value.0, r.value.1, r.value.2)
    ensures r.Some? ==> forall j: nat, c: nat, d: nat :: from <= j < r.value.0 ==> !SwiftLocationAt(s, j, c, d)
    ensures r.None? ==> forall j: nat, c: nat, d: nat :: from <= j ==> !SwiftLocationAt(s, j, c, d)
  {
    if from == |s| then None
    else
      match MatchAt(s, from)
      case Some((c, d)) => Some((from, c, d))
      case None => FirstMatchFrom(s, from + 1)
  }

  /**
   * The location embedded in a failure message: the leftmost match of the
   * pattern gives the file path and the line number; with no match the
   * location is empty.
   */
  function ExtractLocationFromFailureMessage(message: string): (loc: Location)
    ensures loc.filePath.Some? <==> exists i: nat, c: nat, d: nat :: SwiftLocationAt(message, i, c, d)
    ensures loc.filePath.None? ==> loc == Location(None, None)
  {
    match FirstMatchFrom(message, 0)
    case Some((i, c, d)) =>
      LeftmostMatch(message, i, c, d);
      Location(Some(message[i..c]), Some(DecimalValue(message[c + 1..d])))
    case None => Location(None, None)
  }

  /** The match found from the start is a file reference with a numeric line. */
  lemma LeftmostMatch(message: string, i: nat, c: nat, d: nat)
    requires FirstMatchFrom(message, 0) == Some((i, c, d))
    ensures SwiftLocationAt(message, i, c, d) && c + 1 <= d <= |message|
    ensures AllDigits(message[c + 1..d])
  {
    var digits := message[c + 1..d];
    forall k | 0 <= k < |digits|
      ensures IsDigit(digits[k])
    {
      assert digits[k] == message[c + 1 + k];
    }
  }

  /** Where a reference starts decides where its colons are: the first colon after the start, then the next one. */
  lemma MatchIsDetermined(s: string, i: nat, c: nat, d: nat, c': nat, d': nat)
    requires SwiftLocationAt(s, i, c, d) && SwiftLocationAt(s, i, c', d')
    ensures c == c' && d == d'
  {
  }

  /**
   * The location is read off the leftmost reference `X.swift:N:` of the text:
   * the path is X.swift and the line is N as a decimal number.
   */
  lemma LocationOfLeftmostMatch(message: string, i: nat, c: nat, d: nat)
    requires SwiftLocationAt(message, i, c, d)
    requires forall j: nat, c': nat, d': nat :: j < i ==> !SwiftLocationAt(message, j, c', d')
    ensures ExtractLocationFromFailureMessage(message) == Location(Some(message[i..c]), Some(DecimalValue(message[c + 1..d])))
  {
    var r := FirstMatchFrom(message, 0);
    assert r.Some?;
    var first := r.value;
    assert first.0 == i;
    MatchIsDetermined(message, i, c, d, first.1, first.2);
  }

  /** A message that starts with "<file>.swift:<digits>:" yields that file and that line. */
  lemma LocationOfLeadingReference(file: string, line: string, rest: string)
    requires |file| >= 1 && ':' !in file
    requires line != [] && AllDigits(line)
    ensures ExtractLocationFromFailureMessage(file + ".swift:" + line + ":" + rest)
         == Location(Some(file + ".swift"), Some(DecimalValue(line)))
  {
    var path := file + ".swift";
    var s := path + ":" + line + ":" + rest;
    assert file + ".swift:" + line + ":" + rest == s;
    var c := |path|;
    var d := c + 1 + |line|;
    assert s[..c] == path;
    assert s[c] == ':';
    assert s[c + 1..d] == line;
    assert s[d] == ':';
    assert ':' !in path by {
      forall k | 0 <= k < |path| ensures path[k] != ':' {
        if k < |file| { assert path[k] == file[k]; } else { assert path[k] == ".swift"[k - |file|]; }
      }
    }
    assert ColonFrom(s, 0) == c by {
      assert forall k :: 0 <= k < c ==> s[k] == path[k];
    }
    assert DigitsFrom(s, c + 1) == d by {
      assert forall k :: c + 1 <= k < d ==> s[k] == line[k - c - 1];
    }
    assert s[c - 6..c] == ".swift";
    assert MatchAt(s, 0) == Some((c, d));
  }

  // Extracting failure records from the detailed test tree.

  /** A node that stands for a failed test case. */
  predicate IsFailedTestCase(node: TestNode)
  {
    node.nodeType == "Test Case" && node.result == "Failed"
  }

  /** `node.children?.[0]?.name || ''`: the name of the first child, conventionally the failure message. */
  function FirstChildName(node: TestNode): string
  {
    if node.children.Present? && |node.children.nodes| > 0 then node.children.nodes[0].name else ""
  }

  /**
   * The record made for a failed test case: its name, the first child's name
   * as the failure text ("Unknown failure" when that is missing or empty),
   * and a location record, present even when the text names no location.
   */
  function FailureRecord(node: TestNode): (record: TestFailure)
    ensures record.testName == Some(node.name)
    ensures record.failureText.Some? && record.failureText.value != ""
    ensures FirstChildName(node) != "" ==> record.failureText == Some(FirstChildName(node))
    ensures FirstChildName(node) == "" ==>
      record.failureText == Some("Unknown failure")
      && record.sourceCodeContext == Some(SourceCodeContext(Some(Location(None, None))))
    ensures record.sourceCodeContext.Some? && record.sourceCodeContext.value.location.Some?
    ensures record.sourceCodeContext.value.location.value.filePath.Some? <==>
      exists i: nat, c: nat, d: nat :: SwiftLocationAt(FirstChildName(node), i, c, d)
    ensures record.targetName.None? && record.testIdentifier.None?
  {
    TestFailure(
      failureText := Some(if FirstChildName(node) != "" then FirstChildName(node) else "Unknown failure"),
      targetName := None,
      testIdentifier := None,
      testName := Some(node.name),
      sourceCodeContext := Some(SourceCodeContext(Some(ExtractLocationFromFailureMessage(FirstChildName(node))))))
  }

  /** A failure text that starts with `file.swift:line:` gives the record that file and line. */
  lemma FailureRecordOfLeadingReference(node: TestNode, file: string, line: string, rest: string)
    requires |file| >= 1 && ':' !in file && line != [] && AllDigits(line)
    requires FirstChildName(node) == file + ".swift:" + line + ":" + rest
    ensures FailureRecord(node).failureText == Some(FirstChildName(node))
    ensures FailureRecord(node).sourceCodeContext ==
      Some(SourceCodeContext(Some(Location(Some(file + ".swift"), Some(DecimalValue(line))))))
  {
    LocationOfLeadingReference(file, line, rest);
  }

  /** The records a walk over `nodes` emits: each node is visited, then its children. */
  function Failures(nodes: seq<TestNode>): seq<TestFailure>
    decreases nodes
  {
    if nodes == [] then [] else NodeFailures(nodes[0]) + Failures(nodes[1..])
  }

  function NodeFailures(node: TestNode): seq<TestFailure>
    decreases node
  {
    OwnRecord(node) + (match node.children case Present(children) => Failures(children) case Absent => [])
  }

  /** The record a node itself contributes: one for a failed test case, none otherwise. */
  function OwnRecord(node: TestNode): seq<TestFailure>
  {
    if IsFailedTestCase(node) then [FailureRecord(node)] else []
  }

  /** Every node of a forest in depth-first document order: a node, then its descendants, then its next sibling. */
  function PreOrder(nodes: seq<TestNode>): seq<TestNode>
    decreases nodes
  {
    if nodes == [] then [] else NodePreOrder(nodes[0]) + PreOrder(nodes[1..])
  }

  /** A node followed by all its descendants. */
  function NodePreOrder(node: TestNode): seq<TestNode>
    decreases node
  {
    [node] + (match node.children case Present(children) => PreOrder(children) case Absent => [])
  }

  /** The failed test cases among `nodes`, in order. */
  function FailedTestCases(nodes: seq<TestNode>): (r: seq<TestNode>)
    ensures forall n :: n in r ==> n in nodes && IsFailedTestCase(n)
    ensures forall n :: n in nodes && IsFailedTestCase(n) ==> n in r
    ensures |r| <= |nodes|
  {
    if nodes == [] then []
    else (if IsFailedTestCase(nodes[0]) then [nodes[0]] else []) + FailedTestCases(nodes[1..])
  }

  function FailureRecords(nodes: seq<TestNode>): (r: seq<TestFailure>)
    ensures |r| == |nodes|
    ensures forall k :: 0 <= k < |nodes| ==> r[k] == FailureRecord(nodes[k])
  {
    if nodes == [] then [] else [FailureRecord(nodes[0])] + FailureRecords(nodes[1..])
  }

  lemma {:induction false} FailuresAppend(a: seq<TestNode>, b: seq<TestNode>)
    ensures Failures(a + b) == Failures(a) + Failures(b)
  {
    if a == [] {
      assert a + b == b;
    } else {
      assert (a + b)[0] == a[0];
      assert (a + b)[1..] == a[1..] + b;
      FailuresAppend(a[1..], b);
    }
  }

  /** Siblings keep their order: the walk over two lists is the walk over the first, then over the second. */
  lemma {:induction false} PreOrderAppend(a: seq<TestNode>, b: seq<TestNode>)
    ensures PreOrder(a + b) == PreOrder(a) + PreOrder(b)
  {
    if a == [] {
      assert a + b == b;
    } else {
      assert (a + b)[0] == a[0];
      assert (a + b)[1..] == a[1..] + b;
      PreOrderAppend(a[1..], b);
    }
  }

  lemma {:induction false} FailedTestCasesAppend(a: seq<TestNode>, b: seq<TestNode>)
    ensures FailedTestCases(a + b) == FailedTestCases(a) + FailedTestCases(b)
  {
    if a == [] {
      assert a + b == b;
    } else {
      assert (a + b)[0] == a[0];
      assert (a + b)[1..] == a[1..] + b;
      FailedTestCasesAppend(a[1..], b);
    }
  }

  lemma FailureRecordsAppend(a: seq<TestNode>, b: seq<TestNode>)
    ensures FailureRecords(a + b) == FailureRecords(a) + FailureRecords(b)
  {
  }

  /** The nodes below a node, in the order the walk visits them. */
  function Below(node: TestNode): seq<TestNode>
  {
    match node.children case Present(children) => children case Absent => []
  }

  /**
   * The walk emits exactly one record per failed test case of the tree, at
   * any depth, in depth-first document order, and nothing for any other node.
   */
  lemma {:induction false} FailuresAreFailedCasesInPreOrder(nodes: seq<TestNode>)
    ensures Failures(nodes) == FailureRecords(FailedTestCases(PreOrder(nodes)))
    decreases nodes
  {
    if nodes != [] {
      NodeFailuresAreFailedCasesInPreOrder(nodes[0]);
      FailuresAreFailedCasesInPreOrder(nodes[1..]);
      FailedTestCasesAppend(NodePreOrder(nodes[0]), PreOrder(nodes[1..]));
      FailureRecordsAppend(FailedTestCases(NodePreOrder(nodes[0])), FailedTestCases(PreOrder(nodes[1..])));
    }
  }

  lemma {:induction false} NodeFailuresAreFailedCasesInPreOrder(node: TestNode)
    ensures NodeFailures(node) == FailureRecords(FailedTestCases(NodePreOrder(node)))
    decreases node
  {
    var below := Below(node);
    match node.children {
      case Present(children) => FailuresAreFailedCasesInPreOrder(children);
      case Absent =>
    }
    assert NodePreOrder(node) == [node] + PreOrder(below);
    assert NodeFailures(node) == OwnRecord(node) + Failures(below);
    FailedTestCasesAppend([node], PreOrder(below));
    FailureRecordsAppend(FailedTestCases([node]), FailedTestCases(PreOrder(below)));
  }

  /** The number of records is the number of failed test cases anywhere in the tree. */
  lemma FailureCount(nodes: seq<TestNode>)
    ensures |Failures(nodes)| == |FailedTestCases(PreOrder(nodes))|
  {
    FailuresAreFailedCasesInPreOrder(nodes);
  }

  /**
   * A failed test case comes before the failed test cases below it, so its
   * record precedes theirs: the walk goes on into nodes it has recorded.
   */
  lemma NodeRecordedBeforeItsDescendants(node: TestNode)
    requires IsFailedTestCase(node)
    ensures FailedTestCases(NodePreOrder(node)) == [node] + FailedTestCases(PreOrder(Below(node)))
    ensures NodeFailures(node) == FailureRecords([node] + FailedTestCases(PreOrder(Below(node))))
  {
    assert NodePreOrder(node) == [node] + PreOrder(Below(node));
    FailedTestCasesAppend([node], PreOrder(Below(node)));
    NodeFailuresAreFailedCasesInPreOrder(node);
  }

  /**
   * `traverseNodes`: visits `nodes` in order, pushing a record for each failed
   * test case onto `failures` and then descending into its children.
   */
  method TraverseNodes(nodes: seq<TestNode>, failures: seq<TestFailure>) returns (result: seq<TestFailure>)
    ensures result == failures + Failures(nodes)
    decreases Present(nodes)
  {
    result := failures;
    for i := 0 to |nodes|
      invariant result == failures + Failures(nodes[..i])
    {
      ghost var before := result;
      var node := nodes[i];
      if IsFailedTestCase(node) {
        result := result + [FailureRecord(node)];
      }
      ghost var recorded := result;
      match node.children {
        case Present(children) => result := TraverseNodes(children, result);
        case Absent =>
      }
      TraversalStep(nodes, i, failures, before, recorded, result);
    }
    assert nodes[..|nodes|] == nodes;
  }

  /** Recording `nodes[i]`, then walking below it, extends the records of `nodes[..i]` to those of `nodes[..i + 1]`. */
  lemma TraversalStep(nodes: seq<TestNode>, i: nat, failures: seq<TestFailure>,
                      before: seq<TestFailure>, recorded: seq<TestFailure>, result: seq<TestFailure>)
    requires i < |nodes|
    requires before == failures + Failures(nodes[..i])
    requires recorded == before + OwnRecord(nodes[i])
    requires result == recorded + Failures(Below(nodes[i]))
    ensures result == failures + Failures(nodes[..i + 1])
  {
    var node := nodes[i];
    assert NodeFailures(node) == OwnRecord(node) + Failures(Below(node)) by {
      match node.children {
        case Present(children) =>
        case Absent =>
      }
    }
    NextNodeFailures(nodes, i);
    AppendAssociates(failures, Failures(nodes[..i]), OwnRecord(node));
    AppendAssociates(failures + Failures(nodes[..i]), OwnRecord(node), Failures(Below(node)));
    AppendAssociates(failures, Failures(nodes[..i]), NodeFailures(node));
  }

  lemma NextNodeFailures(nodes: seq<TestNode>, i: nat)
    requires i < |nodes|
    ensures Failures(nodes[..i + 1]) == Failures(nodes[..i]) + NodeFailures(nodes[i])
  {
    assert nodes[..i + 1] == nodes[..i] + [nodes[i]];
    FailuresAppend(nodes[..i], [nodes[i]]);
    assert Failures([nodes[i]]) == NodeFailures(nodes[i]) + Failures([]);
  }

  /** `extractTestFailures`: the failure records of the whole detailed test tree. */
  method ExtractTestFailures(details: DetailedTestResult) returns (failures: seq<TestFailure>)
    ensures failures == FailureRecords(FailedTestCases(PreOrder(details.testNodes)))
  {
    failures := TraverseNodes(details.testNodes, []);
    FailuresAreFailedCasesInPreOrder(details.testNodes);
  }
}

/**
 * The records of the harness: the `TestCase` dataclass with its defaults, and
 * the result records the other files construct (`ExecuteResult`,
 * `CheckResult`, `TestCaseResult`, `TargetSpecs`), declared from their uses.
 */
module Records {
  import opened Base

  /**
   * A result-record field as a constructor call leaves it: `Given` a value, or
   * at the declaration's `Default`, whose value is not part of this model.
   */
  datatype Field<T> = Given(value: T) | Default

  /** The declared defaults of the result-record fields that some call leaves out; `None` is Python's `None`. */
  datatype ResultDefaults = ResultDefaults(
    success: Option<bool>,
    folderExists: Option<bool>,
    permissionsCheckStatus: Option<bool>)

  /** The Python value of a result-record field. */
  function ValueOf(f: Field<bool>, declared: Option<bool>): Option<bool> {
    match f
    case Given(b) => Some(b)
    case Default => declared
  }

  /** Outcome of the `mkdir` attempt. */
  datatype ExecuteResult = ExecuteResult(success: Field<bool>, output: string)

  /** Outcome of the `ls -ld` inspection. */
  datatype CheckResult = CheckResult(
    folderExists: Field<bool>,
    permissionsCheckStatus: Field<bool>,
    output: string)

  /**
   * The four comparisons of a verdict, in the order they are computed. The
   * last one is either `True` or the check's `permissions_check_status`
   * itself, which may be left at its declared default (possibly `None`).
   */
  datatype TestCaseResult = TestCaseResult(
    runAsExpected: bool,
    existenceAsExpected: bool,
    outputAsExpected: bool,
    permissionsAsExpected: Option<bool>)

  /**
   * The truth value of a verdict, which the declaration does not show: taken
   * to be the conjunction of its four comparisons, a `None` counting as false.
   */
  predicate Passed(r: TestCaseResult) {
    r.runAsExpected && r.existenceAsExpected && r.outputAsExpected && r.permissionsAsExpected == Some(true)
  }

  /** `if test_case.test_result:` on the stored result (`None` until a run assigns it). */
  predicate Truthy(result: Option<TestCaseResult>) {
    result.Some? && Passed(result.value)
  }

  /** A target identifier split at `_`: the host kind and its optional parameter. */
  datatype TargetSpecs = TargetSpecs(host: string, parameters: Option<string>)

  /**
   * One test case. The fields without a default in the declaration come first;
   * `securityCheck` .. `expRunOutput` are read by the handler and the targets
   * but are not in the shown declaration, so they carry no default here.
   */
  datatype TestCase = TestCase(
    name: string,
    userRun: string,
    userCheck: string,
    depth: int,
    expectedResult: bool,
    securityCheck: bool,
    addQuotes: bool,
    expRunNoError: bool,
    expExistance: bool,
    expPermissions: Option<string>,
    expRunOutput: Option<string>,
    baseDir: string := "/tmp",
    folderNameLength: int := 10,
    allowSpaces: bool := false,
    validFolderName: bool := true,
    cleanUp: bool := true,
    flags: seq<string> := [],
    testResult: Option<TestCaseResult> := None)

  /** A test case built from its required fields only: every other field takes its declared default. */
  function NewTestCase(
    name: string, userRun: string, userCheck: string, depth: int, expectedResult: bool,
    securityCheck: bool, addQuotes: bool, expRunNoError: bool, expExistance: bool,
    expPermissions: Option<string>, expRunOutput: Option<string>): (tc: TestCase)
    ensures tc.name == name && tc.userRun == userRun && tc.userCheck == userCheck
    ensures tc.depth == depth && tc.expectedResult == expectedResult
    ensures tc.securityCheck == securityCheck && tc.addQuotes == addQuotes
    ensures tc.expRunNoError == expRunNoError && tc.expExistance == expExistance
    ensures tc.expPermissions == expPermissions && tc.expRunOutput == expRunOutput
    ensures tc.baseDir == "/tmp"
    ensures tc.folderNameLength == 10
    ensures !tc.allowSpaces && tc.validFolderName
    ensures tc.cleanUp
    ensures tc.flags == []
    ensures tc.testResult == None
  {
    TestCase(name, userRun, userCheck, depth, expectedResult, securityCheck, addQuotes,
             expRunNoError, expExistance, expPermissions, expRunOutput)
  }
}

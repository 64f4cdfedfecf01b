/**
 * Bounds, statuses and the value types shared by the Attest test engine model.
 *
 * The engine keeps everything in static storage; the bounds below are the
 * compile-time options of attest.h at their default values.
 */
module Types {

  /** ATTEST_MAX_TESTS: registered tests, and also the size of the case-result table. */
  const MaxTests: nat := 128
  /** ATTEST_MAX_PARAMERTERIZE_RESULTS: failures kept per parameterized case. */
  const MaxParamResults: nat := 32
  /** ATTEST_VALUE_BUF: every rendered text buffer of a failure record. */
  const ValueBuf: nat := 128
  /** ATTEST_MAX_TEST_ATTEMPTS: largest `attempts` option and size of the per-attempt tables. */
  const MaxTestAttempts: nat := 32
  /** ATTEST_MAX_FAILURES: failures kept per attempt of a plain test. */
  const MaxFailures: nat := 16

  datatype Option<T> = None | Some(value: T)

  /** The verdict of an attempt, a case or a test. MissingExpectation is the zero value. */
  datatype Status = MissingExpectation | Passed | Failed

  /** One recorded expectation failure, with its fixed-size texts already rendered. */
  datatype FailureInfo = FailureInfo(
    filename: string,
    line: int,
    hasMsg: bool,
    msg: string,
    verificationText: string,
    actualLabel: string,
    actualValue: string,
    hasExpectedValue: bool,
    expectedLabel: string,
    expectedValue: string,
    reason: string)

  /** The aggregated result slot of one parameterized case. */
  datatype InstanceResult = InstanceResult(
    caseName: string,
    status: Status,
    failures: seq<FailureInfo>,
    hasStatus: bool)

  /** A zeroed result slot: what memset leaves, and what a case without expectations gets. */
  const EmptyResult := InstanceResult("", MissingExpectation, [], false)

  /** What one expectation macro does when the user body reaches it. */
  datatype Expectation = Pass | Fail(info: FailureInfo)

  /** The expectations one run of a user body makes, in order. */
  type Script = seq<Expectation>

  /**
   * The behaviour of an opaque user body: attempt k runs script k; a body
   * makes no expectations on attempts beyond the listed ones.
   */
  type Behaviour = seq<Script>

  function ScriptAt(b: Behaviour, k: nat): Script
  {
    if k < |b| then b[k] else []
  }

  /** An opaque fixture pointer (`void*`); Null is NULL. */
  type Handle = nat
  const Null: Handle := 0

  /** Which body a run configuration calls: exactly one is set. */
  datatype BodyKind = Simple | Contextual | ParamCase(index: nat)

  /** The by-value copy of a descriptor that the attempt executor runs. */
  datatype RunConfig = RunConfig(
    title: string,
    skip: bool,
    attempts: int,
    hasBefore: bool,
    hasAfter: bool,
    hasBeforeEachCase: bool,
    hasAfterEachCase: bool,
    body: BodyKind)
  {
    predicate IsParamCase() { body.ParamCase? }
  }

  /** The option list of a parameterized test; it is copied into every case configuration. */
  datatype CaseOptions = CaseOptions(
    skip: bool,
    attempts: int,
    hasBefore: bool,
    hasAfter: bool,
    hasBeforeAllCases: bool,
    hasAfterAllCases: bool,
    hasBeforeEachCase: bool,
    hasAfterEachCase: bool)

  /** One row of a parameterized test's case table. */
  datatype TestCase = TestCase(name: string, behaviour: Behaviour)

  /**
   * A registered descriptor. A plain test carries its own options; the
   * registered descriptor of a parameterized test carries only its title
   * (its options reach the cases, not the descriptor). `setFixture` is the
   * pointer that the test's before-all-cases hook stores in the shared `set`.
   */
  datatype TestSpec =
    | Plain(
        title: Option<string>,
        skip: bool,
        disabled: bool,
        attempts: int,
        hasBefore: bool,
        hasAfter: bool,
        hasBeforeEachCase: bool,
        hasAfterEachCase: bool,
        contextual: bool,
        behaviour: Behaviour)
    | Parameterized(
        name: string,
        options: CaseOptions,
        cases: seq<TestCase>,
        setFixture: Handle)
  {
    function Title(): Option<string>
    {
      if Plain? then title else Some(name)
    }

    function Attempts(): int
    {
      if Plain? then attempts else 0
    }

    predicate Disabled()
    {
      Plain? && disabled
    }
  }

  /**
   * The process-wide hooks installed before the entry point runs;
   * `beforeAllShared` is what the global before-all hook stores in the
   * global context's `shared`.
   */
  datatype Hooks = Hooks(
    beforeAll: bool,
    beforeAllShared: Handle,
    beforeEach: bool,
    afterEach: bool,
    afterAll: bool)

  /** Calls the engine makes into user code, in the order it makes them. */
  datatype Event =
    | GlobalBeforeAll
    | GlobalBeforeEach
    | Before
    | BeforeEachCase
    | Body(kind: BodyKind)
    | After
    | FreeLocal
    | AfterEachCase
    | GlobalAfterEach
    | ParamInit
    | BeforeAllCases
    | AfterAllCases
    | GlobalAfterAll

  /** The static buffers whose capacity the engine can exceed. */
  datatype Buffer = AttemptStatuses | AttemptFailureList | CaseFailureList | CaseTable

  /** The reasons the engine stops the process with exit status 1. */
  datatype Fatal =
    | TooManyTests
    | NegativeAttempts
    | TooManyAttempts
    | MissingTitle
    | DuplicateTitle
    | BeforeInParamCase
    | AfterInParamCase
    | NoCases
    | InvalidAttemptState
    | Overflow(buffer: Buffer)

  /** What the per-test reporter prints, without its formatting. */
  datatype Report =
    | MissingNotice(title: string)
    | FailureReport(title: string, attempts: seq<seq<FailureInfo>>)
    | ParamMissingNotice(title: string)
    | ParamFailureReport(title: string, passedCases: nat, caseCount: nat, failedCases: seq<InstanceResult>)
}

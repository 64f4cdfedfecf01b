/**
 * The engine's behaviour as functions on a snapshot of its global state.
 *
 * A Machine is everything the engine keeps in static storage; each function
 * below is one engine routine (or one macro-generated routine) and returns
 * the state after it. User code is not modelled: a hook is an event in the
 * trace, and a body is the script of expectations it makes. A call to
 * exit(1) sets `aborted`, after which nothing else happens.
 */
module Semantics {
  import opened Types
  import opened Rules

  datatype Counters = Counters(total: int, passed: int, failed: int, skipped: int, empty: int)

  /** The pointers of the global parameter context, and the current case's name. */
  datatype ParamContext = ParamContext(shared: Handle, setData: Handle, local: Handle, caseName: string)

  /** The attester's by-value configuration, whose status the expectations write. */
  datatype CurrentTest = CurrentTest(cfg: RunConfig, status: Status)

  datatype Machine = Machine(
    counters: Counters,
    caseCount: int,
    attemptFailures: seq<seq<FailureInfo>>,
    testAttemptCount: int,
    results: seq<InstanceResult>,
    current: CurrentTest,
    globalShared: Handle,
    paramCtx: ParamContext,
    beforeAllCases: bool,
    afterAllCases: bool,
    trace: seq<Event>,
    reports: seq<Report>,
    aborted: Option<Fatal>)

  /** A configuration whose case index lies inside the case-result table. */
  predicate ConfigFits(c: RunConfig)
  {
    c.body.ParamCase? ==> c.body.index < MaxTests
  }

  /** The static tables have their declared sizes and the indices into them are in range. */
  predicate WellFormed(m: Machine)
  {
    && |m.attemptFailures| == MaxTestAttempts
    && |m.results| == MaxTests
    && 0 <= m.caseCount <= MaxTests
    && 0 <= m.testAttemptCount <= MaxTestAttempts
    && ConfigFits(m.current.cfg)
  }

  /** Every per-attempt failure list emptied, as the run loop's memset leaves them. */
  function NoFailures(): (r: seq<seq<FailureInfo>>)
    ensures |r| == MaxTestAttempts && forall i :: 0 <= i < |r| ==> r[i] == []
  {
    seq(MaxTestAttempts, i => [])
  }

  /** Every case-result slot zeroed. */
  function EmptyResults(): (r: seq<InstanceResult>)
    ensures |r| == MaxTests && forall i :: 0 <= i < |r| ==> r[i] == EmptyResult
  {
    seq(MaxTests, i => EmptyResult)
  }

  const NoTest := RunConfig("", false, 0, false, false, false, false, Simple)

  /** Zero-initialised static storage. */
  function Initial(): (m: Machine)
    ensures WellFormed(m)
  {
    Machine(Counters(0, 0, 0, 0, 0), 0, NoFailures(), 0, EmptyResults(),
            CurrentTest(NoTest, MissingExpectation), Null,
            ParamContext(Null, Null, Null, ""), false, false, [], [], None)
  }

  function Emit(m: Machine, e: Event): Machine
  {
    m.(trace := m.trace + [e])
  }

  function Abort(m: Machine, f: Fatal): Machine
  {
    m.(aborted := Some(f))
  }

  // ---------------------------------------------------------------------
  // Reporters (attest.h:773-831)
  // ---------------------------------------------------------------------

  /**
   * report_success: the status becomes PASSED; a case run without retries
   * claims its result slot if no expectation has claimed it yet.
   */
  function ReportSuccess(m: Machine): (r: Machine)
    requires WellFormed(m)
    ensures WellFormed(r)
  {
    var cfg := m.current.cfg;
    var m1 := m.(current := m.current.(status := Passed));
    if cfg.attempts <= 0 && cfg.body.ParamCase? && !m.results[cfg.body.index].hasStatus then
      m1.(results := m.results[cfg.body.index := InstanceResult(m.paramCtx.caseName, Passed, [], true)])
    else m1
  }

  /**
   * report_failure: the status becomes FAILED and the failure is appended to
   * the case's result slot, or to the current attempt's failure list. The
   * C code writes past a full list; here that is an overflow abort.
   */
  function ReportFailure(m: Machine, info: FailureInfo): (r: Machine)
    requires WellFormed(m)
    ensures WellFormed(r)
  {
    var cfg := m.current.cfg;
    var m1 := m.(current := m.current.(status := Failed));
    if cfg.body.ParamCase? then
      var slot := m.results[cfg.body.index];
      if |slot.failures| >= MaxParamResults then Abort(m1, Overflow(CaseFailureList))
      else m1.(results := m.results[cfg.body.index := InstanceResult(m.paramCtx.caseName, Failed, slot.failures + [info], true)])
    else if m.testAttemptCount >= MaxTestAttempts then Abort(m1, Overflow(AttemptFailureList))
    else
      var list := m.attemptFailures[m.testAttemptCount];
      if |list| >= MaxFailures then Abort(m1, Overflow(AttemptFailureList))
      else m1.(attemptFailures := m.attemptFailures[m.testAttemptCount := list + [info]])
  }

  function Expect(m: Machine, e: Expectation): (r: Machine)
    requires WellFormed(m)
    ensures WellFormed(r)
  {
    match e
    case Pass => ReportSuccess(m)
    case Fail(info) => ReportFailure(m, info)
  }

  /** One run of a user body: its expectations in order, none after an abort. */
  function RunBody(m: Machine, s: Script): (r: Machine)
    requires WellFormed(m)
    ensures WellFormed(r)
    decreases |s|
  {
    if s == [] || m.aborted.Some? then m
    else RunBody(Expect(m, s[0]), s[1..])
  }

  // ---------------------------------------------------------------------
  // The attempt executor (attest.h:239-405)
  // ---------------------------------------------------------------------

  /** The call made at a call site guarded by `guard`: the callee if the guard holds, else none. */
  function CallIf(guard: bool, e: Event): seq<Event>
  {
    if guard then [e] else []
  }

  /** The configuration's own fixture hooks, then the body (attest.h:289-303). */
  function FixtureEvents(c: RunConfig): seq<Event>
  {
    CallIf(c.hasBefore, Before) + CallIf(c.hasBeforeEachCase, BeforeEachCase) + [Body(c.body)]
  }

  /** The user calls ahead of the body in one attempt, ending with the body call (attest.h:277-303). */
  function PrologueEvents(h: Hooks, c: RunConfig): seq<Event>
  {
    CallIf(h.beforeEach && !c.IsParamCase(), GlobalBeforeEach) + FixtureEvents(c)
  }

  /** The user calls after the body in one attempt (attest.h:310-322). */
  function EpilogueEvents(h: Hooks, c: RunConfig): seq<Event>
  {
    CallIf(c.hasAfter, After)
    + [FreeLocal]
    + CallIf(c.hasAfterEachCase, AfterEachCase)
    + CallIf(h.afterEach, GlobalAfterEach)
  }

  /**
   * The part of an attempt ahead of the body (attest.h:272-303). A case
   * with a plain before hook stops the process; the global before-each
   * hook, the only call that could precede that check, is never made for a
   * case.
   */
  function Prologue(m: Machine, h: Hooks): (r: Machine)
    requires WellFormed(m)
    ensures WellFormed(r)
  {
    var c := m.current.cfg;
    var m1 := m.(paramCtx := m.paramCtx.(local := Null));
    if c.IsParamCase() && c.hasBefore then Abort(m1, BeforeInParamCase)
    else m1.(trace := m.trace + PrologueEvents(h, c))
  }

  /** The part of an attempt after the body (attest.h:305-322); a case with a plain after hook stops the process. */
  function Epilogue(m: Machine, h: Hooks): (r: Machine)
    requires WellFormed(m)
    ensures WellFormed(r)
  {
    var c := m.current.cfg;
    if c.IsParamCase() && c.hasAfter then Abort(m, AfterInParamCase)
    else m.(trace := m.trace + EpilogueEvents(h, c))
  }

  /** One iteration of the retry loop, up to recording its status (attest.h:263-322). */
  function Attempt(m: Machine, h: Hooks, s: Script): (r: Machine)
    requires WellFormed(m)
    ensures WellFormed(r)
  {
    var pre := Prologue(m, h);
    if pre.aborted.Some? then pre
    else
      var mb := RunBody(pre, s);
      if mb.aborted.Some? then mb else Epilogue(mb, h)
  }

  /** The machine after the retry loop, and the statuses it recorded. */
  datatype Looped = Looped(m: Machine, statuses: seq<Status>)

  /**
   * The retry loop from attempt k: while fewer than max attempts have run,
   * run attempt k and go on with what follows it.
   */
  function AttemptLoop(m: Machine, h: Hooks, b: Behaviour, k: nat, max: int, st: seq<Status>): (r: Looped)
    requires WellFormed(m)
    ensures WellFormed(r.m)
    decreases max - k, 1
  {
    if k >= max || m.aborted.Some? then Looped(m, st)
    else AfterAttempt(Attempt(m, h, ScriptAt(b, k)), h, b, k, max, st)
  }

  /**
   * The end of attempt k, with m the state the attempt left: record its
   * status and go on only after FAILED. The status array of the C code has
   * MaxTestAttempts slots; recording past it is an overflow abort.
   */
  function AfterAttempt(m: Machine, h: Hooks, b: Behaviour, k: nat, max: int, st: seq<Status>): (r: Looped)
    requires WellFormed(m) && k < max
    ensures WellFormed(r.m)
    decreases max - k, 0
  {
    if m.aborted.Some? then Looped(m, st)
    else if m.testAttemptCount >= MaxTestAttempts then Looped(Abort(m, Overflow(AttemptStatuses)), st)
    else
      var st' := st + [m.current.status];
      var m2 := m.(testAttemptCount := m.testAttemptCount + 1);
      if m.current.status == Failed then AttemptLoop(m2, h, b, k + 1, max, st')
      else Looped(m2, st')
  }

  /** What the per-test reporter prints for a plain test's verdict. */
  function PlainReport(v: Status, title: string, attempts: seq<seq<FailureInfo>>): seq<Report>
  {
    match v
    case Passed => []
    case MissingExpectation => [MissingNotice(title)]
    case Failed => [FailureReport(title, attempts)]
  }

  /** The counters with the one for verdict v raised by one. */
  function Bump(c: Counters, v: Status): Counters
  {
    match v
    case Passed => c.(passed := c.passed + 1)
    case MissingExpectation => c.(empty := c.empty + 1)
    case Failed => c.(failed := c.failed + 1)
  }

  /** Resolution and counting of a plain test after its retry loop (attest.h:341-404). */
  function Tally(m: Machine, st: seq<Status>): (r: Machine)
    requires WellFormed(m)
    ensures WellFormed(r)
  {
    var v := FinalStatus(st, m.current.status);
    m.(current := m.current.(status := v),
       counters := Bump(m.counters, v),
       reports := m.reports + PlainReport(v, m.current.cfg.title, m.attemptFailures[..m.testAttemptCount]))
  }

  /**
   * What the attester does after its retry loop (attest.h:331-404), from
   * the state the loop left and the statuses it recorded: the attempt-count
   * check, then the slot of a case without expectations, or the plain
   * test's verdict.
   */
  function Resolve(m: Machine, c: RunConfig, max: int, st: seq<Status>): (r: Machine)
    requires WellFormed(m) && ConfigFits(c)
    ensures WellFormed(r)
  {
    if m.aborted.Some? then m
    else if m.testAttemptCount > max then Abort(m, InvalidAttemptState)
    else if c.IsParamCase() then
      if m.current.status == MissingExpectation then m.(results := m.results[c.body.index := EmptyResult])
      else m
    else Tally(m, st)
  }

  /** attester: run one configuration with retries and record its verdict. */
  function Attester(m: Machine, h: Hooks, c: RunConfig, b: Behaviour): (r: Machine)
    requires WellFormed(m) && ConfigFits(c)
    ensures WellFormed(r)
  {
    var m0 := m.(current := CurrentTest(c, MissingExpectation));
    if c.skip then m0.(counters := m0.counters.(skipped := m0.counters.skipped + 1))
    else
      var max := MaxAttempts(c.attempts);
      var run := AttemptLoop(m0.(testAttemptCount := 0), h, b, 0, max, []);
      Resolve(run.m, c, max, run.statuses)
  }

  // ---------------------------------------------------------------------
  // Parameterized tests (attest.h:407-585, 939-1043)
  // ---------------------------------------------------------------------

  /** The configuration the generated runner builds for case i: the test's options, its title and the index. */
  function CaseConfig(d: TestSpec, i: nat): (c: RunConfig)
    requires d.Parameterized?
  {
    var o := d.options;
    RunConfig(d.name, o.skip, o.attempts, o.hasBefore, o.hasAfter, o.hasBeforeEachCase, o.hasAfterEachCase, ParamCase(i))
  }

  /** The generated runner from case i: set the case name, then run the case's configuration. */
  function RunCases(m: Machine, h: Hooks, d: TestSpec, i: nat): (r: Machine)
    requires WellFormed(m) && d.Parameterized? && |d.cases| <= MaxTests
    ensures WellFormed(r)
    decreases |d.cases| - i
  {
    if i >= |d.cases| || m.aborted.Some? then m
    else
      var m1 := m.(paramCtx := m.paramCtx.(caseName := d.cases[i].name));
      RunCases(Attester(m1, h, CaseConfig(d, i), d.cases[i].behaviour), h, d, i + 1)
  }

  /** The statuses of the current test's cases. */
  function CaseStatuses(m: Machine): seq<Status>
    requires WellFormed(m)
  {
    StatusesOf(m.results[..m.caseCount])
  }

  /** The verdict of a parameterized test from its case slots, with what it prints. */
  function Aggregate(m: Machine, title: string): (r: Machine)
    requires WellFormed(m)
    ensures WellFormed(r)
  {
    var st := CaseStatuses(m);
    match CaseVerdict(st)
    case Passed => m.(counters := Bump(m.counters, Passed))
    case MissingExpectation =>
      m.(counters := Bump(m.counters, MissingExpectation), reports := m.reports + [ParamMissingNotice(title)])
    case Failed =>
      m.(counters := Bump(m.counters, Failed),
         reports := m.reports + [ParamFailureReport(title, CountStatus(st, Passed), m.caseCount, FailedCases(m.results[..m.caseCount]))])
  }

  /** The clean-up after a parameterized test: context pointers, hooks, case count and slots. */
  function ResetParameterized(m: Machine): (r: Machine)
    requires WellFormed(m)
    ensures WellFormed(r)
  {
    m.(paramCtx := m.paramCtx.(shared := Null, setData := Null, local := Null),
       beforeAllCases := false, afterAllCases := false,
       caseCount := 0, results := EmptyResults())
  }

  /**
   * The set-up of a parameterized test with a fitting case table: its hooks
   * and case count installed, the global shared pointer handed to the
   * cases, and the before-all-cases hook called.
   */
  function CasesSetUp(m: Machine, d: TestSpec): (r: Machine)
    requires WellFormed(m) && d.Parameterized? && |d.cases| <= MaxTests
    ensures WellFormed(r)
  {
    var m1 := Emit(m, ParamInit).(beforeAllCases := d.options.hasBeforeAllCases, afterAllCases := d.options.hasAfterAllCases);
    var m2 := m1.(caseCount := |d.cases|, paramCtx := m1.paramCtx.(shared := m1.globalShared));
    if m2.beforeAllCases then Emit(m2, BeforeAllCases).(paramCtx := m2.paramCtx.(setData := d.setFixture)) else m2
  }

  /** The end of a parameterized test whose cases all ran: verdict, after-all-cases hook, clean-up. */
  function CasesWrapUp(m: Machine, title: string): (r: Machine)
    requires WellFormed(m)
    ensures WellFormed(r)
  {
    var m5 := Aggregate(m, title);
    ResetParameterized(if m5.afterAllCases then Emit(m5, AfterAllCases) else m5)
  }

  /** run_parameterize_test for a registered parameterized descriptor. */
  function RunParameterizeTest(m: Machine, h: Hooks, d: TestSpec): (r: Machine)
    requires WellFormed(m) && d.Parameterized?
    ensures WellFormed(r)
  {
    if |d.cases| == 0 then
      var m1 := Emit(m, ParamInit).(beforeAllCases := d.options.hasBeforeAllCases, afterAllCases := d.options.hasAfterAllCases);
      Abort(m1.(caseCount := 0), NoCases)
    else if |d.cases| > MaxTests then
      var m1 := Emit(m, ParamInit).(beforeAllCases := d.options.hasBeforeAllCases, afterAllCases := d.options.hasAfterAllCases);
      Abort(m1, Overflow(CaseTable))
    else
      var m4 := RunCases(CasesSetUp(m, d), h, d, 0);
      if m4.aborted.Some? then m4 else CasesWrapUp(m4, d.name)
  }

  // ---------------------------------------------------------------------
  // The entry point (attest.h:587-697)
  // ---------------------------------------------------------------------

  /** The run configuration of a plain descriptor. */
  function PlainConfig(d: TestSpec): (c: RunConfig)
    requires d.Plain?
    ensures ConfigFits(c)
  {
    RunConfig(match d.title case Some(t) => t case None => "",
              d.skip, d.attempts, d.hasBefore, d.hasAfter, d.hasBeforeEachCase, d.hasAfterEachCase,
              if d.contextual then Contextual else Simple)
  }

  /** One enabled descriptor: the parameterized runner, or the attester on the plain configuration. */
  function RunOne(m: Machine, h: Hooks, d: TestSpec): (r: Machine)
    requires WellFormed(m)
    ensures WellFormed(r)
  {
    if d.Parameterized? then RunParameterizeTest(m, h, d) else Attester(m, h, PlainConfig(d), d.behaviour)
  }

  /** What the run loop does after each test that ran: clear the per-attempt failure lists and count the test. */
  function Advance(m: Machine): (r: Machine)
    requires WellFormed(m)
    ensures WellFormed(r)
  {
    m.(attemptFailures := NoFailures(), counters := m.counters.(total := m.counters.total + 1))
  }

  /** The run loop from descriptor i: skip disabled ones, run the rest, clear the attempt tables and count. */
  function RunRegistry(m: Machine, h: Hooks, specs: seq<TestSpec>, i: nat): (r: Machine)
    requires WellFormed(m)
    ensures WellFormed(r)
    decreases |specs| - i
  {
    if i >= |specs| || m.aborted.Some? then m
    else if specs[i].Disabled() then RunRegistry(m, h, specs, i + 1)
    else
      var m1 := RunOne(m, h, specs[i]);
      if m1.aborted.Some? then m1
      else RunRegistry(Advance(m1), h, specs, i + 1)
  }

  /** main, up to the summary: pre-scan, global before-all, the run loop, global after-all. */
  function Run(m: Machine, h: Hooks, specs: seq<TestSpec>): (r: Machine)
    requires WellFormed(m)
    ensures WellFormed(r)
  {
    match FirstConfigError(specs)
    case Some(e) => Abort(m, e.reason)
    case None =>
      var m1 := if h.beforeAll then
                  Emit(m, GlobalBeforeAll).(globalShared := if h.beforeAllShared != Null then h.beforeAllShared else m.globalShared)
                else m;
      var m2 := RunRegistry(m1, h, specs, 0);
      if m2.aborted.Some? then m2
      else if h.afterAll then Emit(m2, GlobalAfterAll)
      else m2
  }

  /** The process exit status: 1 after a fatal error, else the summary's code. */
  function ExitStatus(m: Machine): int
  {
    if m.aborted.Some? then 1 else ExitCode(m.counters.failed, m.counters.empty)
  }
}

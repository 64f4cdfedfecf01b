/**
 * The engine as the C code runs it: one object whose fields are the
 * process-wide globals of attest.h (attest.h:183-215), updated in place by
 * its routines, and a singly linked registry of descriptors.
 *
 * Every routine is proved against the function of the same name in
 * Semantics: its effect on State() is that function applied to the state
 * before it. The properties proved about those functions (Properties,
 * Counting, Quirks) therefore hold of these routines.
 */
module Engine {
  import opened Types
  import opened Rules
  import opened Semantics
  import opened Properties

  /** A registered descriptor: what the test macro filled in, and the registry link. */
  class TestConfig {
    const spec: TestSpec
    var next: TestConfig?

    constructor (spec: TestSpec)
      ensures this.spec == spec && next == null
    {
      this.spec := spec;
      next := null;
    }
  }

  /** The descriptors of a list of registry nodes, in order. */
  function SpecsOf(nodes: seq<TestConfig>): (r: seq<TestSpec>)
    ensures |r| == |nodes| && forall i :: 0 <= i < |nodes| ==> r[i] == nodes[i].spec
  {
    seq(|nodes|, i requires 0 <= i < |nodes| => nodes[i].spec)
  }

  /** Appending a node appends its descriptor. */
  lemma SpecsOfAppend(nodes: seq<TestConfig>, node: TestConfig)
    ensures SpecsOf(nodes + [node]) == SpecsOf(nodes) + [node.spec]
  {
  }

  /** The registry: a NULL-terminated singly linked list of descriptors in registration order (attest.h:190, 221-237). */
  class TestRegistry {
    /** attest_registry_head */
    var head: TestConfig?
    /** The nodes reachable from the head, in order. */
    ghost var Nodes: seq<TestConfig>

    /** The list starts at the head, links each node to the next, ends in NULL and visits no node twice. */
    ghost predicate Linked()
      reads this, Nodes
    {
      && (head == null <==> Nodes == [])
      && (Nodes != [] ==> head == Nodes[0] && Nodes[|Nodes| - 1].next == null)
      && (forall i :: 0 <= i < |Nodes| - 1 ==> Nodes[i].next == Nodes[i + 1])
      && (forall i, j :: 0 <= i < j < |Nodes| ==> Nodes[i] != Nodes[j])
    }

    /** The registered descriptors in registration order. */
    ghost function Specs(): seq<TestSpec>
      reads this
    {
      SpecsOf(Nodes)
    }

    constructor ()
      ensures Linked() && Nodes == []
    {
      head := null;
      Nodes := [];
    }

    /** The walk of attest_update_registry to the node whose next link is NULL. */
    method Tail() returns (last: TestConfig)
      requires Linked() && head != null
      ensures last == Nodes[|Nodes| - 1]
    {
      last := head;
      ghost var i := 0;
      while last.next != null
        invariant 0 <= i < |Nodes| && last == Nodes[i]
        invariant last.next == if i < |Nodes| - 1 then Nodes[i + 1] else null
        decreases |Nodes| - i
      {
        last := last.next;
        i := i + 1;
      }
    }

    /**
     * attest_update_registry: append a node at the tail. The earlier nodes
     * keep their order and the new node is last and ends the list.
     */
    method Register(node: TestConfig)
      requires Linked() && node !in Nodes
      modifies this, node, Nodes
      ensures Linked()
      ensures Nodes == old(Nodes) + [node] && node.next == null
      ensures Specs() == old(Specs()) + [node.spec]
    {
      if head == null {
        node.next := null;
        head := node;
        Nodes := [node];
        return;
      }
      var last := Tail();
      ghost var nodes := Nodes;
      assert forall j :: 0 <= j < |nodes| - 1 ==> nodes[j] != last;
      last.next := node;
      node.next := null;
      Nodes := Nodes + [node];
      SpecsOfAppend(nodes, node);
      assert forall j :: 0 <= j < |nodes| - 1 ==> Nodes[j].next == nodes[j + 1];
    }
  }

  /** Extending the tally by one result slot. */
  lemma TallyStep(rs: seq<InstanceResult>, i: nat)
    requires i < |rs|
    ensures CountStatus(StatusesOf(rs[..i + 1]), Passed)
              == CountStatus(StatusesOf(rs[..i]), Passed) + (if rs[i].status == Passed then 1 else 0)
    ensures FailedCases(rs[..i + 1]) == FailedCases(rs[..i]) + (if rs[i].status == Failed then [rs[i]] else [])
  {
    var t := rs[..i + 1];
    assert t[..|t| - 1] == rs[..i];
    assert StatusesOf(t)[..|t| - 1] == StatusesOf(rs[..i]);
  }

  /** has_status: whether `target` is among the first `count` recorded statuses. */
  method HasStatus(target: Status, statuses: array<Status>, count: int) returns (found: bool)
    requires 0 <= count <= statuses.Length
    ensures found <==> target in statuses[..count]
  {
    var i := 0;
    while i < count
      invariant 0 <= i <= count
      invariant target !in statuses[..i]
    {
      if statuses[i] == target {
        assert statuses[..count][i] == target;
        return true;
      }
      assert statuses[..i + 1] == statuses[..i] + [statuses[i]];
      i := i + 1;
    }
    return false;
  }

  class Attest {
    /** The list that attest_update_registry builds. */
    const registry: TestRegistry

    /** The global hooks, installed before the entry point runs. */
    const hooks: Hooks

    var totalTests: int
    var passCount: int
    var failCount: int
    var skipCount: int
    var emptyCount: int
    var caseCount: int
    const failedAssertionsPerAttempt: array<seq<FailureInfo>>
    var testAttemptCount: int
    const parameterizeInstanceResults: array<InstanceResult>
    /** The attester's configuration copy, which attest_internal_current_test points at. */
    var current: CurrentTest
    var globalSharedData: Handle
    var paramContext: ParamContext
    /** Whether parameterize_before_all_cases / parameterize_after_all_cases are set. */
    var beforeAllCases: bool
    var afterAllCases: bool
    /** The calls made into user code so far. */
    var trace: seq<Event>
    /** What the reporters have printed so far. */
    var reports: seq<Report>
    /** Set when the process has called exit(1). */
    var aborted: Option<Fatal>

    /** The globals as one value. */
    ghost function State(): Machine
      reads this, failedAssertionsPerAttempt, parameterizeInstanceResults
    {
      Machine(Counters(totalTests, passCount, failCount, skipCount, emptyCount), caseCount,
              failedAssertionsPerAttempt[..], testAttemptCount, parameterizeInstanceResults[..],
              current, globalSharedData, paramContext, beforeAllCases, afterAllCases,
              trace, reports, aborted)
    }

    /** The static tables have their sizes and the state its bounds. */
    ghost predicate Valid()
      reads this, failedAssertionsPerAttempt, parameterizeInstanceResults
    {
      && failedAssertionsPerAttempt.Length == MaxTestAttempts
      && parameterizeInstanceResults.Length == MaxTests
      && WellFormed(State())
    }

    /** Zero-initialised static storage and an empty registry. */
    constructor (hooks: Hooks)
      ensures Valid() && fresh(registry) && registry.Linked() && registry.Nodes == [] && this.hooks == hooks
      ensures State() == Initial()
    {
      registry := new TestRegistry();
      this.hooks := hooks;
      totalTests, passCount, failCount, skipCount, emptyCount := 0, 0, 0, 0, 0;
      caseCount := 0;
      failedAssertionsPerAttempt := new seq<FailureInfo>[MaxTestAttempts](_ => []);
      testAttemptCount := 0;
      parameterizeInstanceResults := new InstanceResult[MaxTests](_ => EmptyResult);
      current := CurrentTest(NoTest, MissingExpectation);
      globalSharedData := Null;
      paramContext := ParamContext(Null, Null, Null, "");
      beforeAllCases, afterAllCases := false, false;
      trace, reports, aborted := [], [], None;
      new;
      assert failedAssertionsPerAttempt[..] == NoFailures();
      assert parameterizeInstanceResults[..] == EmptyResults();
    }

    // -------------------------------------------------------------------
    // Reporters (attest.h:773-831)
    // -------------------------------------------------------------------

    /** report_success: the status becomes PASSED; a case without retries claims an unclaimed slot. */
    method ReportSuccess()
      requires Valid()
      modifies this, parameterizeInstanceResults
      ensures Valid()
      ensures State() == Semantics.ReportSuccess(old(State()))
    {
      current := current.(status := Passed);
      var cfg := current.cfg;
      if cfg.attempts > 0 {
        // Only a progress line is printed.
      } else if cfg.body.ParamCase? && !parameterizeInstanceResults[cfg.body.index].hasStatus {
        parameterizeInstanceResults[cfg.body.index] := InstanceResult(paramContext.caseName, Passed, [], true);
      }
    }

    /**
     * report_failure: the status becomes FAILED and the failure is appended
     * to the case's slot or to the current attempt's list; appending to a
     * full list stops the process.
     */
    method ReportFailure(info: FailureInfo)
      requires Valid()
      modifies this, failedAssertionsPerAttempt, parameterizeInstanceResults
      ensures Valid()
      ensures State() == Semantics.ReportFailure(old(State()), info)
    {
      current := current.(status := Failed);
      var cfg := current.cfg;
      if cfg.body.ParamCase? {
        var slot := parameterizeInstanceResults[cfg.body.index];
        if |slot.failures| >= MaxParamResults {
          aborted := Some(Overflow(CaseFailureList));
          return;
        }
        parameterizeInstanceResults[cfg.body.index] := InstanceResult(paramContext.caseName, Failed, slot.failures + [info], true);
      } else {
        if testAttemptCount >= MaxTestAttempts {
          aborted := Some(Overflow(AttemptFailureList));
          return;
        }
        var list := failedAssertionsPerAttempt[testAttemptCount];
        if |list| >= MaxFailures {
          aborted := Some(Overflow(AttemptFailureList));
          return;
        }
        failedAssertionsPerAttempt[testAttemptCount] := list + [info];
      }
    }

    /** One expectation macro reaching its verdict. */
    method Expect(e: Expectation)
      requires Valid()
      modifies this, failedAssertionsPerAttempt, parameterizeInstanceResults
      ensures Valid()
      ensures State() == Semantics.Expect(old(State()), e)
    {
      match e
      case Pass => ReportSuccess();
      case Fail(info) => ReportFailure(info);
    }

    /** One run of a user body: its expectations in order, until one stops the process. */
    method RunBody(s: Script)
      requires Valid()
      modifies this, failedAssertionsPerAttempt, parameterizeInstanceResults
      ensures Valid()
      ensures State() == Semantics.RunBody(old(State()), s)
    {
      var i := 0;
      while i < |s| && aborted.None?
        invariant 0 <= i <= |s|
        invariant Valid()
        invariant Semantics.RunBody(State(), s[i..]) == Semantics.RunBody(old(State()), s)
      {
        assert s[i..][0] == s[i] && s[i..][1..] == s[i + 1..];
        Expect(s[i]);
        i := i + 1;
      }
    }

    // -------------------------------------------------------------------
    // The attempt executor (attest.h:239-405)
    // -------------------------------------------------------------------

    /** A call into user code: a hook or a body. */
    method Invoke(e: Event)
      requires Valid()
      modifies this`trace
      ensures Valid()
      ensures State() == Emit(old(State()), e)
    {
      trace := trace + [e];
    }

    /** The fixture hooks and the body of an attempt (attest.h:289-303). */
    method FixturesAndBody()
      requires Valid()
      modifies this`trace
      ensures Valid()
      ensures State() == old(State()).(trace := old(trace) + FixtureEvents(current.cfg))
    {
      var c := current.cfg;
      ghost var m0 := State();
      if c.hasBefore {
        Invoke(Before);
      }
      ghost var calls := CallIf(c.hasBefore, Before);
      assert State() == m0.(trace := m0.trace + calls);
      if c.hasBeforeEachCase {
        Invoke(BeforeEachCase);
      }
      Associative(m0.trace, calls, CallIf(c.hasBeforeEachCase, BeforeEachCase));
      calls := calls + CallIf(c.hasBeforeEachCase, BeforeEachCase);
      assert State() == m0.(trace := m0.trace + calls);
      Invoke(Body(c.body));
      Associative(m0.trace, calls, [Body(c.body)]);
    }

    /** The part of an attempt ahead of the body, in the order of the C code (attest.h:268-303). */
    method Prologue()
      requires Valid()
      modifies this
      ensures Valid()
      ensures State() == Semantics.Prologue(old(State()), hooks)
    {
      var c := current.cfg;
      var isParamTest := c.IsParamCase();
      paramContext := paramContext.(local := Null);
      ghost var m1 := State();
      if hooks.beforeEach && !isParamTest {
        Invoke(GlobalBeforeEach);
      }
      if isParamTest && c.hasBefore {
        aborted := Some(BeforeInParamCase);
        return;
      }
      ghost var calls := CallIf(hooks.beforeEach && !isParamTest, GlobalBeforeEach);
      assert State() == m1.(trace := m1.trace + calls);
      FixturesAndBody();
      Associative(m1.trace, calls, FixtureEvents(c));
    }

    /** The part of an attempt after the body (attest.h:305-322). */
    method Epilogue()
      requires Valid()
      modifies this
      ensures Valid()
      ensures State() == Semantics.Epilogue(old(State()), hooks)
    {
      var c := current.cfg;
      if c.IsParamCase() && c.hasAfter {
        aborted := Some(AfterInParamCase);
        return;
      }
      ghost var m0 := State();
      if c.hasAfter {
        Invoke(After);
      }
      ghost var calls := CallIf(c.hasAfter, After);
      assert State() == m0.(trace := m0.trace + calls);
      Invoke(FreeLocal);
      Associative(m0.trace, calls, [FreeLocal]);
      calls := calls + [FreeLocal];
      assert State() == m0.(trace := m0.trace + calls);
      if c.hasAfterEachCase {
        Invoke(AfterEachCase);
      }
      Associative(m0.trace, calls, CallIf(c.hasAfterEachCase, AfterEachCase));
      calls := calls + CallIf(c.hasAfterEachCase, AfterEachCase);
      assert State() == m0.(trace := m0.trace + calls);
      if hooks.afterEach {
        Invoke(GlobalAfterEach);
      }
      Associative(m0.trace, calls, CallIf(hooks.afterEach, GlobalAfterEach));
      calls := calls + CallIf(hooks.afterEach, GlobalAfterEach);
      assert State() == m0.(trace := m0.trace + calls);
    }

    /** One iteration of the retry loop, up to recording its status. */
    method RunAttempt(s: Script)
      requires Valid()
      modifies this, failedAssertionsPerAttempt, parameterizeInstanceResults
      ensures Valid()
      ensures State() == Semantics.Attempt(old(State()), hooks, s)
    {
      Prologue();
      if aborted.Some? {
        return;
      }
      RunBody(s);
      if aborted.Some? {
        return;
      }
      Epilogue();
    }

    /**
     * One pass of the retry loop's body (attest.h:263-328): run attempt k,
     * record its status, and say whether the loop stops here.
     */
    method AttemptStep(b: Behaviour, k: nat, maxAttempts: int, statuses: array<Status>) returns (stop: bool)
      requires Valid() && aborted.None? && k < maxAttempts && statuses.Length == MaxTestAttempts
      modifies this, failedAssertionsPerAttempt, parameterizeInstanceResults, statuses
      ensures Valid()
      ensures var run := AttemptLoop(old(State()), hooks, b, k, maxAttempts, old(statuses[..testAttemptCount]));
              if stop then run == Looped(State(), statuses[..testAttemptCount])
              else aborted.None? && run == AttemptLoop(State(), hooks, b, k + 1, maxAttempts, statuses[..testAttemptCount])
    {
      ghost var st := statuses[..testAttemptCount];
      ghost var m := State();
      RunAttempt(ScriptAt(b, k));
      AttemptKeepsFrame(m, hooks, ScriptAt(b, k));
      ghost var m1 := State();
      assert AttemptLoop(m, hooks, b, k, maxAttempts, st) == AfterAttempt(m1, hooks, b, k, maxAttempts, st);
      if aborted.Some? {
        return true;
      }
      if testAttemptCount >= MaxTestAttempts {
        aborted := Some(Overflow(AttemptStatuses));
        return true;
      }
      Record(statuses);
      return current.status != Failed;
    }

    /**
     * The retry loop of attester (attest.h:262-329): attempts run until one
     * does not fail or the attempts are used up, and each attempt's status is
     * recorded in the local status array.
     */
    method Retry(b: Behaviour, maxAttempts: int) returns (statuses: array<Status>)
      requires Valid() && aborted.None? && testAttemptCount == 0
      modifies this, failedAssertionsPerAttempt, parameterizeInstanceResults
      ensures Valid()
      ensures fresh(statuses) && statuses.Length == MaxTestAttempts
      ensures AttemptLoop(old(State()), hooks, b, 0, maxAttempts, []) == Looped(State(), statuses[..testAttemptCount])
    {
      statuses := new Status[MaxTestAttempts](_ => MissingExpectation);
      ghost var run := AttemptLoop(State(), hooks, b, 0, maxAttempts, []);
      var attempt: nat := 0;
      while attempt < maxAttempts
        invariant Valid() && aborted.None?
        invariant AttemptLoop(State(), hooks, b, attempt, maxAttempts, statuses[..testAttemptCount]) == run
        decreases maxAttempts - attempt
      {
        var stop := AttemptStep(b, attempt, maxAttempts, statuses);
        if stop {
          return;
        }
        attempt := attempt + 1;
      }
    }

    /** Record the status of the attempt that just ran (attest.h:324-325). */
    method Record(statuses: array<Status>)
      requires Valid() && statuses.Length == MaxTestAttempts && testAttemptCount < MaxTestAttempts
      modifies this`testAttemptCount, statuses
      ensures Valid()
      ensures State() == old(State()).(testAttemptCount := old(testAttemptCount) + 1)
      ensures statuses[..testAttemptCount] == old(statuses[..testAttemptCount]) + [current.status]
    {
      statuses[testAttemptCount] := current.status;
      testAttemptCount := testAttemptCount + 1;
    }

    /** Resolution, counting and reporting of a plain test's verdict (attest.h:341-404). */
    method Tally(statuses: array<Status>)
      requires Valid() && testAttemptCount <= statuses.Length
      modifies this
      ensures Valid()
      ensures State() == Semantics.Tally(old(State()), statuses[..old(testAttemptCount)])
    {
      var missing := HasStatus(MissingExpectation, statuses, testAttemptCount);
      if missing {
        current := current.(status := MissingExpectation);
      }
      match current.status
      case Passed =>
        passCount := passCount + 1;
      case MissingExpectation =>
        emptyCount := emptyCount + 1;
        reports := reports + [MissingNotice(current.cfg.title)];
      case Failed =>
        failCount := failCount + 1;
        reports := reports + [FailureReport(current.cfg.title, failedAssertionsPerAttempt[..testAttemptCount])];
    }

    /**
     * attester: run one configuration with retries, then either leave the
     * verdict in the case's slot or resolve, count and report the plain
     * test's verdict.
     */
    method Attester(c: RunConfig, b: Behaviour)
      requires Valid() && aborted.None? && ConfigFits(c)
      modifies this, failedAssertionsPerAttempt, parameterizeInstanceResults
      ensures Valid()
      ensures State() == Semantics.Attester(old(State()), hooks, c, b)
    {
      current := CurrentTest(c, MissingExpectation);
      if c.skip {
        skipCount := skipCount + 1;
        return;
      }
      testAttemptCount := 0;
      var maxAttempts := MaxAttempts(c.attempts);
      var statuses := Retry(b, maxAttempts);
      Resolve(c, maxAttempts, statuses);
    }

    /** What attester does after its retry loop (attest.h:331-404). */
    method Resolve(c: RunConfig, maxAttempts: int, statuses: array<Status>)
      requires Valid() && ConfigFits(c) && testAttemptCount <= statuses.Length
      modifies this, parameterizeInstanceResults
      ensures Valid()
      ensures State() == Semantics.Resolve(old(State()), c, maxAttempts, statuses[..old(testAttemptCount)])
    {
      if aborted.Some? {
        return;
      }
      if testAttemptCount > maxAttempts {
        aborted := Some(InvalidAttemptState);
        return;
      }
      var isParamTest := c.IsParamCase();
      if isParamTest && current.status == MissingExpectation {
        parameterizeInstanceResults[c.body.index] := EmptyResult;
      }
      if isParamTest {
        return;
      }
      Tally(statuses);
    }

    // -------------------------------------------------------------------
    // Parameterized tests (attest.h:407-585, 939-989)
    // -------------------------------------------------------------------

    /** any_instance: whether some case slot holds `status`. */
    method AnyInstance(status: Status) returns (found: bool)
      requires Valid()
      ensures found <==> status in CaseStatuses(State())
    {
      var i := 0;
      while i < caseCount
        invariant 0 <= i <= caseCount
        invariant forall j :: 0 <= j < i ==> parameterizeInstanceResults[j].status != status
      {
        if parameterizeInstanceResults[i].status == status {
          assert CaseStatuses(State())[i] == status;
          return true;
        }
        i := i + 1;
      }
      return false;
    }

    /** every_instance: whether every case slot holds `status`. */
    method EveryInstance(status: Status) returns (all: bool)
      requires Valid()
      ensures all <==> forall j :: 0 <= j < |CaseStatuses(State())| ==> CaseStatuses(State())[j] == status
    {
      var i := 0;
      while i < caseCount
        invariant 0 <= i <= caseCount
        invariant forall j :: 0 <= j < i ==> parameterizeInstanceResults[j].status == status
      {
        if parameterizeInstanceResults[i].status != status {
          assert CaseStatuses(State())[i] != status;
          return false;
        }
        i := i + 1;
      }
      return true;
    }

    /**
     * The tally of a failed parameterized test (attest.h:446-477): how many
     * cases passed, and the failed slots in case order. It is reached only
     * when no case is MISSING_EXPECTATION, so the C code's exit on such a
     * case cannot happen.
     */
    method CountCases() returns (passed: int, failedCases: seq<InstanceResult>)
      requires Valid() && MissingExpectation !in CaseStatuses(State())
      ensures passed == CountStatus(CaseStatuses(State()), Passed)
      ensures failedCases == FailedCases(parameterizeInstanceResults[..caseCount])
    {
      ghost var rs := parameterizeInstanceResults[..caseCount];
      assert StatusesOf(rs) == CaseStatuses(State());
      passed, failedCases := 0, [];
      var i := 0;
      while i < caseCount
        invariant 0 <= i <= caseCount
        invariant passed == CountStatus(StatusesOf(rs[..i]), Passed)
        invariant failedCases == FailedCases(rs[..i])
      {
        var result := parameterizeInstanceResults[i];
        assert result == rs[i] && StatusesOf(rs)[i] == result.status;
        TallyStep(rs, i);
        match result.status {
          case Passed =>
            passed := passed + 1;
          case Failed =>
            failedCases := failedCases + [result];
          case MissingExpectation =>
            assert false;
        }
        i := i + 1;
      }
      assert rs[..i] == rs;
    }

    /** The FAIL verdict of a parameterized test, with the tally it prints (attest.h:441-478). */
    method FailedVerdict(title: string)
      requires Valid() && CaseVerdict(CaseStatuses(State())) == Failed
      modifies this
      ensures Valid()
      ensures State() == Aggregate(old(State()), title)
    {
      CaseVerdictCases(CaseStatuses(State()));
      failCount := failCount + 1;
      var passed, failedCases := CountCases();
      reports := reports + [ParamFailureReport(title, passed, caseCount, failedCases)];
    }

    /** The verdict of a parameterized test from its case slots, with what it prints (attest.h:425-478). */
    method Verdict(title: string)
      requires Valid()
      modifies this
      ensures Valid()
      ensures State() == Aggregate(old(State()), title)
    {
      ghost var st := CaseStatuses(State());
      var emptyTestsArePresent := AnyInstance(MissingExpectation);
      var everyInstancePass := EveryInstance(Passed);
      assert CaseStatuses(State()) == st;
      CaseVerdictCases(st);
      if everyInstancePass {
        passCount := passCount + 1;
      } else if emptyTestsArePresent {
        emptyCount := emptyCount + 1;
        reports := reports + [ParamMissingNotice(title)];
      } else {
        FailedVerdict(title);
      }
    }

    /** The generated init routine: the case count and the all-cases hooks of the test (attest.h:950-956). */
    method ParamInit(d: TestSpec)
      requires Valid() && d.Parameterized?
      modifies this
      ensures Valid()
      ensures var m1 := Emit(old(State()), Types.ParamInit).(beforeAllCases := d.options.hasBeforeAllCases,
                                                              afterAllCases := d.options.hasAfterAllCases);
              State() == if |d.cases| > MaxTests then Abort(m1, Overflow(CaseTable)) else m1.(caseCount := |d.cases|)
    {
      Invoke(Types.ParamInit);
      if |d.cases| > MaxTests {
        aborted := Some(Overflow(CaseTable));
      } else {
        caseCount := |d.cases|;
      }
      beforeAllCases := d.options.hasBeforeAllCases;
      afterAllCases := d.options.hasAfterAllCases;
    }

    /** The generated runner: each case in order, with its name in the context, through the attester (attest.h:957-974). */
    method CaseRunner(d: TestSpec)
      requires Valid() && aborted.None? && d.Parameterized? && caseCount == |d.cases|
      modifies this, failedAssertionsPerAttempt, parameterizeInstanceResults
      ensures Valid()
      ensures State() == RunCases(old(State()), hooks, d, 0)
    {
      ghost var run := RunCases(State(), hooks, d, 0);
      var i := 0;
      while i < caseCount
        invariant 0 <= i <= caseCount == |d.cases|
        invariant Valid() && aborted.None?
        invariant RunCases(State(), hooks, d, i) == run
      {
        RunCasesStep(State(), hooks, d, i);
        paramContext := paramContext.(caseName := d.cases[i].name);
        ghost var m1 := State();
        Attester(CaseConfig(d, i), d.cases[i].behaviour);
        AttesterKeepsCaseCount(m1, hooks, CaseConfig(d, i), d.cases[i].behaviour);
        if aborted.Some? {
          return;
        }
        i := i + 1;
      }
    }

    /** The end of a parameterized test: the after-all-cases hook and the clean-up (attest.h:573-584). */
    method WrapUp()
      requires Valid()
      modifies this, parameterizeInstanceResults
      ensures Valid()
      ensures State() == ResetParameterized(if old(afterAllCases) then Emit(old(State()), AfterAllCases) else old(State()))
    {
      if afterAllCases {
        Invoke(AfterAllCases);
      }
      paramContext := paramContext.(shared := Null, setData := Null, local := Null);
      beforeAllCases := false;
      afterAllCases := false;
      caseCount := 0;
      forall i | 0 <= i < parameterizeInstanceResults.Length {
        parameterizeInstanceResults[i] := EmptyResult;
      }
      assert parameterizeInstanceResults[..] == EmptyResults();
    }

    /** run_parameterize_test (attest.h:407-585). */
    method RunParameterizeTest(d: TestSpec)
      requires Valid() && aborted.None? && d.Parameterized?
      modifies this, failedAssertionsPerAttempt, parameterizeInstanceResults
      ensures Valid()
      ensures State() == Semantics.RunParameterizeTest(old(State()), hooks, d)
    {
      ParamInit(d);
      if aborted.Some? {
        return;
      }
      if caseCount == 0 {
        aborted := Some(NoCases);
        return;
      }
      paramContext := paramContext.(shared := globalSharedData);
      if beforeAllCases {
        Invoke(BeforeAllCases);
        paramContext := paramContext.(setData := d.setFixture);
      }
      assert State() == CasesSetUp(old(State()), d);
      CaseRunner(d);
      if aborted.Some? {
        return;
      }
      ghost var m4 := State();
      Verdict(d.name);
      WrapUp();
      assert State() == CasesWrapUp(m4, d.name);
    }

    // -------------------------------------------------------------------
    // The entry point (attest.h:587-697)
    // -------------------------------------------------------------------

    /**
     * The pre-scan of main (attest.h:589-655): walk the registry keeping the
     * titles seen so far, and stop at the first descriptor that breaks a
     * rule, with the reason.
     */
    method Prescan() returns (error: Option<ConfigError>)
      requires registry.Linked()
      ensures error == FirstConfigError(registry.Specs())
    {
      ghost var nodes := registry.Nodes;
      ghost var specs := registry.Specs();
      var testTitles := new string[MaxTests](_ => "");
      var testCount := 0;
      var node := registry.head;
      while node != null
        invariant 0 <= testCount <= |nodes| && testCount <= MaxTests
        invariant node == if testCount < |nodes| then nodes[testCount] else null
        invariant forall j :: 0 <= j < testCount ==> specs[j].Title() == Some(testTitles[j])
        invariant FirstConfigError(specs) == PrescanFrom(specs, testCount)
        decreases |nodes| - testCount
      {
        var d := node.spec;
        assert d == specs[testCount];
        if testCount == MaxTests {
          return Some(ConfigError(testCount, TooManyTests));
        }
        if d.Attempts() < 0 {
          return Some(ConfigError(testCount, NegativeAttempts));
        }
        if d.Attempts() > MaxTestAttempts {
          return Some(ConfigError(testCount, TooManyAttempts));
        }
        if d.Title().None? {
          return Some(ConfigError(testCount, MissingTitle));
        }
        var title := d.Title().value;
        var i := 0;
        while i < testCount
          invariant 0 <= i <= testCount
          invariant forall j :: 0 <= j < i ==> testTitles[j] != title
        {
          if testTitles[i] == title {
            assert specs[i].Title() == specs[testCount].Title();
            return Some(ConfigError(testCount, DuplicateTitle));
          }
          i := i + 1;
        }
        assert !RepeatsEarlierTitle(specs, testCount);
        testTitles[testCount] := title;
        testCount := testCount + 1;
        node := node.next;
      }
      return None;
    }

    /** Clear every per-attempt failure list, as the memset after each test does (attest.h:682). */
    method ClearAttemptFailures()
      requires Valid()
      modifies failedAssertionsPerAttempt
      ensures Valid()
      ensures State() == old(State()).(attemptFailures := NoFailures())
    {
      forall i | 0 <= i < failedAssertionsPerAttempt.Length {
        failedAssertionsPerAttempt[i] := [];
      }
      assert failedAssertionsPerAttempt[..] == NoFailures();
    }

    /** One enabled descriptor: its parameterized runner, or the attester on a copy of it (attest.h:677-681). */
    method RunOne(d: TestSpec)
      requires Valid() && aborted.None?
      modifies this, failedAssertionsPerAttempt, parameterizeInstanceResults
      ensures Valid()
      ensures State() == Semantics.RunOne(old(State()), hooks, d)
    {
      if d.Parameterized? {
        RunParameterizeTest(d);
      } else {
        Attester(PlainConfig(d), d.behaviour);
      }
    }

    /**
     * One pass of the run loop (attest.h:671-687): pass over a disabled
     * descriptor; run any other, clear the attempt tables and count it.
     */
    method RunStep(ghost specs: seq<TestSpec>, ghost i: nat, d: TestSpec) returns (stop: bool)
      requires Valid() && aborted.None? && i < |specs| && specs[i] == d
      modifies this, failedAssertionsPerAttempt, parameterizeInstanceResults
      ensures Valid()
      ensures var run := Semantics.RunRegistry(old(State()), hooks, specs, i);
              if stop then run == State() else aborted.None? && run == Semantics.RunRegistry(State(), hooks, specs, i + 1)
    {
      if d.Disabled() {
        return false;
      }
      RunOne(d);
      if aborted.Some? {
        return true;
      }
      ClearAttemptFailures();
      totalTests := totalTests + 1;
      return false;
    }

    /** The run loop of main (attest.h:670-688): every descriptor in registry order. */
    method RunRegistry()
      requires Valid() && aborted.None? && registry.Linked()
      modifies this, failedAssertionsPerAttempt, parameterizeInstanceResults
      ensures Valid()
      ensures State() == Semantics.RunRegistry(old(State()), hooks, registry.Specs(), 0)
    {
      ghost var nodes := registry.Nodes;
      ghost var specs := registry.Specs();
      ghost var run := Semantics.RunRegistry(State(), hooks, specs, 0);
      ghost var i := 0;
      var node := registry.head;
      while node != null
        invariant Valid() && aborted.None?
        invariant 0 <= i <= |nodes| && node == if i < |nodes| then nodes[i] else null
        invariant Semantics.RunRegistry(State(), hooks, specs, i) == run
        decreases |nodes| - i
      {
        var stop := RunStep(specs, i, node.spec);
        if stop {
          return;
        }
        node := node.next;
        i := i + 1;
      }
    }

    /**
     * main up to the summary (attest.h:587-692): the pre-scan, the global
     * before-all hook and its shared pointer, the run loop and the global
     * after-all hook. The exit status is Semantics.ExitStatus of the
     * resulting state.
     */
    method Run()
      requires Valid() && aborted.None? && registry.Linked()
      modifies this, failedAssertionsPerAttempt, parameterizeInstanceResults
      ensures Valid()
      ensures State() == Semantics.Run(old(State()), hooks, registry.Specs())
    {
      var error := Prescan();
      if error.Some? {
        aborted := Some(error.value.reason);
        return;
      }
      if hooks.beforeAll {
        Invoke(GlobalBeforeAll);
        if hooks.beforeAllShared != Null {
          globalSharedData := hooks.beforeAllShared;
        }
      }
      RunRegistry();
      if aborted.Some? {
        return;
      }
      if hooks.afterAll {
        Invoke(GlobalAfterAll);
      }
    }
  }
}

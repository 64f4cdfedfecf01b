/**
 * The tests of example_basic.c run through the model: what each one adds to
 * the counters, what it prints and which user calls it makes, and the
 * summary of the whole file.
 */
module Scenarios {
  import opened Types
  import opened Rules
  import opened Semantics
  import opened Properties
  import opened Counting
  import opened Truncation

  /** The file installs no global hooks. */
  const NoHooks := Hooks(false, Null, false, false, false)

  /** A `TEST(title, options...)` descriptor with a plain body and no per-test hooks. */
  function Test(title: string, skip: bool, disabled: bool, attempts: int, b: Behaviour): TestSpec
  {
    Plain(Some(title), skip, disabled, attempts, false, false, false, false, false, b)
  }

  /** The record a failing `EXPECT_EQ(x, y)` on two integer literals of example_basic.c fills, without a message, as the macros are written. */
  function EqFailure(line: int, x: string, y: string): FailureInfo
  {
    BuildFailure("example_basic.c", line, None, "EXPECT_EQ", x + ", " + y, TwoValues(x, Text(x), y, Text(y)))
  }

  /** The records the failing assertions of example_basic.c leave, written out field by field. */
  const ThreeIs88 := FailureInfo("example_basic.c", 26, false, "", "EXPECT_EQ(3, 88)", "3", "3", true, "88", "88", "")
  const FourIs3 := FailureInfo("example_basic.c", 57, false, "", "EXPECT_EQ(4, 3)", "4", "4", true, "3", "3", "")
  const ZeroIs88 := FailureInfo("example_basic.c", 37, false, "", "EXPECT_EQ(0, 88)", "0", "0", true, "88", "88", "")
  const NineIs88 := FailureInfo("example_basic.c", 47, false, "", "EXPECT_EQ(9, 88)", "9", "9", true, "88", "88", "")

  const CanAdd := Test("can_add_two_numbers", false, false, 0, [[Pass]])
  const NoAssertions := Test("a_test_without_assertions_is_a_problem", false, false, 0, [])
  const IntentionallyFailed := Test("intentionally_failed_expectation", false, false, 0, [[Fail(ThreeIs88)]])
  const Skipping := Test("skipping_a_test", true, false, 0, [[Fail(ZeroIs88)]])
  const Disabling := Test("disabling_a_test", false, true, 0, [[Fail(NineIs88)]])
  const Retrying := Test("retrying_a_test", false, false, 3, [[Fail(FourIs3)], [Fail(FourIs3)], [Fail(FourIs3)]])

  /** The reports the run of example_basic.c files, one per test that is not a clean pass. */
  const EmptyNotice := MissingNotice("a_test_without_assertions_is_a_problem")
  const FailNotice := FailureReport("intentionally_failed_expectation", [[ThreeIs88]])
  const RetryNotice := FailureReport("retrying_a_test", [[FourIs3], [FourIs3], [FourIs3]])

  /** The registry of example_basic.c, in definition order. */
  const BasicExample := [CanAdd, NoAssertions, IntentionallyFailed, Skipping, Disabling, Retrying]

  /** The user calls of one attempt of a plain test without hooks: the body, then freeing its local data. */
  const BareAttempt := [Body(Simple), FreeLocal]

  /** A state between two tests of the run loop. */
  predicate BetweenTests(m: Machine)
  {
    WellFormed(m) && m.aborted.None? && m.attemptFailures == NoFailures()
  }

  /** example_basic.c:26, :37, :47 and :57: the failing `EXPECT_EQ` checks fill these records, every text whole. */
  lemma EqFailureRecords()
    ensures EqFailure(26, "3", "88") == ThreeIs88
    ensures EqFailure(37, "0", "88") == ZeroIs88
    ensures EqFailure(47, "9", "88") == NineIs88
    ensures EqFailure(57, "4", "3") == FourIs3
  {
    assert FullVerification("EXPECT_EQ", "3" + ", " + "88") == "EXPECT_EQ(3, 88)";
    assert FullVerification("EXPECT_EQ", "0" + ", " + "88") == "EXPECT_EQ(0, 88)";
    assert FullVerification("EXPECT_EQ", "9" + ", " + "88") == "EXPECT_EQ(9, 88)";
    assert FullVerification("EXPECT_EQ", "4" + ", " + "3") == "EXPECT_EQ(4, 3)";
  }

  /** Without hooks of any kind, an attempt calls the simple body and then frees its local data. */
  lemma BareAttemptEvents(c: RunConfig)
    requires !c.hasBefore && !c.hasAfter && !c.hasBeforeEachCase && !c.hasAfterEachCase && c.body == Simple
    ensures AttemptEvents(NoHooks, c) == BareAttempt
  {
    assert FixtureEvents(c) == [Body(Simple)];
    assert EpilogueEvents(NoHooks, c) == [FreeLocal];
  }

  /**
   * A plain test without hooks whose attempts all fit their failure lists:
   * counted under its last recorded status, reported with every attempt's
   * failures, one bare attempt per recorded status.
   */
  lemma BarePlain(m: Machine, d: TestSpec, st: seq<Status>, failures: seq<seq<FailureInfo>>)
    requires BetweenTests(m) && d.Plain? && d.title.Some? && !d.skip && !d.contextual
    requires !d.hasBefore && !d.hasAfter && !d.hasBeforeEachCase && !d.hasAfterEachCase
    requires 0 <= d.attempts <= MaxTestAttempts
    requires st == RecordedStatuses(d.behaviour, MissingExpectation, 0, MaxAttempts(d.attempts))
    requires AttemptsFit(d.behaviour, 0, |st|) && failures == AttemptFailuresOf(d.behaviour, |st|)
    ensures |st| >= 1
    ensures var r := RunOne(m, NoHooks, d);
            && r.aborted.None?
            && r.counters == Bump(m.counters, st[|st| - 1])
            && r.reports == m.reports + PlainReport(st[|st| - 1], d.title.value, failures)
            && r.trace == m.trace + Repeat(BareAttempt, |st|)
  {
    var c := PlainConfig(d);
    AttesterPlain(m, NoHooks, c, d.behaviour);
    BareAttemptEvents(c);
  }

  /** The attempts of the passing test: one, which passes and records nothing. */
  lemma CanAddAttempts()
    ensures RecordedStatuses(CanAdd.behaviour, MissingExpectation, 0, 1) == [Passed]
    ensures AttemptsFit(CanAdd.behaviour, 0, 1) && AttemptFailuresOf(CanAdd.behaviour, 1) == [[]]
  {
    assert FailuresOf([Pass]) == [];
  }

  /** example_basic.c:6-11: a body whose one expectation holds passes once, silently. */
  lemma PassingTest(m: Machine, d: TestSpec)
    requires BetweenTests(m) && d == CanAdd
    ensures var r := RunOne(m, NoHooks, d);
            && r.aborted.None?
            && r.counters == m.counters.(passed := m.counters.passed + 1)
            && r.reports == m.reports
            && r.trace == m.trace + BareAttempt
  {
    CanAddAttempts();
    BarePlain(m, CanAdd, [Passed], [[]]);
  }

  /** The attempts of the test without assertions: one, which keeps the zero status. */
  lemma NoAssertionsAttempts()
    ensures RecordedStatuses(NoAssertions.behaviour, MissingExpectation, 0, 1) == [MissingExpectation]
    ensures AttemptsFit(NoAssertions.behaviour, 0, 1) && AttemptFailuresOf(NoAssertions.behaviour, 1) == [[]]
  {
  }

  /** example_basic.c:17-19: a body without expectations is counted and noted as having none. */
  lemma EmptyTest(m: Machine, d: TestSpec)
    requires BetweenTests(m) && d == NoAssertions
    ensures var r := RunOne(m, NoHooks, d);
            && r.aborted.None?
            && r.counters == m.counters.(empty := m.counters.empty + 1)
            && r.reports == m.reports + [EmptyNotice]
            && r.trace == m.trace + BareAttempt
  {
    NoAssertionsAttempts();
    BarePlain(m, NoAssertions, [MissingExpectation], [[]]);
  }

  /** The attempts of the failing test: one, which fails with the 3 versus 88 record. */
  lemma FailedAttempts()
    ensures RecordedStatuses(IntentionallyFailed.behaviour, MissingExpectation, 0, 1) == [Failed]
    ensures AttemptsFit(IntentionallyFailed.behaviour, 0, 1)
    ensures AttemptFailuresOf(IntentionallyFailed.behaviour, 1) == [[ThreeIs88]]
  {
    assert FailuresOf([Fail(ThreeIs88)]) == [ThreeIs88];
  }

  /** example_basic.c:24-27: a failing expectation fails the test, reported with its one record. */
  lemma FailingTest(m: Machine, d: TestSpec)
    requires BetweenTests(m) && d == IntentionallyFailed
    ensures var r := RunOne(m, NoHooks, d);
            && r.aborted.None?
            && r.counters == m.counters.(failed := m.counters.failed + 1)
            && r.reports == m.reports + [FailNotice]
            && r.trace == m.trace + BareAttempt
  {
    FailedAttempts();
    BarePlain(m, IntentionallyFailed, [Failed], [[ThreeIs88]]);
  }

  /** example_basic.c:35-38: a skipped test runs nothing and is counted as skipped only. */
  lemma SkippedTest(m: Machine, d: TestSpec)
    requires BetweenTests(m) && d == Skipping
    ensures var r := RunOne(m, NoHooks, d);
            && r.aborted.None?
            && r.counters == m.counters.(skipped := m.counters.skipped + 1)
            && r.reports == m.reports && r.trace == m.trace
            && r.attemptFailures == NoFailures()
  {
    AttesterSkipped(m, NoHooks, PlainConfig(Skipping), Skipping.behaviour);
  }

  /** example_basic.c:45-48: the run loop passes over a disabled test without a trace, whatever the hooks. */
  lemma DisabledTest(m: Machine, h: Hooks, specs: seq<TestSpec>)
    requires WellFormed(m)
    ensures RunRegistry(m, h, [Disabling] + specs, 0) == RunRegistry(m, h, specs, 0)
  {
    var all := [Disabling] + specs;
    if m.aborted.None? {
      assert RunRegistry(m, h, all, 0) == RunRegistry(m, h, all, 1);
      RunRegistryShift(m, h, all, 1);
      assert all[1..] == specs;
    }
  }

  /** The attempts of the retried test: all three allowed, each failing with the 4 versus 3 record. */
  lemma RetryingAttempts()
    ensures RecordedStatuses(Retrying.behaviour, MissingExpectation, 0, 3) == [Failed, Failed, Failed]
    ensures AttemptsFit(Retrying.behaviour, 0, 3)
    ensures AttemptFailuresOf(Retrying.behaviour, 3) == [[FourIs3], [FourIs3], [FourIs3]]
  {
    var b := Retrying.behaviour;
    assert FailuresOf([Fail(FourIs3)]) == [FourIs3];
    assert forall j :: 0 <= j < 3 ==> ScriptAt(b, j) == [Fail(FourIs3)];
    assert RecordedStatuses(b, Failed, 2, 3) == [Failed];
    assert RecordedStatuses(b, Failed, 1, 3) == [Failed, Failed];
  }

  /** example_basic.c:55-58: a body that always fails runs three times and is reported with all three records. */
  lemma RetriedTest(m: Machine, d: TestSpec)
    requires BetweenTests(m) && d == Retrying
    ensures var r := RunOne(m, NoHooks, d);
            && r.aborted.None?
            && r.counters == m.counters.(failed := m.counters.failed + 1)
            && r.reports == m.reports + [RetryNotice]
            && r.trace == m.trace + BareAttempt + BareAttempt + BareAttempt
  {
    RetryingAttempts();
    BarePlain(m, Retrying, [Failed, Failed, Failed], [[FourIs3], [FourIs3], [FourIs3]]);
    assert Repeat(BareAttempt, 3) == BareAttempt + BareAttempt + BareAttempt;
  }

  /** The pre-scan accepts example_basic.c: every title present and distinct, every attempt count in range. */
  lemma BasicExampleAccepted()
    ensures FirstConfigError(BasicExample) == None
  {
    PrescanAcceptsIff(BasicExample);
    forall i, j | 0 <= j < i < |BasicExample| ensures BasicExample[j].Title() != BasicExample[i].Title() {
      assert |BasicExample[j].Title().value| != |BasicExample[i].Title().value|
          || BasicExample[j].Title().value[0] != BasicExample[i].Title().value[0];
    }
  }

  /** The run loop over a test of the file that completes moves on to the next descriptor. */
  lemma Through(m: Machine, specs: seq<TestSpec>, i: nat, d: TestSpec)
    requires BetweenTests(m) && i < |specs| && specs[i] == d && !d.Disabled()
    requires RunOne(m, NoHooks, d).aborted.None?
    ensures var m1 := Advance(RunOne(m, NoHooks, d));
            && BetweenTests(m1)
            && RunRegistry(m, NoHooks, specs, i) == RunRegistry(m1, NoHooks, specs, i + 1)
  {
    RunRegistryStep(m, NoHooks, specs, i);
  }

  /** The run loop over example_basic.c from its retried test on. */
  lemma FromRetrying(m: Machine, specs: seq<TestSpec>)
    requires BetweenTests(m) && specs == BasicExample
    ensures var r := RunRegistry(m, NoHooks, specs, 5);
            && r.aborted.None?
            && r.counters == m.counters.(total := m.counters.total + 1, failed := m.counters.failed + 1)
            && r.reports == m.reports + [RetryNotice]
  {
    var d := specs[5];
    RetriedTest(m, d);
    Through(m, specs, 5, d);
  }

  /** The run loop over example_basic.c from its skipped test on: the disabled test in between leaves no mark. */
  lemma FromSkipping(m: Machine, specs: seq<TestSpec>)
    requires BetweenTests(m) && specs == BasicExample
    ensures var r := RunRegistry(m, NoHooks, specs, 3);
            var c := m.counters;
            && r.aborted.None?
            && r.counters == c.(total := c.total + 2, failed := c.failed + 1, skipped := c.skipped + 1)
            && r.reports == m.reports + [RetryNotice]
  {
    var d := specs[3];
    SkippedTest(m, d);
    Through(m, specs, 3, d);
    var m4 := Advance(RunOne(m, NoHooks, d));
    assert RunRegistry(m4, NoHooks, specs, 4) == RunRegistry(m4, NoHooks, specs, 5);
    FromRetrying(m4, specs);
  }

  /** The run loop over example_basic.c from its failing test on. */
  lemma FromFailing(m: Machine, specs: seq<TestSpec>)
    requires BetweenTests(m) && specs == BasicExample
    ensures var r := RunRegistry(m, NoHooks, specs, 2);
            var c := m.counters;
            && r.aborted.None?
            && r.counters == c.(total := c.total + 3, failed := c.failed + 2, skipped := c.skipped + 1)
            && r.reports == m.reports + [FailNotice] + [RetryNotice]
  {
    var d := specs[2];
    FailingTest(m, d);
    Through(m, specs, 2, d);
    FromSkipping(Advance(RunOne(m, NoHooks, d)), specs);
  }

  /** The run loop over example_basic.c from its test without assertions on. */
  lemma FromNoAssertions(m: Machine, specs: seq<TestSpec>)
    requires BetweenTests(m) && specs == BasicExample
    ensures var r := RunRegistry(m, NoHooks, specs, 1);
            var c := m.counters;
            && r.aborted.None?
            && r.counters == c.(total := c.total + 4, failed := c.failed + 2, skipped := c.skipped + 1, empty := c.empty + 1)
            && r.reports == m.reports + [EmptyNotice] + [FailNotice] + [RetryNotice]
  {
    var d := specs[1];
    EmptyTest(m, d);
    Through(m, specs, 1, d);
    FromFailing(Advance(RunOne(m, NoHooks, d)), specs);
  }

  /** The results of the run loop over example_basic.c, from any state between tests. */
  lemma BasicExampleRun(m: Machine, specs: seq<TestSpec>)
    requires BetweenTests(m) && specs == BasicExample
    ensures var r := RunRegistry(m, NoHooks, specs, 0);
            var c := m.counters;
            && r.aborted.None?
            && r.counters == Counters(c.total + 5, c.passed + 1, c.failed + 2, c.skipped + 1, c.empty + 1)
            && r.reports == m.reports + [EmptyNotice] + [FailNotice] + [RetryNotice]
  {
    var d := specs[0];
    PassingTest(m, d);
    Through(m, specs, 0, d);
    FromNoAssertions(Advance(RunOne(m, NoHooks, d)), specs);
  }

  /**
   * example_basic.c as a whole: five tests counted (the disabled one is
   * not), one passed, two failed, one skipped and one without
   * expectations; the three reports in registry order; exit status 1.
   */
  lemma BasicExampleSummary()
    ensures var r := Run(Initial(), NoHooks, BasicExample);
            && r.aborted.None?
            && r.counters == Counters(5, 1, 2, 1, 1)
            && r.reports == [EmptyNotice, FailNotice, RetryNotice]
            && ExitStatus(r) == 1
  {
    BasicExampleAccepted();
    BasicExampleRun(Initial(), BasicExample);
  }
}

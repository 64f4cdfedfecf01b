/**
 * Behaviours of the parameterized runner that follow from the code as
 * written: a skipped parameterized test, a parameterized test with
 * retries, and a negative attempt count that the pre-scan never sees.
 */
module Quirks {
  import opened Types
  import opened Rules
  import opened Semantics
  import opened Properties

  // ---------------------------------------------------------------------
  // The skip option of a parameterized test
  // ---------------------------------------------------------------------

  /** With the skip option, the generated runner only counts each remaining case as skipped. */
  lemma {:induction false} RunCasesSkipped(m: Machine, h: Hooks, d: TestSpec, i: nat)
    requires WellFormed(m) && m.aborted.None? && d.Parameterized? && d.options.skip
    requires |d.cases| <= MaxTests && i <= |d.cases|
    ensures var r := RunCases(m, h, d, i);
            && r.aborted.None?
            && r.counters == m.counters.(skipped := m.counters.skipped + (|d.cases| - i))
            && r.results == m.results && r.trace == m.trace && r.reports == m.reports
            && r.caseCount == m.caseCount && r.afterAllCases == m.afterAllCases
    decreases |d.cases| - i
  {
    if i < |d.cases| {
      var m1 := m.(paramCtx := m.paramCtx.(caseName := d.cases[i].name));
      var c := CaseConfig(d, i);
      AttesterSkipped(m1, h, c, d.cases[i].behaviour);
      var m2 := Attester(m1, h, c, d.cases[i].behaviour);
      RunCasesStep(m, h, d, i);
      assert RunCases(m, h, d, i) == RunCases(m2, h, d, i + 1);
      RunCasesSkipped(m2, h, d, i + 1);
    }
  }

  /**
   * A parameterized test with the skip option counts every case as
   * skipped, runs no case, and is then counted and noted as a test without
   * expectations, since no case claimed its slot.
   */
  lemma SkippedParameterized(m: Machine, h: Hooks, d: TestSpec)
    requires WellFormed(m) && m.aborted.None? && d.Parameterized? && d.options.skip
    requires 0 < |d.cases| <= MaxTests && m.results == EmptyResults()
    ensures var r := RunParameterizeTest(m, h, d);
            && r.aborted.None?
            && r.counters == m.counters.(skipped := m.counters.skipped + |d.cases|, empty := m.counters.empty + 1)
            && r.reports == m.reports + [ParamMissingNotice(d.name)]
            && r.trace == m.trace + [ParamInit]
                          + (if d.options.hasBeforeAllCases then [BeforeAllCases] else [])
                          + (if d.options.hasAfterAllCases then [AfterAllCases] else [])
  {
    var m3 := CasesSetUp(m, d);
    CasesSetUpFacts(m, d);
    RunCasesSkipped(m3, h, d, 0);
    var m4 := RunCases(m3, h, d, 0);
    assert CaseStatuses(m4)[0] == MissingExpectation;
    CaseVerdictCases(CaseStatuses(m4));
    AggregateVerdict(m4, d.name);
    CasesWrapUpFacts(m4, d.name);
    assert RunParameterizeTest(m, h, d) == CasesWrapUp(m4, d.name);
  }

  // ---------------------------------------------------------------------
  // Retries in a parameterized test
  // ---------------------------------------------------------------------

  /**
   * A case run with retries whose first attempt makes no failing
   * expectation stops after that attempt and leaves its zeroed slot
   * zeroed: a pass claims the slot only in a case without retries.
   */
  lemma AttesterRetriedCase(m: Machine, h: Hooks, c: RunConfig, b: Behaviour)
    requires WellFormed(m) && m.aborted.None? && c.IsParamCase() && ConfigFits(c)
    requires !c.skip && c.attempts > 0 && !c.hasBefore && !c.hasAfter
    requires m.results[c.body.index] == EmptyResult
    requires FailuresOf(ScriptAt(b, 0)) == []
    ensures var r := Attester(m, h, c, b);
            && r.aborted.None?
            && r.results == m.results
            && r.counters == m.counters && r.reports == m.reports && r.caseCount == m.caseCount
            && r.afterAllCases == m.afterAllCases
            && r.trace == m.trace + AttemptEvents(h, c)
  {
    var s := ScriptAt(b, 0);
    var i := c.body.index;
    var m0 := m.(current := CurrentTest(c, MissingExpectation), testAttemptCount := 0);
    assert m0 == m.(current := CurrentTest(c, MissingExpectation)).(testAttemptCount := 0);
    var m1 := Attempt(m0, h, s);
    AttemptKeepsFrame(m0, h, s);
    AttemptOrder(m0, h, s);
    AttemptCaseSlot(m0, h, s);
    NoFailuresIff(s);
    assert m1.aborted.None?;
    assert m1.current.status != Failed by {
      if s != [] {
        assert !s[|s| - 1].Fail?;
      }
    }
    assert m1.results[i] == EmptyResult;
    assert m1.results == m.results;
    var m2 := m1.(testAttemptCount := 1);
    assert AttemptLoop(m0, h, b, 0, c.attempts, []) == AfterAttempt(m1, h, b, 0, c.attempts, []);
    assert AfterAttempt(m1, h, b, 0, c.attempts, []) == Looped(m2, [m1.current.status]);
  }

  /** The generated runner over retried cases whose first attempts make no failing expectation leaves every slot zeroed. */
  lemma {:induction false} RunCasesRetried(m: Machine, h: Hooks, d: TestSpec, i: nat)
    requires WellFormed(m) && m.aborted.None? && d.Parameterized?
    requires !d.options.skip && d.options.attempts > 0 && !d.options.hasBefore && !d.options.hasAfter
    requires |d.cases| <= MaxTests && i <= |d.cases|
    requires forall j :: i <= j < |d.cases| ==> FailuresOf(ScriptAt(d.cases[j].behaviour, 0)) == []
    requires forall j :: i <= j < |d.cases| ==> m.results[j] == EmptyResult
    ensures var r := RunCases(m, h, d, i);
            && r.aborted.None?
            && r.results == m.results
            && r.counters == m.counters && r.reports == m.reports && r.caseCount == m.caseCount
            && r.afterAllCases == m.afterAllCases
    decreases |d.cases| - i
  {
    if i < |d.cases| {
      var m1 := m.(paramCtx := m.paramCtx.(caseName := d.cases[i].name));
      var c := CaseConfig(d, i);
      AttesterRetriedCase(m1, h, c, d.cases[i].behaviour);
      var m2 := Attester(m1, h, c, d.cases[i].behaviour);
      RunCasesStep(m, h, d, i);
      RunCasesRetried(m2, h, d, i + 1);
    }
  }

  /**
   * A parameterized test with retries whose cases all pass on their first
   * attempt is counted and noted as a test without expectations: with
   * retries, a pass never claims the case's slot.
   */
  lemma RetriedCasesCountedMissing(m: Machine, h: Hooks, d: TestSpec)
    requires WellFormed(m) && m.aborted.None? && d.Parameterized?
    requires !d.options.skip && d.options.attempts > 0 && !d.options.hasBefore && !d.options.hasAfter
    requires 0 < |d.cases| <= MaxTests && m.results == EmptyResults()
    requires forall j :: 0 <= j < |d.cases| ==> FailuresOf(ScriptAt(d.cases[j].behaviour, 0)) == []
    ensures var r := RunParameterizeTest(m, h, d);
            && r.aborted.None?
            && r.counters == m.counters.(empty := m.counters.empty + 1)
            && r.reports == m.reports + [ParamMissingNotice(d.name)]
  {
    var m3 := CasesSetUp(m, d);
    CasesSetUpFacts(m, d);
    RunCasesRetried(m3, h, d, 0);
    var m4 := RunCases(m3, h, d, 0);
    assert CaseStatuses(m4)[0] == MissingExpectation;
    CaseVerdictCases(CaseStatuses(m4));
    AggregateVerdict(m4, d.name);
    CasesWrapUpFacts(m4, d.name);
    assert RunParameterizeTest(m, h, d) == CasesWrapUp(m4, d.name);
  }

  /**
   * The rest of a retried case's loop, once its slot is FAILED: every
   * further attempt either fails again, which only appends to the slot's
   * failures, or passes, which does not touch the slot. The status carried
   * along is never MISSING_EXPECTATION again.
   */
  lemma {:induction false} RetriedLoopKeepsFailed(m1: Machine, h: Hooks, b: Behaviour, k: nat, max: int, st: seq<Status>, first: seq<FailureInfo>)
    requires WellFormed(m1) && k < max
    requires m1.current.cfg.IsParamCase() && m1.current.cfg.attempts > 0
    requires !m1.current.cfg.hasBefore && !m1.current.cfg.hasAfter
    requires m1.aborted.None? ==>
               var slot := m1.results[m1.current.cfg.body.index];
               && slot.status == Failed && slot.hasStatus && slot.caseName == m1.paramCtx.caseName
               && first <= slot.failures && |slot.failures| <= MaxParamResults
               && m1.current.status != MissingExpectation
    ensures var r := AfterAttempt(m1, h, b, k, max, st).m;
            r.aborted.None? ==>
              var slot := r.results[m1.current.cfg.body.index];
              && slot.status == Failed && slot.hasStatus && slot.caseName == m1.paramCtx.caseName
              && first <= slot.failures
              && r.current.status != MissingExpectation
    decreases max - k
  {
    if m1.aborted.None? && m1.testAttemptCount < MaxTestAttempts {
      if m1.current.status == Failed && k + 1 < max {
        var m2 := m1.(testAttemptCount := m1.testAttemptCount + 1);
        var s := ScriptAt(b, k + 1);
        AfterFailedAttempt(m1, h, b, k, max, st);
        AttemptKeepsFrame(m2, h, s);
        AttemptOrder(m2, h, s);
        AttemptCaseSlot(m2, h, s);
        RetriedLoopKeepsFailed(Attempt(m2, h, s), h, b, k + 1, max, st + [Failed], first);
      } else {
        AfterLastAttempt(m1, h, b, k, max, st);
      }
    }
  }

  /**
   * A retry never rescues a case: when the first attempt of a case with
   * retries makes a failing expectation, the slot is FAILED under the
   * case's name and keeps that attempt's failures, whatever the later
   * attempts do. A later pass ends the loop but, with retries, never
   * claims the slot, and the loop's last status is not MISSING_EXPECTATION,
   * so the slot is not rewritten either.
   */
  lemma RetryNeverRescuesCase(m: Machine, h: Hooks, c: RunConfig, b: Behaviour)
    requires WellFormed(m) && m.aborted.None? && c.IsParamCase() && ConfigFits(c)
    requires !c.skip && c.attempts > 0 && !c.hasBefore && !c.hasAfter
    requires m.results[c.body.index] == EmptyResult
    requires FailuresOf(ScriptAt(b, 0)) != []
    ensures var r := Attester(m, h, c, b);
            var slot := r.results[c.body.index];
            r.aborted.None? ==>
              && slot.status == Failed && slot.hasStatus && slot.caseName == m.paramCtx.caseName
              && FailuresOf(ScriptAt(b, 0)) <= slot.failures
              && r.counters == m.counters && r.reports == m.reports
  {
    var s := ScriptAt(b, 0);
    var i := c.body.index;
    var m0 := m.(current := CurrentTest(c, MissingExpectation), testAttemptCount := 0);
    assert m0 == m.(current := CurrentTest(c, MissingExpectation)).(testAttemptCount := 0);
    var m1 := Attempt(m0, h, s);
    AttemptKeepsFrame(m0, h, s);
    AttemptOrder(m0, h, s);
    AttemptCaseSlot(m0, h, s);
    NoFailuresIff(s);
    if m1.aborted.None? {
      assert m1.results[i].failures == FailuresOf(s);
      assert m1.current.status != MissingExpectation;
    }
    assert AttemptLoop(m0, h, b, 0, c.attempts, []) == AfterAttempt(m1, h, b, 0, c.attempts, []);
    RetriedLoopKeepsFailed(m1, h, b, 0, c.attempts, [], FailuresOf(s));
    LoopQuietAfter(m1, h, b, 0, c.attempts, []);
  }

  // ---------------------------------------------------------------------
  // A negative attempt count in a case's options
  // ---------------------------------------------------------------------

  /**
   * The pre-scan checks the attempts of a registered descriptor, and a
   * parameterized descriptor carries none; a negative `attempts` option of
   * its cases runs no attempt and then trips the attempt-count check.
   */
  lemma NegativeCaseAttempts(m: Machine, h: Hooks, d: TestSpec)
    requires WellFormed(m) && m.aborted.None? && d.Parameterized?
    requires !d.options.skip && d.options.attempts < 0
    requires 0 < |d.cases| <= MaxTests
    ensures WellConfigured([d])
    ensures RunParameterizeTest(m, h, d).aborted == Some(InvalidAttemptState)
    ensures RunParameterizeTest(m, h, d).trace
              == m.trace + [ParamInit] + (if d.options.hasBeforeAllCases then [BeforeAllCases] else [])
  {
    var m3 := CasesSetUp(m, d);
    CasesSetUpFacts(m, d);
    var m1 := m3.(paramCtx := m3.paramCtx.(caseName := d.cases[0].name));
    var c := CaseConfig(d, 0);
    var m2 := Attester(m1, h, c, d.cases[0].behaviour);
    assert m2 == Abort(m1.(current := CurrentTest(c, MissingExpectation), testAttemptCount := 0), InvalidAttemptState);
    RunCasesStep(m3, h, d, 0);
    assert RunCases(m3, h, d, 0) == m2;
  }
}

/**
 * The counting invariants of the run loop in `main` (attest.h:670-688) and
 * of the summary (attest.h:758-770): what each descriptor adds to the
 * counters, that disabled descriptors are invisible, what the pre-scan
 * leaves when it rejects a registry, and the exit status.
 */
module Counting {
  import opened Types
  import opened Rules
  import opened Semantics
  import opened Properties

  /** The verdict counters together. */
  function Settled(c: Counters): int
  {
    c.passed + c.failed + c.skipped + c.empty
  }

  /** Exactly one of the pass, fail and empty counters went up by one, and nothing else changed. */
  predicate OneVerdict(before: Counters, after: Counters)
  {
    || after == Bump(before, Passed)
    || after == Bump(before, Failed)
    || after == Bump(before, MissingExpectation)
  }

  /** How many cases a descriptor counts as skipped: every case of a parameterized test with the skip option. */
  function SkippedCases(d: TestSpec): nat
  {
    if d.Parameterized? && d.options.skip then |d.cases| else 0
  }

  /** The descriptors the run loop does not pass over, in registry order. */
  function EnabledOnly(specs: seq<TestSpec>): (r: seq<TestSpec>)
    ensures |r| <= |specs|
    ensures forall d :: d in r ==> d in specs && !d.Disabled()
  {
    if specs == [] then []
    else (if specs[0].Disabled() then [] else [specs[0]]) + EnabledOnly(specs[1..])
  }

  /** How many verdicts the run loop settles for a registry: one per enabled test, plus its skipped cases. */
  function Settles(specs: seq<TestSpec>): nat
  {
    if specs == [] then 0
    else (if specs[0].Disabled() then 0 else 1 + SkippedCases(specs[0])) + Settles(specs[1..])
  }

  // ---------------------------------------------------------------------
  // One descriptor
  // ---------------------------------------------------------------------

  /** The retry loop counts nothing, whatever happens in it. */
  lemma LoopKeepsCounters(m: Machine, h: Hooks, b: Behaviour, max: int)
    requires WellFormed(m)
    ensures AttemptLoop(m, h, b, 0, max, []).m.counters == m.counters
  {
    if 0 < max && m.aborted.None? {
      var m1 := Attempt(m, h, ScriptAt(b, 0));
      AttemptKeepsFrame(m, h, ScriptAt(b, 0));
      LoopQuietAfter(m1, h, b, 0, max, []);
    }
  }

  /**
   * The attester never counts a test in `total`. A skipped configuration
   * raises the skip count only; a case otherwise counts nothing; a plain
   * test that completes raises exactly one of the pass, fail and empty
   * counts, the one of its final status.
   */
  lemma AttesterCounts(m: Machine, h: Hooks, c: RunConfig, b: Behaviour)
    requires WellFormed(m) && ConfigFits(c)
    ensures var r := Attester(m, h, c, b);
            && (c.skip ==> r.counters == m.counters.(skipped := m.counters.skipped + 1) && r.aborted == m.aborted)
            && (!c.skip && c.IsParamCase() ==> r.counters == m.counters)
            && (!c.skip && !c.IsParamCase() && r.aborted.None? ==>
                  && r.counters == Bump(m.counters, r.current.status)
                  && OneVerdict(m.counters, r.counters))
  {
    if !c.skip {
      var m0 := m.(current := CurrentTest(c, MissingExpectation));
      LoopKeepsCounters(m0.(testAttemptCount := 0), h, b, MaxAttempts(c.attempts));
    }
  }

  /** The generated runner counts nothing but the skipped cases. */
  lemma {:induction false} RunCasesCounts(m: Machine, h: Hooks, d: TestSpec, i: nat)
    requires WellFormed(m) && d.Parameterized? && |d.cases| <= MaxTests && i <= |d.cases|
    ensures var r := RunCases(m, h, d, i);
            r.aborted.None? ==>
              r.counters == m.counters.(skipped := m.counters.skipped + (if d.options.skip then |d.cases| - i else 0))
    decreases |d.cases| - i
  {
    if i < |d.cases| && m.aborted.None? {
      var m1 := m.(paramCtx := m.paramCtx.(caseName := d.cases[i].name));
      var c := CaseConfig(d, i);
      AttesterCounts(m1, h, c, d.cases[i].behaviour);
      var m2 := Attester(m1, h, c, d.cases[i].behaviour);
      RunCasesStep(m, h, d, i);
      RunCasesCounts(m2, h, d, i + 1);
    }
  }

  /** A parameterized test that completes adds one verdict for the test, after its skipped cases. */
  lemma ParameterizedCounts(m: Machine, h: Hooks, d: TestSpec)
    requires WellFormed(m) && d.Parameterized?
    ensures var r := RunParameterizeTest(m, h, d);
            r.aborted.None? ==> OneVerdict(m.counters.(skipped := m.counters.skipped + SkippedCases(d)), r.counters)
  {
    if 0 < |d.cases| <= MaxTests {
      var m3 := CasesSetUp(m, d);
      CasesSetUpFacts(m, d);
      RunCasesCounts(m3, h, d, 0);
      var m4 := RunCases(m3, h, d, 0);
      if m4.aborted.None? {
        CasesWrapUpFacts(m4, d.name);
        AggregateVerdict(m4, d.name);
      }
    }
  }

  /** One enabled descriptor that completes adds one verdict, after its skipped cases, and leaves `total` alone. */
  lemma RunOneCounts(m: Machine, h: Hooks, d: TestSpec)
    requires WellFormed(m) && m.aborted.None?
    ensures var r := RunOne(m, h, d);
            r.aborted.None? ==>
              && r.counters.total == m.counters.total
              && Settled(r.counters) == Settled(m.counters) + 1 + SkippedCases(d)
  {
    if d.Parameterized? {
      ParameterizedCounts(m, h, d);
    } else {
      AttesterCounts(m, h, PlainConfig(d), d.behaviour);
    }
  }

  // ---------------------------------------------------------------------
  // The run loop
  // ---------------------------------------------------------------------

  /** One step of the run loop over an enabled descriptor. */
  lemma RunRegistryStep(m: Machine, h: Hooks, specs: seq<TestSpec>, i: nat)
    requires WellFormed(m) && m.aborted.None? && i < |specs| && !specs[i].Disabled()
    ensures var m1 := RunOne(m, h, specs[i]);
            RunRegistry(m, h, specs, i) == if m1.aborted.Some? then m1 else RunRegistry(Advance(m1), h, specs, i + 1)
  {
  }

  /** The run loop from descriptor i is the run loop over the rest of the registry. */
  lemma {:induction false} RunRegistryShift(m: Machine, h: Hooks, specs: seq<TestSpec>, i: nat)
    requires WellFormed(m) && i <= |specs|
    ensures RunRegistry(m, h, specs, i) == RunRegistry(m, h, specs[i..], 0)
    decreases |specs| - i
  {
    if i < |specs| && m.aborted.None? {
      var t := specs[i..];
      assert t[0] == specs[i] && t[1..] == specs[i + 1..];
      if specs[i].Disabled() {
        RunRegistryShift(m, h, specs, i + 1);
        RunRegistryShift(m, h, t, 1);
      } else {
        var m1 := RunOne(m, h, specs[i]);
        RunRegistryStep(m, h, specs, i);
        RunRegistryStep(m, h, t, 0);
        if m1.aborted.None? {
          RunRegistryShift(Advance(m1), h, specs, i + 1);
          RunRegistryShift(Advance(m1), h, t, 1);
        }
      }
    }
  }

  /** A disabled descriptor changes nothing: the run loop behaves as if only the enabled ones were registered. */
  lemma {:induction false} DisabledInvisible(m: Machine, h: Hooks, specs: seq<TestSpec>)
    requires WellFormed(m)
    ensures RunRegistry(m, h, specs, 0) == RunRegistry(m, h, EnabledOnly(specs), 0)
    decreases |specs|
  {
    if specs != [] && m.aborted.None? {
      var rest := EnabledOnly(specs[1..]);
      RunRegistryShift(m, h, specs, 1);
      if specs[0].Disabled() {
        assert EnabledOnly(specs) == rest;
        DisabledInvisible(m, h, specs[1..]);
      } else {
        var e := EnabledOnly(specs);
        assert e == [specs[0]] + rest;
        assert e[0] == specs[0] && e[1..] == rest;
        var m1 := RunOne(m, h, specs[0]);
        RunRegistryStep(m, h, specs, 0);
        RunRegistryStep(m, h, e, 0);
        if m1.aborted.None? {
          var m2 := Advance(m1);
          DisabledInvisible(m2, h, specs[1..]);
          RunRegistryShift(m2, h, specs, 1);
          RunRegistryShift(m2, h, e, 1);
          assert RunRegistry(m, h, specs, 0) == RunRegistry(m2, h, rest, 0);
          assert RunRegistry(m, h, e, 0) == RunRegistry(m2, h, rest, 0);
        }
      }
    }
  }

  /**
   * The run loop over a registry that completes adds one to `total` per
   * enabled descriptor, and settles one verdict per enabled descriptor
   * plus one per skipped case.
   */
  lemma {:induction false} RunRegistryCounts(m: Machine, h: Hooks, specs: seq<TestSpec>)
    requires WellFormed(m)
    ensures var r := RunRegistry(m, h, specs, 0);
            r.aborted.None? ==>
              && r.counters.total == m.counters.total + |EnabledOnly(specs)|
              && Settled(r.counters) == Settled(m.counters) + Settles(specs)
    decreases |specs|
  {
    var r := RunRegistry(m, h, specs, 0);
    if specs != [] && m.aborted.None? {
      RunRegistryShift(m, h, specs, 1);
      if specs[0].Disabled() {
        RunRegistryCounts(m, h, specs[1..]);
      } else {
        var m1 := RunOne(m, h, specs[0]);
        RunOneCounts(m, h, specs[0]);
        RunRegistryStep(m, h, specs, 0);
        if m1.aborted.None? {
          var m2 := Advance(m1);
          RunRegistryShift(m2, h, specs, 1);
          assert r == RunRegistry(m2, h, specs[1..], 0);
          RunRegistryCounts(m2, h, specs[1..]);
        }
      }
    }
  }

  // ---------------------------------------------------------------------
  // The entry point and the exit status
  // ---------------------------------------------------------------------

  /**
   * A registry the pre-scan rejects stops the process before any hook or
   * body runs, with the reason of the first offending descriptor, and
   * counts nothing; the pre-scan rejects exactly the registries that are
   * not well configured.
   */
  lemma RunRejects(m: Machine, h: Hooks, specs: seq<TestSpec>)
    requires WellFormed(m)
    ensures var r := Run(m, h, specs);
            !WellConfigured(specs) <==> FirstConfigError(specs).Some?
    ensures var r := Run(m, h, specs);
            !WellConfigured(specs) ==>
              && r.aborted == Some(FirstConfigError(specs).value.reason)
              && r.trace == m.trace && r.counters == m.counters && r.reports == m.reports
  {
    PrescanAcceptsIff(specs);
  }

  /**
   * Over a well-configured registry, the run that completes counts one
   * test per enabled descriptor and one verdict per enabled descriptor and
   * skipped case.
   */
  lemma RunCounts(m: Machine, h: Hooks, specs: seq<TestSpec>)
    requires WellFormed(m) && m.aborted.None? && WellConfigured(specs)
    ensures var r := Run(m, h, specs);
            r.aborted.None? ==>
              && r.counters.total == m.counters.total + |EnabledOnly(specs)|
              && Settled(r.counters) == Settled(m.counters) + Settles(specs)
  {
    PrescanAcceptsIff(specs);
    var m1 := if h.beforeAll then
                Emit(m, GlobalBeforeAll).(globalShared := if h.beforeAllShared != Null then h.beforeAllShared else m.globalShared)
              else m;
    RunRegistryCounts(m1, h, specs);
  }

  /** The exit status is 0 or 1, and 0 exactly when nothing stopped the process and no test failed or was empty. */
  lemma ExitStatusIff(m: Machine)
    ensures ExitStatus(m) in {0, 1}
    ensures ExitStatus(m) == 0 <==> m.aborted.None? && m.counters.failed == 0 && m.counters.empty == 0
  {
  }
}

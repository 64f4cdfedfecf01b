/**
 * Pure rules of the Attest engine, stated on plain values: how an attempt's
 * status follows from its expectations, how the retry loop's recorded
 * statuses are formed and resolved, how case statuses fold into one
 * verdict, what the pre-scan rejects, the exit code and the tree connectors.
 *
 * These are reference definitions: the step-by-step semantics of the engine
 * is proved to agree with them.
 */
module Rules {
  import opened Types

  // ---------------------------------------------------------------------
  // Attempts and retries (attest.h:258-352)
  // ---------------------------------------------------------------------

  /** `cfg.attempts ? cfg.attempts : 1`: zero means one run. */
  function MaxAttempts(attempts: int): int
  {
    if attempts != 0 then attempts else 1
  }

  /**
   * The status after one run of a body: every expectation overwrites it
   * (a pass with PASSED, a failure with FAILED), so the last expectation
   * decides; a run without expectations keeps the status it inherits.
   */
  function AttemptStatus(prev: Status, s: Script): Status
  {
    if s == [] then prev
    else if s[|s| - 1].Pass? then Passed
    else Failed
  }

  /**
   * The statuses the retry loop records, attempt k onwards, when the
   * status carried into attempt k is `prev`: an attempt is recorded, and
   * the loop goes on only while the recorded status is FAILED and fewer
   * than `max` attempts have run.
   */
  function RecordedStatuses(b: Behaviour, prev: Status, k: nat, max: int): seq<Status>
    decreases max - k
  {
    if k >= max then []
    else
      var s := AttemptStatus(prev, ScriptAt(b, k));
      if s == Failed then [s] + RecordedStatuses(b, s, k + 1, max) else [s]
  }

  /** The verdict resolved from the recorded statuses: any empty attempt wins, else the last status. */
  function FinalStatus(st: seq<Status>, last: Status): Status
  {
    if MissingExpectation in st then MissingExpectation else last
  }

  /** At most `max - k` attempts run, and at least one when any may. */
  lemma {:induction false} RecordedStatusesBound(b: Behaviour, prev: Status, k: nat, max: int)
    ensures k >= max ==> RecordedStatuses(b, prev, k, max) == []
    ensures k < max ==> 1 <= |RecordedStatuses(b, prev, k, max)| <= max - k
    decreases max - k
  {
    if k < max {
      var s := AttemptStatus(prev, ScriptAt(b, k));
      if s == Failed {
        RecordedStatusesBound(b, s, k + 1, max);
      }
    }
  }

  /** Retries continue only on failure: every recorded status but the last is FAILED. */
  lemma {:induction false} OnlyLastNotFailed(b: Behaviour, prev: Status, k: nat, max: int)
    ensures forall i :: 0 <= i < |RecordedStatuses(b, prev, k, max)| - 1 ==> RecordedStatuses(b, prev, k, max)[i] == Failed
    decreases max - k
  {
    if k < max {
      var s := AttemptStatus(prev, ScriptAt(b, k));
      if s == Failed {
        OnlyLastNotFailed(b, s, k + 1, max);
        var rest := RecordedStatuses(b, s, k + 1, max);
        var st := [s] + rest;
        forall i | 0 <= i < |st| - 1 ensures st[i] == Failed {
          if i > 0 {
            assert st[i] == rest[i - 1];
            assert i - 1 < |rest| - 1;
            assert rest[i - 1] == Failed;
          }
        }
      }
    }
  }

  /** The loop stops early only at an attempt that passed or made no expectation. */
  lemma {:induction false} StopsEarlyOnlyOnSuccess(b: Behaviour, prev: Status, k: nat, max: int)
    ensures var st := RecordedStatuses(b, prev, k, max);
            0 < |st| < max - k ==> st[|st| - 1] != Failed
    decreases max - k
  {
    if k < max {
      var s := AttemptStatus(prev, ScriptAt(b, k));
      if s == Failed {
        StopsEarlyOnlyOnSuccess(b, s, k + 1, max);
      }
    }
  }

  /**
   * The status is never reset between attempts, so a later attempt without
   * expectations inherits FAILED: only the first recorded status can be
   * MISSING_EXPECTATION.
   */
  lemma {:induction false} MissingOnlyFirst(b: Behaviour, prev: Status, k: nat, max: int)
    ensures var st := RecordedStatuses(b, prev, k, max);
            forall i :: 0 < i < |st| ==> st[i] != MissingExpectation
    ensures prev != MissingExpectation ==> MissingExpectation !in RecordedStatuses(b, prev, k, max)
    decreases max - k
  {
    if k < max {
      var s := AttemptStatus(prev, ScriptAt(b, k));
      if s == Failed {
        MissingOnlyFirst(b, s, k + 1, max);
      }
    }
  }

  /**
   * Forcing MISSING_EXPECTATION when any recorded attempt was empty never
   * changes the verdict: it is always the last recorded status.
   */
  lemma FinalIsLastRecorded(b: Behaviour, max: int)
    requires 0 < max
    ensures var st := RecordedStatuses(b, MissingExpectation, 0, max);
            |st| > 0 && FinalStatus(st, st[|st| - 1]) == st[|st| - 1]
  {
    var st := RecordedStatuses(b, MissingExpectation, 0, max);
    RecordedStatusesBound(b, MissingExpectation, 0, max);
    MissingOnlyFirst(b, MissingExpectation, 0, max);
    OnlyLastNotFailed(b, MissingExpectation, 0, max);
    if MissingExpectation in st {
      var i :| 0 <= i < |st| && st[i] == MissingExpectation;
      assert i == 0;
      assert |st| == 1;
    }
  }

  // ---------------------------------------------------------------------
  // Parameterized cases (attest.h:424-484, 787-792, 819-825, 847-865)
  // ---------------------------------------------------------------------

  /**
   * The slot status of a case run once with the given expectations: a
   * failure sticks against every later pass, a case with no expectation
   * is MISSING_EXPECTATION, and otherwise it passed.
   */
  function CaseOutcome(s: Script): Status
  {
    if s == [] then MissingExpectation
    else if exists i :: 0 <= i < |s| && s[i].Fail? then Failed
    else Passed
  }

  /** How many of the statuses equal `x`. */
  function CountStatus(st: seq<Status>, x: Status): nat
  {
    if st == [] then 0
    else CountStatus(st[..|st| - 1], x) + (if st[|st| - 1] == x then 1 else 0)
  }

  /** The verdict of a parameterized test from its case statuses, in the order the engine tests them. */
  function CaseVerdict(st: seq<Status>): Status
  {
    if forall i :: 0 <= i < |st| ==> st[i] == Passed then Passed
    else if MissingExpectation in st then MissingExpectation
    else Failed
  }

  /** Each verdict's condition, both ways; an empty case outranks a failed one. */
  lemma CaseVerdictCases(st: seq<Status>)
    ensures CaseVerdict(st) == Passed <==> forall i :: 0 <= i < |st| ==> st[i] == Passed
    ensures CaseVerdict(st) == MissingExpectation <==> MissingExpectation in st
    ensures CaseVerdict(st) == Failed <==> Failed in st && MissingExpectation !in st
  {
  }

  /** Without an empty case, every case is counted as passed or as failed. */
  lemma {:induction false} PassedPlusFailed(st: seq<Status>)
    requires MissingExpectation !in st
    ensures CountStatus(st, Passed) + CountStatus(st, Failed) == |st|
  {
    if st != [] {
      assert st == st[..|st| - 1] + [st[|st| - 1]];
      PassedPlusFailed(st[..|st| - 1]);
    }
  }

  /** The cases with a FAILED slot, in case order. */
  function FailedCases(rs: seq<InstanceResult>): seq<InstanceResult>
  {
    if rs == [] then []
    else FailedCases(rs[..|rs| - 1]) + (if rs[|rs| - 1].status == Failed then [rs[|rs| - 1]] else [])
  }

  /** The statuses of the first n result slots. */
  function StatusesOf(rs: seq<InstanceResult>): (st: seq<Status>)
    ensures |st| == |rs| && forall i :: 0 <= i < |rs| ==> st[i] == rs[i].status
  {
    seq(|rs|, i requires 0 <= i < |rs| => rs[i].status)
  }

  /** The failed-case list holds exactly the failed slots, each one FAILED. */
  lemma {:induction false} FailedCasesCount(rs: seq<InstanceResult>)
    ensures |FailedCases(rs)| == CountStatus(StatusesOf(rs), Failed)
    ensures forall r :: r in FailedCases(rs) ==> r in rs && r.status == Failed
  {
    if rs != [] {
      FailedCasesCount(rs[..|rs| - 1]);
      assert StatusesOf(rs)[..|rs| - 1] == StatusesOf(rs[..|rs| - 1]);
    }
  }

  // ---------------------------------------------------------------------
  // Pre-scan of the registry (attest.h:587-655)
  // ---------------------------------------------------------------------

  /** The descriptor at which the pre-scan stops, and why. */
  datatype ConfigError = ConfigError(index: nat, reason: Fatal)

  /** A title equal to one of an earlier descriptor. */
  predicate RepeatsEarlierTitle(specs: seq<TestSpec>, i: nat)
    requires i < |specs|
  {
    exists j :: 0 <= j < i && specs[j].Title() == specs[i].Title()
  }

  /**
   * The checks made on descriptor i, in the order the pre-scan makes them.
   * The duplicate check is guarded by `param_test == NULL`, which holds for
   * every registered descriptor, parameterized ones included.
   */
  function DescriptorError(specs: seq<TestSpec>, i: nat): Option<Fatal>
    requires i < |specs|
  {
    if i >= MaxTests then Some(TooManyTests)
    else if specs[i].Attempts() < 0 then Some(NegativeAttempts)
    else if specs[i].Attempts() > MaxTestAttempts then Some(TooManyAttempts)
    else if specs[i].Title().None? then Some(MissingTitle)
    else if RepeatsEarlierTitle(specs, i) then Some(DuplicateTitle)
    else None
  }

  /** The first configuration error at or after descriptor i. */
  function PrescanFrom(specs: seq<TestSpec>, i: nat): Option<ConfigError>
    decreases |specs| - i
  {
    if i >= |specs| then None
    else match DescriptorError(specs, i)
      case Some(f) => Some(ConfigError(i, f))
      case None => PrescanFrom(specs, i + 1)
  }

  /** The verdict of the pre-scan over the whole registry. */
  function FirstConfigError(specs: seq<TestSpec>): Option<ConfigError>
  {
    PrescanFrom(specs, 0)
  }

  /** A registry the pre-scan accepts: bounded, attempts in range, titles present and distinct. */
  predicate WellConfigured(specs: seq<TestSpec>)
  {
    && |specs| <= MaxTests
    && (forall i :: 0 <= i < |specs| ==> 0 <= specs[i].Attempts() <= MaxTestAttempts)
    && (forall i :: 0 <= i < |specs| ==> specs[i].Title().Some?)
    && (forall i, j :: 0 <= j < i < |specs| ==> specs[j].Title() != specs[i].Title())
  }

  lemma {:induction false} PrescanFromNone(specs: seq<TestSpec>, i: nat)
    requires i <= |specs|
    ensures PrescanFrom(specs, i) == None <==> forall k :: i <= k < |specs| ==> DescriptorError(specs, k) == None
    decreases |specs| - i
  {
    if i < |specs| {
      PrescanFromNone(specs, i + 1);
    }
  }

  /** A registry longer than the table is rejected at the first descriptor past it. */
  lemma TooManyTestsRejected(specs: seq<TestSpec>)
    ensures |specs| > MaxTests ==> DescriptorError(specs, MaxTests) == Some(TooManyTests)
  {
  }

  /** The pre-scan passes exactly when the registry is well configured. */
  lemma PrescanAcceptsIff(specs: seq<TestSpec>)
    ensures FirstConfigError(specs) == None <==> WellConfigured(specs)
  {
    PrescanFromNone(specs, 0);
    if FirstConfigError(specs) == None {
      if |specs| > MaxTests {
        TooManyTestsRejected(specs);
        assert false;
      }
      forall i | 0 <= i < |specs|
        ensures 0 <= specs[i].Attempts() <= MaxTestAttempts && specs[i].Title().Some?
      {
        assert DescriptorError(specs, i) == None;
      }
      forall i, j | 0 <= j < i < |specs| ensures specs[j].Title() != specs[i].Title() {
        assert DescriptorError(specs, i) == None;
      }
    } else {
      var e := FirstConfigError(specs).value;
      PrescanRejectsFirst(specs);
      assert DescriptorError(specs, e.index).Some?;
    }
  }

  lemma {:induction false} PrescanFromSome(specs: seq<TestSpec>, i: nat)
    requires PrescanFrom(specs, i).Some?
    ensures var e := PrescanFrom(specs, i).value;
            i <= e.index < |specs| && DescriptorError(specs, e.index) == Some(e.reason)
            && forall k :: i <= k < e.index ==> DescriptorError(specs, k) == None
    decreases |specs| - i
  {
    if DescriptorError(specs, i).None? {
      PrescanFromSome(specs, i + 1);
    }
  }

  /** A rejection names the first offending descriptor; every earlier one passed every check. */
  lemma PrescanRejectsFirst(specs: seq<TestSpec>)
    requires FirstConfigError(specs).Some?
    ensures var e := FirstConfigError(specs).value;
            e.index < |specs| && DescriptorError(specs, e.index) == Some(e.reason)
            && forall k :: 0 <= k < e.index ==> DescriptorError(specs, k) == None
  {
    PrescanFromSome(specs, 0);
  }

  // ---------------------------------------------------------------------
  // Summary and rendering (attest.h:381-386, 489-495, 708-709, 770)
  // ---------------------------------------------------------------------

  /** The process exit status of the summary: 1 when anything failed or had no expectation. */
  function ExitCode(failCount: int, emptyCount: int): (r: int)
    ensures r == 0 || r == 1
    ensures r == 0 <==> failCount == 0 && emptyCount == 0
  {
    if failCount != 0 || emptyCount != 0 then 1 else 0
  }

  datatype Connector = Branch | Leaf

  /** The tree glyph in front of item i of n: the last item gets the leaf. */
  function ConnectorFor(i: nat, n: nat): (r: Connector)
    requires i < n
    ensures r == Leaf <==> i == n - 1
  {
    if i == n - 1 then Leaf else Branch
  }
}

/**
 * What the engine's step semantics guarantees, stated against the pure
 * rules: a body run changes only the status, the failure tables and the
 * result slots; an attempt calls the hooks in a fixed order; the retry loop
 * records exactly the reference statuses; a plain test is counted once with
 * the last recorded status; a case's slot ends with its reference outcome;
 * a parameterized test is counted once with the reference verdict and then
 * cleaned up.
 */
module Properties {
  import opened Types
  import opened Rules
  import opened Semantics

  // ---------------------------------------------------------------------
  // One run of a body
  // ---------------------------------------------------------------------

  /** The failures a script records, in order. */
  function FailuresOf(s: Script): seq<FailureInfo>
  {
    if s == [] then []
    else (if s[0].Fail? then [s[0].info] else []) + FailuresOf(s[1..])
  }

  /** A script records no failure exactly when it makes no failing expectation. */
  lemma {:induction false} NoFailuresIff(s: Script)
    ensures FailuresOf(s) == [] <==> forall j :: 0 <= j < |s| ==> !s[j].Fail?
  {
    if s != [] {
      NoFailuresIff(s[1..]);
      if s[0].Pass? {
        forall j | 0 < j < |s| ensures s[j] == s[1..][j - 1] { }
      }
    }
  }

  /** What a body run leaves alone: everything but the status, the failure tables, the slots and `aborted`. */
  predicate BodyFrame(m: Machine, r: Machine)
  {
    && r.counters == m.counters
    && r.caseCount == m.caseCount
    && r.testAttemptCount == m.testAttemptCount
    && r.current.cfg == m.current.cfg
    && r.globalShared == m.globalShared
    && r.paramCtx == m.paramCtx
    && r.beforeAllCases == m.beforeAllCases
    && r.afterAllCases == m.afterAllCases
    && r.trace == m.trace
    && r.reports == m.reports
  }

  /** One expectation keeps the frame, and stops the process only on a full failure list. */
  lemma ExpectFrame(m: Machine, e: Expectation)
    requires WellFormed(m)
    ensures BodyFrame(m, Expect(m, e))
    ensures m.aborted.None? && Expect(m, e).aborted.Some? ==> Expect(m, e).aborted.value.Overflow?
  {
  }

  /** A body run keeps the frame, and the only way it stops the process is a full failure list. */
  lemma {:induction false} RunBodyFrame(m: Machine, s: Script)
    requires WellFormed(m)
    ensures BodyFrame(m, RunBody(m, s))
    ensures m.aborted.None? && RunBody(m, s).aborted.Some? ==> RunBody(m, s).aborted.value.Overflow?
    decreases |s|
  {
    if s != [] && m.aborted.None? {
      var m1 := Expect(m, s[0]);
      ExpectFrame(m, s[0]);
      RunBodyFrame(m1, s[1..]);
      assert RunBody(m, s) == RunBody(m1, s[1..]);
    }
  }

  /** A body run that completes leaves the status its last expectation wrote. */
  lemma {:induction false} RunBodyStatus(m: Machine, s: Script)
    requires WellFormed(m) && m.aborted.None?
    ensures RunBody(m, s).aborted.None? ==> RunBody(m, s).current.status == AttemptStatus(m.current.status, s)
    decreases |s|
  {
    if s != [] {
      var m1 := Expect(m, s[0]);
      if m1.aborted.None? {
        RunBodyStatus(m1, s[1..]);
        if s[1..] != [] {
          assert s[1..][|s[1..]| - 1] == s[|s| - 1];
        }
      }
    }
  }

  /**
   * In a plain test a body run appends its failures to the current
   * attempt's list and touches no case slot; it stops the process exactly
   * when the list would exceed its capacity.
   */
  lemma {:induction false} RunBodyPlainFailures(m: Machine, s: Script)
    requires WellFormed(m) && m.aborted.None?
    requires !m.current.cfg.IsParamCase() && m.testAttemptCount < MaxTestAttempts
    requires |m.attemptFailures[m.testAttemptCount]| <= MaxFailures
    ensures var r := RunBody(m, s);
            var t := m.testAttemptCount;
            && (r.aborted.None? <==> |m.attemptFailures[t]| + |FailuresOf(s)| <= MaxFailures)
            && (r.aborted.None? ==> r.attemptFailures == m.attemptFailures[t := m.attemptFailures[t] + FailuresOf(s)])
            && r.results == m.results
    decreases |s|
  {
    var t := m.testAttemptCount;
    if s != [] {
      var m1 := Expect(m, s[0]);
      if m1.aborted.None? {
        RunBodyPlainFailures(m1, s[1..]);
        match s[0]
        case Pass =>
          assert FailuresOf(s) == FailuresOf(s[1..]);
        case Fail(info) =>
          assert m1.attemptFailures[t] == m.attemptFailures[t] + [info];
          assert m.attemptFailures[t] + FailuresOf(s) == m1.attemptFailures[t] + FailuresOf(s[1..]);
          assert m1.attemptFailures[t := m1.attemptFailures[t] + FailuresOf(s[1..])]
              == m.attemptFailures[t := m.attemptFailures[t] + FailuresOf(s)];
      } else {
        assert RunBody(m, s) == m1;
        assert |FailuresOf(s)| >= 1;
      }
    } else {
      assert m.attemptFailures[t] + FailuresOf(s) == m.attemptFailures[t];
      assert m.attemptFailures[t := m.attemptFailures[t] + FailuresOf(s)] == m.attemptFailures;
    }
  }

  /** The slot a case's expectation leaves, when it does not stop the process. */
  function SlotAfter(slot: InstanceResult, name: string, claimsOnPass: bool, e: Expectation): InstanceResult
  {
    match e
    case Pass => if claimsOnPass && !slot.hasStatus then InstanceResult(name, Passed, [], true) else slot
    case Fail(info) => InstanceResult(name, Failed, slot.failures + [info], true)
  }

  /** One expectation in a case changes the case's slot only, as SlotAfter says. */
  lemma ExpectCaseSlot(m: Machine, e: Expectation)
    requires WellFormed(m) && m.aborted.None? && m.current.cfg.IsParamCase()
    ensures var r := Expect(m, e);
            var i := m.current.cfg.body.index;
            && BodyFrame(m, r)
            && r.attemptFailures == m.attemptFailures
            && (r.aborted.None? <==> !(e.Fail? && |m.results[i].failures| >= MaxParamResults))
            && (r.aborted.None? ==> r.results == m.results[i := SlotAfter(m.results[i], m.paramCtx.caseName, m.current.cfg.attempts <= 0, e)])
            && (r.aborted.Some? ==> r.results == m.results)
  {
  }

  /**
   * In a case, a body run touches only the case's own slot: any failure makes
   * it FAILED and appends to its failures; a pass claims an unclaimed slot as
   * PASSED only when the case runs without retries. It stops the process
   * exactly when the slot's failure list would exceed its capacity.
   */
  lemma {:induction false} RunBodyCaseSlot(m: Machine, s: Script)
    requires WellFormed(m) && m.aborted.None? && m.current.cfg.IsParamCase()
    requires var slot := m.results[m.current.cfg.body.index];
             (slot.hasStatus || slot.failures == []) && |slot.failures| <= MaxParamResults
    ensures var r := RunBody(m, s);
            var i := m.current.cfg.body.index;
            var slot := m.results[i];
            var failed := FailuresOf(s) != [];
            var claims := s != [] && m.current.cfg.attempts <= 0 && !slot.hasStatus;
            && (r.aborted.None? <==> |slot.failures| + |FailuresOf(s)| <= MaxParamResults)
            && r.attemptFailures == m.attemptFailures
            && (forall j :: 0 <= j < MaxTests && j != i ==> r.results[j] == m.results[j])
            && (r.aborted.None? ==>
                  && r.results[i].status == (if failed then Failed else if claims then Passed else slot.status)
                  && r.results[i].hasStatus == (slot.hasStatus || failed || claims)
                  && r.results[i].caseName == (if failed || claims then m.paramCtx.caseName else slot.caseName)
                  && r.results[i].failures == slot.failures + FailuresOf(s))
    decreases |s|
  {
    var i := m.current.cfg.body.index;
    if s == [] {
      assert m.results[i].failures + FailuresOf(s) == m.results[i].failures;
    } else {
      var m1 := Expect(m, s[0]);
      ExpectCaseSlot(m, s[0]);
      assert RunBody(m, s) == RunBody(m1, s[1..]);
      if m1.aborted.None? {
        RunBodyCaseSlot(m1, s[1..]);
        match s[0]
        case Pass =>
          assert FailuresOf(s) == FailuresOf(s[1..]);
        case Fail(info) =>
          assert m.results[i].failures + FailuresOf(s) == m1.results[i].failures + FailuresOf(s[1..]);
      } else {
        assert RunBody(m1, s[1..]) == m1;
        assert |FailuresOf(s)| >= 1;
      }
    }
  }

  // ---------------------------------------------------------------------
  // One attempt
  // ---------------------------------------------------------------------

  /** The user calls of an attempt that runs to its end, in the order the executor makes them. */
  function AttemptEvents(h: Hooks, c: RunConfig): seq<Event>
  {
    PrologueEvents(h, c) + EpilogueEvents(h, c)
  }

  /** The events of n attempts. */
  function Repeat(e: seq<Event>, n: nat): seq<Event>
  {
    if n == 0 then [] else e + Repeat(e, n - 1)
  }

  /** The calls before the body: the fatal check on a case's plain before hook comes ahead of every user call. */
  lemma PrologueEffect(m: Machine, h: Hooks)
    requires WellFormed(m) && m.aborted.None?
    ensures var c := m.current.cfg;
            var r := Prologue(m, h);
            && r == m.(paramCtx := m.paramCtx.(local := Null), trace := r.trace, aborted := r.aborted)
            && r.aborted == (if c.IsParamCase() && c.hasBefore then Some(BeforeInParamCase) else None)
            && r.trace == m.trace + (if r.aborted.None? then PrologueEvents(h, c) else [])
  {
  }

  /** The calls after the body: a case's plain after hook stops the process before any of them. */
  lemma EpilogueEffect(m: Machine, h: Hooks)
    requires WellFormed(m) && m.aborted.None?
    ensures var c := m.current.cfg;
            var r := Epilogue(m, h);
            && r == m.(trace := r.trace, aborted := r.aborted)
            && r.aborted == (if c.IsParamCase() && c.hasAfter then Some(AfterInParamCase) else None)
            && r.trace == m.trace + (if r.aborted.None? then EpilogueEvents(h, c) else [])
  {
  }

  /** What an attempt leaves alone besides the body's own effects. */
  predicate AttemptFrame(m: Machine, r: Machine)
  {
    && r.counters == m.counters
    && r.caseCount == m.caseCount
    && r.testAttemptCount == m.testAttemptCount
    && r.current.cfg == m.current.cfg
    && r.globalShared == m.globalShared
    && r.paramCtx == m.paramCtx.(local := Null)
    && r.beforeAllCases == m.beforeAllCases
    && r.afterAllCases == m.afterAllCases
    && r.reports == m.reports
  }

  /** An attempt keeps the frame and stops the process only for a misplaced hook or a full list. */
  lemma AttemptKeepsFrame(m: Machine, h: Hooks, s: Script)
    requires WellFormed(m) && m.aborted.None?
    ensures var c := m.current.cfg;
            var r := Attempt(m, h, s);
            && AttemptFrame(m, r)
            && (c.IsParamCase() && c.hasBefore ==> r.aborted == Some(BeforeInParamCase) && r.trace == m.trace)
            && (c.IsParamCase() && c.hasAfter ==> r.aborted.Some?)
            && (r.aborted.Some? ==> r.aborted.value in {BeforeInParamCase, AfterInParamCase} || r.aborted.value.Overflow?)
  {
    var pre := Prologue(m, h);
    PrologueEffect(m, h);
    if pre.aborted.None? {
      var mb := RunBody(pre, s);
      RunBodyFrame(pre, s);
      if mb.aborted.None? {
        EpilogueEffect(mb, h);
      }
    }
  }

  /**
   * An attempt that runs to its end calls the hooks and the body in the
   * fixed order and leaves the status its body's last expectation wrote.
   */
  lemma AttemptOrder(m: Machine, h: Hooks, s: Script)
    requires WellFormed(m) && m.aborted.None?
    ensures var r := Attempt(m, h, s);
            r.aborted.None? ==>
              && r.trace == m.trace + AttemptEvents(h, m.current.cfg)
              && r.current.status == AttemptStatus(m.current.status, s)
  {
    var c := m.current.cfg;
    var pre := Prologue(m, h);
    PrologueEffect(m, h);
    if pre.aborted.None? {
      var mb := RunBody(pre, s);
      RunBodyFrame(pre, s);
      RunBodyStatus(pre, s);
      if mb.aborted.None? {
        EpilogueEffect(mb, h);
        assert mb.trace == m.trace + PrologueEvents(h, c);
        assert m.trace + PrologueEvents(h, c) + EpilogueEvents(h, c) == m.trace + AttemptEvents(h, c);
      }
    }
  }

  /** In a plain test an attempt appends the body's failures to the current attempt's list. */
  lemma AttemptPlainFailures(m: Machine, h: Hooks, s: Script)
    requires WellFormed(m) && m.aborted.None?
    requires !m.current.cfg.IsParamCase() && m.testAttemptCount < MaxTestAttempts
    requires |m.attemptFailures[m.testAttemptCount]| <= MaxFailures
    ensures var r := Attempt(m, h, s);
            var t := m.testAttemptCount;
            && (r.aborted.None? <==> |m.attemptFailures[t]| + |FailuresOf(s)| <= MaxFailures)
            && (r.aborted.None? ==> r.attemptFailures == m.attemptFailures[t := m.attemptFailures[t] + FailuresOf(s)])
            && r.results == m.results
  {
    var pre := Prologue(m, h);
    PrologueEffect(m, h);
    var mb := RunBody(pre, s);
    RunBodyFrame(pre, s);
    RunBodyPlainFailures(pre, s);
    if mb.aborted.None? {
      EpilogueEffect(mb, h);
    }
  }

  /** In a case without plain before/after hooks an attempt changes the case slot as its body run does. */
  lemma AttemptCaseSlot(m: Machine, h: Hooks, s: Script)
    requires WellFormed(m) && m.aborted.None? && m.current.cfg.IsParamCase()
    requires !m.current.cfg.hasBefore && !m.current.cfg.hasAfter
    requires var slot := m.results[m.current.cfg.body.index];
             (slot.hasStatus || slot.failures == []) && |slot.failures| <= MaxParamResults
    ensures var r := Attempt(m, h, s);
            var i := m.current.cfg.body.index;
            var slot := m.results[i];
            var failed := FailuresOf(s) != [];
            var claims := s != [] && m.current.cfg.attempts <= 0 && !slot.hasStatus;
            && (r.aborted.None? <==> |slot.failures| + |FailuresOf(s)| <= MaxParamResults)
            && r.attemptFailures == m.attemptFailures
            && (forall j :: 0 <= j < MaxTests && j != i ==> r.results[j] == m.results[j])
            && (r.aborted.None? ==>
                  && r.results[i].status == (if failed then Failed else if claims then Passed else slot.status)
                  && r.results[i].hasStatus == (slot.hasStatus || failed || claims)
                  && r.results[i].caseName == (if failed || claims then m.paramCtx.caseName else slot.caseName)
                  && r.results[i].failures == slot.failures + FailuresOf(s))
  {
    var pre := Prologue(m, h);
    PrologueEffect(m, h);
    var mb := RunBody(pre, s);
    RunBodyFrame(pre, s);
    RunBodyCaseSlot(pre, s);
    if mb.aborted.None? {
      EpilogueEffect(mb, h);
    }
  }

  // ---------------------------------------------------------------------
  // The retry loop and the attempt executor
  // ---------------------------------------------------------------------

  /** The failure lists of the first n attempts of a behaviour. */
  function AttemptFailuresOf(b: Behaviour, n: nat): seq<seq<FailureInfo>>
  {
    seq(n, j requires 0 <= j < n => FailuresOf(ScriptAt(b, j)))
  }

  /** No attempt from `from` up to `to` records more failures than a list holds. */
  predicate AttemptsFit(b: Behaviour, from: nat, to: nat)
  {
    forall j :: from <= j < to ==> |FailuresOf(ScriptAt(b, j))| <= MaxFailures
  }

  /** Concatenation regroups. */
  lemma Associative<T>(a: seq<T>, b: seq<T>, c: seq<T>)
    ensures a + b + c == a + (b + c)
  {
  }

  /** One more attempt's calls ahead of n - 1 repetitions make n repetitions. */
  lemma RepeatPrepend(t: seq<Event>, e: seq<Event>, n: nat)
    requires n >= 1
    ensures t + e + Repeat(e, n - 1) == t + Repeat(e, n)
  {
    Associative(t, e, Repeat(e, n - 1));
  }

  /** After an attempt that ends FAILED with another one allowed, the loop records FAILED and runs the next attempt. */
  lemma AfterFailedAttempt(m1: Machine, h: Hooks, b: Behaviour, k: nat, max: int, st: seq<Status>)
    requires WellFormed(m1) && k + 1 < max && m1.aborted.None?
    requires m1.testAttemptCount < MaxTestAttempts && m1.current.status == Failed
    ensures var m2 := m1.(testAttemptCount := m1.testAttemptCount + 1);
            AfterAttempt(m1, h, b, k, max, st) == AfterAttempt(Attempt(m2, h, ScriptAt(b, k + 1)), h, b, k + 1, max, st + [Failed])
  {
  }

  /** After any other attempt that completes, the loop records its status and stops. */
  lemma AfterLastAttempt(m1: Machine, h: Hooks, b: Behaviour, k: nat, max: int, st: seq<Status>)
    requires WellFormed(m1) && k < max && m1.aborted.None? && m1.testAttemptCount < MaxTestAttempts
    requires m1.current.status != Failed || max <= k + 1
    ensures AfterAttempt(m1, h, b, k, max, st) == Looped(m1.(testAttemptCount := m1.testAttemptCount + 1), st + [m1.current.status])
  {
  }

  /** The reference statuses from attempt k: its own, then, after FAILED, those of the attempts after it. */
  lemma RecordedStep(b: Behaviour, prev: Status, k: nat, max: int)
    requires k < max
    ensures var s := AttemptStatus(prev, ScriptAt(b, k));
            RecordedStatuses(b, prev, k, max) == [s] + (if s == Failed then RecordedStatuses(b, s, k + 1, max) else [])
  {
  }

  /**
   * The retry loop that attempt k ran into records the reference statuses:
   * `prev` is the status carried into attempt k and m1 the state the
   * attempt left.
   */
  lemma {:induction false} LoopRecordsAfter(m1: Machine, h: Hooks, b: Behaviour, prev: Status, k: nat, max: int, st: seq<Status>)
    requires WellFormed(m1) && k < max <= MaxTestAttempts
    requires m1.aborted.None? ==> m1.testAttemptCount == k && m1.current.status == AttemptStatus(prev, ScriptAt(b, k))
    ensures var exp := RecordedStatuses(b, prev, k, max);
            var r := AfterAttempt(m1, h, b, k, max, st);
            r.m.aborted.None? ==> r.statuses == st + exp && r.m.testAttemptCount == k + |exp|
    decreases max - k
  {
    if m1.aborted.None? {
      var m2 := m1.(testAttemptCount := k + 1);
      RecordedStep(b, prev, k, max);
      if m1.current.status == Failed && k + 1 < max {
        var s := ScriptAt(b, k + 1);
        var m1' := Attempt(m2, h, s);
        AfterFailedAttempt(m1, h, b, k, max, st);
        AttemptKeepsFrame(m2, h, s);
        AttemptOrder(m2, h, s);
        LoopRecordsAfter(m1', h, b, Failed, k + 1, max, st + [Failed]);
        Associative(st, [Failed], RecordedStatuses(b, Failed, k + 1, max));
      } else {
        AfterLastAttempt(m1, h, b, k, max, st);
      }
    }
  }

  /** The retry loop from its first attempt records the reference statuses and counts them. */
  lemma LoopRecords(m: Machine, h: Hooks, b: Behaviour, max: int)
    requires WellFormed(m) && m.testAttemptCount == 0 && max <= MaxTestAttempts
    ensures var exp := RecordedStatuses(b, m.current.status, 0, max);
            var r := AttemptLoop(m, h, b, 0, max, []);
            r.m.aborted.None? ==> r.statuses == exp && r.m.testAttemptCount == |exp|
  {
    if 0 < max && m.aborted.None? {
      var m1 := Attempt(m, h, ScriptAt(b, 0));
      AttemptKeepsFrame(m, h, ScriptAt(b, 0));
      AttemptOrder(m, h, ScriptAt(b, 0));
      LoopRecordsAfter(m1, h, b, m.current.status, 0, max, []);
      assert [] + RecordedStatuses(b, m.current.status, 0, max) == RecordedStatuses(b, m.current.status, 0, max);
    }
  }

  /** A retry loop that completes ends on the configuration it ran and on the last recorded status. */
  lemma {:induction false} LoopLastAfter(m1: Machine, h: Hooks, b: Behaviour, prev: Status, k: nat, max: int, st: seq<Status>)
    requires WellFormed(m1) && k < max <= MaxTestAttempts
    requires m1.aborted.None? ==> m1.testAttemptCount == k && m1.current.status == AttemptStatus(prev, ScriptAt(b, k))
    ensures var exp := RecordedStatuses(b, prev, k, max);
            var r := AfterAttempt(m1, h, b, k, max, st);
            r.m.aborted.None? ==>
              && exp != []
              && r.m.current == m1.current.(status := exp[|exp| - 1])
    decreases max - k
  {
    if m1.aborted.None? {
      var m2 := m1.(testAttemptCount := k + 1);
      RecordedStep(b, prev, k, max);
      if m1.current.status == Failed && k + 1 < max {
        var s := ScriptAt(b, k + 1);
        var m1' := Attempt(m2, h, s);
        AfterFailedAttempt(m1, h, b, k, max, st);
        AttemptKeepsFrame(m2, h, s);
        AttemptOrder(m2, h, s);
        LoopLastAfter(m1', h, b, Failed, k + 1, max, st + [Failed]);
      } else {
        AfterLastAttempt(m1, h, b, k, max, st);
      }
    }
  }

  /** The rest of a retry loop counts and reports nothing. */
  lemma {:induction false} LoopQuietAfter(m1: Machine, h: Hooks, b: Behaviour, k: nat, max: int, st: seq<Status>)
    requires WellFormed(m1) && k < max
    ensures var r := AfterAttempt(m1, h, b, k, max, st);
            r.m.counters == m1.counters && r.m.reports == m1.reports && r.m.caseCount == m1.caseCount
    decreases max - k
  {
    if m1.aborted.None? && m1.testAttemptCount < MaxTestAttempts {
      if m1.current.status == Failed && k + 1 < max {
        var m2 := m1.(testAttemptCount := m1.testAttemptCount + 1);
        var s := ScriptAt(b, k + 1);
        AfterFailedAttempt(m1, h, b, k, max, st);
        AttemptKeepsFrame(m2, h, s);
        LoopQuietAfter(Attempt(m2, h, s), h, b, k + 1, max, st + [Failed]);
      } else {
        AfterLastAttempt(m1, h, b, k, max, st);
      }
    }
  }

  /** A retry loop that completes repeats the attempt's calls once per further recorded status. */
  lemma {:induction false} LoopTraceAfter(m1: Machine, h: Hooks, b: Behaviour, prev: Status, k: nat, max: int, st: seq<Status>)
    requires WellFormed(m1) && k < max <= MaxTestAttempts
    requires m1.aborted.None? ==> m1.testAttemptCount == k && m1.current.status == AttemptStatus(prev, ScriptAt(b, k))
    ensures var n := |RecordedStatuses(b, prev, k, max)|;
            var r := AfterAttempt(m1, h, b, k, max, st);
            r.m.aborted.None? ==> n >= 1 && r.m.trace == m1.trace + Repeat(AttemptEvents(h, m1.current.cfg), n - 1)
    decreases max - k
  {
    if m1.aborted.None? {
      var e := AttemptEvents(h, m1.current.cfg);
      var m2 := m1.(testAttemptCount := k + 1);
      RecordedStep(b, prev, k, max);
      if m1.current.status == Failed && k + 1 < max {
        var s := ScriptAt(b, k + 1);
        var m1' := Attempt(m2, h, s);
        var n := |RecordedStatuses(b, Failed, k + 1, max)|;
        AfterFailedAttempt(m1, h, b, k, max, st);
        AttemptKeepsFrame(m2, h, s);
        AttemptOrder(m2, h, s);
        LoopTraceAfter(m1', h, b, Failed, k + 1, max, st + [Failed]);
        if AfterAttempt(m1', h, b, k + 1, max, st + [Failed]).m.aborted.None? {
          assert Repeat(e, n) == e + Repeat(e, n - 1);
          Associative(m1.trace, e, Repeat(e, n - 1));
        }
      } else {
        AfterLastAttempt(m1, h, b, k, max, st);
        assert m1.trace + [] == m1.trace;
      }
    }
  }

  /** Filling the lists after attempt k + 1 over `a` with list k + 1 already filled is filling them after attempt k. */
  lemma FailuresShift(a: seq<seq<FailureInfo>>, a': seq<seq<FailureInfo>>, filled: seq<seq<FailureInfo>>, b: Behaviour, k: nat, n: nat)
    requires |a| == |filled| == MaxTestAttempts && k + 1 < MaxTestAttempts && 0 < n
    requires a' == a[k + 1 := FailuresOf(ScriptAt(b, k + 1))]
    requires forall j :: 0 <= j < MaxTestAttempts ==> filled[j] == if k + 1 < j < k + 1 + n then FailuresOf(ScriptAt(b, j)) else a'[j]
    ensures forall j :: 0 <= j < MaxTestAttempts ==> filled[j] == if k < j < k + 1 + n then FailuresOf(ScriptAt(b, j)) else a[j]
  {
    forall j | 0 <= j < MaxTestAttempts
      ensures filled[j] == if k < j < k + 1 + n then FailuresOf(ScriptAt(b, j)) else a[j]
    {
      assert filled[j] == if k + 1 < j < k + 1 + n then FailuresOf(ScriptAt(b, j)) else a'[j];
      assert a'[j] == if j == k + 1 then FailuresOf(ScriptAt(b, k + 1)) else a[j];
    }
  }

  /**
   * A retry loop of a plain test that completes fills the failure list of
   * each further attempt it runs, and no case slot.
   */
  lemma {:induction false} LoopFailuresAfter(m1: Machine, h: Hooks, b: Behaviour, prev: Status, k: nat, max: int, st: seq<Status>)
    requires WellFormed(m1) && k < max <= MaxTestAttempts && !m1.current.cfg.IsParamCase()
    requires m1.aborted.None? ==> m1.testAttemptCount == k && m1.current.status == AttemptStatus(prev, ScriptAt(b, k))
    requires m1.aborted.None? ==> forall j :: k < j < MaxTestAttempts ==> m1.attemptFailures[j] == []
    ensures var n := |RecordedStatuses(b, prev, k, max)|;
            var r := AfterAttempt(m1, h, b, k, max, st);
            r.m.aborted.None? ==>
              && r.m.results == m1.results
              && forall j :: 0 <= j < MaxTestAttempts ==>
                   r.m.attemptFailures[j] == if k < j < k + n then FailuresOf(ScriptAt(b, j)) else m1.attemptFailures[j]
    decreases max - k
  {
    if m1.aborted.None? {
      var m2 := m1.(testAttemptCount := k + 1);
      RecordedStep(b, prev, k, max);
      if m1.current.status == Failed && k + 1 < max {
        var s := ScriptAt(b, k + 1);
        var m1' := Attempt(m2, h, s);
        var n := |RecordedStatuses(b, Failed, k + 1, max)|;
        AfterFailedAttempt(m1, h, b, k, max, st);
        AttemptKeepsFrame(m2, h, s);
        AttemptOrder(m2, h, s);
        AttemptPlainFailures(m2, h, s);
        LoopFailuresAfter(m1', h, b, Failed, k + 1, max, st + [Failed]);
        var r := AfterAttempt(m1', h, b, k + 1, max, st + [Failed]);
        if r.m.aborted.None? {
          assert m1'.attemptFailures == m1.attemptFailures[k + 1 := FailuresOf(s)] by {
            assert m1.attemptFailures[k + 1] + FailuresOf(s) == FailuresOf(s);
          }
          FailuresShift(m1.attemptFailures, m1'.attemptFailures, r.m.attemptFailures, b, k, n);
        }
      } else {
        AfterLastAttempt(m1, h, b, k, max, st);
      }
    }
  }

  /** The retry loop of a plain test stops the process only when an attempt's failures overflow its list. */
  lemma {:induction false} LoopCompletesAfter(m1: Machine, h: Hooks, b: Behaviour, prev: Status, k: nat, max: int, st: seq<Status>)
    requires WellFormed(m1) && k < max <= MaxTestAttempts && !m1.current.cfg.IsParamCase()
    requires m1.aborted.None? && m1.testAttemptCount == k && m1.current.status == AttemptStatus(prev, ScriptAt(b, k))
    requires forall j :: k < j < MaxTestAttempts ==> m1.attemptFailures[j] == []
    requires AttemptsFit(b, k + 1, k + |RecordedStatuses(b, prev, k, max)|)
    ensures AfterAttempt(m1, h, b, k, max, st).m.aborted.None?
    decreases max - k
  {
    var m2 := m1.(testAttemptCount := k + 1);
    RecordedStep(b, prev, k, max);
    if m1.current.status == Failed && k + 1 < max {
      var exp := RecordedStatuses(b, prev, k, max);
      var rest := RecordedStatuses(b, Failed, k + 1, max);
      var s := ScriptAt(b, k + 1);
      var m1' := Attempt(m2, h, s);
      RecordedStatusesBound(b, Failed, k + 1, max);
      assert |FailuresOf(s)| <= MaxFailures by {
        assert k + 1 <= k + 1 < k + |exp|;
      }
      AfterFailedAttempt(m1, h, b, k, max, st);
      AttemptKeepsFrame(m2, h, s);
      AttemptOrder(m2, h, s);
      AttemptPlainFailures(m2, h, s);
      assert m1'.aborted.None?;
      assert AttemptsFit(b, k + 2, k + 1 + |rest|) by {
        forall j | k + 2 <= j < k + 1 + |rest| ensures |FailuresOf(ScriptAt(b, j))| <= MaxFailures {
          assert k + 1 <= j < k + |exp|;
        }
      }
      LoopCompletesAfter(m1', h, b, Failed, k + 1, max, st + [Failed]);
    } else {
      AfterLastAttempt(m1, h, b, k, max, st);
    }
  }

  /** The first attempt of a plain test's retry loop, from emptied failure lists. */
  lemma PlainFirstAttempt(m: Machine, h: Hooks, b: Behaviour, max: int)
    requires WellFormed(m) && m.aborted.None? && !m.current.cfg.IsParamCase()
    requires m.testAttemptCount == 0 && 0 < max
    requires m.attemptFailures == NoFailures()
    ensures var s := ScriptAt(b, 0);
            var m1 := Attempt(m, h, s);
            && AttemptLoop(m, h, b, 0, max, []) == AfterAttempt(m1, h, b, 0, max, [])
            && AttemptFrame(m, m1)
            && (|FailuresOf(s)| <= MaxFailures ==> m1.aborted.None?)
            && (m1.aborted.None? ==>
                  && m1.current.status == AttemptStatus(m.current.status, s)
                  && m1.trace == m.trace + AttemptEvents(h, m.current.cfg)
                  && m1.results == m.results
                  && m1.attemptFailures == NoFailures()[0 := FailuresOf(s)])
  {
    var s := ScriptAt(b, 0);
    AttemptKeepsFrame(m, h, s);
    AttemptOrder(m, h, s);
    AttemptPlainFailures(m, h, s);
    assert m.attemptFailures[0] + FailuresOf(s) == FailuresOf(s);
  }

  /** The retry loop of a plain test that completes calls the attempt's hooks and body once per recorded status. */
  lemma PlainRunTrace(m: Machine, h: Hooks, b: Behaviour, max: int)
    requires WellFormed(m) && m.aborted.None? && !m.current.cfg.IsParamCase()
    requires m.testAttemptCount == 0 && 0 < max <= MaxTestAttempts
    requires m.attemptFailures == NoFailures()
    ensures var st := RecordedStatuses(b, m.current.status, 0, max);
            var r := AttemptLoop(m, h, b, 0, max, []);
            r.m.aborted.None? ==> r.m.trace == m.trace + Repeat(AttemptEvents(h, m.current.cfg), |st|)
  {
    var s := ScriptAt(b, 0);
    var m1 := Attempt(m, h, s);
    AttemptKeepsFrame(m, h, s);
    AttemptOrder(m, h, s);
    assert AttemptLoop(m, h, b, 0, max, []) == AfterAttempt(m1, h, b, 0, max, []);
    LoopTraceAfter(m1, h, b, m.current.status, 0, max, []);
    if AfterAttempt(m1, h, b, 0, max, []).m.aborted.None? {
      RepeatPrepend(m.trace, AttemptEvents(h, m.current.cfg), |RecordedStatuses(b, m.current.status, 0, max)|);
    }
  }

  /** The retry loop of a plain test that completes fills one failure list per recorded status and no case slot. */
  lemma PlainRunFailures(m: Machine, h: Hooks, b: Behaviour, max: int)
    requires WellFormed(m) && m.aborted.None? && !m.current.cfg.IsParamCase()
    requires m.testAttemptCount == 0 && 0 < max <= MaxTestAttempts
    requires m.attemptFailures == NoFailures()
    ensures var st := RecordedStatuses(b, m.current.status, 0, max);
            var r := AttemptLoop(m, h, b, 0, max, []);
            && |st| <= max
            && (r.m.aborted.None? ==>
                  && r.m.results == m.results
                  && r.m.attemptFailures[..|st|] == AttemptFailuresOf(b, |st|))
  {
    var st := RecordedStatuses(b, m.current.status, 0, max);
    var m1 := Attempt(m, h, ScriptAt(b, 0));
    PlainFirstAttempt(m, h, b, max);
    LoopFailuresAfter(m1, h, b, m.current.status, 0, max, []);
    var r := AttemptLoop(m, h, b, 0, max, []);
    RecordedStatusesBound(b, m.current.status, 0, max);
    if r.m.aborted.None? {
      forall j | 0 <= j < |st| ensures r.m.attemptFailures[..|st|][j] == AttemptFailuresOf(b, |st|)[j] {
        assert r.m.attemptFailures[j] == FailuresOf(ScriptAt(b, j));
      }
    }
  }

  /** Everything the retry loop of a plain test guarantees, from its first attempt. */
  lemma PlainRun(m: Machine, h: Hooks, b: Behaviour, max: int)
    requires WellFormed(m) && m.aborted.None? && !m.current.cfg.IsParamCase()
    requires m.testAttemptCount == 0 && m.current.status == MissingExpectation
    requires 0 < max <= MaxTestAttempts
    requires m.attemptFailures == NoFailures()
    ensures var st := RecordedStatuses(b, MissingExpectation, 0, max);
            var r := AttemptLoop(m, h, b, 0, max, []);
            && 1 <= |st| <= max
            && FinalStatus(st, st[|st| - 1]) == st[|st| - 1]
            && (AttemptsFit(b, 0, |st|) ==> r.m.aborted.None?)
            && (r.m.aborted.None? ==>
                  && r.statuses == st
                  && r.m.testAttemptCount == |st|
                  && r.m.current == m.current.(status := st[|st| - 1])
                  && r.m.counters == m.counters
                  && r.m.reports == m.reports
                  && r.m.results == m.results
                  && r.m.trace == m.trace + Repeat(AttemptEvents(h, m.current.cfg), |st|)
                  && r.m.attemptFailures[..|st|] == AttemptFailuresOf(b, |st|))
  {
    var st := RecordedStatuses(b, MissingExpectation, 0, max);
    var s := ScriptAt(b, 0);
    RecordedStatusesBound(b, MissingExpectation, 0, max);
    FinalIsLastRecorded(b, max);
    var m1 := Attempt(m, h, s);
    PlainFirstAttempt(m, h, b, max);
    LoopRecords(m, h, b, max);
    LoopLastAfter(m1, h, b, MissingExpectation, 0, max, []);
    LoopQuietAfter(m1, h, b, 0, max, []);
    PlainRunTrace(m, h, b, max);
    PlainRunFailures(m, h, b, max);
    if AttemptsFit(b, 0, |st|) {
      assert |FailuresOf(s)| <= MaxFailures by {
        assert 0 <= 0 < |st|;
      }
      LoopCompletesAfter(m1, h, b, MissingExpectation, 0, max, []);
    }
  }

  /** The attester never changes the case count. */
  lemma AttesterKeepsCaseCount(m: Machine, h: Hooks, c: RunConfig, b: Behaviour)
    requires WellFormed(m) && ConfigFits(c)
    ensures Attester(m, h, c, b).caseCount == m.caseCount
  {
    var m0 := m.(current := CurrentTest(c, MissingExpectation), testAttemptCount := 0);
    var max := MaxAttempts(c.attempts);
    if !c.skip && 0 < max && m0.aborted.None? {
      var m1 := Attempt(m0, h, ScriptAt(b, 0));
      AttemptKeepsFrame(m0, h, ScriptAt(b, 0));
      LoopQuietAfter(m1, h, b, 0, max, []);
    }
  }

  /** A skipped configuration runs no user code and is counted as skipped only. */
  lemma AttesterSkipped(m: Machine, h: Hooks, c: RunConfig, b: Behaviour)
    requires WellFormed(m) && ConfigFits(c) && c.skip
    ensures var r := Attester(m, h, c, b);
            && r.counters == m.counters.(skipped := m.counters.skipped + 1)
            && r.trace == m.trace && r.reports == m.reports
            && r.results == m.results && r.attemptFailures == m.attemptFailures
            && r.aborted == m.aborted
  {
  }

  /** The attester on a plain configuration, in terms of its retry loop. */
  lemma AttesterPlainUnfold(m: Machine, h: Hooks, c: RunConfig, b: Behaviour)
    requires WellFormed(m) && !c.IsParamCase() && !c.skip
    requires 0 <= c.attempts <= MaxTestAttempts
    ensures var m0 := m.(current := CurrentTest(c, MissingExpectation), testAttemptCount := 0);
            var run := AttemptLoop(m0, h, b, 0, MaxAttempts(c.attempts), []);
            Attester(m, h, c, b) == if run.m.aborted.Some? then run.m else Tally(run.m, run.statuses)
  {
    var m0 := m.(current := CurrentTest(c, MissingExpectation), testAttemptCount := 0);
    assert m0 == m.(current := CurrentTest(c, MissingExpectation)).(testAttemptCount := 0);
    var max := MaxAttempts(c.attempts);
    var run := AttemptLoop(m0, h, b, 0, max, []);
    if m.aborted.None? && run.m.aborted.None? {
      LoopRecords(m0, h, b, max);
      RecordedStatusesBound(b, MissingExpectation, 0, max);
    }
  }

  /**
   * A plain test with a valid attempt count runs between one and that many
   * attempts, is counted once under its last recorded status, and a failed
   * one is reported with the failures of every attempt.
   */
  lemma AttesterPlain(m: Machine, h: Hooks, c: RunConfig, b: Behaviour)
    requires WellFormed(m) && m.aborted.None? && !c.IsParamCase() && !c.skip
    requires 0 <= c.attempts <= MaxTestAttempts
    requires m.attemptFailures == NoFailures()
    ensures var st := RecordedStatuses(b, MissingExpectation, 0, MaxAttempts(c.attempts));
            var r := Attester(m, h, c, b);
            && 1 <= |st| <= MaxAttempts(c.attempts)
            && (AttemptsFit(b, 0, |st|) ==> r.aborted.None?)
            && (r.aborted.None? ==>
                  && r.current.status == st[|st| - 1]
                  && r.counters == Bump(m.counters, st[|st| - 1])
                  && r.reports == m.reports + PlainReport(st[|st| - 1], c.title, AttemptFailuresOf(b, |st|))
                  && r.trace == m.trace + Repeat(AttemptEvents(h, c), |st|)
                  && r.results == m.results)
  {
    var max := MaxAttempts(c.attempts);
    var m0 := m.(current := CurrentTest(c, MissingExpectation), testAttemptCount := 0);
    AttesterPlainUnfold(m, h, c, b);
    PlainRun(m0, h, b, max);
  }

  /**
   * The slot a case run once leaves behind, from a zeroed slot: FAILED with
   * the attempt's failures when any expectation failed, PASSED when it made
   * expectations and none failed, and still zeroed when it made none.
   */
  function RunOnceSlot(name: string, s: Script): (r: InstanceResult)
    ensures r.status == CaseOutcome(s)
    ensures r.status == Failed ==> r.caseName == name && r.failures == FailuresOf(s) != [] && r.hasStatus
  {
    NoFailuresIff(s);
    if s == [] then EmptyResult
    else if FailuresOf(s) != [] then InstanceResult(name, Failed, FailuresOf(s), true)
    else InstanceResult(name, Passed, [], true)
  }

  /** The attester on a case configuration run once, in terms of its single attempt. */
  lemma AttesterCaseUnfold(m: Machine, h: Hooks, c: RunConfig, b: Behaviour)
    requires WellFormed(m) && m.aborted.None? && c.IsParamCase() && ConfigFits(c)
    requires !c.skip && c.attempts == 0
    ensures var m0 := m.(current := CurrentTest(c, MissingExpectation), testAttemptCount := 0);
            var m1 := Attempt(m0, h, ScriptAt(b, 0));
            var m2 := m1.(testAttemptCount := 1);
            Attester(m, h, c, b)
              == if m1.aborted.Some? then m1
                 else if m1.current.status == MissingExpectation then m2.(results := m2.results[c.body.index := EmptyResult])
                 else m2
  {
    var m0 := m.(current := CurrentTest(c, MissingExpectation), testAttemptCount := 0);
    assert m0 == m.(current := CurrentTest(c, MissingExpectation)).(testAttemptCount := 0);
    var m1 := Attempt(m0, h, ScriptAt(b, 0));
    AttemptKeepsFrame(m0, h, ScriptAt(b, 0));
    assert AttemptLoop(m0, h, b, 0, 1, []) == AfterAttempt(m1, h, b, 0, 1, []);
  }

  /**
   * A case run once, from a zeroed slot and without plain before/after
   * hooks, changes no other slot, no counter and no report, and calls the
   * attempt's hooks once.
   */
  lemma AttesterCaseFrame(m: Machine, h: Hooks, c: RunConfig, b: Behaviour)
    requires WellFormed(m) && m.aborted.None? && c.IsParamCase() && ConfigFits(c)
    requires !c.skip && c.attempts == 0 && !c.hasBefore && !c.hasAfter
    requires m.results[c.body.index] == EmptyResult
    ensures var s := ScriptAt(b, 0);
            var r := Attester(m, h, c, b);
            && (r.aborted.None? <==> |FailuresOf(s)| <= MaxParamResults)
            && (forall j :: 0 <= j < MaxTests && j != c.body.index ==> r.results[j] == m.results[j])
            && r.counters == m.counters && r.reports == m.reports && r.caseCount == m.caseCount
            && r.globalShared == m.globalShared && r.paramCtx == m.paramCtx.(local := Null)
            && r.beforeAllCases == m.beforeAllCases && r.afterAllCases == m.afterAllCases
            && (r.aborted.None? ==> r.trace == m.trace + AttemptEvents(h, c))
  {
    var s := ScriptAt(b, 0);
    var m0 := m.(current := CurrentTest(c, MissingExpectation), testAttemptCount := 0);
    AttesterCaseUnfold(m, h, c, b);
    AttemptKeepsFrame(m0, h, s);
    AttemptOrder(m0, h, s);
    AttemptCaseSlot(m0, h, s);
  }

  /**
   * A case run once, from a zeroed slot and without plain before/after
   * hooks, leaves its own slot with the reference outcome and its failures,
   * under the current case name.
   */
  lemma AttesterCase(m: Machine, h: Hooks, c: RunConfig, b: Behaviour)
    requires WellFormed(m) && m.aborted.None? && c.IsParamCase() && ConfigFits(c)
    requires !c.skip && c.attempts == 0 && !c.hasBefore && !c.hasAfter
    requires m.results[c.body.index] == EmptyResult
    ensures var s := ScriptAt(b, 0);
            var r := Attester(m, h, c, b);
            r.aborted.None? ==>
              && r.results[c.body.index].status == CaseOutcome(s)
              && r.results[c.body.index].failures == FailuresOf(s)
              && r.results[c.body.index] == RunOnceSlot(m.paramCtx.caseName, s)
  {
    var s := ScriptAt(b, 0);
    var m0 := m.(current := CurrentTest(c, MissingExpectation), testAttemptCount := 0);
    AttesterCaseUnfold(m, h, c, b);
    AttemptKeepsFrame(m0, h, s);
    AttemptOrder(m0, h, s);
    AttemptCaseSlot(m0, h, s);
    NoFailuresIff(s);
  }

  // ---------------------------------------------------------------------
  // Parameterized tests
  // ---------------------------------------------------------------------

  /**
   * A parameterized test whose cases run once each, without plain
   * before/after hooks, and whose cases fit their failure lists.
   */
  predicate SimpleCases(d: TestSpec)
  {
    && d.Parameterized?
    && !d.options.skip && d.options.attempts == 0
    && !d.options.hasBefore && !d.options.hasAfter
    && 0 < |d.cases| <= MaxTests
    && forall i :: 0 <= i < |d.cases| ==> |FailuresOf(ScriptAt(d.cases[i].behaviour, 0))| <= MaxParamResults
  }

  /** The reference outcome of every case. */
  function Outcomes(d: TestSpec): (st: seq<Status>)
    requires d.Parameterized?
    ensures |st| == |d.cases|
  {
    seq(|d.cases|, i requires 0 <= i < |d.cases| => CaseOutcome(ScriptAt(d.cases[i].behaviour, 0)))
  }

  /** The slots every case of the test leaves when run once, in case order. */
  function CaseSlots(d: TestSpec): (r: seq<InstanceResult>)
    requires d.Parameterized?
    ensures |r| == |d.cases|
    ensures forall j :: 0 <= j < |d.cases| ==> r[j].status == Outcomes(d)[j]
  {
    seq(|d.cases|, j requires 0 <= j < |d.cases| => RunOnceSlot(d.cases[j].name, ScriptAt(d.cases[j].behaviour, 0)))
  }

  /** The user calls of the cases from case i on. */
  function CaseEvents(h: Hooks, d: TestSpec, i: nat): seq<Event>
    requires d.Parameterized?
    decreases |d.cases| - i
  {
    if i >= |d.cases| then [] else AttemptEvents(h, CaseConfig(d, i)) + CaseEvents(h, d, i + 1)
  }

  /** One step of the generated runner. */
  lemma RunCasesStep(m: Machine, h: Hooks, d: TestSpec, i: nat)
    requires WellFormed(m) && m.aborted.None? && d.Parameterized? && |d.cases| <= MaxTests && i < |d.cases|
    ensures RunCases(m, h, d, i)
              == RunCases(Attester(m.(paramCtx := m.paramCtx.(caseName := d.cases[i].name)), h, CaseConfig(d, i), d.cases[i].behaviour), h, d, i + 1)
  {
  }

  /** What running cases leaves alone: the run completes and counts, reports and registers nothing. */
  predicate CasesQuiet(m: Machine, r: Machine)
  {
    && r.aborted.None?
    && r.counters == m.counters && r.reports == m.reports && r.caseCount == m.caseCount
    && r.afterAllCases == m.afterAllCases
  }

  /** One simple case leaves the runner quiet and the slots after its own empty. */
  lemma AttesterCaseQuiet(m: Machine, h: Hooks, d: TestSpec, i: nat)
    requires WellFormed(m) && m.aborted.None? && SimpleCases(d) && i < |d.cases|
    requires forall j :: i <= j < MaxTests ==> m.results[j] == EmptyResult
    ensures var r := Attester(m, h, CaseConfig(d, i), d.cases[i].behaviour);
            && CasesQuiet(m, r)
            && forall j :: i + 1 <= j < MaxTests ==> r.results[j] == EmptyResult
  {
    AttesterCaseFrame(m, h, CaseConfig(d, i), d.cases[i].behaviour);
  }

  /** The generated runner completes, counts and reports nothing. */
  lemma {:induction false} RunCasesFrame(m: Machine, h: Hooks, d: TestSpec, i: nat)
    requires WellFormed(m) && m.aborted.None? && SimpleCases(d) && i <= |d.cases|
    requires forall j :: i <= j < MaxTests ==> m.results[j] == EmptyResult
    ensures CasesQuiet(m, RunCases(m, h, d, i))
    decreases |d.cases| - i
  {
    if i < |d.cases| {
      var m1 := m.(paramCtx := m.paramCtx.(caseName := d.cases[i].name));
      AttesterCaseQuiet(m1, h, d, i);
      var m2 := Attester(m1, h, CaseConfig(d, i), d.cases[i].behaviour);
      RunCasesStep(m, h, d, i);
      assert RunCases(m, h, d, i) == RunCases(m2, h, d, i + 1);
      RunCasesFrame(m2, h, d, i + 1);
    }
  }

  /** The generated runner calls each case's hooks once, in case order. */
  lemma {:induction false} RunCasesTrace(m: Machine, h: Hooks, d: TestSpec, i: nat)
    requires WellFormed(m) && m.aborted.None? && SimpleCases(d) && i <= |d.cases|
    requires forall j :: i <= j < MaxTests ==> m.results[j] == EmptyResult
    ensures RunCases(m, h, d, i).trace == m.trace + CaseEvents(h, d, i)
    decreases |d.cases| - i
  {
    if i < |d.cases| {
      var m1 := m.(paramCtx := m.paramCtx.(caseName := d.cases[i].name));
      var c := CaseConfig(d, i);
      AttesterCaseFrame(m1, h, c, d.cases[i].behaviour);
      var m2 := Attester(m1, h, c, d.cases[i].behaviour);
      RunCasesStep(m, h, d, i);
      RunCasesTrace(m2, h, d, i + 1);
      Associative(m.trace, AttemptEvents(h, c), CaseEvents(h, d, i + 1));
    } else {
      assert m.trace + [] == m.trace;
    }
  }

  /**
   * The generated runner leaves every case's slot with its reference
   * outcome, its failures and its name, and no other slot changes.
   */
  lemma {:induction false} RunCasesOutcomes(m: Machine, h: Hooks, d: TestSpec, i: nat)
    requires WellFormed(m) && m.aborted.None? && SimpleCases(d) && i <= |d.cases|
    requires forall j :: i <= j < MaxTests ==> m.results[j] == EmptyResult
    ensures var r := RunCases(m, h, d, i);
            forall j :: 0 <= j < MaxTests ==>
              r.results[j] == if i <= j < |d.cases| then CaseSlots(d)[j] else m.results[j]
    decreases |d.cases| - i
  {
    if i < |d.cases| {
      var m1 := m.(paramCtx := m.paramCtx.(caseName := d.cases[i].name));
      var c := CaseConfig(d, i);
      var b := d.cases[i].behaviour;
      AttesterCaseFrame(m1, h, c, b);
      AttesterCase(m1, h, c, b);
      var m2 := Attester(m1, h, c, b);
      assert m2.aborted.None?;
      assert m2.results[i] == CaseSlots(d)[i];
      assert forall j :: 0 <= j < MaxTests && j != i ==> m2.results[j] == m.results[j];
      RunCasesStep(m, h, d, i);
      var r := RunCases(m, h, d, i);
      assert r == RunCases(m2, h, d, i + 1);
      RunCasesOutcomes(m2, h, d, i + 1);
      forall j | 0 <= j < MaxTests
        ensures r.results[j] == if i <= j < |d.cases| then CaseSlots(d)[j] else m.results[j]
      {
        if j == i {
          assert r.results[j] == m2.results[j];
        }
      }
    }
  }

  /**
   * The verdict of a parameterized test from its slots: counted once, a
   * missing one noted, a failed one reported with the number of passed
   * cases and the failed cases, which together make up every case.
   */
  lemma AggregateVerdict(m: Machine, title: string)
    requires WellFormed(m)
    ensures var st := CaseStatuses(m);
            var v := CaseVerdict(st);
            var r := Aggregate(m, title);
            && r == m.(counters := r.counters, reports := r.reports)
            && r.counters == Bump(m.counters, v)
            && |r.reports| == |m.reports| + (if v == Passed then 0 else 1)
            && r.reports[..|m.reports|] == m.reports
            && (v == MissingExpectation ==> r.reports[|m.reports|] == ParamMissingNotice(title))
            && (v == Failed ==>
                  var rep := r.reports[|m.reports|];
                  && rep.ParamFailureReport? && rep.title == title
                  && rep.passedCases == CountStatus(st, Passed)
                  && rep.caseCount == m.caseCount
                  && rep.failedCases == FailedCases(m.results[..m.caseCount])
                  && rep.passedCases + |rep.failedCases| == m.caseCount
                  && forall x :: x in rep.failedCases ==> x.status == Failed)
  {
    var st := CaseStatuses(m);
    CaseVerdictCases(st);
    if CaseVerdict(st) == Failed {
      PassedPlusFailed(st);
      FailedCasesCount(m.results[..m.caseCount]);
    }
  }

  /** The set-up hands the runner zeroed slots, the case count and the set-up calls. */
  lemma CasesSetUpFacts(m: Machine, d: TestSpec)
    requires WellFormed(m) && d.Parameterized? && |d.cases| <= MaxTests
    ensures var r := CasesSetUp(m, d);
            && r.aborted == m.aborted && r.counters == m.counters && r.reports == m.reports
            && r.results == m.results && r.caseCount == |d.cases|
            && r.afterAllCases == d.options.hasAfterAllCases
            && r.trace == m.trace + [ParamInit] + (if d.options.hasBeforeAllCases then [BeforeAllCases] else [])
  {
  }

  /** Slots that hold the reference slots make the case statuses the reference outcomes. */
  lemma StatusesAreOutcomes(m: Machine, d: TestSpec)
    requires WellFormed(m) && d.Parameterized? && m.caseCount == |d.cases|
    requires forall j :: 0 <= j < |d.cases| ==> m.results[j] == CaseSlots(d)[j]
    ensures m.results[..m.caseCount] == CaseSlots(d)
    ensures CaseStatuses(m) == Outcomes(d)
  {
  }

  /** The wrap-up adds the verdict and the after-all-cases call, and zeroes the context, hooks, count and slots. */
  lemma CasesWrapUpFacts(m: Machine, title: string)
    requires WellFormed(m)
    ensures var r := CasesWrapUp(m, title);
            var a := Aggregate(m, title);
            && r.aborted == m.aborted && r.counters == a.counters && r.reports == a.reports
            && r.trace == m.trace + (if m.afterAllCases then [AfterAllCases] else [])
            && r.caseCount == 0 && r.results == EmptyResults()
            && r.paramCtx.shared == Null && r.paramCtx.setData == Null && r.paramCtx.local == Null
            && !r.beforeAllCases && !r.afterAllCases
  {
    AggregateVerdict(m, title);
  }

  /**
   * A parameterized test without cases stops the process right after its
   * init routine: no case, no hook and no verdict.
   */
  lemma ZeroCasesFatal(m: Machine, h: Hooks, d: TestSpec)
    requires WellFormed(m) && d.Parameterized? && |d.cases| == 0
    ensures var r := RunParameterizeTest(m, h, d);
            && r.aborted == Some(NoCases)
            && r.trace == m.trace + [ParamInit]
            && r.counters == m.counters && r.reports == m.reports
  {
  }

  /**
   * A parameterized test whose cases run once each is counted once, under
   * the reference verdict of its case outcomes; a failed one reports how
   * many cases passed and lists the failed ones, which together make up
   * every case; afterwards the shared context, the hooks, the case count
   * and the slots are back to zero.
   */
  lemma ParameterizedVerdict(m: Machine, h: Hooks, d: TestSpec)
    requires WellFormed(m) && m.aborted.None? && SimpleCases(d)
    requires m.results == EmptyResults()
    ensures var r := RunParameterizeTest(m, h, d);
            var v := CaseVerdict(Outcomes(d));
            && r.aborted.None?
            && r.counters == Bump(m.counters, v)
            && |r.reports| == |m.reports| + (if v == Passed then 0 else 1)
            && r.reports[..|m.reports|] == m.reports
            && (v == MissingExpectation ==> r.reports[|m.reports|] == ParamMissingNotice(d.name))
            && (v == Failed ==>
                  var rep := r.reports[|m.reports|];
                  && rep.ParamFailureReport? && rep.title == d.name
                  && rep.passedCases == CountStatus(Outcomes(d), Passed)
                  && rep.caseCount == |d.cases|
                  && rep.failedCases == FailedCases(CaseSlots(d))
                  && rep.passedCases + |rep.failedCases| == |d.cases|
                  && forall x :: x in rep.failedCases ==> x.status == Failed)
            && r.trace == m.trace + [ParamInit]
                          + (if d.options.hasBeforeAllCases then [BeforeAllCases] else [])
                          + CaseEvents(h, d, 0)
                          + (if d.options.hasAfterAllCases then [AfterAllCases] else [])
            && r.caseCount == 0 && r.results == EmptyResults()
            && r.paramCtx.shared == Null && r.paramCtx.setData == Null && r.paramCtx.local == Null
            && !r.beforeAllCases && !r.afterAllCases
  {
    var m3 := CasesSetUp(m, d);
    CasesSetUpFacts(m, d);
    RunCasesFrame(m3, h, d, 0);
    RunCasesTrace(m3, h, d, 0);
    RunCasesOutcomes(m3, h, d, 0);
    var m4 := RunCases(m3, h, d, 0);
    StatusesAreOutcomes(m4, d);
    AggregateVerdict(m4, d.name);
    CasesWrapUpFacts(m4, d.name);
    assert RunParameterizeTest(m, h, d) == CasesWrapUp(m4, d.name);
  }
}

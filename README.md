# Attest engine model

A Dafny model of the core of `attest.h`, the single-header C test library
Attest. The model covers four parts:

- The self-registering list of test descriptors.
- The pre-scan that `main` runs over that list.
- The attempt executor (`attester`), with its hook order and retry loop.
- The routing of every expectation's verdict (`report_success`, `report_failure`).

It also covers the parameterized-test runner and its aggregate verdict, the
run loop with its counters, the exit status, and the rule that fills the
fixed-size text fields of a failure record.

The files:

- `types.dfy`: the table sizes (`ATTEST_MAX_TESTS` 128, `ATTEST_MAX_TEST_ATTEMPTS` 32, 16 failures per attempt, 32 per case, `ATTEST_VALUE_BUF` 128) and the value types.
- `truncation.dfy`: the "measure, then format or write the marker" rule of the expectation macros, and the failure record that `ATTEST_EXPECT` fills.
- `rules.dfy`: pure reference definitions, namely:
  - the status of one attempt;
  - the statuses the retry loop records;
  - the verdict of a parameterized test;
  - what the pre-scan rejects;
  - the exit code;
  - the tree connectors.
- `semantics.dfy`: the engine as functions on `Machine`, a value holding every global of `attest.h:183-215`. There is one function per engine routine. `exit(1)` sets `aborted`, and nothing happens after that.
- `properties.dfy`, `counting.dfy`, `quirks.dfy`: what those functions guarantee, proved against the pure rules.
- `engine.dfy`: the engine in its own imperative form.
  - The globals are the fields of one class, `Attest`. The failure tables are arrays.
  - The registry is a linked list of `TestConfig` objects.
  - Every routine is a method with a `modifies` clause, and its `ensures` ties the new `State()` to the `Semantics` function of the same name. Every property above therefore holds of the methods.
  - `has_status`, `any_instance` and `every_instance` are loops with invariants.
- `scenarios.dfy`: the six tests of `example_basic.c`, one by one and as a whole run.

The `Semantics` functions are the reference definitions the methods are
proved against. Their behaviour is stated by the lemmas in the table below,
so they have no rows of their own.

## Model

| member | source | states |
|---|---|---|
| Engine.TestConfig.constructor | attest.h:873-885 | a new descriptor node holds its descriptor and ends the list |
| Engine.TestRegistry.constructor | attest.h:190 | the registry starts empty and well linked |
| Engine.TestRegistry.Tail | attest.h:229-233 | the walk from the head stops at the last node, the one whose `next` is NULL |
| Engine.TestRegistry.Register | attest.h:221-237 | registering keeps the list linked and acyclic; the earlier nodes keep their order; the new node is last with `next == null`; the descriptors become the old ones plus the new one, so nothing is removed |
| Engine.HasStatus | attest.h:837-845 | `has_status` is true iff the target is among the first `count` statuses |
| Engine.Attest.constructor | attest.h:183-215 | zeroed globals: the state is `Semantics.Initial()` and the registry is empty |
| Engine.Attest.ReportSuccess | attest.h:773-794 | the status becomes PASSED; a case without retries claims its slot only if the slot is unclaimed |
| Engine.Attest.ReportFailure | attest.h:815-831 | the status becomes FAILED; the failure goes to the case's slot or to the current attempt's list; a full list stops the process |
| Engine.Attest.Expect | attest.h:1376-1391 | an expectation routes to `report_success` or `report_failure` |
| Engine.Attest.RunBody | attest.h:294-303 | a body run makes its expectations in order and stops at an abort |
| Engine.Attest.Invoke | attest.h:277-322 | one user call (a hook or the body) appends its event to the trace and changes no global |
| Engine.Attest.FixturesAndBody | attest.h:286-303 | calls `before`, then `before_each_case`, then the body, each only when set |
| Engine.Attest.Prologue | attest.h:266-303 | clears the local pointer; calls the global before-each hook (plain tests only); stops the process for a case that has a plain `before`; then fixtures and body |
| Engine.Attest.Epilogue | attest.h:305-322 | stops the process for a case that has a plain `after`; else calls `after`, frees the local data, then calls `after_each_case` and the global after-each hook |
| Engine.Attest.RunAttempt | attest.h:263-322 | one iteration of the retry loop, up to recording its status |
| Engine.Attest.AttemptStep | attest.h:262-328 | runs attempt k and records its status; the loop stops, or continues exactly as the reference loop from k + 1 |
| Engine.Attest.Retry | attest.h:258-329 | the retry loop leaves the state and the recorded status array that the reference loop gives |
| Engine.Attest.Record | attest.h:324-325 | appends the attempt's status to the status array and counts it |
| Engine.Attest.Tally | attest.h:345-404 | forces MISSING_EXPECTATION if any attempt had none, then bumps one counter and reports |
| Engine.Attest.Resolve | attest.h:331-404 | the attempt-count check, then the case's missing slot or the plain test's tally |
| Engine.Attest.Attester | attest.h:239-405 | the attester's effect is `Semantics.Attester` |
| Engine.Attest.AnyInstance | attest.h:847-855 | true iff some case slot among the first `case_count` holds the status |
| Engine.Attest.EveryInstance | attest.h:857-865 | true iff every case slot among the first `case_count` holds the status |
| Engine.Attest.CountCases | attest.h:446-477 | the passed count equals the number of PASSED slots; the failed list is the FAILED slots in order |
| Engine.Attest.FailedVerdict | attest.h:443-484 | a failed parameterized test bumps `fail_count` and reports the passed count and the failed cases |
| Engine.Attest.Verdict | attest.h:424-484 | the aggregate verdict in the code's order: all PASSED, else any MISSING, else FAILED |
| Engine.Attest.ParamInit | attest.h:950-956 | the init routine sets the case count and the all-cases hooks |
| Engine.Attest.CaseRunner | attest.h:957-973 | the runner sets each case's name and runs the attester on it, in case order |
| Engine.Attest.WrapUp | attest.h:572-584 | the after-all-cases hook; then the context pointers, hooks, case count and slots are zeroed |
| Engine.Attest.RunParameterizeTest | attest.h:407-585 | init; zero cases is fatal; then before-all-cases, the runner, the verdict and the wrap-up |
| Engine.Attest.Prescan | attest.h:589-655 | the error returned is the first configuration error of the registry's descriptors, or none |
| Engine.Attest.ClearAttemptFailures | attest.h:682 | every per-attempt failure list is emptied; nothing else changes |
| Engine.Attest.RunOne | attest.h:676-681 | runs the parameterized runner, or the attester on the plain configuration |
| Engine.Attest.RunStep | attest.h:670-688 | one pass of the run loop: a disabled descriptor is skipped; else run it, clear the tables and add one to `total_tests` |
| Engine.Attest.RunRegistry | attest.h:667-688 | the run loop's effect is `Semantics.RunRegistry` over the registered descriptors |
| Engine.Attest.Run | attest.h:587-692 | `main` up to the summary: pre-scan, global before-all (and its shared pointer), run loop, global after-all |
| Truncation.Clip | attest.h:1177-1179 | formatting into the buffer keeps a prefix shorter than the buffer: the whole text iff it fits, else exactly its first 127 characters |
| Truncation.Store | attest.h:1147-1162 | a label or value field obeys the truncation law: the whole text iff it fits, the marker when it does not, and empty on an encoding error |
| Truncation.SaveMessage | attest.h:1074-1090 | `has_msg` is set iff the measured size is nonzero; the field holds the text, the marker, or the error message |
| Truncation.VerificationText | attest.h:1125-1143 | the text is `NAME(args)` iff that fits the buffer; when it does not, it is `NAME( truncated )` whenever that marked name fits |
| Truncation.StoreExpectedAsWritten | attest.h:1229-1242 | the expected value field as written: its guard measures the actual value |
| Truncation.BuildFailure | attest.h:1376-1391 | the record as the macros fill it: file and line kept; the message per `SAVE_MESSAGE`; the verification text per the token collectors; the labels and the actual value whole when they fit and the marker when not; for two operands the expected value as written (guarded by the actual value's size), for one operand an empty expected label and value and the clipped reason; every text field fits its buffer; an expected value iff there are two operands |
| Truncation.BuildFailureIntended | attest.h:1181-1242 | every label and value field obeys the truncation law: the whole text when it fits, the marker when not |
| Truncation.ExpectedValueCutToPrefix | attest.h:1229-1242 | a 200-character expected value next to a short actual value is stored as a 127-character prefix, not the marker |
| Truncation.ExpectedValueSpuriousMarker | attest.h:1229-1242 | a short expected value next to a 200-character actual value becomes the marker although it fits |
| Truncation.IntendedExpectedValue | attest.h:1229-1242 | for every record, the corrected builder differs from the as-written one only in the expected value; that value obeys the law; and the two agree whenever the actual and expected values are both short or both too long |
| Rules.RecordedStatusesBound | attest.h:258-329 | the loop records at least one status and at most `max_attempts` |
| Rules.OnlyLastNotFailed | attest.h:324-328 | every recorded status except the last is FAILED |
| Rules.StopsEarlyOnlyOnSuccess | attest.h:326-328 | fewer than `max_attempts` attempts only when the last was PASSED or MISSING_EXPECTATION |
| Rules.MissingOnlyFirst | attest.h:262-329 | the status is never reset between attempts, so only the first recorded status can be MISSING_EXPECTATION |
| Rules.FinalIsLastRecorded | attest.h:345-352 | forcing MISSING when an attempt had none always yields the last recorded status |
| Rules.CaseVerdictCases | attest.h:424-445 | PASSED iff every case passed; MISSING iff some case is missing; FAILED iff some failed and none is missing |
| Rules.PassedPlusFailed | attest.h:446-477 | with no missing case, passed plus failed equals the case count |
| Rules.FailedCasesCount | attest.h:450-458 | the failed list holds exactly the FAILED slots, and only those |
| Rules.PrescanFromNone | attest.h:593-655 | the pre-scan from descriptor i passes iff no later descriptor breaks a rule |
| Rules.TooManyTestsRejected | attest.h:594-599 | a registry longer than `ATTEST_MAX_TESTS` is rejected at that index |
| Rules.PrescanAcceptsIff | attest.h:593-655 | the pre-scan accepts iff the registry is bounded, attempts are in 0..32, and titles are present and distinct |
| Rules.PrescanFromSome | attest.h:593-655 | a rejection names a descriptor that breaks a rule, and all descriptors before it pass |
| Rules.PrescanRejectsFirst | attest.h:593-655 | a rejection names the first offending descriptor, with its reason |
| Rules.ExitCode | attest.h:770 | the exit code is 0 or 1, and 0 iff `fail_count` and `empty_count` are both zero |
| Rules.ConnectorFor | attest.h:381-388 | the leaf glyph goes to the last item only |
| Properties.NoFailuresIff | attest.h:1376-1391 | a body records no failure iff none of its expectations fails |
| Properties.ExpectFrame | attest.h:815-831 | an expectation changes only the status, the failure tables and the slots; it aborts only on overflow |
| Properties.RunBodyFrame | attest.h:815-831 | the same for a whole body run |
| Properties.RunBodyStatus | attest.h:773-831 | a body run leaves the status its last expectation wrote, or the inherited one |
| Properties.RunBodyPlainFailures | attest.h:826-830 | in a plain test a body's failures are appended to the current attempt's list; no slot changes; it aborts iff the list overflows |
| Properties.ExpectCaseSlot | attest.h:773-831 | in a case, an expectation changes only that case's slot |
| Properties.RunBodyCaseSlot | attest.h:773-831 | in a case: any failure makes the slot FAILED with the failures appended; a pass claims an unclaimed slot only without retries; it aborts iff the slot's list overflows |
| Properties.PrologueEffect | attest.h:271-303 | the misplaced-before check precedes every user call; otherwise the calls are the prologue events in order |
| Properties.EpilogueEffect | attest.h:305-322 | the misplaced-after check precedes every call after the body |
| Properties.AttemptKeepsFrame | attest.h:262-329 | an attempt changes nothing but the trace, the status, the tables and the slots; it aborts only for a misplaced hook or an overflow |
| Properties.AttemptOrder | attest.h:266-322 | a completed attempt makes exactly the attempt's calls in order and leaves the body's status |
| Properties.AttemptPlainFailures | attest.h:826-830 | a plain attempt appends its body's failures to its own list |
| Properties.AttemptCaseSlot | attest.h:262-329 | a case attempt changes the case's slot as its body run does |
| Properties.LoopRecordsAfter | attest.h:262-329 | the loop records exactly the reference statuses and counts them in `test_attempt_count` |
| Properties.LoopRecords | attest.h:262-329 | the same, from the first attempt |
| Properties.LoopLastAfter | attest.h:262-329 | a completed loop ends on the configuration it ran and on the last recorded status |
| Properties.LoopQuietAfter | attest.h:262-329 | the loop counts and reports nothing |
| Properties.LoopTraceAfter | attest.h:262-329 | a completed loop repeats the attempt's calls once per recorded status |
| Properties.LoopFailuresAfter | attest.h:262-329 | a completed plain loop fills each further attempt's failure list with that attempt's failures |
| Properties.LoopCompletesAfter | attest.h:262-329 | a plain loop whose attempts fit their lists does not abort |
| Properties.PlainRun | attest.h:262-329 | everything above for a plain test's retry loop |
| Properties.AttesterKeepsCaseCount | attest.h:239-405 | the attester never changes `case_count` |
| Properties.AttesterSkipped | attest.h:253-256 | a skipped configuration runs no user code and only raises `skip_count` |
| Properties.AttesterPlain | attest.h:239-405 | a plain test runs 1..max attempts; it is counted once under its last recorded status; a FAIL is reported with every attempt's failures; it does not abort when the attempts fit |
| Properties.AttesterCaseFrame | attest.h:331-343 | for cases run once (`attempts == 0`): the case changes no other slot, no counter and no report |
| Properties.RunOnceSlot | attest.h:773-831 | the reference slot of a case run once: its status is the case outcome, and a FAILED slot holds the case's name and its nonempty failures |
| Properties.AttesterCase | attest.h:331-343 | for cases run once (`attempts == 0`): the case's own slot becomes exactly the reference slot, with its outcome, failures and name |
| Properties.RunCasesFrame | attest.h:957-974 | for cases run once (`SimpleCases`): the runner completes, and counts and reports nothing |
| Properties.RunCasesTrace | attest.h:957-974 | for cases run once (`SimpleCases`): the runner makes each case's calls once, in case order |
| Properties.RunCasesOutcomes | attest.h:957-974 | for cases run once (`SimpleCases`): every case's slot ends as its reference slot (outcome, failures, name), and no other slot changes |
| Properties.AggregateVerdict | attest.h:424-484 | counted once under the reference verdict; a FAIL reports the passed count and exactly the FAILED slots among the first `case_count`, in order, and passed + failed == `case_count` |
| Properties.ZeroCasesFatal | attest.h:409-414 | a parameterized test without cases stops the process after init, with no case, hook or verdict |
| Properties.ParameterizedVerdict | attest.h:407-585 | for cases run once (`SimpleCases`), the whole parameterized test: the verdict rule; the report, whose failed list is the FAILED reference slots in case order, each with its name and failures; passed + failed == `case_count`; the call order; and everything reset afterwards |
| Counting.LoopKeepsCounters | attest.h:262-329 | the retry loop changes no counter |
| Counting.AttesterCounts | attest.h:239-405 | skip bumps only `skip_count`; a case counts nothing; a plain test bumps exactly one of pass/fail/empty, per its final status |
| Counting.RunCasesCounts | attest.h:957-974 | the runner counts only skipped cases |
| Counting.ParameterizedCounts | attest.h:424-445 | a completed parameterized test adds exactly one verdict after its skipped cases |
| Counting.RunOneCounts | attest.h:676-681 | a completed descriptor settles 1 + its skipped cases and leaves `total_tests` alone |
| Counting.DisabledInvisible | attest.h:671-674 | the run loop over a registry equals the run loop over its enabled descriptors |
| Counting.RunRegistryCounts | attest.h:670-688 | `total_tests` grows by the number of enabled descriptors; the verdicts grow by those plus the skipped cases |
| Counting.RunRejects | attest.h:593-655 | a rejected registry aborts with the first reason, before any call and with no counter or report |
| Counting.RunCounts | attest.h:587-692 | the same counts for a whole run over a well-configured registry |
| Counting.ExitStatusIff | attest.h:770 | the exit status is 0 or 1, and 0 iff nothing aborted and fail and empty are both zero |
| Quirks.RunCasesSkipped | attest.h:253-256 | with `.skip`, every case is only counted as skipped |
| Quirks.SkippedParameterized | attest.h:424-442 | a skipped parameterized test counts every case as skipped, then is counted and noted as missing expectations |
| Quirks.AttesterRetriedCase | attest.h:779-793 | in a case with retries a pass never claims the slot, which stays zeroed |
| Quirks.RunCasesRetried | attest.h:779-793 | so every such slot stays zeroed |
| Quirks.RetriedCasesCountedMissing | attest.h:424-442 | a parameterized test with retries whose cases all pass is counted as missing expectations |
| Quirks.RetriedLoopKeepsFailed | attest.h:262-329 | once a retried case's slot is FAILED, the rest of the loop keeps it FAILED, with its name and earlier failures, and never carries MISSING_EXPECTATION |
| Quirks.RetryNeverRescuesCase | attest.h:262-343 | for any attempt count > 0, a case whose first attempt fails ends FAILED, with that attempt's failures, whatever later attempts do, and counts and reports nothing |
| Quirks.NegativeCaseAttempts | attest.h:331-334 | a negative `attempts` option of a parameterized test passes the pre-scan, runs no attempt, and then trips the attempt-count check |
| Scenarios.EqFailureRecords | example_basic.c:26-57 | the failing `EXPECT_EQ` checks at lines 26, 37, 47 and 57 fill their records, as the macros are written, with the whole texts and no message |
| Scenarios.PassingTest | example_basic.c:6-11 | `can_add_two_numbers` runs once, bumps only `pass_count` and prints nothing |
| Scenarios.EmptyTest | example_basic.c:17-19 | the empty body bumps only `empty_count` and adds one missing-assertion notice |
| Scenarios.FailingTest | example_basic.c:24-27 | the 3 vs 88 test bumps only `fail_count` and is reported with its one record |
| Scenarios.SkippedTest | example_basic.c:35-38 | the skipped test calls nothing and bumps only `skip_count` |
| Scenarios.DisabledTest | example_basic.c:45-48 | the run loop over the disabled test followed by any registry equals the run loop over that registry |
| Scenarios.RetriedTest | example_basic.c:55-58 | the always-failing test runs three attempts, bumps `fail_count`, and is reported with three records |
| Scenarios.BasicExampleAccepted | example_basic.c:6-58 | the pre-scan accepts the file's registry |
| Scenarios.BasicExampleRun | example_basic.c:6-58 | the run loop over the file adds total 5, passed 1, failed 2, skipped 1, empty 1, and the three reports in order |
| Scenarios.BasicExampleSummary | example_basic.c:6-58 | `main` over the file ends with counters (5, 1, 2, 1, 1), the three reports and exit status 1 |

## Left out

- Printing is not modelled. Colours, layouts and `report_summary`'s lines are left out. A report is a `Report` value carrying what the line prints (title, attempt failures, passed count, failed cases). `display_failures`, `report_failed_attempt` and the tree-connector layout of a failure block are left out, apart from the connector rule (`Rules.ConnectorFor`).
- `exit(1)` is the `aborted` field. Every later step is skipped, and the exit status is 1 (`Semantics.ExitStatus`). `report_summary`'s own `exit` is modelled as `Rules.ExitCode`.
- The `__attribute__((constructor))` calls that register tests before `main` are not modelled. A registry is the sequence of descriptors passed to `Register`. The global hook setters are a `Hooks` value given to the engine.
- User code is not modelled. A hook or a body call is an `Event` in the trace. A body is the `Behaviour` of its expectations: attempt k makes script k, and no expectations past the listed scripts. The pointers a hook stores (`void*`) are opaque numbers. `malloc`/`free` of the local data is the `FreeLocal` event. `Engine.Attest.Invoke` stands for every hook and body call. The `case_data` pointer the runner sets for each case is not modelled.
- `snprintf` is abstract. A formatted text is its characters, or an encoding error. `COUNT_ARG` message dispatch, `%lld`/`%p` rendering and the relation/condition reason texts are inputs.
- Writing past a fixed table is undefined behaviour in C. It is modelled as an `Overflow` abort. This covers a 17th failure in an attempt, a 33rd in a case, a case table over 128, and an attempt status past 32.
- A case table over 128 aborts right after the init routine. The C code would still call `before_all_cases` (`attest.h:418-420`) and run cases 0 to 127 (`attest.h:959-972`) before it reaches past the table. Those calls are not modelled.
- `.disabled = true` given to `PARAM_TEST` has no effect. It lands only in each case's configuration, which `attester` never reads for `disabled`. The registered descriptor carries only the title, the runner and the init routine (`attest.h:976-982`), so such a test runs in full. The model matches this by giving case options no `disabled` field.
- The invalid-body branch of `attester` (`attest.h:300-303`) cannot be reached, because exactly one body kind is set. The unreachable `default` branches of the verdict switches are left out for the same reason.
- Engine methods other than the reporters require `aborted.None?`. After `exit(1)` no C code runs, so calling them in that state is not a situation the program has.
- Properties.ParameterizedVerdict: proved only for cases that run once (`attempts == 0`), without `.skip` and without plain before/after hooks, whose failures fit their slot. Other option sets are covered only in part:
  - `.skip` by `Quirks.SkippedParameterized`;
  - retries by `Quirks.RetriedCasesCountedMissing` (no first attempt fails) and `Quirks.RetryNeverRescuesCase` (one case whose first attempt fails);
  - plain before/after and negative attempts by the aborting checks.
  The verdict of a retried test that mixes such cases is not stated as one lemma.
- Properties.AttesterCase: only for a case run once (`attempts == 0`) from a zeroed slot, without plain before/after hooks.
- Properties.AttesterCaseFrame: same restriction as `Properties.AttesterCase`.
- Properties.RunCasesFrame: only under `SimpleCases`: every case run once, no `.skip`, no plain before/after, failures that fit.
- Properties.RunCasesTrace: same restriction as `Properties.RunCasesFrame`.
- Properties.RunCasesOutcomes: same restriction as `Properties.RunCasesFrame`.
- Properties.AttesterPlain: assumes emptied failure lists and an attempt count in 0..32, which the run loop's memset and the pre-scan guarantee.
- Scenarios.BasicExampleRun: states the counters and reports, not the trace, of the whole file. The per-test lemmas state each test's trace.
- A parameterized test with one failed and one empty case is MISSING, not FAILED. `attest.h:428-431` tests "every case passed" first and "any case missing" second (`Rules.CaseVerdictCases`).

## Findings

| source | as written | input that shows it | evidently intended | confidence | as-written member | corrected member |
|---|---|---|---|---|---|---|
| attest.h:1234 | `SAVE_TWO_VALUE` decides between the expected text and the marker by testing `actual_value_size < ATTEST_VALUE_BUF` | `EXPECT_EQ` whose actual value prints as "3" and whose expected value prints as 200 characters stores a 127-character prefix; with a 200-character actual and a short expected value it stores "(truncated)" | the test should use `expected_value_size`, as every other field's guard does | high, not executed | Truncation.ExpectedValueCutToPrefix | Truncation.IntendedExpectedValue |

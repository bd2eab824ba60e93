# A verified model of the task-maker evaluation core

task-maker builds and runs the evaluation of a programming-contest task.
It parses the task description, compiles the sources, generates and
validates the testcase inputs, and makes the official outputs. It then
evaluates every solution on every testcase through a sandboxed executor
and turns the results into testcase verdicts and subtask and task scores.
This project models the bookkeeping and graph-building core of that
program in Dafny and proves properties of the model.

One module per source file:

- `Common` (common.dfy) holds shared values: the optional value, the outcome of one sandboxed execution, the subtask score modes and decimal text of integers.
- `Proto` (proto.dfy) holds the request and response messages exchanged with an executor.
- `SortedMap` (sorted_map.dfy) is a `std::map` keyed by strings. It is an association list kept in lexicographic key order, so iteration order is part of the model.
- `Uis` (uis.dfy) covers `UIInterface` in python/uis/__init__.py: compilation statuses, statement compilation with its dependency counter, the warning and error lists, `result_to_str` and `get_max_sol_len`.
- `IoiUi` (ioi_ui.dfy) covers python/uis/ioi.py:
  - `SolutionStatus` and `CustomCheckerState` as classes whose methods are proved equal to pure step functions;
  - subtask and task scores as a function of the testcase scores;
  - the `add_*` callbacks of `IOIUIInterface` as methods of binding objects that the scheduler would call.
- `IoiExecution` (ioi_execution.dfy) covers `generate_inputs` and `evaluate_solutions` in python/formats/ioi_format/execution.py. A builder class appends abstract execution records and fills the input, output and validation maps. Its methods are proved equal to folds, and graph-shape lemmas are proved about the folds. A source is identified by its path: the `prepared` flag that execution.py:74 keeps on each source-file object is a set of prepared paths. This matches the source only when the parser builds one source-file object per path; that parser is not part of this model.
- `IoiFormat` (ioi_format.dfy) covers python/formats/ioi_format.py:
  - the GEN-file parser, over the file's lines;
  - `load_testcases`, over the numbers of the input files found;
  - `get_options`, task creation, solution-name rewriting, `get_checker` and the input and output file names.
- `IoiFormatWiring` (ioi_format_wiring.dfy) covers the promise-based `generate_inputs` and `evaluate_solutions` of the same file. The callbacks that hand files over are resolved either with the loop variables' final values (as written) or with their values at registration (as intended). The dictionaries of inputs, outputs and validations are lists of (testcase number, value) pairs; a lemma that needs the numbers distinct, as a Python dict keeps them, says so with `IoiFormat.DistinctKeys`.
- `SanityChecks` (sanity_checks.dfy) covers python/sanity_checks/ioi.py. The statement checks work on the regular-expression matches, already extracted. Also modelled:
  - the score-sum and official-solution checks;
  - the checker callback on the sample cases;
  - the sol/ and att/ folder rules.
- `CoreExecution` (core_execution.dfy) covers `Execution` in cpp/core/execution.cpp:
  - the output registry;
  - the dependency and product lists;
  - the cache-or-execute decision with its error mapping;
  - the request built in `Run` and the propagation of produced hashes.
- `LegacyExecution` (legacy_execution.dfy) covers the older `Execution` in core/execution.cpp.
- `LocalExecutor` (local_executor.dfy) covers executor/local_executor.cpp:
  - the `ThreadGuard` slot counter;
  - the file-name rules of `PrepareFile` and `RetrieveFile`;
  - `MaybeRequestFile`;
  - the steps of `Execute`.
- `DetectExe` (detect_exe.dfy) covers the magic-number detection in python/detect_exe.py.
- `SilentUi` (silent_ui.dfy) covers the dictionary store of python/uis/silent_ui.py.
- `TmsocialMetadata` (tmsocial_metadata.dfy) covers the results-table description in python/formats/tmsocial_metadata.py.

Everything outside the core is a parameter of the model:

- the filesystem, the sandbox, the executor, the cache contents, the caller's file callback and the scheduler;
- Python's `float()` parsing;
- the validator's argument builder;
- the hash function.

A Python exception is modelled as an error value. When the exception is raised after some state has already changed, the method returns a flag or an error and states the partial update.

Several places in the source behave differently from what the surrounding code evidently intends. Each is modelled as written, beside a corrected variant, and listed under "## Findings". In `generate_inputs` of python/formats/ioi_format.py:267, the description of a static input adds an integer to a string; that raises `TypeError`, and it is modelled as the error it is (`IoiFormatWiring.StaticFirstRaises`).

Scores are the source's floats, modelled as `real`. The model computes with them by comparison, minimum, maximum, addition (the subtask sums, the task score and the sanity checks' totals), division by a count (the mean) and multiplication. Real arithmetic is exact, so the rounding of floating-point sums is not modelled.

## Model

| member | source | states |
|---|---|---|
| Uis.ResultToStr | python/uis/__init__.py:466-498 | no text exactly for the status the function has no branch for (its ValueError); otherwise a non-empty text; a time, wall-time or memory limit text ends in " (killed)" exactly when the process was killed; an internal error shows its message after "Internal error: " |
| Uis.ResultToStrDeterminesStatus | python/uis/__init__.py:466-498 | two results with the same text have the same status: no two branches share a text |
| Uis.MaxOf | python/uis/__init__.py:501-511 | the largest of a set of lengths, in the set, and 0 for the empty set (`max(..., default=0)`) |
| Uis.UIInterface.constructor | python/uis/__init__.py:59-71 | the interface starts with no non-solutions, solutions, statements, warnings or errors |
| Uis.UIInterface.MaxSolLen | python/uis/__init__.py:501-511 | `get_max_sol_len` bounds the names of solutions, non-solutions, statements and statement dependencies, and is one of those lengths or 0 |
| Uis.UIInterface.AddWarning | python/uis/__init__.py:195-200 | exactly one message more among the warnings; nothing else changes |
| Uis.UIInterface.AddError | python/uis/__init__.py:202-207 | exactly one message more among the errors; nothing else changes |
| Uis.UIInterface.AddNonSolution | python/uis/__init__.py:84-110 | a file without compilation is DONE at once, one with compilation waits; only that entry changes |
| Uis.UIInterface.NonSolutionCompilationStarted | python/uis/__init__.py:95-97 | the file's status becomes COMPILING; nothing else changes |
| Uis.UIInterface.NonSolutionCompilationDone | python/uis/__init__.py:99-106 | SUCCESS makes the file DONE; any other status makes it FAILURE and adds exactly the error "Failed to compile " and its name |
| Uis.UIInterface.AddSolution | python/uis/__init__.py:112-138 | as for a non-solution, in the solutions map |
| Uis.UIInterface.SolutionCompilationStarted | python/uis/__init__.py:123-125 | the solution's status becomes COMPILING; nothing else changes |
| Uis.UIInterface.SolutionCompilationDone | python/uis/__init__.py:127-134 | a failed solution adds a warning "Failed to compile: " and its name, not an error |
| Uis.UIInterface.AddStatement | python/uis/__init__.py:140-162 | the statement is registered with a counter of finished dependencies at 0 |
| Uis.UIInterface.StatementCompilationStarted | python/uis/__init__.py:146-147 | the statement becomes COMPILING |
| Uis.UIInterface.StatementCompilationDone | python/uis/__init__.py:149-158 | the result is stored; SUCCESS and RETURN_CODE both make the statement DONE; any other status makes it FAILED with one warning |
| Uis.UIInterface.StatementDepStarted | python/uis/__init__.py:167-170 | the entry becomes DepStartStep of itself: as written COMPILING_DEPS and that dependency RUNNING, whatever the statement was; as intended a FAILED statement stays FAILED |
| Uis.UIInterface.StatementDepDone | python/uis/__init__.py:172-190 | the statement becomes DepDoneStep of itself; a failed dependency adds one warning naming it |
| Uis.DepDoneStep | python/uis/__init__.py:172-190 | the shared counter goes up whatever the outcome; only that dependency changes; COMPILED_DEPS only after a success once every dependency is counted; a failure fails the dependency and the statement, a failed statement stays failed, and a success before the last count leaves the status unchanged |
| Uis.ReplayDeps | python/uis/__init__.py:162-193 | the end callbacks in arrival order, every start having come before them, keep the dependency count and add one to the counter each |
| Uis.ReplayDepsOutcome | python/uis/__init__.py:172-190 | when every dependency has started before the first one ends, whatever order the ends arrive in: any failed dependency, or an earlier failure, leaves the statement FAILED; all successes on a statement not failed end in COMPILED_DEPS |
| Uis.DepStartStep | python/uis/__init__.py:167-170 | the started dependency becomes RUNNING and nothing else of the entry changes but its status; as written the status becomes COMPILING_DEPS, as intended it stays FAILED exactly when it was FAILED |
| Uis.Replay | python/uis/__init__.py:162-193 | start and end callbacks in arrival order keep the dependency count and add one to the counter per end callback |
| Uis.StartClearsFailure | python/uis/__init__.py:167-190 | as written, a failed end, then a start, then a successful end leave a two-dependency statement COMPILED_DEPS; as intended it stays FAILED |
| Uis.ReplayFailureSticks | python/uis/__init__.py:167-190 | as intended, after a failed dependency or from a FAILED statement, any mix of start and end callbacks leaves it FAILED |
| Uis.ReplayNoFailure | python/uis/__init__.py:167-190 | as intended, a statement that was not FAILED and sees no failed dependency never becomes FAILED |
| Uis.ReplayOutcomeIntended | python/uis/__init__.py:167-190 | as intended, over start and end callbacks in any order that bring the counter to the number of dependencies: any failure ends FAILED; all successes, ending on an end callback, end COMPILED_DEPS |
| IoiUi.CheckAllSuccess | python/uis/ioi.py:157-158 | true exactly when every slot holds a successful result; always an answer once every slot is filled; false only with a filled slot that failed; no answer where an empty slot is reached first |
| IoiUi.JoinResults | python/uis/ioi.py:298 | the joined text exists exactly when every slot is filled and has a text |
| IoiUi.SolutionMessage | python/uis/ioi.py:292-298 | the checker's outcome when every evaluation succeeded; the joined result texts when all are filled and one failed; no message only when not every evaluation succeeded |
| IoiUi.WithMessage | python/uis/ioi.py:172 | the message is replaced by the solution message exactly when one can be computed, and the step raises exactly when none can; nothing else changes |
| IoiUi.EvalStep | python/uis/ioi.py:141-172 | the slot receives the result; with a slot still empty nothing else changes; all successes give SOLVED unless a checker verdict is already there, with no subtask score computed; a failure gives FAILED, checked, and a subtask score recomputation |
| IoiUi.DefaultCheckStep | python/uis/ioi.py:174-197 | the testcase is checked and records the checker result; SUCCESS gives ACCEPTED with score 1, RETURN_CODE gives WRONG_ANSWER with score 0, any other status gives FAILED with the score kept; the subtask score is recomputed unless the message raises |
| IoiUi.CheckerFailure | python/uis/ioi.py:214-248 | a checker verdict that is an error makes the testcase FAILED with its score and results kept, and checked unless the message raises |
| IoiUi.CustomCheckStep | python/uis/ioi.py:199-263 | an already checked testcase only records the checker result; a failed checker, non-numeric output or a score outside [0, 1] give FAILED (the latter two with one error); a valid score is stored with ACCEPTED iff it is 1, WRONG_ANSWER iff 0, PARTIAL otherwise, and the checker outcome is the stripped error output when the output is non-empty and the fixed verdict text otherwise |
| IoiUi.MinReal | python/uis/ioi.py:272 | `min(scores)`: an element no greater than any other |
| IoiUi.MaxReal | python/uis/ioi.py:274 | `max(scores)`: an element no smaller than any other |
| IoiUi.SumRealsBounds | python/uis/ioi.py:276 | a sum of values in [0, 1] lies between 0 and their number |
| IoiUi.MeanBounds | python/uis/ioi.py:276 | the mean of values in [0, 1] is in [0, 1] |
| IoiUi.Aggregate | python/uis/ioi.py:269-278 | MIN is the least score, MAX the greatest, SUM the mean; with scores in [0, 1] the result is in [0, 1] |
| IoiUi.SubtaskScore | python/uis/ioi.py:279 | the aggregate times the maximum score lies within the subtask's range |
| IoiUi.ScaledInRange | python/uis/ioi.py:279 | a fraction in [0, 1] times the maximum score is within the subtask's range |
| IoiUi.AggregateScaled | python/uis/ioi.py:269-279 | the scaled aggregate of fractions is within the subtask's range |
| IoiUi.ClassifyMeaning | python/uis/ioi.py:282-287 | a subtask is ACCEPTED exactly when every testcase scored 1, and REJECTED only with a zero score |
| IoiUi.WithoutGenAllCorrect | tests/without_gen.py:9-10 | four correct testcases under SUM give 100 of 100 and ACCEPTED |
| IoiUi.WithoutGenHalfCorrect | tests/without_gen.py:11-13 | two correct testcases of four give 50 under SUM and PARTIAL, and 0 under MIN |
| IoiUi.WithoutGenNoneCorrect | tests/without_gen.py:14-15 | no correct testcase gives 0 and REJECTED |
| IoiUi.SolutionStatus.WithoutGenRecomputed | python/uis/ioi.py:265-289 | through the recomputation itself: once all four testcases of a SUM subtask worth 100 are checked, scores 1,1,1,1 give 100 and ACCEPTED, 1,1,0,0 give 50 and PARTIAL, 0,0,0,0 give 0 and REJECTED (tests/without_gen.py:9-15) |
| IoiUi.Scores | python/uis/ioi.py:269 | one score per testcase of the subtask, in the subtask's order |
| IoiUi.TaskScoreBounds | python/uis/ioi.py:281 | the task score lies between 0 and the sum of the subtasks' maxima |
| IoiUi.SumScoresUpdate | python/uis/ioi.py:280-281 | replacing one subtask's score changes the task score by exactly the difference |
| IoiUi.CustomCheckerState.constructor | python/uis/ioi.py:85-90 | no piece stored and no callback registered |
| IoiUi.CustomCheckerState.SetResult | python/uis/ioi.py:92-94 | stores the result, keeps the other pieces, and fires exactly when all four pieces are there |
| IoiUi.CustomCheckerState.SetStdout | python/uis/ioi.py:96-98 | stores the output, keeps the other pieces, and fires exactly when all four pieces are there |
| IoiUi.CustomCheckerState.SetStderr | python/uis/ioi.py:100-102 | stores the error output, keeps the other pieces, and fires exactly when all four pieces are there |
| IoiUi.CustomCheckerState.SetCallback | python/uis/ioi.py:104-115 | registers the callback, keeps the pieces, and fires exactly when all are there |
| IoiUi.SolutionStatus.Valid | python/uis/ioi.py:124-139 | the invariant: one record per testcase scored in [0, 1], one score per subtask within its range, and the task score the sum of the subtask scores |
| IoiUi.SolutionStatus.constructor | python/uis/ioi.py:124-139 | every subtask score is 0 and WAITING, every testcase record fresh, the task score 0 |
| IoiUi.SolutionStatus.Recomputed | python/uis/ioi.py:265-287 | unchanged until every testcase of the subtask is checked; then only that subtask changes, to its aggregate score, always in range |
| IoiUi.SolutionStatus.RecomputedMeaning | python/uis/ioi.py:265-287 | the recomputed score is in range; ACCEPTED exactly when every testcase scored 1; REJECTED only with score 0 |
| IoiUi.SolutionStatus.ComputeStScore | python/uis/ioi.py:265-287 | the new scores are Recomputed of the old state, with the invariant (task score the sum) kept |
| IoiUi.SolutionStatus.Apply | python/uis/ioi.py:152-171 | installs a step's testcase record and recomputes the subtask exactly when the step asks, keeping the invariant |
| IoiUi.SolutionStatus.UpdateEvalResult | python/uis/ioi.py:141-172 | marks the subtask RUNNING and applies EvalStep; false where the source raises |
| IoiUi.SolutionStatus.UpdateDefaultCheckResult | python/uis/ioi.py:174-197 | applies DefaultCheckStep and recomputes the subtask |
| IoiUi.SolutionStatus.UpdateCustomCheckResult | python/uis/ioi.py:199-263 | applies CustomCheckStep, and its error (if any) is the one error added to the interface; the subtask score, result and total are recomputed as `_compute_st_score` does |
| IoiUi.SolutionStatus.StartEvaluation | python/uis/ioi.py:391-394 | the testcase gets exactly `count` empty slots; scores unchanged |
| IoiUi.SolutionStatus.SetTestcaseStatus | python/uis/ioi.py:402-403 | only that testcase's status changes |
| IoiUi.SlotOf | python/uis/ioi.py:397-408 | the slot an on_done callback writes: its own index as intended, the last index as written |
| IoiUi.Fill | python/uis/ioi.py:391-408 | one slot per evaluation process |
| IoiUi.IntendedFill | python/uis/ioi.py:397-408 | as intended, slot i holds result i once callback i has fired |
| IoiUi.LateFill | python/uis/ioi.py:397-408 | as written, only the last slot is ever filled |
| IoiUi.LateBindingNeverFills | python/uis/ioi.py:397-408 | with two or more processes, the intended slots all fill while as written the first stays empty |
| IoiUi.LateBoundEvalNeverDecides | python/uis/ioi.py:406-408 | as written, a result never decides a testcase whose first slot is empty |
| IoiUi.EvaluationBinding.constructor | python/uis/ioi.py:395-396 | not started and not skipped |
| IoiUi.EvaluationBinding.OnStart | python/uis/ioi.py:399-404 | the first start of a process not skipped makes the testcase SOLVING; nothing else changes |
| IoiUi.EvaluationBinding.OnSkip | python/uis/ioi.py:410-414 | the testcase becomes SKIPPED and later starts leave it so |
| IoiUi.EvaluationBinding.OnDone | python/uis/ioi.py:406-408 | as written: EvalStep on the slot named by the loop variable after the loop; that subtask is marked running and, when the step asks for it, its score and result are recomputed with the other subtasks' untouched |
| IoiUi.EvaluationBinding.OnDoneIntended | python/uis/ioi.py:406-408 | as intended: EvalStep on the process's own slot, with the same running mark and recomputation |
| IoiUi.CheckingBinding.constructor | python/uis/ioi.py:423-454 | an empty checker state, whose callback is registered exactly when the task has a custom checker |
| IoiUi.CheckingBinding.OnStart | python/uis/ioi.py:426-428 | the testcase becomes CHECKING; nothing else changes |
| IoiUi.CheckingBinding.OnChecked | python/uis/ioi.py:446-448 | applies CustomCheckStep with the gathered pieces and recomputes the subtask |
| IoiUi.CheckingBinding.FireIfReady | python/uis/ioi.py:112-115 | nothing changes (scores and subtask results included) when the state is incomplete; otherwise the verdict is applied and the subtask recomputed |
| IoiUi.CheckingBinding.DeliverResult | python/uis/ioi.py:432-436 | stores the result; without the output no verdict yet and scores and subtask results stay as they were, and a failed checker adds exactly one error |
| IoiUi.CheckingBinding.DeliverStdout | python/uis/ioi.py:437 | stores the output; without the error output no verdict yet and scores and subtask results stay as they were |
| IoiUi.CheckingBinding.FinishCustom | python/uis/ioi.py:438 | storing the error output applies the verdict and recomputes the subtask whenever the callback is registered |
| IoiUi.CheckingBinding.FireEarly | python/uis/ioi.py:112-115 | an incomplete state changes nothing, scores and subtask results included |
| IoiUi.CheckingBinding.OnDone | python/uis/ioi.py:430-444 | without a custom checker the default verdict; with one, each piece stored in turn, one error for a failed checker, and on the first call the verdict exactly once; in both branches the subtask score and result are recomputed |
| IoiUi.PhaseOutcome | python/uis/ioi.py:337-382 | the next status and no error exactly on success; otherwise FAILURE and exactly the error naming the phase and testcase |
| IoiUi.PhaseErrorsDistinct | python/uis/ioi.py:341-381 | different phases or testcases never fail with the same error |
| IoiUi.IOIUIInterface.constructor | python/uis/ioi.py:306-319 | every testcase WAITING, no solution tracked, no messages |
| IoiUi.IOIUIInterface.AddSolution | python/uis/ioi.py:321-324 | the solution is added to the interface and gets a fresh status with score 0; other solutions untouched |
| IoiUi.IOIUIInterface.StartPhase | python/uis/ioi.py:334-374 | only that testcase's generation status changes |
| IoiUi.IOIUIInterface.FinishPhase | python/uis/ioi.py:337-382 | the status and errors of PhaseOutcome; nothing else changes |
| IoiUi.IOIUIInterface.AddEvaluateSolution | python/uis/ioi.py:386-416 | `count` empty slots and a fresh binding not started nor skipped |
| IoiUi.IOIUIInterface.AddEvaluateChecking | python/uis/ioi.py:418-455 | a fresh binding with an empty state, callback registered exactly with a custom checker |
| IoiExecution.AddNonSolution | python/formats/ioi_format/execution.py:73-76 | the source becomes prepared, and is prepared and registered (two events) only when it was not prepared before; nothing else changes |
| IoiExecution.FailedInputCreatesNothing | python/formats/ioi_format/execution.py:89-116 | a static input that cannot be provided reports its error and marks the testcase FAILURE, with no file or execution created and no exception |
| IoiExecution.StaticInputProvided | python/formats/ioi_format/execution.py:89-111 | a provided static input becomes the input, with no generation; a validation of it exists exactly when the testcase has a validator |
| IoiExecution.GeneratedInput | python/formats/ioi_format/execution.py:117-154 | without a static input: raises exactly without a generator, without a validator or with an extra dependency that cannot be provided; otherwise one generation then one validation of its output, with the 1-based subtask number |
| IoiExecution.OutputCases | python/formats/ioi_format/execution.py:159-194 | a static output is used as it is and raises exactly when it cannot be provided; otherwise the official solution is run, raising exactly without one or without a validation to wait for |
| IoiExecution.NonBatchNoOutputs | python/formats/ioi_format/execution.py:159 | a task that is not Batch gets no expected output |
| IoiExecution.NotTouchedNoExecs | python/formats/ioi_format/execution.py:81-198 | a testcase the graph does not mention has no execution |
| IoiExecution.LinkedUnique | python/formats/ioi_format/execution.py:81-198 | in a linked graph a testcase has at most one execution of each kind |
| IoiExecution.AddGenerationLinked | python/formats/ioi_format/execution.py:125-138 | adding a generation keeps the graph linked |
| IoiExecution.SetProvidedInputLinked | python/formats/ioi_format/execution.py:91-92 | a provided input keeps the graph linked |
| IoiExecution.AddValidationLinked | python/formats/ioi_format/execution.py:95-111 | adding a validation keeps the graph linked |
| IoiExecution.SetProvidedOutputLinked | python/formats/ioi_format/execution.py:162-164 | a provided output keeps the graph linked |
| IoiExecution.AddSolutionLinked | python/formats/ioi_format/execution.py:177-194 | adding an official-solution execution keeps the graph linked |
| IoiExecution.InputStepLinked | python/formats/ioi_format/execution.py:85-154 | the input part of a new testcase keeps the graph linked and gives no expected output |
| IoiExecution.StaticInputLinked | python/formats/ioi_format/execution.py:89-111 | the static-input branch keeps the graph linked |
| IoiExecution.GenerateInputLinked | python/formats/ioi_format/execution.py:117-154 | the generated-input branch keeps the graph linked |
| IoiExecution.ValidateLinked | python/formats/ioi_format/execution.py:95-111 | validating a stored input keeps the graph linked, adds only a validation and touches no new testcase |
| IoiExecution.GeneratedLinked | python/formats/ioi_format/execution.py:125-138 | registering the generation stores its output as the input, keeps the graph linked and touches only this testcase |
| IoiExecution.OutputStepLinked | python/formats/ioi_format/execution.py:159-194 | the expected-output part keeps the graph linked |
| IoiExecution.BatchOutputLinked | python/formats/ioi_format/execution.py:159-198 | the expected-output part of a Batch testcase with its write keeps the graph linked and touches nothing new |
| IoiExecution.CaseStepLinked | python/formats/ioi_format/execution.py:82-198 | one new testcase keeps the graph linked and touches only itself |
| IoiExecution.CasesStepLinked | python/formats/ioi_format/execution.py:82-198 | the testcases of one subtask keep the graph linked and touch only themselves |
| IoiExecution.SubtasksStepLinked | python/formats/ioi_format/execution.py:81-198 | all subtasks keep the graph linked and touch only their testcases |
| IoiExecution.GenerateInputsLinked | python/formats/ioi_format/execution.py:63-201 | generate_inputs builds a linked graph: each testcase has at most one generation, validation and official-solution execution, each the one its dictionary entry names, and only the task's testcases appear |
| IoiExecution.AddNonSolutionOnce | python/formats/ioi_format/execution.py:73-76 | registering keeps every source prepared and registered at most once |
| IoiExecution.SetInputOnce | python/formats/ioi_format/execution.py:91-136 | storing an input keeps the input order free of repetitions |
| IoiExecution.InputStepOnce | python/formats/ioi_format/execution.py:85-154 | the input part keeps the bookkeeping |
| IoiExecution.StaticInputOnce | python/formats/ioi_format/execution.py:89-111 | storing and validating a static input keeps the bookkeeping |
| IoiExecution.GenerateInputOnce | python/formats/ioi_format/execution.py:117-154 | generating and validating an input keeps the bookkeeping |
| IoiExecution.InputStepKeepsOutputs | python/formats/ioi_format/execution.py:85-154 | the input part of a testcase never sets an expected output |
| IoiExecution.OutputStepOnce | python/formats/ioi_format/execution.py:159-198 | the output part keeps the bookkeeping |
| IoiExecution.WriteIfOnce | python/formats/ioi_format/execution.py:156-157 | writing a file keeps the bookkeeping |
| IoiExecution.CaseStepOnce | python/formats/ioi_format/execution.py:82-198 | one testcase keeps the bookkeeping |
| IoiExecution.CasesStepOnce | python/formats/ioi_format/execution.py:82-198 | one subtask keeps the bookkeeping |
| IoiExecution.SubtasksStepOnce | python/formats/ioi_format/execution.py:81-198 | all subtasks keep the bookkeeping |
| IoiExecution.GenerateInputsOnce | python/formats/ioi_format/execution.py:63-201 | each non-solution source is prepared and registered at most once, however many testcases use it, and each input is listed once |
| IoiExecution.Get | python/formats/ioi_format/execution.py:221-222 | `dict.get`: a value exactly for a key in the map, and that key's value |
| IoiExecution.TestcaseEventsMapsOnly | python/formats/ioi_format/execution.py:217-226 | the evaluations depend only on the three dictionaries |
| IoiExecution.BlockEvent | python/formats/ioi_format/execution.py:219-226 | the three requests of one evaluation, by position |
| IoiExecution.TestcaseEventsCount | python/formats/ioi_format/execution.py:217-226 | one solution is evaluated, and its evaluation and checking registered, once per occurrence of the testcase |
| IoiExecution.DistinctOnce | python/formats/ioi_format/execution.py:217 | a list without repetitions holds each element once |
| IoiExecution.SolutionEventsCount | python/formats/ioi_format/execution.py:214-226 | every solution is evaluated exactly once on each testcase with an input, as often as it is listed |
| IoiExecution.SolutionEventsNotIn | python/formats/ioi_format/execution.py:217 | a testcase without an input is neither evaluated nor checked |
| IoiExecution.TestcaseEventsNotIn | python/formats/ioi_format/execution.py:217 | no testcase outside the inputs is evaluated or checked |
| IoiExecution.SolutionEventsFiles | python/formats/ioi_format/execution.py:219-222 | every evaluation receives the testcase's input, and its validation and expected output where they exist (none where they do not) |
| IoiExecution.TestcaseEventsFiles | python/formats/ioi_format/execution.py:219-222 | as above for one solution |
| IoiExecution.DagBuilder.constructor | python/formats/ioi_format/execution.py:78-80 | the empty state |
| IoiExecution.DagBuilder.RegisterNonSolution | python/formats/ioi_format/execution.py:73-76 | the new state is AddNonSolution of the old |
| IoiExecution.DagBuilder.StoreInput | python/formats/ioi_format/execution.py:91-136 | the new state has the input stored |
| IoiExecution.DagBuilder.AddValidationExec | python/formats/ioi_format/execution.py:140-154 | the new state has the validation added |
| IoiExecution.DagBuilder.WriteFileIf | python/formats/ioi_format/execution.py:156-157 | the new state has the write request, when asked |
| IoiExecution.DagBuilder.AddInput | python/formats/ioi_format/execution.py:85-157 | the state and raised flag are those of the input step |
| IoiExecution.DagBuilder.AddOutput | python/formats/ioi_format/execution.py:159-198 | the state and raised flag are those of the output step |
| IoiExecution.DagBuilder.AddTestcase | python/formats/ioi_format/execution.py:82-198 | the state and raised flag are those of one testcase |
| IoiExecution.DagBuilder.EvaluateOne | python/formats/ioi_format/execution.py:215-226 | the dictionaries are unchanged and the requests are the solution's preparation, registration and evaluations on every input |
| IoiExecution.DagBuilder.EvaluateSolutions | python/formats/ioi_format/execution.py:204-226 | the dictionaries are unchanged and the requests are those of every solution in turn |
| IoiExecution.DagBuilder.GenerateSubtask | python/formats/ioi_format/execution.py:81-198 | the state and raised flag are those of one subtask's testcases in order, stopping at the first exception |
| IoiExecution.DagBuilder.GenerateInputs | python/formats/ioi_format/execution.py:63-201 | the state and raised flag are those of generate_inputs' specification, stopping at the first exception |
| IoiFormat.CopyTarget | python/formats/ioi_format.py:124 | `copy_compiled and target`: a copy target exactly when compiled executables are copied, and then the given one |
| IoiFormat.Drop | python/formats/ioi_format.py:111 | `s[n:]`: empty past the end, otherwise n characters shorter |
| Common.LStrip | python/formats/ioi_format.py:111 | no leading whitespace left, whitespace being what Python's `str.isspace` accepts (ASCII and Unicode spaces alike) |
| Common.LStripSuffix | python/formats/ioi_format.py:111 | what lstrip leaves is the input from its first non-whitespace character on: the suffix of the same length |
| Common.RStrip | python/formats/ioi_format.py:111 | a prefix with no trailing whitespace left, with Python's notion of whitespace |
| Common.StripDropsOnlySpace | python/formats/ioi_format.py:111 | what lstrip and rstrip remove is all whitespace |
| Common.Strip | python/formats/ioi_format.py:111 | no whitespace at either end of the result, which is no longer than the input; also `state.stderr.strip()` of python/uis/ioi.py:260 |
| Common.StripSlice | python/formats/ioi_format.py:111 | what strip leaves is one slice `s[i..j]` of the input, and every character outside it is whitespace: only whitespace is removed, and only at the ends |
| IoiFormat.BeforeHash | python/formats/ioi_format.py:116 | `split("#")[0]` is a prefix of the line |
| IoiFormat.BeforeHashStops | python/formats/ioi_format.py:116 | it holds no '#' and ends at the first '#' or the end |
| IoiFormat.Word | python/formats/ioi_format.py:122 | a leading word, non-empty when the text starts with a non-space |
| IoiFormat.WordStops | python/formats/ioi_format.py:122 | a word holds no whitespace and ends at whitespace or the end |
| IoiFormat.SplitWsWords | python/formats/ioi_format.py:122 | `str.split()` gives non-empty words containing no character Python counts as whitespace |
| IoiFormat.WriteInputFile | python/formats/ioi_format.py:70-71 | the input is written under "input/input" |
| IoiFormat.WriteOutputFile | python/formats/ioi_format.py:74-75 | the output is written under "output/output" |
| IoiFormat.WriteFilesDistinct | python/formats/ioi_format.py:70-75 | distinct testcases have distinct write paths, and no input path is an output path |
| IoiFormat.Lookup | python/formats/ioi_format.py:48 | a value exactly for a key present in the table |
| IoiFormat.Keys | python/formats/ioi_format.py:48 | the keys of a table, in its order |
| IoiFormat.Put | python/formats/ioi_format.py:48 | `d[k] = v`: replaces in place or appends |
| IoiFormat.PutFresh | python/formats/ioi_format.py:48 | a key not present is appended |
| IoiFormat.PutAfterLast | python/formats/ioi_format.py:131 | with increasing keys, a key not below the last replaces the last entry or is appended |
| IoiFormat.Insert | python/formats/ioi_format.py:44 | inserting into a sorted list keeps it sorted and adds exactly that element |
| IoiFormat.Sorted | python/formats/ioi_format.py:44 | `sorted(nums)` is sorted and has the same elements |
| IoiFormat.PutLast | python/formats/ioi_format.py:131 | the entry ends the table, which keeps all its earlier entries and grows by at most one |
| IoiFormat.PutLastOrder | python/formats/ioi_format.py:131 | putting a key not below the last keeps the keys increasing |
| IoiFormat.PutLastKeys | python/formats/ioi_format.py:131 | putting a key adds exactly that key |
| IoiFormat.PutLastPayload | python/formats/ioi_format.py:131 | every value stays the function of its key |
| IoiFormat.TableStep | python/formats/ioi_format.py:44-48 | one more number extends the table by that number |
| IoiFormat.FillTable | python/formats/ioi_format.py:44-48 | the loop gives a table with the numbers in increasing order, each with its testcase |
| IoiFormat.LoadTestcases | python/formats/ioi_format.py:34-49 | no input files is exactly the error "No generator and no input files found!"; otherwise no official solution and one SUM subtask 0 worth 100 with the static testcases in increasing order |
| IoiFormat.BaseTestcase | python/formats/ioi_format.py:105-106 | a line's testcase starts with only its write paths set |
| IoiFormat.CreateSubtask | python/formats/ioi_format.py:82-88 | no testcases leaves the subtasks unchanged |
| IoiFormat.ClassifyCases | python/formats/ioi_format.py:107-122 | the cases of a GEN line are exclusive and checked in the source's order: #ST lines first, then #COPY, then blank after the comment is cut, otherwise a generator line with its split words |
| IoiFormat.CountConsumed | python/formats/ioi_format.py:131-132 | at most one testcase number per line |
| IoiFormat.CurrentKeysBelow | python/formats/ioi_format.py:131-132 | the current testcase numbers are below the next number |
| IoiFormat.CloseAppends | python/formats/ioi_format.py:82-88 | closing appends one MIN subtask, with the score in effect, under the current number, unless it has no testcases |
| IoiFormat.CloseInv | python/formats/ioi_format.py:107-112 | closing keeps the loop invariant, whatever the new score |
| IoiFormat.CloseInvNonEmpty | python/formats/ioi_format.py:107-112 | closing a subtask with testcases appends it under its number and keeps the loop invariant, whatever the new score |
| IoiFormat.AddInv | python/formats/ioi_format.py:131-132 | adding a testcase with the next number keeps the loop invariant |
| IoiFormat.CopyLineInv | python/formats/ioi_format.py:113-114 | a #COPY line keeps the invariant |
| IoiFormat.GeneratorLineInv | python/formats/ioi_format.py:115-130 | a generator line keeps the invariant, the subtask number becoming 0 if it was negative |
| IoiFormat.GenStepInv | python/formats/ioi_format.py:104-132 | one line keeps the invariant and takes a testcase number exactly when it consumes one |
| IoiFormat.GenLinesInv | python/formats/ioi_format.py:100-132 | after any parsed prefix the invariant holds, with one number per consuming line |
| IoiFormat.StStepIs | python/formats/ioi_format.py:107-112 | the step of a #ST line with a parsed score |
| IoiFormat.StStepInv | python/formats/ioi_format.py:107-112 | a #ST line that parses keeps the invariant and takes no testcase number |
| IoiFormat.CopyStepIs | python/formats/ioi_format.py:113-114 | the step of a #COPY line |
| IoiFormat.GeneratorStepIs | python/formats/ioi_format.py:115-132 | the step of a generator line |
| IoiFormat.GenLinesNext | python/formats/ioi_format.py:104 | the loop over one more line is one more step |
| IoiFormat.GenLinesLast | python/formats/ioi_format.py:104-132 | a file that parses parses without its last line, ends with that line's step, and counts one more consuming line exactly when the last one consumes |
| IoiFormat.GenLinesStops | python/formats/ioi_format.py:104-111 | once a line fails, the whole file fails with its message |
| IoiFormat.StLineCloses | python/formats/ioi_format.py:107-112 | a #ST line closes the current subtask and opens the next with the parsed score; an unparsable score is an error |
| IoiFormat.FinishCases | python/formats/ioi_format.py:134-139 | the closed subtasks; a lone subtask 0 worth 0 becomes SUM worth 100; a lone subtask under another number is the KeyError of `subtasks[0]` |
| IoiFormat.GenRunProps | python/formats/ioi_format.py:100-139 | subtasks increasing and non-empty, MIN apart from the lone case; one testcase per consuming line, numbered 0, 1, ... in order, each shaped as its line says |
| IoiFormat.GenLineStep | python/formats/ioi_format.py:105-132 | the loop body equals the step specification |
| IoiFormat.ParseGenLines | python/formats/ioi_format.py:100-132 | the loop equals the fold of the steps, stopping at the first error |
| IoiFormat.FinishGen | python/formats/ioi_format.py:134-139 | the end equals the finishing specification |
| IoiFormat.GenTestcases | python/formats/ioi_format.py:78-139 | no generator uses the static inputs; no validator or no official solution is its error; otherwise the parsed subtasks with the official solution |
| IoiFormat.GetOptions | python/formats/ioi_format.py:161-170 | the value of the first listed key present; otherwise the default when truthy, else the "Non optional field" error |
| IoiFormat.OptionsFromFirst | python/formats/ioi_format.py:164-170 | the same, from the k-th name on |
| IoiFormat.Repeat | python/formats/ioi_format.py:182 | n copies of a text |
| IoiFormat.OrEmpty | python/formats/ioi_format.py:186-187 | a falsy file name becomes "" |
| IoiFormat.OptionsPair | python/formats/ioi_format.py:161-170 | over two names, the first present wins |
| IoiFormat.OptionsSingle | python/formats/ioi_format.py:161-170 | over one name |
| IoiFormat.MissingPair | python/formats/ioi_format.py:168-169 | the message names both keys separated by a bar |
| IoiFormat.CreateTaskNoName | python/formats/ioi_format.py:174 | no name is rejected listing both name keys |
| IoiFormat.CreateTaskNoTitle | python/formats/ioi_format.py:175 | no title is rejected listing both title keys |
| IoiFormat.CreateTaskNull | python/formats/ioi_format.py:176-179 | a null name or title is reported, the name first |
| IoiFormat.CreateTaskFields | python/formats/ioi_format.py:173-188 | a built task has a name and title, the memory limit times 1024, and I/O files defaulting to input.txt and output.txt with a falsy value meaning standard I/O |
| IoiFormat.SolutionPatterns | python/formats/ioi_format.py:191-200 | each named solution under sol/ followed by `*`, or sol/* excluding grader files and sol/__init__.py |
| IoiFormat.Rewrite | python/formats/ioi_format.py:193-196 | one pattern per name, prefixed with sol/ when missing, ending in `*` |
| IoiFormat.GetChecker | python/formats/ioi_format.py:203-211 | the error "Too many checkers in cor/ folder" exactly with more than one; none exactly with none; otherwise the only one |
| IoiFormatWiring.ValDescDistinct | python/formats/ioi_format.py:283 | validations are told apart by testcase number and are neither a generation nor an official-solution run |
| IoiFormatWiring.RoutingCases | python/formats/ioi_format.py:302-309 | a run gets its input exactly once, through the task's input file or through stdin, and its output is read from that same run, by name exactly when the task has an output file |
| IoiFormatWiring.DepAttaches | python/formats/ioi_format.py:274-276 | one handover per extra dependency, of the provided file under the dependency's name |
| IoiFormatWiring.GenerateStepCases | python/formats/ioi_format.py:264-311 | a static input (a non-empty path, by Python's truth test) always raises (the str-plus-int in its description); otherwise a step succeeds exactly with a generator, a validator and either a static output (a non-empty path, by the same test) or an official solution, and registers the generation, then the validation, then the solving |
| IoiFormatWiring.FoldNext | python/formats/ioi_format.py:263-264 | one more element is one more step |
| IoiFormatWiring.FoldStops | python/formats/ioi_format.py:263-264 | after an error nothing more is done |
| IoiFormatWiring.GenerateAllNext | python/formats/ioi_format.py:264 | one more testcase is one more step |
| IoiFormatWiring.GenerateAllStops | python/formats/ioi_format.py:264 | after an error no testcase is added |
| IoiFormatWiring.StaticFirstRaises | python/formats/ioi_format.py:266-267 | a task whose first testcase has a static input never gets its inputs |
| IoiFormatWiring.EmptyCopyRaisesNone | python/formats/ioi_format.py:264-272 | a `#COPY: ` testcase with an empty path is not static by the truth test, so it fails on the missing generator (`AttributeError`); with a path it fails on the description (`TypeError`) |
| IoiFormatWiring.LoadedTestcaseRaises | python/formats/ioi_format.py:266-267 | the testcase load_testcases builds for input 0 raises |
| IoiFormatWiring.GenerateKeys | python/formats/ioi_format.py:260-312 | after a successful generate_inputs every testcase has exactly one input, one output and one validation entry |
| IoiFormatWiring.FlattenNext | python/formats/ioi_format.py:263-264 | one more subtask adds its testcases |
| IoiFormatWiring.FlattenSplit | python/formats/ioi_format.py:263-264 | the testcases split at a subtask |
| IoiFormatWiring.GenerateInputs | python/formats/ioi_format.py:258-312 | the nested loops equal the fold over all testcases in subtask order |
| IoiFormatWiring.Resolve | python/formats/ioi_format.py:276-305 | one resolved execution per registered one |
| IoiFormatWiring.LateMissesUnbound | python/formats/ioi_format.py:276-305 | as written, an execution that no loop variable names at the end receives no file and no stdin |
| IoiFormatWiring.EarlyFilesOwn | python/formats/ioi_format.py:276-305 | as intended, an execution receives exactly the files handed to it when it was registered |
| IoiFormatWiring.StepOwned | python/formats/ioi_format.py:272-305 | the handovers of one generated testcase belong to its own executions |
| IoiFormatWiring.GenShapeStep | python/formats/ioi_format.py:264-311 | one more testcase keeps the graph invariant |
| IoiFormatWiring.GenShapeGrow | python/formats/ioi_format.py:264-311 | the graph invariant extends to one more testcase whose iteration registers its own generation and validation, hands over only its own files, and rebinds the variables to it |
| IoiFormatWiring.GenGrowsGiven | python/formats/ioi_format.py:272-294 | a testcase with a static output registers the generation and the validation, hands its input to the validation and binds `gen` and `val` to it |
| IoiFormatWiring.GenGrowsSolved | python/formats/ioi_format.py:272-305 | a testcase without a static output needs the official solution and also registers it, fed this testcase's input after its validation, binding `sol` to it |
| IoiFormatWiring.GenerateShape | python/formats/ioi_format.py:258-312 | the invariant holds after any successful generate_inputs |
| IoiFormatWiring.GenDescDistinct | python/formats/ioi_format.py:272 | generations are told apart by testcase number and are never an official-solution run |
| IoiFormatWiring.GenerateDepName | python/formats/ioi_format.py:274-276 | once a dependency was handed to a generation, the `dep` variable holds a dependency |
| IoiFormatWiring.DepNameStep | python/formats/ioi_format.py:264-311 | one testcase keeps that fact |
| IoiFormatWiring.LateGenerationStarved | python/formats/ioi_format.py:276-305 | as written, every dependency goes to the last testcase's generation under the last dependency's name, the generation of any other testcase receives no file, and all handovers to official-solution runs reach one and the same run |
| IoiFormatWiring.LateValidationStarved | python/formats/ioi_format.py:287 | as written, the validation of any testcase but the last never receives the input it validates |
| IoiFormatWiring.EarlyValidationFed | python/formats/ioi_format.py:287 | as intended, every validation receives exactly its own input under tm_input_file |
| IoiFormatWiring.CheckFiles | python/formats/ioi_format.py:335-346 | both checkers get the official output as "output" and the contestant's as "contestant_output", only the custom one gets the input, every file is named in the arguments, and the default one runs `diff -w` |
| IoiFormatWiring.EvaluateSolutionNext | python/formats/ioi_format.py:319 | one more input is one more evaluation step |
| IoiFormatWiring.EvaluateSolutionStops | python/formats/ioi_format.py:319-324 | after a KeyError nothing more is registered |
| IoiFormatWiring.EvaluateAllNext | python/formats/ioi_format.py:317 | one more solution is one more round |
| IoiFormatWiring.EvaluateAllStops | python/formats/ioi_format.py:317 | after an error no solution is evaluated |
| IoiFormatWiring.EvaluateSolutionCount | python/formats/ioi_format.py:319-348 | one evaluation and one checking per input; fails exactly when some input lacks its validation or official output |
| IoiFormatWiring.EvaluateSolutionShape | python/formats/ioi_format.py:319-348 | every handover names an evaluation or a checking |
| IoiFormatWiring.EvaluateAllCount | python/formats/ioi_format.py:315-348 | two executions per solution and input; fails exactly with a solution and an input lacking its validation or official output |
| IoiFormatWiring.GeneratedComplete | python/formats/ioi_format.py:300-324 | after a successful generate_inputs no evaluation raises a KeyError |
| IoiFormatWiring.LateEvaluationStarved | python/formats/ioi_format.py:324-346 | as written, for any solution and input whose pair is not the last one evaluated, the evaluation and the checking of that pair are registered and receive no file and no standard input |
| IoiFormatWiring.EarlyEvaluationFed | python/formats/ioi_format.py:324-346 | as intended, with distinct testcase numbers: the testcase has an official output; the evaluation of any solution on it reads exactly its input, under the task's input file name when there is one and as standard input otherwise; the checking reads exactly the official output as "output", that evaluation's output as "contestant_output", and the input as "input" exactly when there is a custom checker, with no standard input |
| IoiFormatWiring.EvaluateAllFeeds | python/formats/ioi_format.py:315-348 | after any successful evaluate_solutions, the evaluation and checking of every solution and input are registered with no file of their own and hold all of that pair's handovers, every handover belongs to some pair, and `eval` and `check` name the last pair |
| IoiFormatWiring.EvaluateSolutionFeeds | python/formats/ioi_format.py:319-348 | one solution's round covers every input, adds only the handovers of its own pairs, and leaves `eval` and `check` naming its last pair |
| IoiFormatWiring.EvalDescDistinct | python/formats/ioi_format.py:320-338 | an evaluation's or a checking's description determines the solution name and the testcase number, and no evaluation shares its description with a checking |
| IoiFormatWiring.EarlyStdinOwn | python/formats/ioi_format.py:325-328 | as intended, an execution gets standard input only from a handover of its own to standard input, and gets one whenever such a handover exists |
| IoiFormatWiring.EarlyFilesHas | python/formats/ioi_format.py:324-346 | as intended, every file handed to an execution when it was registered reaches it |
| IoiFormatWiring.EvaluateSolutionStep | python/formats/ioi_format.py:319-348 | after a successful prefix of the inputs, a successful evaluation extends it and a KeyError is the outcome for the whole solution |
| IoiFormatWiring.EvaluateAllStep | python/formats/ioi_format.py:315-348 | after a successful prefix of the solutions, one more success extends it and a failure is the outcome for all of them |
| IoiFormatWiring.EvaluateInput | python/formats/ioi_format.py:319-348 | one step of the inner loop: a success extends the successful prefix of the inputs by this input, a KeyError is the outcome of the whole solution |
| IoiFormatWiring.EvaluateOneSolution | python/formats/ioi_format.py:319-348 | the inner loop equals the fold over the inputs |
| IoiFormatWiring.EvaluateSolutions | python/formats/ioi_format.py:315-348 | the outer loop equals the fold over the solutions |
| SanityChecks.OneBased | python/sanity_checks/ioi.py:92 | 1 exactly when the first listed subtask number is the text "1", else 0 |
| SanityChecks.OiiWarningsCases | python/sanity_checks/ioi.py:85-112 | at most one warning; none without matches; the numbering warning when a number is out of sequence; otherwise none exactly when every listed score is the task's maximum for that subtask |
| SanityChecks.SequentialNumbering | python/sanity_checks/ioi.py:92-100 | the listed numbers pass the sequence test exactly when they are 0, 1, 2, … or they start at "1" and are 1, 2, 3, … |
| SanityChecks.CheckOiiFormat | python/sanity_checks/ioi.py:85-112 | the loop adds exactly the warnings of the specification and changes nothing else |
| SanityChecks.OisAlwaysWarns | python/sanity_checks/ioi.py:122-124 | as written, a statement that lists its subtasks always gets the mismatch warning, a text never equalling a number |
| SanityChecks.OisWarningsIntended | python/sanity_checks/ioi.py:114-128 | as intended: no warning exactly when nothing is listed, or the counts agree and each listed score is the maximum in order; otherwise the one mismatch warning |
| SanityChecks.CheckOisFormat | python/sanity_checks/ioi.py:114-128 | the loop adds exactly the warnings as written and changes nothing else |
| SanityChecks.ExecutionErrors | python/sanity_checks/ioi.py:139-141 | one error, the given message, exactly when the run did not succeed |
| SanityChecks.CheckerErrorsCases | python/sanity_checks/ioi.py:148-163 | a failed run is reported first; the default checker reports nothing else; a custom checker adds one "invalid score" error exactly when its output is not a score in [0, 1] |
| SanityChecks.CheckerOnDone | python/sanity_checks/ioi.py:148-163 | the callback adds exactly those errors |
| SanityChecks.SubtaskScoreSumWarnings | python/sanity_checks/ioi.py:362-367 | one warning exactly when the maximum scores do not add up to 100 |
| SanityChecks.SolutionScoreWarnings | python/sanity_checks/ioi.py:346-359 | one warning exactly when the official solution was evaluated and does not score the sum of the maxima |
| SanityChecks.FullScoreSilent | python/sanity_checks/ioi.py:346-367 | a full mark on subtasks adding up to 100 leaves both checks silent |
| SanityChecks.GraderWarnings | python/sanity_checks/ioi.py:28-36 | no warning without graders; at most one per language |
| SanityChecks.SymlinkWarnings | python/sanity_checks/ioi.py:189-192 | at most one warning per file, none when all are symbolic links |
| SanityChecks.SolFolderCount | python/sanity_checks/ioi.py:205-207 | exactly one "More than one official solution found" warning with more than one official solution, none otherwise |
| SanityChecks.GraderWarningsNot | python/sanity_checks/ioi.py:35-36 | a grader warning never is another kind of message |
| SanityChecks.SymlinkWarningsNot | python/sanity_checks/ioi.py:191-192 | a symlink warning never is another kind of message |
| SanityChecks.TemplateWarnings | python/sanity_checks/ioi.py:179-184 | no warning without graders |
| SanityChecks.TemplateWarningsNot | python/sanity_checks/ioi.py:183-184 | a template warning never is another kind of message |
| SanityChecks.NoSamplesWarning | python/sanity_checks/ioi.py:193-194 | as written the "No sample files provided" warning appears exactly when sample files exist; as intended exactly when none do |
| SanityChecks.SampleGivenWarns | python/sanity_checks/ioi.py:185-194 | one sample file that is a link, without graders, gives exactly the no-samples warning |
| SanityChecks.CheckGraders | python/sanity_checks/ioi.py:28-36 | when some solution is a grader, the loop adds exactly one warning per language whose grader source is missing |
| SanityChecks.CheckSymlinks | python/sanity_checks/ioi.py:189-192 | the loop adds exactly the symlink warnings |
| SanityChecks.CheckSolFolder | python/sanity_checks/ioi.py:197-211 | adds exactly the sol/ warnings |
| SanityChecks.CheckTemplates | python/sanity_checks/ioi.py:179-184 | the loop adds exactly the template warnings |
| SanityChecks.CheckAttFolder | python/sanity_checks/ioi.py:168-194 | adds exactly the att/ warnings as written |
| SortedMap.LexTotal | cpp/core/execution.cpp:21-29 | two different names are ordered one way or the other, never both, so the map has one iteration order |
| SortedMap.LexTransitive | cpp/core/execution.cpp:21-29 | the order of names is transitive |
| SortedMap.Find | cpp/core/execution.cpp:11-15 | a key is found exactly when some entry has it, and the value found is that entry's |
| SortedMap.FindAt | cpp/core/execution.cpp:11-15 | in a sorted map the value found for a key is the one stored beside it |
| SortedMap.Insert | cpp/core/execution.cpp:11-14 | inserting a new key adds one entry: the keys are the old ones and the new one, the new key finds the new value and every other key finds what it found before |
| SortedMap.InsertSorted | cpp/core/execution.cpp:11-14 | insertion keeps the keys strictly increasing |
| SortedMap.Update | cpp/core/execution.cpp:144-145 | overwriting a value keeps the keys and changes only that key's value |
| SortedMap.UpdateSorted | cpp/core/execution.cpp:144-145 | overwriting a value keeps the keys strictly increasing |
| CoreExecution.ExceptionResponse | cpp/core/execution.cpp:52-59 | NOT_EXECUTABLE exactly for the exec format error, with "Execution error: " and the message; any other exception is INTERNAL_ERROR with "Sandbox error: "; no outputs |
| CoreExecution.Cacher.constructor | cpp/core/execution.cpp:33-41 | an empty cache |
| CoreExecution.Cacher.GetAny | cpp/core/execution.cpp:37-38 | a response exactly when one is cached for the request by some executor, and then one of those |
| CoreExecution.Cacher.Get | cpp/core/execution.cpp:39-40 | a response exactly when one is cached for the request and this executor, and then that one |
| CoreExecution.Cacher.Put | cpp/core/execution.cpp:50-51 | the response is cached under the request and executor; nothing else changes |
| CoreExecution.PrepareInput | cpp/core/execution.cpp:83-91 | STDIN exactly for the nameless input; the name, the hash of the file's id and its executable flag |
| CoreExecution.PrepareInputs | cpp/core/execution.cpp:93-94 | one input per entry, in map order |
| CoreExecution.OutputNames | cpp/core/execution.cpp:80 | one output request per output name, in map order |
| CoreExecution.Names | cpp/core/execution.cpp:80 | the names of the requested files, in order |
| CoreExecution.KeysOnce | cpp/core/execution.cpp:80 | each key of a sorted map occurs once among its keys |
| CoreExecution.OutputNamesKeys | cpp/core/execution.cpp:80 | the requested names are the output keys |
| CoreExecution.RequestInputs | cpp/core/execution.cpp:76-103 | the request carries the command, the stdin first with no name, then each input under its name with its hash; no FIFOs |
| CoreExecution.RequestOutputsTwice | cpp/core/execution.cpp:80-98 | every output name is asked for exactly twice, and no other name |
| CoreExecution.ProcessNamedOutput | cpp/core/execution.cpp:142-147 | a requested named output takes its hash, is stored, and gets a set_hash call when the run succeeded |
| CoreExecution.ProcessAllNext | cpp/core/execution.cpp:118 | one more output is one more step unless an exception stopped the loop |
| CoreExecution.ProcessAllStops | cpp/core/execution.cpp:118-143 | after an exception nothing more is processed |
| CoreExecution.UpdateSameIds | cpp/core/execution.cpp:144-145 | setting a hash keeps every file's id |
| CoreExecution.ProcessAllShape | cpp/core/execution.cpp:118-148 | ids unchanged, every hash stored, and on success one set_hash per output with its file's id and hash, in order; none when the run failed |
| CoreExecution.ProcessAllErrors | cpp/core/execution.cpp:118-148 | the loop raises exactly when an output is missing from a cached response or was not requested, with those two exceptions only |
| CoreExecution.FailedRunSetsNoHash | cpp/core/execution.cpp:147 | when the run did not succeed set_hash is called for nothing |
| CoreExecution.Execution.constructor | cpp/core/execution.cpp:9-16 | an execution with only its standard output and error |
| CoreExecution.Execution.Output | cpp/core/execution.cpp:9-16 | the output named, created with the new id only on the first request; every other output unchanged |
| CoreExecution.Execution.Deps | cpp/core/execution.cpp:18-23 | stdin first when there is one, then the inputs' ids in name order |
| CoreExecution.Execution.Produces | cpp/core/execution.cpp:25-31 | stdout, stderr, then the outputs' ids in name order |
| CoreExecution.Execution.RunWithCache | cpp/core/execution.cpp:33-62 | a cached response exactly when the caching mode finds one, the cache then unchanged; otherwise the executor's response, cached unless it is an internal error; the executor is consulted exactly when the cache is not used |
| CoreExecution.Execution.ReadOutput | cpp/core/execution.cpp:119-147 | the loop body equals one output step |
| CoreExecution.Execution.ReadOutputs | cpp/core/execution.cpp:118-148 | the loop equals the fold over the outputs, stopping at the first exception |
| CoreExecution.Execution.HandleResponse | cpp/core/execution.cpp:110-149 | an internal error raises with the response's message and changes no file, no store, no success flag and no message; any other status sets the success flag and the message and processes the outputs as the fold does |
| CoreExecution.Execution.Run | cpp/core/execution.cpp:64-149 | the response comes from the cache or the executor exactly as RunWithCache says, and the cache changes as it says; an internal error raises with its message and changes no file, success flag or message; otherwise the success flag and message are set and the outputs are processed as specified |
| Common.Ids | cpp/core/execution.cpp:21-29 | the ids of a map's values, one per entry in map order; used by `Deps` and `Produces` of both execution classes (core/execution.cpp:17 as well) |
| LegacyExecution.PrepareInput | core/execution.cpp:34-39 | STDIN exactly for the nameless input; the name and the hash of the file's id |
| LegacyExecution.PrepareInputs | core/execution.cpp:41-42 | one input per entry, in map order |
| LegacyExecution.OutputNames | core/execution.cpp:31 | one output request per output name, in map order |
| LegacyExecution.RequestShape | core/execution.cpp:28-50 | the command, the stdin first when its id is not 0 and unnamed, then each input with its name and hash, and each output name asked for twice |
| LegacyExecution.RequestStdin | core/execution.cpp:33-39 | a non-zero standard input id gives exactly one extra input, placed first, unnamed, of type stdin, with that file's hash |
| LegacyExecution.RequestNamedInputs | core/execution.cpp:33-41 | every named input appears after the standard input in its own order, with its own name and hash |
| LegacyExecution.RequestOutputsShape | core/execution.cpp:30-45 | the output list is twice as long as the outputs and names each output at position i and again at i plus the output count |
| LegacyExecution.ProcessAllNext | core/execution.cpp:67 | one more output is one more step unless an exception stopped the loop |
| LegacyExecution.ProcessAllStops | core/execution.cpp:67-86 | after an exception nothing more is processed |
| LegacyExecution.PropagateStep | core/execution.cpp:75-90 | propagating keeps the output keys and the store, raises only for an unrequested output, and otherwise makes one set_hash call with the output's hash |
| LegacyExecution.WrittenErrors | core/execution.cpp:67-91 | as written: keys kept; raises exactly when an output whose file was not stored was not requested, with the "Unrequested output" logic error |
| LegacyExecution.WrittenStore | core/execution.cpp:67-74 | as written: without an exception every output's file is stored afterwards, and nothing else |
| LegacyExecution.WrittenCalls | core/execution.cpp:69-90 | as written: set_hash at most once per hash, only for hashes not stored before, after their file was written |
| LegacyExecution.ProcessAllIntended | core/execution.cpp:67-91 | as intended: every output is propagated with its own set_hash call, in order, and the loop raises exactly when some output was not requested |
| LegacyExecution.StoredOutputNotPropagated | core/execution.cpp:69 | a standard output whose file is already stored gets no hash and no set_hash call as written, and both as intended |
| LegacyExecution.EqualOutputsNotPropagated | core/execution.cpp:69 | with equal standard output and error, only the first gets its hash and call as written; both as intended |
| LegacyExecution.Execution.constructor | core/execution.cpp:6-12 | an execution with only its standard output and error |
| LegacyExecution.Execution.Output | core/execution.cpp:6-12 | the output named, created with the new id only on the first request; every other output unchanged |
| LegacyExecution.Execution.Deps | core/execution.cpp:14-19 | the stdin id when not 0, then the inputs' ids in name order |
| LegacyExecution.Execution.ReadOutput | core/execution.cpp:68-90 | the loop body equals one output step as written |
| LegacyExecution.Execution.ReadOutputs | core/execution.cpp:67-91 | the loop equals the fold over the outputs, stopping at the first exception |
| LegacyExecution.Execution.Run | core/execution.cpp:21-93 | an executor exception propagates and leaves the result, the stored hashes, the store, the response and the captured outputs as they were; a failed run or a signal returns false, or raises execution_failure when it must not fail, touching no file and leaving the captured outputs as they were; otherwise the outputs are processed as written and the result is true |
| LegacyExecution.PropagateNamed | core/execution.cpp:85-90 | a requested named output takes its hash and one set_hash call |
| LocalExecutor.Slots.constructor | executor/local_executor.cpp:199-207 | a fresh counter of busy slots starts at zero with the configured number of slots and no guard held |
| LocalExecutor.Slots.Acquire | executor/local_executor.cpp:178-192 | an exclusive guard is refused with "Exclusive execution failed: worker busy" exactly when some slot is busy and otherwise takes every slot; a shared guard is refused with "Execution failed: worker busy" exactly when all slots are busy and otherwise takes one; a refusal changes nothing |
| LocalExecutor.Slots.Release | executor/local_executor.cpp:194-197 | releasing an exclusive guard frees every slot, a shared guard frees one; the guard leaves the set of held guards |
| LocalExecutor.Slots.ExclusiveAlone | executor/local_executor.cpp:178-197 | while an exclusive guard is held (with at least one slot) no other guard is held |
| LocalExecutor.FindIf | executor/local_executor.cpp:105 | the first position whose character is valid (or invalid) by IsValidChar, or the length when there is none |
| LocalExecutor.RejectedAsWritten | executor/local_executor.cpp:105-107 | as written a name is refused exactly when it contains some valid character (letter, digit, `.`, `-`, `_`) |
| LocalExecutor.RejectedIntended | executor/local_executor.cpp:11-13 | as intended a name is refused exactly when it contains a character that is not valid |
| LocalExecutor.PrepareFile | executor/local_executor.cpp:97-112 | the call fails with "Invalid file name" exactly for a non-stdin file whose name is refused; otherwise the copy comes from the file's hash and only the standard input sets the sandbox's stdin |
| LocalExecutor.AllValidFound | executor/local_executor.cpp:105-107 | in a name made only of valid characters the search finds no invalid one and finds a valid one at the start |
| LocalExecutor.PrepareRefusesOrdinaryNames | executor/local_executor.cpp:105-107 | as written `input.txt` is refused and `/` accepted; as intended the reverse |
| LocalExecutor.PreparedInsideBox | executor/local_executor.cpp:97-112 | with the intended check a prepared file lands at `tmp/box/name` and its name holds no path separator |
| LocalExecutor.RetrieveFile | executor/local_executor.cpp:114-144 | fails exactly for a refused name on a checked file, or for a small file whose inline contents were already set (more than one chunk); otherwise keeps the name, type and executable bit, carries the hash of the file read, and the contents inline when the file is no larger than a chunk |
| LocalExecutor.Copied | executor/local_executor.cpp:127-133 | what one read-back puts into the store: the hash it reports on success, one hash when it then fails on the chunk count (the copy comes before the size test), nothing when the name is refused |
| LocalExecutor.StreamsSwapped | executor/local_executor.cpp:117-126 | as written STDOUT carries the hash of the `stderr` file and STDERR the hash of the bare box path; as intended each stream carries its own file's hash |
| Proto.HashesOf | cpp/core/execution.cpp:118-119 | a hash is in the set exactly when some file has it |
| LocalExecutor.RequestAllShape | executor/local_executor.cpp:146-155 | after requesting the inputs every input's hash is stored; the earlier requests are kept; the caller is asked only for hashes that were missing and not inline, each at most once |
| LocalExecutor.PrepareAll | executor/local_executor.cpp:49-51 | a failure of the placement loop is always "Invalid file name" |
| LocalExecutor.PrepareAllShape | executor/local_executor.cpp:49-51 | the loop fails exactly when some non-stdin input has a refused name; otherwise one placement per input, each as PrepareFile gives it |
| LocalExecutor.RetrieveAllShape | executor/local_executor.cpp:86-93 | reading back succeeds exactly when every file does, and then gives one file per file asked for, in order |
| LocalExecutor.StatusOf | executor/local_executor.cpp:80-83 | SUCCESS exactly when no signal ended the run, SIGNAL otherwise, whatever the exit code |
| LocalExecutor.RequestAllGrows | executor/local_executor.cpp:146-155 | the store ends up with every input's hash added and the earlier requests are kept as a prefix |
| LocalExecutor.RequestAllAsked | executor/local_executor.cpp:146-155 | each new request is a hash that was not stored, of some input without inline contents |
| LocalExecutor.RequestAllOnce | executor/local_executor.cpp:146-155 | the new requests are pairwise distinct and each is in the store afterwards |
| LocalExecutor.ExecuteReplied | executor/local_executor.cpp:18-95 | a response means no FIFOs, every input name accepted, a free slot and a sandbox that ran; it reports the sandbox's exit code, SUCCESS exactly without signal, and lists stdout, stderr and each requested output in order with the hash of its file |
| LocalExecutor.ExecuteRefusesNames | executor/local_executor.cpp:49-51 | a request without FIFOs with a refused non-stdin input name fails with "Invalid file name" |
| LocalExecutor.Executor.constructor | executor/local_executor.cpp:169-176 | the executor starts with the given store and slots and has asked the caller for nothing |
| LocalExecutor.Executor.MaybeRequestFile | executor/local_executor.cpp:146-155 | the new store and request history are those of MaybeRequest |
| LocalExecutor.Executor.RequestFiles | executor/local_executor.cpp:23-25 | the new store and request history are those of RequestAll over the inputs |
| LocalExecutor.Executor.PrepareFiles | executor/local_executor.cpp:49-51 | the loop's result is PrepareAll over the inputs |
| LocalExecutor.Executor.RetrieveFiles | executor/local_executor.cpp:86-93 | the loop's result is RetrieveAll; the store gains exactly the files copied up to the first failure, that one included, so on success exactly the hashes read back |
| LocalExecutor.RetrieveStep | executor/local_executor.cpp:91-93 | one more file read back either extends the result and the store by that file, or ends the whole loop with its error and the store with its copy |
| LocalExecutor.RetrieveOne | executor/local_executor.cpp:91-93 | the loop body: the step facts of RetrieveStep for the file it reads back |
| LocalExecutor.Executor.ActualExecution | executor/local_executor.cpp:58-65 | the slot counter and the live guards are as before the block; a busy worker raises "worker busy", otherwise a failed sandbox raises its message, and a sandbox that ran raises nothing |
| LocalExecutor.Executor.Execute | executor/local_executor.cpp:18-95 | the result is ExecuteSpec on the slot count before the call; the slots are as before; a FIFO request changes nothing; otherwise the inputs were requested as RequestAll says and, on a response, the store holds exactly the inputs and the files read back |
| DetectExe.FirstMatch | python/detect_exe.py:15-24 | the flags of a signature the file starts with, or none |
| DetectExe.FirstMatchAt | python/detect_exe.py:35-42 | when no earlier signature matches, the first one that does decides the flags; when none matches the answer is none |
| DetectExe.MaxLength | python/detect_exe.py:36-39 | the longest magic number in a table: no signature is longer and one has that length |
| DetectExe.Detect | python/detect_exe.py:32-42 | over any table a non-empty answer is the flags of a signature the file starts with; over a table sorted by length the growing buffer finds the first matching signature |
| DetectExe.Read | python/detect_exe.py:38 | a read of `n` bytes returns at most `n` bytes, copied from that position of the file, and fewer only at the end of the file |
| DetectExe.GrowBuffer | python/detect_exe.py:37-39 | topping the buffer up by the missing bytes leaves it holding the first bytes of the file up to the new length |
| DetectExe.BufferSees | python/detect_exe.py:40-41 | a buffer of leading bytes equals a magic number only when the file starts with it, and exactly then when the buffer has that length |
| DetectExe.ScanStep | python/detect_exe.py:35-41 | one iteration: a match is a signature the file starts with, the first one over a sorted table, and no match keeps the buffer invariant |
| DetectExe.ScanDone | python/detect_exe.py:42 | after a sorted table is exhausted no signature matches and the answer is none |
| DetectExe.NoneIffNoMatchIn | python/detect_exe.py:35-42 | over a table whose signatures all carry flags, the answer is none exactly when no signature matches |
| DetectExe.GetExeflags | python/detect_exe.py:27-42 | the flags of the first signature of the table the file starts with, or none |
| DetectExe.TableSorted | python/detect_exe.py:14-24 | the signature table is sorted by the length of its magic numbers |
| DetectExe.NoneIffNoMatch | python/detect_exe.py:28-31 | the answer is none exactly when the file starts with no signature |
| DetectExe.ShortFileFlagsNone | python/detect_exe.py:37-40 | a file shorter than two bytes is never an executable |
| DetectExe.WindowsPrefix | python/detect_exe.py:15-16 | a file starting with `MZ` is a Windows executable whatever follows |
| DetectExe.ElfClasses | python/detect_exe.py:23-24 | an ELF file is 32-bit Linux with class byte 1 and 64-bit Linux with class byte 2 |
| SilentUi.Basename | python/uis/silent_ui.py:97 | the base name is a suffix of the path with no separator in it, preceded by a separator whenever it is shorter than the path |
| SilentUi.ListMax | python/uis/silent_ui.py:61 | the maximum of a non-empty list is one of its elements and no element exceeds it |
| SilentUi.BasenameOfJoin | python/uis/silent_ui.py:97 | the base name of `dir/name`, for a name without separators, is the name |
| SilentUi.SilentUI.constructor | python/uis/silent_ui.py:32-47 | a new UI keeps the solutions and format and starts with every record empty, no testcases and zero limits |
| SilentUi.SilentUI.SetTimeLimit | python/uis/silent_ui.py:49-51 | the time limit becomes the one given |
| SilentUi.SilentUI.SetMemoryLimit | python/uis/silent_ui.py:53-55 | the memory limit becomes the one given |
| SilentUi.SilentUI.SetRunningTasks | python/uis/silent_ui.py:143-145 | the running tasks become the list given |
| SilentUi.SilentUI.SetSubtaskInfo | python/uis/silent_ui.py:57-61 | the subtask's testcases and maximum score are recorded; the testcase count becomes the larger of itself and one past the largest testcase, and never decreases; an empty testcase list raises after both records were made |
| SilentUi.SilentUI.SetCompilationStatus | python/uis/silent_ui.py:63-74 | a solution gets an entry once, any other file is listed once; the status is overwritten and the warnings kept only when non-empty |
| SilentUi.SilentUI.SetGenerationStatus | python/uis/silent_ui.py:76-80 | the testcase's status is overwritten; its errors only when the standard error is non-empty |
| SilentUi.SilentUI.SetTerryStatus | python/uis/silent_ui.py:82-112 | generation and evaluation of a terry solution overwrite its status and errors, creating the entry when missing, and keep its result |
| SilentUi.SilentUI.SetTerryCheckStatus | python/uis/silent_ui.py:114-126 | the check overwrites the status, the errors and the result |
| SilentUi.RecordEvaluation | python/uis/silent_ui.py:99-105 | one event overwrites the testcase's status, its error only when one is given and non-empty, its result only when given, and keeps the rest of the entry |
| SilentUi.SilentUI.SetEvaluationStatus | python/uis/silent_ui.py:89-105 | keyed by base name, the entry is created when missing; the testcase's status is overwritten, its error only when non-empty and its result only when given |
| SilentUi.SilentUI.SetSubtaskScore | python/uis/silent_ui.py:128-134 | an unknown solution (by base name) raises and changes nothing; otherwise only that subtask's score of that solution changes |
| SilentUi.SilentUI.SetTaskScore | python/uis/silent_ui.py:136-141 | an unknown solution raises and changes nothing; otherwise only that solution's total score changes |
| TmsocialMetadata.GenerateCells | python/formats/tmsocial_metadata.py:42-50 | eight cells: the testcase number, then the reference of each result field of that testcase, in field order |
| TmsocialMetadata.FieldRefs | python/formats/tmsocial_metadata.py:44-50 | one reference cell per field, in field order, each naming its subtask, testcase and field |
| TmsocialMetadata.GenerateTestcases | python/formats/tmsocial_metadata.py:53-55 | one row per testcase of the subtask, in order, each with its title and its cells |
| TmsocialMetadata.GenerateSubtasks | python/formats/tmsocial_metadata.py:58-60 | one group per subtask, in order, with its maximum score, the title "Subtask" and its number, and its rows |
| TmsocialMetadata.ColumnsLineUp | python/formats/tmsocial_metadata.py:63-77 | there are as many columns as cells; the row-number column is over the number, the row-status column over the status reference, and every other column over the field of its own name |
| TmsocialMetadata.IntToStringNoDot | python/formats/tmsocial_metadata.py:39 | the decimal text of a number holds no dot |
| TmsocialMetadata.FirstDot | python/formats/tmsocial_metadata.py:39 | the position of the first dot of a text, or its length |
| TmsocialMetadata.DotSplit | python/formats/tmsocial_metadata.py:39 | a text `p.q` with no dot in `p` splits only one way |
| TmsocialMetadata.GenPathSplit | python/formats/tmsocial_metadata.py:38-39 | a reference is the five parts `subtask`, the subtask number, `testcase`, the testcase number and the field, joined by dots |
| TmsocialMetadata.GenPathInjective | python/formats/tmsocial_metadata.py:38-39 | two references are equal only for the same subtask, testcase and field |
| TmsocialMetadata.CellOf | python/formats/tmsocial_metadata.py:42-77 | every cell of the table is the testcase number of its row, or the reference of one field of that testcase |
| TmsocialMetadata.CellRef | python/formats/tmsocial_metadata.py:42-60 | the first cell of a row is a number; every later cell, at position c, is the reference of field c - 1 of that testcase |
| TmsocialMetadata.PathsDistinct | python/formats/tmsocial_metadata.py:38-60 | with distinct subtask numbers and distinct testcases in each subtask, different fields of the table have different references |
| TmsocialMetadata.FieldsDistinct | python/formats/tmsocial_metadata.py:44-50 | the seven result fields are different names |
| TmsocialMetadata.TableRefsDistinct | python/formats/tmsocial_metadata.py:53-77 | with distinct subtask numbers and distinct testcases in each subtask, the contents of a reference cell appear in no other cell of the table, whether another reference or a row's number cell |
| TmsocialMetadata.RowTitlesRepeat | python/formats/tmsocial_metadata.py:55 | as written every row of a subtask has the same title, naming the subtask's number |
| TmsocialMetadata.RowTitlesIntended | python/formats/tmsocial_metadata.py:55 | as intended each row's title names its own testcase, so the rows of a subtask have distinct titles |

## Left out

- Uis.ReplayDepsOutcome: replays end callbacks only, so it speaks of runs where every dependency starts before the first one ends. With starts interleaved, a failure does not stick as written (Uis.StartClearsFailure); Uis.ReplayOutcomeIntended covers mixed callbacks for the intended start.
- SanityChecks.CheckGraders and SanityChecks.CheckAttFolder take the languages as a given sequence. `_get_languages` returns a Python set, whose iteration order fixes the order of the per-language warnings, so that order is a parameter of the model.
- Presentation: the curses, printer and finish user interfaces, JSON dumps, colours, and the printing methods of the silent interface (`print_final_status`, `fatal_error`, `stop`). They draw on a terminal or a file and decide nothing about the evaluation.
- Command-line handling in python/args.py and cpp/main.cpp, which only wraps argument parsers.
- Filesystem, YAML, glob, git and subprocess work. This covers listing and reading files, parsing task.yaml, cleaning, the booklet and the statement PDFs. The model is given what these produce: GEN lines, input-file numbers, glob results, regular-expression matches and file tests.
- `compile_statements` and `evaluate_task` of python/formats/ioi_format/execution.py and python/formats/ioi_format/__init__.py. They only call into the compilation layer and the frontend, which are not part of this model.
- Parts of python/sanity_checks/ioi.py:
  - `check_sample_cases`, which runs the sample cases through the frontend (only the checker callback it installs is modelled);
  - the `os.walk` of `check_symlinks`;
  - the git and file tests of `_check_pdf_statement`.
- `generate_statement` and `generate_metadata` of python/formats/tmsocial_metadata.py. They read PDF files and copy fixed language lists; `generate_table` and everything below it are modelled.
- The validator's `get_args`, which is not part of this model. Its arguments appear as the abstract value `ValidatorArgs(testcase, subtask)`.
- Python's `float()` is a parameter mapping a text to a number or to no number, and signal names are opaque texts.
- Protocol messages that the code only stores or forwards (event statuses, evaluation results, running-task lists). They are opaque values of the model.
- The cache: the `Cacher` class of cpp/worker/cache.hpp is not part of this model. The cache is a map from requests, and from executor and request pairs, to responses.
- The choice between the local and the remote executor in cpp/core/execution.cpp. The executor is the outcome it gives: a response or an exception message.
- Files are named by value. The `FileID` objects of the C++ core are `FileId` records held in the execution's fields, so aliasing of one `FileID` by two executions is not captured. New identifiers also come from a parameter, not from the shared atomic counter.
- Asynchrony: promises, threads and the scheduler are left out.
  - A callback is a method that the scheduler is assumed to call.
  - The file callback of `MaybeRequestFile` is taken to store the file before it returns.
  - The mutex of `ThreadGuard` is not modelled; each guard operation is one atomic step.
- Sandbox plumbing in executor/local_executor.cpp. Creating the sandbox, the temporary directory, `File::Copy`, `File::Hash` and chunked reading are parameters: what the sandbox reported, the contents of each path, and the hash of some contents. Several details follow from that:
  - reading a path is total, so copying or hashing the bare box directory (where the standard error is read from as written) never raises in the model;
  - the resource limits are only handed over, so the seconds-to-milliseconds conversion is left out;
  - the floating-point resource usage of the response is left out, and so is the `request_id` the response copies from the request (executor/local_executor.cpp:68);
  - a small file is read as one chunk holding its whole contents, including when the file is empty.
- executor/local_executor.hpp is not part of this model. The box directory name `box` comes from cpp/worker/executor.hpp:40, and `JoinPath` is taken as joining with one `/`.
- The `LocalExecutor` constructor (executor/local_executor.cpp:169-176), which creates directories and reads the number of cores. The number of cores is a parameter of the slot counter.
- `GetFile`, which only streams a stored file to the caller.
- The remaining declaration-only headers and the echo sandbox of cpp/sandbox/echo.cpp.

## Findings

| source | as written | input that shows it | evidently intended | confidence | as-written member | corrected member |
|---|---|---|---|---|---|---|
| python/uis/__init__.py:167-190 | `dep_on_start` sets the statement to COMPILING_DEPS unconditionally, so a later start clears the FAILED status an earlier failed dependency set, and the next success can declare the dependencies compiled | two dependencies: the first ends with an error, then the second starts and succeeds; the statement ends COMPILED_DEPS | a failed statement stays FAILED whatever callbacks follow | not executed | Uis.StartClearsFailure | Uis.ReplayOutcomeIntended |
| python/uis/ioi.py:397-408 | every `on_done` closure of `add_evaluate_solution` reads the loop variable `num` when it fires, after the loop has ended, so it stores its result in the last slot | a testcase evaluated by two processes: both results go to slot 1, slot 0 stays empty and the testcase is never decided | result `i` is stored in slot `i` | not executed | IoiUi.LateBindingNeverFills | IoiUi.IntendedFill |
| python/sanity_checks/ioi.py:122-124 | the score matched in the statement is a string, compared with the subtask's float maximum score | a statement listing one subtask worth 100, for a task with one subtask of maximum score 100, still gets the mismatch warning | the number read in the statement is compared with the maximum score | not executed | SanityChecks.OisAlwaysWarns | SanityChecks.OisWarningsIntended |
| python/sanity_checks/ioi.py:193 | the "No sample files provided" warning is emitted when the list of sample files is not empty | an att/ folder holding one sample input gives the warning | the warning is emitted when there are no sample files | not executed | SanityChecks.SampleGivenWarns | SanityChecks.NoSamplesWarning |
| python/formats/ioi_format.py:287 | the callbacks that hand a generated input to its validation name the validation through the loop variable `val`, read after the loop | two generated testcases: the first validation never receives its input | each validation receives the input of its own testcase | not executed | IoiFormatWiring.LateValidationStarved | IoiFormatWiring.EarlyValidationFed |
| python/formats/ioi_format.py:276-305 | the callbacks that hand extra dependencies to a generation, and the validation and the input to the official solution, name their targets through the loop variables `gen`, `dep` and `sol`, read after the loop | two generated testcases with one extra dependency each: both dependencies go to the second generation, under the second name, and the first generation receives nothing | each execution receives exactly the files handed to it when it was registered | not executed | IoiFormatWiring.LateGenerationStarved | IoiFormatWiring.EarlyFilesOwn |
| python/formats/ioi_format.py:324-346 | the callbacks that hand an input to an evaluation, and the official and contestant outputs (and the input) to a checking, name the executions through the loop variables `eval` and `check`, read after the loops | one solution and testcases 0 and 1: the evaluation and the checking of testcase 0 receive no file and no standard input | each evaluation receives its own input and each checking its own files | not executed | IoiFormatWiring.LateEvaluationStarved | IoiFormatWiring.EarlyEvaluationFed |
| core/execution.cpp:69 | an output whose hash is already in the store is skipped with `continue`, before its file's hash is set and before `set_hash` is called | a run whose standard output equals a file already stored leaves the standard output's file without a hash | only the copy into the store is skipped | not executed | LegacyExecution.StoredOutputNotPropagated | LegacyExecution.ProcessAllIntended |
| executor/local_executor.cpp:105 | `find_if` looks for a valid character, so a name is refused when it contains one | the input `input.txt` is refused, while `/` is accepted and names the box directory itself | a name is refused when it contains a character that is not valid | not executed | LocalExecutor.PrepareRefusesOrdinaryNames | LocalExecutor.PreparedInsideBox |
| executor/local_executor.cpp:118-120 | the standard output is read from the `stderr` file, and the standard error from the bare box directory | any run where hashing the box directory does not raise: the response's standard output carries the hash of the standard error | the standard output is read from `stdout` and the standard error from `stderr` | not executed | LocalExecutor.StreamsSwapped | LocalExecutor.RetrieveFile |
| python/formats/tmsocial_metadata.py:55 | each row's title is formatted with the subtask index | a subtask with testcases 0 and 1: both rows are titled "Test case" followed by the subtask number | each row's title names its own testcase | not executed | TmsocialMetadata.RowTitlesRepeat | TmsocialMetadata.RowTitlesIntended |

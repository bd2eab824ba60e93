/** The bookkeeping half of the user-interface layer (python/uis/__init__.py):
    compilation statuses of the source files, statement compilation with its
    dependency counter, the warning and error lists, and two pure helpers. */
module Uis {
  import opened Common

  datatype CompilationStatus = Waiting | Compiling | Done | Failure

  /** What the interface keeps for one compiled source file. */
  datatype CompilationEntry = CompilationEntry(needCompilation: bool, status: CompilationStatus)

  datatype StatementStatus = StWaiting | StCompiling | StCompilingDeps | StCompiledDeps | StDone | StFailed

  datatype DepStatus = DepWaiting | DepRunning | DepDone | DepFailed

  /** One dependency of a statement (a figure, an included file, ...). */
  datatype DepEntry = DepEntry(name: string, status: DepStatus, result: Option<ExecResult>)

  /** A statement together with the counter of finished dependencies that
      the registration keeps for it. */
  datatype StatementEntry = StatementEntry(
    status: StatementStatus,
    compilationResult: Option<ExecResult>,
    deps: seq<DepEntry>,
    depsDone: nat)

  /** The text shown for an execution result; None where the source raises
      ValueError (a status it has no text for). */
  function ResultToStr(r: ExecResult): (s: Option<string>)
    ensures s.None? <==> r.status == InvalidRequest
    ensures s.Some? ==> |s.value| > 0
    ensures r.status in {TimeLimit, WallLimit, MemoryLimit} ==>
              s.Some? && (r.wasKilled <==> EndsWith(s.value, " (killed)"))
    ensures r.status == InternalError ==> s == Some("Internal error: " + r.error)
  {
    match r.status
    case Success => Some("Success")
    case Signal => Some("Killed with signal " + IntToString(r.signal) + " (" + r.signalName + ")")
    case ReturnCode => Some("Exited with code " + IntToString(r.returnCode))
    case TimeLimit => Some(if r.wasKilled then "Time limit exceeded (killed)" else "Time limit exceeded")
    case WallLimit => Some(if r.wasKilled then "Wall time limit exceeded (killed)" else "Wall time limit exceeded")
    case MemoryLimit => Some(if r.wasKilled then "Memory limit exceeded (killed)" else "Memory limit exceeded")
    case MissingFiles => Some("Some files are missing")
    case InternalError => Some("Internal error: " + r.error)
    case InvalidRequest => None
  }

  predicate EndsWith(s: string, suffix: string) {
    |suffix| <= |s| && s[|s| - |suffix|..] == suffix
  }

  /** The text of a result determines its status: no two statuses share a text. */
  lemma ResultToStrDeterminesStatus(a: ExecResult, b: ExecResult)
    requires ResultToStr(a).Some? && ResultToStr(a) == ResultToStr(b)
    ensures a.status == b.status
  {
    ResultTextStarts(a);
    ResultTextStarts(b);
    TagInjective(a.status, b.status);
  }

  /** The first two characters of each status's text. */
  function Tag(status: ResultStatus): string {
    match status
    case Success => "Su"
    case Signal => "Ki"
    case ReturnCode => "Ex"
    case TimeLimit => "Ti"
    case WallLimit => "Wa"
    case MemoryLimit => "Me"
    case MissingFiles => "So"
    case InternalError => "In"
    case InvalidRequest => ""
  }

  /** Every text starts with its status's tag. */
  lemma ResultTextStarts(r: ExecResult)
    ensures ResultToStr(r).Some? ==> |ResultToStr(r).value| >= 2 && ResultToStr(r).value[..2] == Tag(r.status)
  {
  }

  /** No two statuses share a tag. */
  lemma TagInjective(x: ResultStatus, y: ResultStatus)
    ensures Tag(x) == Tag(y) ==> x == y
  {
    if Tag(x) == Tag(y) && Tag(x) != "" {
      assert Tag(x)[0] == Tag(y)[0] && Tag(x)[1] == Tag(y)[1];
    }
  }

  /** The largest element of a finite set of lengths, 0 for the empty set. */
  ghost function MaxOf(lens: set<nat>): (m: nat)
    ensures forall n :: n in lens ==> n <= m
    ensures lens == {} ==> m == 0
    ensures lens != {} ==> m in lens
    decreases lens
  {
    if lens == {} then 0
    else
      var x :| x in lens;
      var rest := MaxOf(lens - {x});
      assert forall n :: n in lens ==> n == x || n in lens - {x};
      if x < rest then rest else x
  }

  class UIInterface {
    var nonSolutions: map<string, CompilationEntry>
    var solutions: map<string, CompilationEntry>
    var statements: map<string, StatementEntry>
    var warnings: seq<string>
    var errors: seq<string>

    constructor ()
      ensures nonSolutions == map[] && solutions == map[] && statements == map[]
      ensures warnings == [] && errors == []
    {
      nonSolutions, solutions, statements := map[], map[], map[];
      warnings, errors := [], [];
    }

    /** The lengths of every name the interface knows: solutions,
        non-solutions, statements and the statements' dependencies. */
    ghost function NameLengths(): set<nat>
      reads this
    {
      (set n | n in solutions :: |n|) + (set n | n in nonSolutions :: |n|)
        + (set n | n in statements :: |n|)
        + (set s, i | s in statements && 0 <= i < |statements[s].deps| :: |statements[s].deps[i].name|)
    }

    /** get_max_sol_len: the longest name length, 0 when there is none. */
    ghost function MaxSolLen(): (m: nat)
      reads this
      ensures forall n :: n in solutions ==> |n| <= m
      ensures forall n :: n in nonSolutions ==> |n| <= m
      ensures forall n :: n in statements ==> |n| <= m
      ensures forall s, i :: s in statements && 0 <= i < |statements[s].deps| ==>
                |statements[s].deps[i].name| <= m
      ensures m == 0 || m in NameLengths()
    {
      var lens := NameLengths();
      assert forall n :: n in solutions ==> |n| in lens;
      assert forall n :: n in nonSolutions ==> |n| in lens;
      assert forall n :: n in statements ==> |n| in lens;
      assert forall s, i :: s in statements && 0 <= i < |statements[s].deps| ==>
        |statements[s].deps[i].name| in lens;
      MaxOf(lens)
    }

    /** add_warning: exactly one message more in the warnings, errors untouched. */
    method AddWarning(message: string)
      modifies this
      ensures warnings == old(warnings) + [message] && errors == old(errors)
      ensures nonSolutions == old(nonSolutions) && solutions == old(solutions)
      ensures statements == old(statements)
    {
      warnings := warnings + [message];
    }

    /** add_error: exactly one message more in the errors, warnings untouched. */
    method AddError(message: string)
      modifies this
      ensures errors == old(errors) + [message] && warnings == old(warnings)
      ensures nonSolutions == old(nonSolutions) && solutions == old(solutions)
      ensures statements == old(statements)
    {
      errors := errors + [message];
    }

    /** add_non_solution: a file that needs no compilation is done at once;
        otherwise it waits for its compilation. */
    method AddNonSolution(name: string, needCompilation: bool)
      modifies this
      ensures nonSolutions == old(nonSolutions)[name :=
                CompilationEntry(needCompilation, if needCompilation then Waiting else Done)]
      ensures solutions == old(solutions) && statements == old(statements)
      ensures warnings == old(warnings) && errors == old(errors)
    {
      nonSolutions := nonSolutions[name := CompilationEntry(needCompilation, Waiting)];
      if !needCompilation {
        nonSolutions := nonSolutions[name := nonSolutions[name].(status := Done)];
      }
    }

    /** The on_start callback of a non-solution's compilation. */
    method NonSolutionCompilationStarted(name: string)
      requires name in nonSolutions
      modifies this
      ensures nonSolutions == old(nonSolutions)[name := old(nonSolutions)[name].(status := Compiling)]
      ensures solutions == old(solutions) && statements == old(statements)
      ensures warnings == old(warnings) && errors == old(errors)
    {
      nonSolutions := nonSolutions[name := nonSolutions[name].(status := Compiling)];
    }

    /** The on_done callback of a non-solution's compilation: a failure adds
        exactly one error. */
    method NonSolutionCompilationDone(name: string, result: ExecResult)
      requires name in nonSolutions
      modifies this
      ensures nonSolutions == old(nonSolutions)[name := old(nonSolutions)[name].(status :=
                if result.status == Success then Done else Failure)]
      ensures errors == if result.status == Success then old(errors)
                        else old(errors) + ["Failed to compile " + name]
      ensures solutions == old(solutions) && statements == old(statements)
      ensures warnings == old(warnings)
    {
      if result.status == Success {
        nonSolutions := nonSolutions[name := nonSolutions[name].(status := Done)];
      } else {
        AddError("Failed to compile " + name);
        nonSolutions := nonSolutions[name := nonSolutions[name].(status := Failure)];
      }
    }

    /** add_solution: as add_non_solution, for a contestant solution. */
    method AddSolution(name: string, needCompilation: bool)
      modifies this
      ensures solutions == old(solutions)[name :=
                CompilationEntry(needCompilation, if needCompilation then Waiting else Done)]
      ensures nonSolutions == old(nonSolutions) && statements == old(statements)
      ensures warnings == old(warnings) && errors == old(errors)
    {
      solutions := solutions[name := CompilationEntry(needCompilation, Waiting)];
      if !needCompilation {
        solutions := solutions[name := solutions[name].(status := Done)];
      }
    }

    /** The on_start callback of a solution's compilation. */
    method SolutionCompilationStarted(name: string)
      requires name in solutions
      modifies this
      ensures solutions == old(solutions)[name := old(solutions)[name].(status := Compiling)]
      ensures nonSolutions == old(nonSolutions) && statements == old(statements)
      ensures warnings == old(warnings) && errors == old(errors)
    {
      solutions := solutions[name := solutions[name].(status := Compiling)];
    }

    /** The on_done callback of a solution's compilation: a failure adds
        exactly one warning (not an error, unlike a non-solution). */
    method SolutionCompilationDone(name: string, result: ExecResult)
      requires name in solutions
      modifies this
      ensures solutions == old(solutions)[name := old(solutions)[name].(status :=
                if result.status == Success then Done else Failure)]
      ensures warnings == if result.status == Success then old(warnings)
                          else old(warnings) + ["Failed to compile: " + name]
      ensures nonSolutions == old(nonSolutions) && statements == old(statements)
      ensures errors == old(errors)
    {
      if result.status == Success {
        solutions := solutions[name := solutions[name].(status := Done)];
      } else {
        AddWarning("Failed to compile: " + name);
        solutions := solutions[name := solutions[name].(status := Failure)];
      }
    }

    /** add_statement: registers the statement with a fresh counter of
        finished dependencies. */
    method AddStatement(name: string, statement: StatementEntry)
      modifies this
      ensures statements == old(statements)[name := statement.(depsDone := 0)]
      ensures nonSolutions == old(nonSolutions) && solutions == old(solutions)
      ensures warnings == old(warnings) && errors == old(errors)
    {
      statements := statements[name := statement.(depsDone := 0)];
    }

    /** The on_start callback of the statement's own compilation. */
    method StatementCompilationStarted(name: string)
      requires name in statements
      modifies this
      ensures statements == old(statements)[name := old(statements)[name].(status := StCompiling)]
      ensures nonSolutions == old(nonSolutions) && solutions == old(solutions)
      ensures warnings == old(warnings) && errors == old(errors)
    {
      statements := statements[name := statements[name].(status := StCompiling)];
    }

    /** The on_done callback of the statement's compilation: SUCCESS and
        RETURN_CODE both count as compiled; anything else fails with one warning. */
    method StatementCompilationDone(name: string, result: ExecResult)
      requires name in statements
      modifies this
      ensures var ok := result.status in {Success, ReturnCode};
              && statements == old(statements)[name := old(statements)[name].(
                   compilationResult := Some(result),
                   status := if ok then StDone else StFailed)]
              && warnings == if ok then old(warnings)
                             else old(warnings) + ["Failed to compile statement " + name]
      ensures nonSolutions == old(nonSolutions) && solutions == old(solutions)
      ensures errors == old(errors)
    {
      var st := statements[name].(compilationResult := Some(result));
      if result.status in {Success, ReturnCode} {
        statements := statements[name := st.(status := StDone)];
      } else {
        statements := statements[name := st.(status := StFailed)];
        AddWarning("Failed to compile statement " + name);
      }
    }

    /** The on_start callback of the statement's dependency number `i`:
        as written (`intended` false) the statement becomes COMPILING_DEPS
        even when an earlier dependency has failed it; as intended a FAILED
        statement stays FAILED. */
    method StatementDepStarted(name: string, i: nat, intended: bool)
      requires name in statements && i < |statements[name].deps|
      modifies this
      ensures statements == old(statements)[name := DepStartStep(old(statements)[name], i, intended)]
      ensures var st := old(statements)[name];
              !intended ==> statements[name] == st.(
                status := StCompilingDeps,
                deps := st.deps[i := st.deps[i].(status := DepRunning)])
      ensures nonSolutions == old(nonSolutions) && solutions == old(solutions)
      ensures warnings == old(warnings) && errors == old(errors)
    {
      var st := statements[name];
      var status := StCompilingDeps;
      if intended && st.status == StFailed {
        status := StFailed;
      }
      statements := statements[name := st.(
        status := status,
        deps := st.deps[i := st.deps[i].(status := DepRunning)])];
    }

    /** The on_done callback of the statement's dependency number `i`; the
        new entry is DepDoneStep of the old one, and a failure adds one warning. */
    method StatementDepDone(name: string, i: nat, result: ExecResult)
      requires name in statements && i < |statements[name].deps|
      modifies this
      ensures statements == old(statements)[name := DepDoneStep(old(statements)[name], i, result)]
      ensures warnings == if result.status == Success then old(warnings)
                          else old(warnings) + ["Failed to compile statement dependency: " + old(statements)[name].deps[i].name]
      ensures nonSolutions == old(nonSolutions) && solutions == old(solutions)
      ensures errors == old(errors)
    {
      var st := statements[name];
      var dep := st.deps[i].(result := Some(result));
      var done := st.depsDone + 1;
      if result.status == Success {
        var status := st.status;
        if st.status != StFailed && done == |st.deps| {
          status := StCompiledDeps;
        }
        statements := statements[name := st.(
          depsDone := done, deps := st.deps[i := dep.(status := DepDone)], status := status)];
      } else {
        statements := statements[name := st.(
          depsDone := done, deps := st.deps[i := dep.(status := DepFailed)], status := StFailed)];
        AddWarning("Failed to compile statement dependency: " + dep.name);
      }
    }
  }

  /** What one finished dependency does to its statement: the counter of
      finished dependencies goes up by one whatever the outcome; the statement
      becomes COMPILED_DEPS only when the counter reaches the number of
      dependencies and it has not failed; a failed dependency fails it. */
  function DepDoneStep(st: StatementEntry, i: nat, result: ExecResult): (r: StatementEntry)
    requires i < |st.deps|
    ensures r.depsDone == st.depsDone + 1 && |r.deps| == |st.deps|
    ensures r.compilationResult == st.compilationResult
    ensures r.deps[i].result == Some(result) && r.deps[i].name == st.deps[i].name
    ensures forall j :: 0 <= j < |st.deps| && j != i ==> r.deps[j] == st.deps[j]
    ensures r.status == StCompiledDeps ==>
              result.status == Success && (st.status == StCompiledDeps || r.depsDone == |st.deps|)
    ensures result.status != Success <==> r.deps[i].status == DepFailed
    ensures (result.status != Success || st.status == StFailed) ==> r.status == StFailed
    ensures (result.status == Success && st.status != StFailed && r.depsDone == |st.deps|)
              ==> r.status == StCompiledDeps
    ensures (result.status == Success && st.status != StFailed && r.depsDone != |st.deps|)
              ==> r.status == st.status
  {
    var done := st.depsDone + 1;
    var dep := st.deps[i].(result := Some(result));
    if result.status == Success then
      st.(depsDone := done, deps := st.deps[i := dep.(status := DepDone)],
          status := if st.status != StFailed && done == |st.deps| then StCompiledDeps else st.status)
    else
      st.(depsDone := done, deps := st.deps[i := dep.(status := DepFailed)], status := StFailed)
  }

  /** What the start of dependency `i` does to its statement: that
      dependency becomes RUNNING and the counter is untouched; as written the
      statement becomes COMPILING_DEPS whatever it was, as intended a FAILED
      statement stays FAILED. */
  function DepStartStep(st: StatementEntry, i: nat, intended: bool): (r: StatementEntry)
    requires i < |st.deps|
    ensures r.depsDone == st.depsDone && |r.deps| == |st.deps|
    ensures r.compilationResult == st.compilationResult
    ensures r.deps[i].status == DepRunning && r.deps[i].name == st.deps[i].name
    ensures forall j :: 0 <= j < |st.deps| && j != i ==> r.deps[j] == st.deps[j]
    ensures !intended ==> r.status == StCompilingDeps
    ensures intended ==> (r.status == StFailed <==> st.status == StFailed)
    ensures r.status in {StCompilingDeps, StFailed}
  {
    st.(status := if intended && st.status == StFailed then StFailed else StCompilingDeps,
        deps := st.deps[i := st.deps[i].(status := DepRunning)])
  }

  /** A callback of one dependency: its start, or its end with a result. */
  datatype DepEvent = Started(dep: nat) | Finished(dep: nat, result: ExecResult)

  /** Every event names one of the statement's dependencies. */
  predicate EventsFor(st: StatementEntry, events: seq<DepEvent>) {
    forall k :: 0 <= k < |events| ==> events[k].dep < |st.deps|
  }

  /** The number of end callbacks among the events. */
  function Finishes(events: seq<DepEvent>): (n: nat)
    ensures n <= |events|
  {
    if events == [] then 0
    else Finishes(events[..|events| - 1]) + (if events[|events| - 1].Finished? then 1 else 0)
  }

  /** Some end callback reports a result other than SUCCESS. */
  predicate SomeFailed(events: seq<DepEvent>) {
    exists k :: 0 <= k < |events| && events[k].Finished? && events[k].result.status != Success
  }

  /** The statement after the start and end callbacks `events` have arrived
      in that order, with dep_on_start as written or as intended. */
  function Replay(st: StatementEntry, events: seq<DepEvent>, intended: bool): (r: StatementEntry)
    requires EventsFor(st, events)
    ensures |r.deps| == |st.deps| && r.depsDone == st.depsDone + Finishes(events)
    decreases |events|
  {
    if events == [] then st
    else
      var prev := Replay(st, events[..|events| - 1], intended);
      var e := events[|events| - 1];
      if e.Started? then DepStartStep(prev, e.dep, intended)
      else DepDoneStep(prev, e.dep, e.result)
  }

  /** As written, a start callback clears a failure: a statement with two
      dependencies whose first one fails, and whose second one then starts
      and succeeds, ends COMPILED_DEPS; as intended it ends FAILED. */
  lemma StartClearsFailure(st: StatementEntry, failed: ExecResult, ok: ExecResult)
    requires |st.deps| == 2 && st.depsDone == 0
    requires failed.status != Success && ok.status == Success
    ensures var events := [Finished(0, failed), Started(1), Finished(1, ok)];
            EventsFor(st, events)
            && Replay(st, events, false).status == StCompiledDeps
            && Replay(st, events, true).status == StFailed
  {
    var events := [Finished(0, failed), Started(1), Finished(1, ok)];
    assert events[..2] == [Finished(0, failed), Started(1)];
    assert events[..2][..1] == [Finished(0, failed)];
    assert events[..2][..1][..0] == [];
    forall intended: bool
      ensures Replay(st, events[..2], intended)
              == DepStartStep(DepDoneStep(st, 0, failed), 1, intended)
    {
      assert Replay(st, events[..2][..1], intended) == DepDoneStep(st, 0, failed);
    }
  }

  /** As intended, a failure sticks: once a dependency has failed, or the
      statement was already FAILED, no later start or end callback takes it
      out of FAILED, whatever the order of arrival. */
  lemma {:induction false} ReplayFailureSticks(st: StatementEntry, events: seq<DepEvent>)
    requires EventsFor(st, events)
    ensures (SomeFailed(events) || st.status == StFailed) ==> Replay(st, events, true).status == StFailed
    decreases |events|
  {
    if events != [] {
      var init := events[..|events| - 1];
      assert forall k :: 0 <= k < |init| ==> init[k] == events[k];
      ReplayFailureSticks(st, init);
      if SomeFailed(events) && !SomeFailed(init) {
        var k :| 0 <= k < |events| && events[k].Finished? && events[k].result.status != Success;
        assert k == |events| - 1;
      }
    }
  }

  /** As intended, a statement that never sees a failed dependency is never
      FAILED unless it started so. */
  lemma {:induction false} ReplayNoFailure(st: StatementEntry, events: seq<DepEvent>)
    requires EventsFor(st, events)
    requires !SomeFailed(events) && st.status != StFailed
    ensures Replay(st, events, true).status != StFailed
    decreases |events|
  {
    if events != [] {
      var init := events[..|events| - 1];
      assert forall k :: 0 <= k < |init| ==> init[k] == events[k];
      assert !SomeFailed(init);
      ReplayNoFailure(st, init);
      assert events[|events| - 1].Finished? ==> events[|events| - 1].result.status == Success;
    }
  }

  /** As intended, over start and end callbacks in any order whose end
      callbacks bring the counter to the number of dependencies: any failed
      dependency, or an earlier failure, leaves the statement FAILED; when
      all succeed on a statement not failed and the last callback is an end,
      it ends COMPILED_DEPS. */
  lemma ReplayOutcomeIntended(st: StatementEntry, events: seq<DepEvent>)
    requires EventsFor(st, events)
    requires st.depsDone + Finishes(events) == |st.deps|
    ensures (SomeFailed(events) || st.status == StFailed) ==> Replay(st, events, true).status == StFailed
    ensures (!SomeFailed(events) && st.status != StFailed && events != [] && events[|events| - 1].Finished?)
              ==> Replay(st, events, true).status == StCompiledDeps
  {
    ReplayFailureSticks(st, events);
    if !SomeFailed(events) && st.status != StFailed && events != [] && events[|events| - 1].Finished? {
      var init := events[..|events| - 1];
      assert forall k :: 0 <= k < |init| ==> init[k] == events[k];
      assert !SomeFailed(init);
      ReplayNoFailure(st, init);
    }
  }

  /** The statement after the end callbacks `results` (dependency index,
      result) have arrived in that order, every dependency having started
      before the first one ends (no start callback among them). */
  function ReplayDeps(st: StatementEntry, results: seq<(nat, ExecResult)>): (r: StatementEntry)
    requires forall k :: 0 <= k < |results| ==> results[k].0 < |st.deps|
    ensures |r.deps| == |st.deps| && r.depsDone == st.depsDone + |results|
    decreases |results|
  {
    if results == [] then st
    else ReplayDeps(DepDoneStep(st, results[0].0, results[0].1), results[1..])
  }

  /** End callbacks only, every start having come first, from a count that
      they bring up to the number of dependencies: one failed callback, or
      an earlier failure, leaves the statement FAILED; if all succeed and it
      had not failed, it ends in COMPILED_DEPS, whatever the order in which
      the ends arrive. A start arriving between two ends can clear a failure
      (StartClearsFailure). */
  lemma {:induction false} ReplayDepsOutcome(st: StatementEntry, results: seq<(nat, ExecResult)>)
    requires forall k :: 0 <= k < |results| ==> results[k].0 < |st.deps|
    requires st.depsDone + |results| == |st.deps| && |results| > 0
    ensures var r := ReplayDeps(st, results);
            ((exists k :: 0 <= k < |results| && results[k].1.status != Success) || st.status == StFailed)
              ==> r.status == StFailed
    ensures var r := ReplayDeps(st, results);
            ((forall k :: 0 <= k < |results| ==> results[k].1.status == Success) && st.status != StFailed)
              ==> r.status == StCompiledDeps
    decreases |results|
  {
    var next := DepDoneStep(st, results[0].0, results[0].1);
    assert ReplayDeps(st, results) == ReplayDeps(next, results[1..]);
    if |results| == 1 {
      assert results[1..] == [];
    } else {
      assert forall k :: 0 <= k < |results[1..]| ==> results[1..][k] == results[k + 1];
      ReplayDepsOutcome(next, results[1..]);
      if exists k :: 0 <= k < |results| && results[k].1.status != Success {
        var k :| 0 <= k < |results| && results[k].1.status != Success;
        if k > 0 {
          assert results[1..][k - 1].1.status != Success;
        }
      }
    }
  }
}

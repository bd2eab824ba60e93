/** The user interface that records events without showing them
    (python/uis/silent_ui.py): a store of dictionaries the other parts of
    the program fill through setters. Event statuses and results are
    protocol messages the store only keeps, so they are carried as
    opaque values. */
module SilentUi {
  import opened Common

  /** A value of the protocol's event status enumeration. */
  datatype EventStatus = EventStatus(code: int)
  /** A protocol result message, kept whole and never inspected. */
  datatype EvaluationResult = EvaluationResult(message: seq<bv8>)
  datatype TerryEvaluationResult = TerryEvaluationResult(message: seq<bv8>)
  datatype RunningTaskInfo = RunningTaskInfo(message: seq<bv8>)

  /** What is known of one solution. */
  datatype SolutionStatus = SolutionStatus(
    testcaseErrors: map<int, string>,
    testcaseResult: map<int, EvaluationResult>,
    testcaseStatus: map<int, EventStatus>,
    subtaskScores: map<int, real>,
    score: Option<real>,
    compiled: bool)

  const NewSolutionStatus: SolutionStatus := SolutionStatus(map[], map[], map[], map[], None, false)

  /** What is known of one solution of a Terry task. */
  datatype TerryStatus = TerryStatus(status: Option<EventStatus>, errors: Option<string>, result: Option<TerryEvaluationResult>)

  const NewTerryStatus: TerryStatus := TerryStatus(None, None, None)

  const UnknownSolution: string := "Something weird happened"

  /** A string argument that Python takes as true: given and not empty. */
  predicate Truthy(s: Option<string>) {
    s.Some? && s.value != ""
  }

  /** `os.path.basename`: what follows the last separator. */
  function Basename(path: string): (r: string)
    ensures |r| <= |path| && path[|path| - |r|..] == r
    ensures forall i :: 0 <= i < |r| ==> r[i] != '/'
    ensures |r| < |path| ==> path[|path| - |r| - 1] == '/'
  {
    if path == [] then []
    else if path[|path| - 1] == '/' then []
    else Basename(path[..|path| - 1]) + [path[|path| - 1]]
  }

  /** `max` of a non-empty list. */
  function ListMax(xs: seq<int>): (r: int)
    requires xs != []
    ensures (exists i :: 0 <= i < |xs| && xs[i] == r) && forall i :: 0 <= i < |xs| ==> xs[i] <= r
  {
    if |xs| == 1 then xs[0]
    else
      var m := ListMax(xs[1..]);
      assert forall i :: 1 <= i < |xs| ==> xs[i] == xs[1..][i - 1];
      if xs[0] > m then xs[0] else m
  }

  class SilentUI {
    const solutions: seq<string>
    const format: string
    var numTestcases: int
    var subtaskMaxScores: map<int, real>
    var subtaskTestcases: map<int, seq<int>>
    var otherCompilations: seq<string>
    var compilationStatus: map<string, EventStatus>
    var compilationErrors: map<string, string>
    var generationStatus: map<int, EventStatus>
    var generationErrors: map<int, string>
    var terryTestStatus: map<string, TerryStatus>
    var timeLimit: real
    var memoryLimit: int
    var solutionStatus: map<string, SolutionStatus>
    var runningTasks: seq<RunningTaskInfo>

    /** Every testcase listed in a subtask is counted; the other
        compilations are listed once, are not solutions, and have a
        status. */
    ghost predicate Valid()
      reads this
    {
      && 0 <= numTestcases
      && (forall st, i :: st in subtaskTestcases && 0 <= i < |subtaskTestcases[st]| ==> subtaskTestcases[st][i] < numTestcases)
      && Distinct(otherCompilations)
      && (forall i :: 0 <= i < |otherCompilations| ==> otherCompilations[i] !in solutions && otherCompilations[i] in compilationStatus)
    }

    constructor(solutions: seq<string>, format: string)
      ensures Valid()
      ensures this.solutions == solutions && this.format == format && numTestcases == 0
      ensures subtaskMaxScores == map[] && subtaskTestcases == map[] && otherCompilations == []
      ensures compilationStatus == map[] && compilationErrors == map[] && generationStatus == map[] && generationErrors == map[]
      ensures terryTestStatus == map[] && timeLimit == 0.0 && memoryLimit == 0 && solutionStatus == map[] && runningTasks == []
    {
      this.solutions := solutions;
      this.format := format;
      numTestcases := 0;
      subtaskMaxScores := map[];
      subtaskTestcases := map[];
      otherCompilations := [];
      compilationStatus := map[];
      compilationErrors := map[];
      generationStatus := map[];
      generationErrors := map[];
      terryTestStatus := map[];
      timeLimit := 0.0;
      memoryLimit := 0;
      solutionStatus := map[];
      runningTasks := [];
    }

    method SetTimeLimit(timeLimit: real)
      modifies this`timeLimit
      ensures this.timeLimit == timeLimit
    {
      this.timeLimit := timeLimit;
    }

    method SetMemoryLimit(memoryLimit: int)
      modifies this`memoryLimit
      ensures this.memoryLimit == memoryLimit
    {
      this.memoryLimit := memoryLimit;
    }

    method SetRunningTasks(tasks: seq<RunningTaskInfo>)
      modifies this`runningTasks
      ensures runningTasks == tasks
    {
      runningTasks := tasks;
    }

    /** `set_subtask_info`: records the subtask's testcases and maximum
        score, and raises the testcase count to cover them; the count never
        decreases. With no testcases `max` raises after the two records
        were made, and `ok` is false. */
    method SetSubtaskInfo(subtaskNum: int, maxScore: real, testcases: seq<int>) returns (ok: bool)
      requires Valid()
      modifies this`subtaskTestcases, this`subtaskMaxScores, this`numTestcases
      ensures Valid()
      ensures subtaskTestcases == old(subtaskTestcases)[subtaskNum := testcases]
      ensures subtaskMaxScores == old(subtaskMaxScores)[subtaskNum := maxScore]
      ensures ok <==> testcases != []
      ensures ok ==> numTestcases == (if old(numTestcases) < ListMax(testcases) + 1 then ListMax(testcases) + 1 else old(numTestcases))
      ensures !ok ==> numTestcases == old(numTestcases)
      ensures old(numTestcases) <= numTestcases
    {
      subtaskTestcases := subtaskTestcases[subtaskNum := testcases];
      subtaskMaxScores := subtaskMaxScores[subtaskNum := maxScore];
      if testcases == [] {
        return false;
      }
      var m := ListMax(testcases) + 1;
      numTestcases := if numTestcases < m then m else numTestcases;
      ok := true;
    }

    /** `set_compilation_status`: a solution gets an entry, any other file
        is listed once; the status is overwritten, the warnings kept only
        when there are some. */
    method SetCompilationStatus(fileName: string, status: EventStatus, warnings: Option<string>)
      requires Valid()
      modifies this`solutionStatus, this`otherCompilations, this`compilationStatus, this`compilationErrors
      ensures Valid()
      ensures fileName in solutions ==>
                && solutionStatus == (if fileName in old(solutionStatus) then old(solutionStatus) else old(solutionStatus)[fileName := NewSolutionStatus])
                && otherCompilations == old(otherCompilations)
      ensures fileName !in solutions ==>
                && solutionStatus == old(solutionStatus)
                && otherCompilations == (if fileName in old(otherCompilations) then old(otherCompilations) else old(otherCompilations) + [fileName])
      ensures compilationStatus == old(compilationStatus)[fileName := status]
      ensures compilationErrors == if Truthy(warnings) then old(compilationErrors)[fileName := warnings.value] else old(compilationErrors)
    {
      if fileName in solutions {
        if fileName !in solutionStatus {
          solutionStatus := solutionStatus[fileName := NewSolutionStatus];
        }
      } else {
        if fileName !in otherCompilations {
          otherCompilations := otherCompilations + [fileName];
        }
      }
      compilationStatus := compilationStatus[fileName := status];
      if Truthy(warnings) {
        compilationErrors := compilationErrors[fileName := warnings.value];
      }
    }

    method SetGenerationStatus(testcaseNum: int, status: EventStatus, stderr: Option<string>)
      modifies this`generationStatus, this`generationErrors
      ensures generationStatus == old(generationStatus)[testcaseNum := status]
      ensures generationErrors == if Truthy(stderr) then old(generationErrors)[testcaseNum := stderr.value] else old(generationErrors)
    {
      generationStatus := generationStatus[testcaseNum := status];
      if Truthy(stderr) {
        generationErrors := generationErrors[testcaseNum := stderr.value];
      }
    }

    /** The Terry entry of a solution, created when missing. */
    function TerryEntry(solution: string): TerryStatus
      reads this
    {
      if solution in terryTestStatus then terryTestStatus[solution] else NewTerryStatus
    }

    /** `set_terry_generation_status` and `set_terry_evaluation_status`:
        the entry's status and errors are overwritten, its result kept. */
    method SetTerryStatus(solution: string, status: EventStatus, errors: Option<string>)
      modifies this`terryTestStatus
      ensures terryTestStatus == old(terryTestStatus)[solution := TerryStatus(Some(status), errors, old(TerryEntry(solution)).result)]
    {
      var entry := TerryEntry(solution);
      terryTestStatus := terryTestStatus[solution := entry.(status := Some(status), errors := errors)];
    }

    /** `set_terry_check_status`: the result is overwritten as well. */
    method SetTerryCheckStatus(solution: string, status: EventStatus, errors: Option<string>, result: Option<TerryEvaluationResult>)
      modifies this`terryTestStatus
      ensures terryTestStatus == old(terryTestStatus)[solution := TerryStatus(Some(status), errors, result)]
    {
      terryTestStatus := terryTestStatus[solution := TerryStatus(Some(status), errors, result)];
    }

    /** `set_evaluation_status`: keyed by the file's base name; the entry,
        a fresh one when missing, is updated as `RecordEvaluation` says and
        stored. */
    method SetEvaluationStatus(testcaseNum: int, solutionName: string, status: EventStatus,
                               result: Option<EvaluationResult>, error: Option<string>)
      modifies this`solutionStatus
      ensures var name := Basename(solutionName);
              solutionStatus == old(solutionStatus)[name := RecordEvaluation(old(SolutionEntry(name)), testcaseNum, status, result, error)]
    {
      var name := Basename(solutionName);
      var e := SolutionEntry(name);
      ghost var e0 := e;
      e := e.(testcaseStatus := e.testcaseStatus[testcaseNum := status]);
      if Truthy(error) {
        e := e.(testcaseErrors := e.testcaseErrors[testcaseNum := error.value]);
      }
      if result.Some? {
        e := e.(testcaseResult := e.testcaseResult[testcaseNum := result.value]);
      }
      assert e == RecordEvaluation(e0, testcaseNum, status, result, error);
      solutionStatus := solutionStatus[name := e];
    }

    /** The entry of a solution, a fresh one when missing. */
    function SolutionEntry(name: string): SolutionStatus
      reads this
    {
      if name in solutionStatus then solutionStatus[name] else NewSolutionStatus
    }

    /** `set_subtask_score`: an unknown solution raises; otherwise only its
        score of that subtask changes. */
    method SetSubtaskScore(subtaskNum: int, solutionName: string, score: real) returns (error: Option<string>)
      modifies this`solutionStatus
      ensures var name := Basename(solutionName);
              && (error.Some? <==> name !in old(solutionStatus))
              && (error.Some? ==> error == Some(UnknownSolution) && solutionStatus == old(solutionStatus))
              && (error.None? ==> solutionStatus == old(solutionStatus)[name := old(solutionStatus)[name].(
                                    subtaskScores := old(solutionStatus)[name].subtaskScores[subtaskNum := score])])
    {
      var name := Basename(solutionName);
      if name !in solutionStatus {
        return Some(UnknownSolution);
      }
      var e := solutionStatus[name];
      solutionStatus := solutionStatus[name := e.(subtaskScores := e.subtaskScores[subtaskNum := score])];
      error := None;
    }

    /** `set_task_score`: an unknown solution raises; otherwise only its
        total score changes. */
    method SetTaskScore(solutionName: string, score: real) returns (error: Option<string>)
      modifies this`solutionStatus
      ensures var name := Basename(solutionName);
              && (error.Some? <==> name !in old(solutionStatus))
              && (error.Some? ==> error == Some(UnknownSolution) && solutionStatus == old(solutionStatus))
              && (error.None? ==> solutionStatus == old(solutionStatus)[name := old(solutionStatus)[name].(score := Some(score))])
    {
      var name := Basename(solutionName);
      if name !in solutionStatus {
        return Some(UnknownSolution);
      }
      solutionStatus := solutionStatus[name := solutionStatus[name].(score := Some(score))];
      error := None;
    }
  }

  /** One evaluation event recorded in a solution's entry: the status of
      the testcase is overwritten, its error only when one is given and not
      empty, its result only when given; the rest of the entry is kept. */
  function RecordEvaluation(e: SolutionStatus, testcaseNum: int, status: EventStatus,
                            result: Option<EvaluationResult>, error: Option<string>): (r: SolutionStatus)
    ensures r.testcaseStatus == e.testcaseStatus[testcaseNum := status]
    ensures Truthy(error) ==> r.testcaseErrors == e.testcaseErrors[testcaseNum := error.value]
    ensures !Truthy(error) ==> r.testcaseErrors == e.testcaseErrors
    ensures result.Some? ==> r.testcaseResult == e.testcaseResult[testcaseNum := result.value]
    ensures result.None? ==> r.testcaseResult == e.testcaseResult
    ensures r.subtaskScores == e.subtaskScores && r.score == e.score && r.compiled == e.compiled
  {
    e.(testcaseStatus := e.testcaseStatus[testcaseNum := status],
       testcaseErrors := if Truthy(error) then e.testcaseErrors[testcaseNum := error.value] else e.testcaseErrors,
       testcaseResult := if result.Some? then e.testcaseResult[testcaseNum := result.value] else e.testcaseResult)
  }

  /** The base name of a path under a directory is the file name itself. */
  lemma {:induction false} BasenameOfJoin(dir: string, name: string)
    requires forall i :: 0 <= i < |name| ==> name[i] != '/'
    ensures Basename(dir + "/" + name) == name
    decreases |name|
  {
    if name == [] {
      assert dir + "/" + name == dir + "/";
    } else {
      var init := name[..|name| - 1];
      BasenameOfJoin(dir, init);
      assert (dir + "/" + name)[..|dir + "/" + name| - 1] == dir + "/" + init;
    }
  }
}

/** The per-solution verdict and score bookkeeping of an IOI-like task
    (python/uis/ioi.py): how execution and checker results become testcase
    statuses and scores, and how those become subtask and task scores. */
module IoiUi {
  import opened Common
  import Uis

  datatype GenerationStatus =
    | GenWaiting | Generating | Generated | Validating | Validated | GenSolving | GenDone | GenFailure

  datatype TestcaseStatus =
    | TcWaiting | TcSolving | Solved | Checking | Accepted | WrongAnswer | Partial | Failed | Skipped

  datatype SubtaskResult = SubWaiting | SubRunning | SubAccepted | SubPartial | SubRejected

  /** The standard output of a custom checker, already parsed as a number. */
  datatype CheckerOutput = Valid(score: real) | Invalid

  /** The stripped text of the checker's standard output and its parse. */
  datatype CheckerStdout = CheckerStdout(text: string, parsed: CheckerOutput)

  /** What the evaluation of one solution on one testcase has produced so far.
      `result` has one slot per evaluation process; None is a slot not yet filled. */
  datatype TestcaseInfo = TestcaseInfo(
    status: TestcaseStatus,
    result: seq<Option<ExecResult>>,
    score: real,
    message: string,
    checkerOutcome: string,
    checked: bool,
    checkerResult: Option<ExecResult>)

  const InitialInfo: TestcaseInfo :=
    TestcaseInfo(TcWaiting, [], 0.0, "Waiting...", "Waiting...", false, None)

  /** The part of a task's subtask that the scoring reads. */
  datatype SubtaskSpec = SubtaskSpec(mode: ScoreMode, maxScore: real)

  /** The effect of one update of a testcase: the new testcase information,
      whether the subtask score is recomputed, an error message for the
      interface, and whether the source raised part-way (the information then
      holds what was assigned before the exception). */
  datatype Step = Step(info: TestcaseInfo, recompute: bool, error: Option<string>, raised: bool)

  // ---------------------------------------------------------------------------
  // Pure helpers over results

  predicate AllPresent(slots: seq<Option<ExecResult>>) {
    forall i :: 0 <= i < |slots| ==> slots[i].Some?
  }

  predicate AllSucceeded(slots: seq<Option<ExecResult>>) {
    forall i :: 0 <= i < |slots| ==> slots[i].Some? && slots[i].value.status == Success
  }

  /** `all(res.status == SUCCESS for res in slots)`, evaluated left to right:
      None where an empty slot is reached before any failed result (the
      attribute access on None raises). */
  function CheckAllSuccess(slots: seq<Option<ExecResult>>): (r: Option<bool>)
    ensures r == Some(true) <==> AllSucceeded(slots)
    ensures AllPresent(slots) ==> r.Some?
    ensures r == Some(false) ==> exists i :: 0 <= i < |slots| && slots[i].Some? && slots[i].value.status != Success
  {
    if slots == [] then Some(true)
    else match slots[0]
      case None => None
      case Some(res) =>
        if res.status != Success then Some(false)
        else
          var rest := CheckAllSuccess(slots[1..]);
          assert forall i :: 1 <= i < |slots| ==> slots[i] == slots[1..][i - 1];
          rest
  }

  /** " | ".join(map(result_to_str, slots)); None where an element has no text. */
  function JoinResults(slots: seq<Option<ExecResult>>): (r: Option<string>)
    ensures r.Some? <==> forall i :: 0 <= i < |slots| ==> slots[i].Some? && Uis.ResultToStr(slots[i].value).Some?
  {
    if slots == [] then Some("")
    else if slots[0].None? || Uis.ResultToStr(slots[0].value).None? then None
    else
      var head := Uis.ResultToStr(slots[0].value).value;
      assert forall i :: 1 <= i < |slots| ==> slots[i] == slots[1..][i - 1];
      if |slots| == 1 then Some(head)
      else match JoinResults(slots[1..])
        case None => None
        case Some(tail) => Some(head + " | " + tail)
  }

  /** _get_solution_message: the checker's outcome when every evaluation
      succeeded, otherwise the texts of all the results. None where the
      source raises. */
  function SolutionMessage(slots: seq<Option<ExecResult>>, checkerOutcome: string): (m: Option<string>)
    ensures AllSucceeded(slots) ==> m == Some(checkerOutcome)
    ensures AllPresent(slots) && !AllSucceeded(slots) ==> m == JoinResults(slots)
    ensures m.None? ==> !AllSucceeded(slots)
  {
    match CheckAllSuccess(slots)
    case None => None
    case Some(true) => Some(checkerOutcome)
    case Some(false) => JoinResults(slots)
  }

  /** The message is assigned only when it could be computed. */
  function WithMessage(info: TestcaseInfo): (r: Step)
    ensures r.info.message == (var m := SolutionMessage(info.result, info.checkerOutcome);
                               if m.Some? then m.value else info.message)
    ensures r.raised <==> SolutionMessage(info.result, info.checkerOutcome).None?
    ensures r.info == info.(message := r.info.message) && !r.recompute && r.error.None?
  {
    match SolutionMessage(info.result, info.checkerOutcome)
    case None => Step(info, false, None, true)
    case Some(m) => Step(info.(message := m), false, None, false)
  }

  // ---------------------------------------------------------------------------
  // The three updates of one testcase (update_eval_result and its internal
  // part, update_default_check_result, update_custom_check_result)

  /** Slot `num` receives the result; nothing else happens until every slot
      is filled. Then all successes give SOLVED unless a checker verdict is
      already there, and any failure gives FAILED and checked, overriding a
      verdict, and asks for the subtask score. */
  function EvalStep(info: TestcaseInfo, num: nat, result: ExecResult): (r: Step)
    requires num < |info.result|
    ensures r.info.result == info.result[num := Some(result)]
    ensures r.error.None?
    ensures !AllPresent(info.result[num := Some(result)]) ==>
              r == Step(info.(result := info.result[num := Some(result)]), false, None, false)
    ensures AllSucceeded(r.info.result) ==>
              && !r.recompute && !r.raised
              && r.info.checked == info.checked && r.info.score == info.score
              && r.info.status == (if info.status in {Accepted, Partial, WrongAnswer, Failed} then info.status else Solved)
    ensures AllPresent(r.info.result) && !AllSucceeded(r.info.result) ==>
              r.recompute && r.info.status == Failed && r.info.checked && r.info.score == info.score
    ensures r.info.checkerOutcome == info.checkerOutcome && r.info.checkerResult == info.checkerResult
  {
    var slots := info.result[num := Some(result)];
    var filled := info.(result := slots);
    if !AllPresent(slots) then Step(filled, false, None, false)
    else if CheckAllSuccess(slots) == Some(true) then
      var s := if filled.status in {Accepted, Partial, WrongAnswer, Failed} then filled.status else Solved;
      WithMessage(filled.(status := s))
    else
      var m := WithMessage(filled.(status := Failed, checked := true));
      m.(recompute := true)
  }

  /** The default (diff) checker: the testcase is always checked afterwards;
      SUCCESS gives ACCEPTED with score 1, RETURN_CODE gives WRONG_ANSWER with
      score 0, anything else gives FAILED with the score unchanged. */
  function DefaultCheckStep(info: TestcaseInfo, result: ExecResult): (r: Step)
    ensures r.info.checked && r.info.checkerResult == Some(result)
    ensures r.info.result == info.result && r.error.None?
    ensures result.status == Success ==> r.info.status == Accepted && r.info.score == 1.0
    ensures result.status == ReturnCode ==> r.info.status == WrongAnswer && r.info.score == 0.0
    ensures result.status !in {Success, ReturnCode} ==> r.info.status == Failed && r.info.score == info.score
    ensures r.recompute <==> !r.raised
  {
    var base := info.(checkerResult := Some(result), checked := true);
    var updated :=
      if result.status == Success then
        base.(status := Accepted, checkerOutcome := "Output is correct", score := 1.0)
      else if result.status == ReturnCode then
        base.(status := WrongAnswer, checkerOutcome := "Output is not correct", score := 0.0)
      else
        base.(status := Failed, checkerOutcome := "Internal error: " + result.error);
    var m := WithMessage(updated);
    m.(recompute := !m.raised)
  }

  /** The checker's verdict is turned into a failure of the testcase. */
  function CheckerFailure(info: TestcaseInfo, outcome: string, error: Option<string>): (r: Step)
    requires !info.checked
    ensures r.info.status == Failed && r.info.score == info.score && r.info.result == info.result
    ensures !r.recompute
    ensures r.raised ==> r.error.None? && !r.info.checked
    ensures !r.raised ==> r.error == error && r.info.checked
  {
    var m := WithMessage(info.(status := Failed, checkerOutcome := outcome));
    if m.raised then m else Step(m.info.(checked := true), false, error, false)
  }

  /** The fixed text of a custom checker's verdict on a valid score. */
  function VerdictText(s: real): string {
    if s == 1.0 then "Output is correct"
    else if s == 0.0 then "Output is not correct"
    else "Output is partially correct"
  }

  /** update_custom_check_result. A testcase already checked keeps its verdict
      and only records the checker's result. Otherwise a failed checker, a
      non-numeric output or a score outside [0, 1] give FAILED and checked (the
      latter two with one error); a valid score s is stored, the status is
      ACCEPTED iff s = 1, WRONG_ANSWER iff s = 0, PARTIAL otherwise, and the
      testcase counts as checked only once every evaluation slot is filled. */
  function CustomCheckStep(info: TestcaseInfo, checker: ExecResult, stdout: CheckerStdout,
                           stderr: string, testcase: int, solution: string): (r: Step)
    ensures r.info.checkerResult == Some(checker) && r.info.result == info.result
    ensures info.checked ==> r == Step(info.(checkerResult := Some(checker)), false, None, false)
    ensures !info.checked && checker.status != Success ==>
              r.info.status == Failed && r.info.score == info.score && r.error.None? && !r.recompute
              && (r.raised || r.info.checked)
    ensures !info.checked && checker.status == Success && stdout.parsed.Invalid? ==>
              r.info.status == Failed && r.info.score == info.score && !r.recompute
              && (r.raised || (r.info.checked && r.error.Some?))
    ensures !info.checked && checker.status == Success && stdout.parsed.Valid?
              && !(0.0 <= stdout.parsed.score <= 1.0) ==>
              r.info.status == Failed && r.info.score == info.score && !r.recompute
              && (r.raised || (r.info.checked && r.error.Some?))
    ensures !info.checked && checker.status == Success && stdout.parsed.Valid?
              && 0.0 <= stdout.parsed.score <= 1.0 ==>
              var s := stdout.parsed.score;
              && r.info.score == s && r.error.None?
              && (r.info.status == Accepted <==> s == 1.0)
              && (r.info.status == WrongAnswer <==> s == 0.0)
              && (r.info.status == Partial <==> 0.0 < s < 1.0)
              && (r.recompute <==> !r.raised)
              && (!r.raised ==> r.info.checked == AllPresent(info.result))
              && r.info.checkerOutcome == (if stdout.text != "" then Strip(stderr) else VerdictText(s))
    ensures r.error.Some? ==> r.info.checked && !r.raised
  {
    var base := info.(checkerResult := Some(checker));
    if base.checked then Step(base, false, None, false)
    else if checker.status != Success then
      match Uis.ResultToStr(checker)
      case None => Step(base.(status := Failed), false, None, true)
      case Some(t) => CheckerFailure(base, "Failed to check: " + t, None)
    else match stdout.parsed
      case Invalid =>
        CheckerFailure(base, "Failed to check: invalid score: " + stdout.text,
          Some("Invalid output '" + stdout.text + "' for checker at testcase #" + IntToString(testcase)
               + " for solution " + solution))
      case Valid(s) =>
        if !(0.0 <= s <= 1.0) then
          CheckerFailure(base, "Failed to check: invalid score: " + stdout.text,
            Some("Invalid score '" + stdout.text + "' from checker at testcase #" + IntToString(testcase)
                 + " for solution " + solution))
        else
          var verdict :=
            if s == 1.0 then base.(score := s, status := Accepted, checkerOutcome := "Output is correct")
            else if s == 0.0 then base.(score := s, status := WrongAnswer, checkerOutcome := "Output is not correct")
            else base.(score := s, status := Partial, checkerOutcome := "Output is partially correct");
          var outcome := if stdout.text != "" then verdict.(checkerOutcome := Strip(stderr)) else verdict;
          var m := WithMessage(outcome);
          if m.raised then m
          else Step(m.info.(checked := AllPresent(m.info.result)), true, None, false)
  }

  // ---------------------------------------------------------------------------
  // Subtask aggregation (_compute_st_score)

  function SumReals(s: seq<real>): real {
    if s == [] then 0.0 else s[0] + SumReals(s[1..])
  }

  function MinReal(s: seq<real>): (m: real)
    requires |s| > 0
    ensures m in s && forall i :: 0 <= i < |s| ==> m <= s[i]
  {
    if |s| == 1 then s[0]
    else
      var rest := MinReal(s[1..]);
      assert forall i :: 1 <= i < |s| ==> s[i] == s[1..][i - 1];
      if s[0] <= rest then s[0] else rest
  }

  function MaxReal(s: seq<real>): (m: real)
    requires |s| > 0
    ensures m in s && forall i :: 0 <= i < |s| ==> s[i] <= m
  {
    if |s| == 1 then s[0]
    else
      var rest := MaxReal(s[1..]);
      assert forall i :: 1 <= i < |s| ==> s[i] == s[1..][i - 1];
      if s[0] >= rest then s[0] else rest
  }

  predicate AllFractions(s: seq<real>) {
    forall i :: 0 <= i < |s| ==> 0.0 <= s[i] <= 1.0
  }

  /** A sum of values in [0, 1] lies between 0 and the number of values. */
  lemma {:induction false} SumRealsBounds(s: seq<real>)
    requires AllFractions(s)
    ensures 0.0 <= SumReals(s) <= |s| as real
  {
    if s != [] {
      assert AllFractions(s[1..]) by {
        forall i | 0 <= i < |s[1..]| ensures 0.0 <= s[1..][i] <= 1.0 {
          assert s[1..][i] == s[i + 1];
        }
      }
      SumRealsBounds(s[1..]);
    }
  }

  lemma MeanBounds(s: seq<real>)
    requires |s| > 0
    ensures AllFractions(s) ==> 0.0 <= SumReals(s) / (|s| as real) <= 1.0
  {
    if AllFractions(s) {
      SumRealsBounds(s);
    }
  }

  /** The score fraction of a subtask: the minimum, the maximum or the mean
      of its testcase scores. */
  function Aggregate(mode: ScoreMode, s: seq<real>): (r: real)
    requires |s| > 0
    ensures AllFractions(s) ==> 0.0 <= r <= 1.0
    ensures mode == Min ==> r in s && forall i :: 0 <= i < |s| ==> r <= s[i]
    ensures mode == Max ==> r in s && forall i :: 0 <= i < |s| ==> s[i] <= r
    ensures mode == Sum ==> r * (|s| as real) == SumReals(s)
  {
    match mode
    case Min => MinReal(s)
    case Max => MaxReal(s)
    case Sum =>
      MeanBounds(s);
      SumReals(s) / (|s| as real)
  }

  /** The score of a finished subtask: the aggregate of its testcase scores
      times its maximum score, hence within the subtask's range. */
  function SubtaskScore(spec: SubtaskSpec, s: seq<real>): (x: real)
    requires |s| > 0
    ensures AllFractions(s) ==> InRange(x, spec.maxScore)
  {
    AggregateScaled(spec, s);
    Aggregate(spec.mode, s) * spec.maxScore
  }

  /** The classification of a finished subtask: ACCEPTED iff its minimum
      testcase score is 1, otherwise REJECTED iff its score is 0. */
  function Classify(scores: seq<real>, subtaskScore: real): SubtaskResult
    requires |scores| > 0
  {
    if MinReal(scores) == 1.0 then SubAccepted
    else if subtaskScore == 0.0 then SubRejected
    else SubPartial
  }

  /** A subtask score lies between 0 and the subtask's maximum score (where
      the maximum is negative, between it and 0). */
  predicate InRange(x: real, maxScore: real) {
    if maxScore >= 0.0 then 0.0 <= x <= maxScore else maxScore <= x <= 0.0
  }

  lemma ScaledInRange(f: real, maxScore: real)
    requires 0.0 <= f <= 1.0
    ensures InRange(f * maxScore, maxScore)
  {
    if maxScore >= 0.0 {
      assert f * maxScore <= 1.0 * maxScore;
    } else {
      assert f * maxScore >= 1.0 * maxScore;
    }
  }

  lemma AggregateScaled(spec: SubtaskSpec, s: seq<real>)
    requires |s| > 0
    ensures AllFractions(s) ==> InRange(Aggregate(spec.mode, s) * spec.maxScore, spec.maxScore)
  {
    if AllFractions(s) {
      ScaledInRange(Aggregate(spec.mode, s), spec.maxScore);
    }
  }

  /** With testcase scores in [0, 1], a subtask is ACCEPTED exactly when every
      testcase scored 1, and REJECTED only with a zero subtask score. */
  lemma ClassifyMeaning(scores: seq<real>, subtaskScore: real)
    requires |scores| > 0 && AllFractions(scores)
    ensures Classify(scores, subtaskScore) == SubAccepted <==> forall i :: 0 <= i < |scores| ==> scores[i] == 1.0
    ensures Classify(scores, subtaskScore) == SubRejected ==> subtaskScore == 0.0
  {
    var m := MinReal(scores);
    if forall i :: 0 <= i < |scores| ==> scores[i] == 1.0 {
      assert m == 1.0;
    }
  }

  lemma SumOfFour(a: real, b: real, c: real, d: real)
    ensures SumReals([a, b, c, d]) == a + b + c + d
  {
    assert SumReals([d]) == d by { assert [d][1..] == []; }
    assert SumReals([c, d]) == c + d by { assert [c, d][1..] == [d]; }
    assert SumReals([b, c, d]) == b + c + d by { assert [b, c, d][1..] == [c, d]; }
    assert [a, b, c, d][1..] == [b, c, d];
  }

  /** The scenario of a task with one SUM subtask worth 100 and four
      testcases: all correct scores 100 and the subtask is ACCEPTED. */
  lemma WithoutGenAllCorrect()
    ensures Aggregate(Sum, [1.0, 1.0, 1.0, 1.0]) * 100.0 == 100.0
    ensures Classify([1.0, 1.0, 1.0, 1.0], 100.0) == SubAccepted
  {
    SumOfFour(1.0, 1.0, 1.0, 1.0);
    ClassifyMeaning([1.0, 1.0, 1.0, 1.0], 100.0);
  }

  /** Two correct testcases of four score 50 under SUM and 0 under MIN. */
  lemma WithoutGenHalfCorrect()
    ensures Aggregate(Sum, [1.0, 1.0, 0.0, 0.0]) * 100.0 == 50.0
    ensures Classify([1.0, 1.0, 0.0, 0.0], 50.0) == SubPartial
    ensures Aggregate(Min, [1.0, 1.0, 0.0, 0.0]) * 100.0 == 0.0
  {
    SumOfFour(1.0, 1.0, 0.0, 0.0);
    var half := [1.0, 1.0, 0.0, 0.0];
    assert half[2] == 0.0;
    assert MinReal(half) == 0.0;
  }

  /** No correct testcase scores 0 and the subtask is REJECTED. */
  lemma WithoutGenNoneCorrect()
    ensures Aggregate(Sum, [0.0, 0.0, 0.0, 0.0]) * 100.0 == 0.0
    ensures Classify([0.0, 0.0, 0.0, 0.0], 0.0) == SubRejected
  {
    SumOfFour(0.0, 0.0, 0.0, 0.0);
    var none := [0.0, 0.0, 0.0, 0.0];
    assert none[0] == 0.0;
    assert MinReal(none) == 0.0;
  }

  /** The scores of a subtask's testcases, in the order of the subtask. */
  function Scores(tcs: map<int, TestcaseInfo>, order: seq<int>): (s: seq<real>)
    requires forall i :: 0 <= i < |order| ==> order[i] in tcs
    ensures |s| == |order| && forall i :: 0 <= i < |order| ==> s[i] == tcs[order[i]].score
  {
    seq(|order|, i requires 0 <= i < |order| => tcs[order[i]].score)
  }

  predicate AllChecked(tcs: map<int, TestcaseInfo>) {
    forall tc :: tc in tcs ==> tcs[tc].checked
  }

  /** The sum of the subtask scores, in the order of the subtasks. */
  function SumScores(order: seq<int>, scores: map<int, real>): real
    requires forall i :: 0 <= i < |order| ==> order[i] in scores
  {
    if order == [] then 0.0 else scores[order[0]] + SumScores(order[1..], scores)
  }

  /** The sum of the subtasks' maximum scores. */
  function SumMax(order: seq<int>, specs: map<int, SubtaskSpec>): real
    requires forall i :: 0 <= i < |order| ==> order[i] in specs
  {
    if order == [] then 0.0 else specs[order[0]].maxScore + SumMax(order[1..], specs)
  }

  /** With non-negative maximum scores, a task score that sums subtask
      scores each within its range lies between 0 and the sum of the maxima. */
  lemma {:induction false} TaskScoreBounds(order: seq<int>, scores: map<int, real>, specs: map<int, SubtaskSpec>)
    requires forall i :: 0 <= i < |order| ==> order[i] in scores && order[i] in specs
    requires forall i :: 0 <= i < |order| ==> specs[order[i]].maxScore >= 0.0
    requires forall i :: 0 <= i < |order| ==> InRange(scores[order[i]], specs[order[i]].maxScore)
    ensures 0.0 <= SumScores(order, scores) <= SumMax(order, specs)
  {
    if order != [] {
      assert forall i :: 0 <= i < |order[1..]| ==> order[1..][i] == order[i + 1];
      TaskScoreBounds(order[1..], scores, specs);
    }
  }

  /** Replacing one subtask's score changes the task score by the difference. */
  lemma {:induction false} SumScoresUpdate(order: seq<int>, scores: map<int, real>, st: int, x: real)
    requires forall i :: 0 <= i < |order| ==> order[i] in scores
    requires st in scores
    requires Distinct(order)
    ensures SumScores(order, scores[st := x]) ==
              SumScores(order, scores) + (if st in order then x - scores[st] else 0.0)
  {
    if order != [] {
      assert forall i :: 0 <= i < |order[1..]| ==> order[1..][i] == order[i + 1];
      SumScoresUpdate(order[1..], scores, st, x);
      assert st in order <==> (st == order[0] || st in order[1..]);
      if st == order[0] {
        assert st !in order[1..];
      }
    }
  }

  // ---------------------------------------------------------------------------
  // The custom checker's state

  /** The three pieces a custom checker's verdict needs (its result, its
      standard output and standard error) and whether the verdict callback
      has been registered; `fired` counts how many times it was invoked. */
  class CustomCheckerState {
    const solution: string
    var result: Option<ExecResult>
    var stdout: Option<CheckerStdout>
    var stderr: Option<string>
    var callbackSet: bool

    predicate Ready()
      reads this
    {
      result.Some? && stdout.Some? && stderr.Some? && callbackSet
    }

    constructor (solution: string)
      ensures this.solution == solution
      ensures result.None? && stdout.None? && stderr.None? && !callbackSet
    {
      this.solution := solution;
      result, stdout, stderr, callbackSet := None, None, None, false;
    }

    /** Every setter stores its piece and then fires the callback exactly
        when all four pieces are there, so a later setter fires it again. */
    method SetResult(r: ExecResult) returns (fired: bool)
      modifies this
      ensures result == Some(r) && stdout == old(stdout) && stderr == old(stderr)
      ensures callbackSet == old(callbackSet)
      ensures fired <==> Ready()
    {
      result := Some(r);
      fired := Ready();
    }

    method SetStdout(s: CheckerStdout) returns (fired: bool)
      modifies this
      ensures stdout == Some(s) && result == old(result) && stderr == old(stderr)
      ensures callbackSet == old(callbackSet)
      ensures fired <==> Ready()
    {
      stdout := Some(s);
      fired := Ready();
    }

    method SetStderr(s: string) returns (fired: bool)
      modifies this
      ensures stderr == Some(s) && result == old(result) && stdout == old(stdout)
      ensures callbackSet == old(callbackSet)
      ensures fired <==> Ready()
    {
      stderr := Some(s);
      fired := Ready();
    }

    method SetCallback() returns (fired: bool)
      modifies this
      ensures callbackSet && result == old(result) && stdout == old(stdout) && stderr == old(stderr)
      ensures fired <==> Ready()
    {
      callbackSet := true;
      fired := Ready();
    }
  }

  // ---------------------------------------------------------------------------
  // The status of one solution on the whole task

  class SolutionStatus {
    const name: string
    const interface: Uis.UIInterface
    const specs: map<int, SubtaskSpec>
    /** The subtask numbers, in the task's order. */
    const order: seq<int>
    /** The testcase numbers of each subtask, in the subtask's order. */
    const layout: map<int, seq<int>>
    var score: real
    var subtaskScores: map<int, real>
    var subtaskResults: map<int, SubtaskResult>
    var testcaseResults: map<int, map<int, TestcaseInfo>>

    ghost predicate Valid()
      reads this
    {
      && Shape(order, layout, specs)
      && TestcasesFit(layout, testcaseResults)
      && ScoresFit(layout, specs, subtaskScores, subtaskResults)
      && score == SumScores(order, subtaskScores)
    }

    /** The subtask order lists each subtask of the layout once, each subtask
        lists its testcases once, and each subtask has a specification. */
    static predicate Shape(order: seq<int>, layout: map<int, seq<int>>, specs: map<int, SubtaskSpec>) {
      && Distinct(order)
      && (forall i :: 0 <= i < |order| ==> order[i] in layout)
      && (forall st :: st in layout ==> st in order)
      && layout.Keys <= specs.Keys
      && (forall st :: st in layout ==> Distinct(layout[st]))
    }

    /** One testcase record per testcase of each subtask, each scored in [0, 1]. */
    static predicate TestcasesFit(layout: map<int, seq<int>>, tcr: map<int, map<int, TestcaseInfo>>) {
      && tcr.Keys == layout.Keys
      && (forall st, i :: st in layout && 0 <= i < |layout[st]| ==> layout[st][i] in tcr[st])
      && (forall st, tc :: st in layout && tc in tcr[st] ==> tc in layout[st])
      && (forall st, tc :: st in tcr && tc in tcr[st] ==> 0.0 <= tcr[st][tc].score <= 1.0)
    }

    /** One score and one classification per subtask, each score in range. */
    static predicate ScoresFit(layout: map<int, seq<int>>, specs: map<int, SubtaskSpec>,
                               scores: map<int, real>, results: map<int, SubtaskResult>) {
      && scores.Keys == layout.Keys && results.Keys == layout.Keys && layout.Keys <= specs.Keys
      && (forall st :: st in scores ==> InRange(scores[st], specs[st].maxScore))
    }

    static lemma TestcasesFitUpdate(layout: map<int, seq<int>>, tcr: map<int, map<int, TestcaseInfo>>,
                                    st: int, tc: int, info: TestcaseInfo)
      requires TestcasesFit(layout, tcr) && st in layout && tc in tcr[st] && 0.0 <= info.score <= 1.0
      ensures TestcasesFit(layout, tcr[st := tcr[st][tc := info]])
    {
    }

    static lemma ScoresFitUpdate(layout: map<int, seq<int>>, specs: map<int, SubtaskSpec>,
                                 scores: map<int, real>, results: map<int, SubtaskResult>,
                                 st: int, x: real, r: SubtaskResult)
      requires ScoresFit(layout, specs, scores, results) && st in layout && InRange(x, specs[st].maxScore)
      ensures ScoresFit(layout, specs, scores[st := x], results[st := r])
    {
    }

    static lemma FitFractions(layout: map<int, seq<int>>, tcr: map<int, map<int, TestcaseInfo>>, st: int)
      requires TestcasesFit(layout, tcr) && st in layout
      ensures AllFractions(Scores(tcr[st], layout[st]))
    {
      var fs := Scores(tcr[st], layout[st]);
      forall i | 0 <= i < |fs| ensures 0.0 <= fs[i] <= 1.0 {
        var tc := layout[st][i];
        assert st in tcr && tc in tcr[st];
        assert 0.0 <= tcr[st][tc].score <= 1.0;
      }
    }

    constructor (name: string, interface: Uis.UIInterface, specs: map<int, SubtaskSpec>,
                 order: seq<int>, layout: map<int, seq<int>>)
      requires Distinct(order)
      requires (forall i :: 0 <= i < |order| ==> order[i] in layout) && (forall st :: st in layout ==> st in order)
      requires layout.Keys <= specs.Keys
      requires forall st :: st in layout ==> Distinct(layout[st])
      ensures Valid()
      ensures this.name == name && this.interface == interface && this.specs == specs
      ensures this.order == order && this.layout == layout
      ensures score == 0.0
      ensures forall st :: st in layout ==> subtaskScores[st] == 0.0 && subtaskResults[st] == SubWaiting
      ensures forall st, tc :: st in layout && tc in layout[st] ==> testcaseResults[st][tc] == InitialInfo
    {
      this.name, this.interface, this.specs, this.order, this.layout := name, interface, specs, order, layout;
      subtaskScores := map st | st in layout :: 0.0;
      subtaskResults := map st | st in layout :: SubWaiting;
      testcaseResults := map st | st in layout :: map tc | tc in layout[st] :: InitialInfo;
      score := 0.0;
      new;
      ZeroSum(order, subtaskScores);
    }

    static lemma {:induction false} ZeroSum(order: seq<int>, scores: map<int, real>)
      requires forall i :: 0 <= i < |order| ==> order[i] in scores && scores[order[i]] == 0.0
      ensures SumScores(order, scores) == 0.0
    {
      if order != [] {
        assert forall i :: 0 <= i < |order[1..]| ==> order[1..][i] == order[i + 1];
        ZeroSum(order[1..], scores);
      }
    }

    /** The scores of subtask `st`'s testcases. */
    ghost function SubtaskScores(st: int): seq<real>
      reads this
      requires Valid() && st in layout
    {
      Scores(testcaseResults[st], layout[st])
    }

    /** The subtask scores and classifications after _compute_st_score(st)
        on testcase records `tcr`: unchanged until every testcase of the
        subtask is checked; then subtask `st` alone gets the aggregate of its
        testcase scores times its maximum, and its classification. */
    function Recomputed(tcr: map<int, map<int, TestcaseInfo>>, scores: map<int, real>,
                        results: map<int, SubtaskResult>, st: int): (r: (map<int, real>, map<int, SubtaskResult>))
      requires Shape(order, layout, specs) && TestcasesFit(layout, tcr) && ScoresFit(layout, specs, scores, results)
      requires st in layout && |layout[st]| > 0
      ensures ScoresFit(layout, specs, r.0, r.1)
      ensures !AllChecked(tcr[st]) ==> r == (scores, results)
      ensures AllChecked(tcr[st]) ==>
                && r.0 == scores[st := r.0[st]] && r.1 == results[st := r.1[st]]
                && r.0[st] == SubtaskScore(specs[st], Scores(tcr[st], layout[st]))
    {
      if !AllChecked(tcr[st]) then (scores, results)
      else
        var fs := Scores(tcr[st], layout[st]);
        FitFractions(layout, tcr, st);
        var x := SubtaskScore(specs[st], fs);
        ScoresFitUpdate(layout, specs, scores, results, st, x, Classify(fs, x));
        (scores[st := x], results[st := Classify(fs, x)])
    }

    /** Once every testcase of a subtask is checked, its recomputed score is
        within its range, and it is ACCEPTED exactly when every testcase
        scored 1. */
    lemma RecomputedMeaning(tcr: map<int, map<int, TestcaseInfo>>, scores: map<int, real>,
                            results: map<int, SubtaskResult>, st: int)
      requires Shape(order, layout, specs) && TestcasesFit(layout, tcr) && ScoresFit(layout, specs, scores, results)
      requires st in layout && |layout[st]| > 0 && AllChecked(tcr[st])
      ensures var r := Recomputed(tcr, scores, results, st);
              && InRange(r.0[st], specs[st].maxScore)
              && (r.1[st] == SubAccepted <==> forall tc :: tc in tcr[st] ==> tcr[st][tc].score == 1.0)
              && (r.1[st] == SubRejected ==> r.0[st] == 0.0)
    {
      var fs := Scores(tcr[st], layout[st]);
      FitFractions(layout, tcr, st);
      var x := SubtaskScore(specs[st], fs);
      ClassifyMeaning(fs, x);
      AllOnesAgree(layout, tcr, st);
    }

    /** The three scenarios of tests/without_gen.py, through the recompute
        that ComputeStScore performs: a SUM subtask worth 100 whose four
        testcases are all checked gets 100 and ACCEPTED when all four scored
        1, 50 and PARTIAL when two did, and 0 and REJECTED when none did. */
    lemma WithoutGenRecomputed(tcr: map<int, map<int, TestcaseInfo>>, scores: map<int, real>,
                               results: map<int, SubtaskResult>, st: int)
      requires Shape(order, layout, specs) && TestcasesFit(layout, tcr) && ScoresFit(layout, specs, scores, results)
      requires st in layout && |layout[st]| == 4 && specs[st] == SubtaskSpec(Sum, 100.0) && AllChecked(tcr[st])
      ensures var fs := Scores(tcr[st], layout[st]);
              var r := Recomputed(tcr, scores, results, st);
              && (fs == [1.0, 1.0, 1.0, 1.0] ==> r.0[st] == 100.0 && r.1[st] == SubAccepted)
              && (fs == [1.0, 1.0, 0.0, 0.0] ==> r.0[st] == 50.0 && r.1[st] == SubPartial)
              && (fs == [0.0, 0.0, 0.0, 0.0] ==> r.0[st] == 0.0 && r.1[st] == SubRejected)
    {
      WithoutGenAllCorrect();
      WithoutGenHalfCorrect();
      WithoutGenNoneCorrect();
    }

    static lemma AllOnesAgree(layout: map<int, seq<int>>, tcr: map<int, map<int, TestcaseInfo>>, st: int)
      requires TestcasesFit(layout, tcr) && st in layout
      ensures var fs := Scores(tcr[st], layout[st]);
              (forall i :: 0 <= i < |fs| ==> fs[i] == 1.0) <==> (forall tc :: tc in tcr[st] ==> tcr[st][tc].score == 1.0)
    {
      var fs := Scores(tcr[st], layout[st]);
      if forall i :: 0 <= i < |fs| ==> fs[i] == 1.0 {
        forall tc | tc in tcr[st] ensures tcr[st][tc].score == 1.0 {
          assert tc in layout[st];
          var i :| 0 <= i < |layout[st]| && layout[st][i] == tc;
          assert fs[i] == 1.0;
        }
      }
      if forall tc :: tc in tcr[st] ==> tcr[st][tc].score == 1.0 {
        forall i | 0 <= i < |fs| ensures fs[i] == 1.0 {
          assert layout[st][i] in tcr[st];
        }
      }
    }

    /** _compute_st_score, with the task score kept the sum of the subtask scores. */
    method ComputeStScore(st: int)
      requires Valid() && st in layout && |layout[st]| > 0
      modifies this
      ensures Valid()
      ensures testcaseResults == old(testcaseResults)
      ensures (subtaskScores, subtaskResults) ==
                Recomputed(old(testcaseResults), old(subtaskScores), old(subtaskResults), st)
    {
      if !AllChecked(testcaseResults[st]) {
        return;
      }
      var r := Recomputed(testcaseResults, subtaskScores, subtaskResults, st);
      SumScoresUpdate(order, subtaskScores, st, r.0[st]);
      assert r.0 == subtaskScores[st := r.0[st]];
      subtaskScores, subtaskResults := r.0, r.1;
      score := SumScores(order, subtaskScores);
    }

    /** Installs a step's testcase information and recomputes the subtask
        score when the step asks for it. */
    method Apply(st: int, tc: int, step: Step)
      requires Valid() && st in layout && tc in testcaseResults[st]
      requires 0.0 <= step.info.score <= 1.0
      modifies this
      ensures Valid()
      ensures testcaseResults == old(testcaseResults)[st := old(testcaseResults)[st][tc := step.info]]
      ensures (subtaskScores, subtaskResults) ==
                if step.recompute then Recomputed(testcaseResults, old(subtaskScores), old(subtaskResults), st)
                else (old(subtaskScores), old(subtaskResults))
    {
      TestcasesFitUpdate(layout, testcaseResults, st, tc, step.info);
      testcaseResults := testcaseResults[st := testcaseResults[st][tc := step.info]];
      assert tc in layout[st];
      if step.recompute {
        ComputeStScore(st);
      }
    }

    /** update_eval_result: marks the subtask RUNNING, fills slot `num` and
        applies EvalStep. `ok` is false where the source raises. */
    method UpdateEvalResult(st: int, tc: int, result: ExecResult, num: nat) returns (ok: bool)
      requires Valid() && st in layout && tc in testcaseResults[st]
      requires num < |testcaseResults[st][tc].result|
      modifies this
      ensures Valid()
      ensures var step := EvalStep(old(testcaseResults)[st][tc], num, result);
              && ok == !step.raised
              && testcaseResults == old(testcaseResults)[st := old(testcaseResults)[st][tc := step.info]]
              && (subtaskScores, subtaskResults) ==
                   (if step.recompute
                    then Recomputed(testcaseResults, old(subtaskScores), old(subtaskResults)[st := SubRunning], st)
                    else (old(subtaskScores), old(subtaskResults)[st := SubRunning]))
    {
      ScoresFitUpdate(layout, specs, subtaskScores, subtaskResults, st, subtaskScores[st], SubRunning);
      assert subtaskScores[st := subtaskScores[st]] == subtaskScores;
      subtaskResults := subtaskResults[st := SubRunning];
      var step := EvalStep(testcaseResults[st][tc], num, result);
      Apply(st, tc, step);
      ok := !step.raised;
    }

    /** update_default_check_result. */
    method UpdateDefaultCheckResult(st: int, tc: int, result: ExecResult) returns (ok: bool)
      requires Valid() && st in layout && tc in testcaseResults[st]
      modifies this
      ensures Valid()
      ensures var step := DefaultCheckStep(old(testcaseResults)[st][tc], result);
              && ok == !step.raised
              && testcaseResults == old(testcaseResults)[st := old(testcaseResults)[st][tc := step.info]]
              && (subtaskScores, subtaskResults) ==
                   (if step.recompute then Recomputed(testcaseResults, old(subtaskScores), old(subtaskResults), st)
                    else (old(subtaskScores), old(subtaskResults)))
    {
      var step := DefaultCheckStep(testcaseResults[st][tc], result);
      Apply(st, tc, step);
      ok := !step.raised;
    }

    /** update_custom_check_result: the error of an invalid checker output
        goes to the interface. */
    method UpdateCustomCheckResult(st: int, tc: int, checker: ExecResult, stdout: CheckerStdout,
                                   stderr: string) returns (ok: bool)
      requires Valid() && st in layout && tc in testcaseResults[st]
      modifies this, interface
      ensures Valid()
      ensures var step := CustomCheckStep(old(testcaseResults)[st][tc], checker, stdout, stderr, tc, name);
              && ok == !step.raised
              && testcaseResults == old(testcaseResults)[st := old(testcaseResults)[st][tc := step.info]]
              && (subtaskScores, subtaskResults) ==
                   (if step.recompute then Recomputed(testcaseResults, old(subtaskScores), old(subtaskResults), st)
                    else (old(subtaskScores), old(subtaskResults)))
              && interface.errors == old(interface.errors) + (if step.error.Some? then [step.error.value] else [])
      ensures interface.warnings == old(interface.warnings) && interface.solutions == old(interface.solutions)
      ensures interface.nonSolutions == old(interface.nonSolutions) && interface.statements == old(interface.statements)
    {
      var step := CustomCheckStep(testcaseResults[st][tc], checker, stdout, stderr, tc, name);
      Apply(st, tc, step);
      if step.error.Some? {
        interface.AddError(step.error.value);
      }
      ok := !step.raised;
    }

    /** add_evaluate_solution's reset: `count` empty evaluation slots. */
    method StartEvaluation(st: int, tc: int, count: nat)
      requires Valid() && st in layout && tc in testcaseResults[st]
      modifies this
      ensures Valid()
      ensures testcaseResults == old(testcaseResults)[st := old(testcaseResults)[st][tc :=
                old(testcaseResults)[st][tc].(result := seq(count, _ => None))]]
      ensures subtaskScores == old(subtaskScores) && subtaskResults == old(subtaskResults) && score == old(score)
    {
      var info := testcaseResults[st][tc].(result := seq(count, _ => None));
      TestcasesFitUpdate(layout, testcaseResults, st, tc, info);
      testcaseResults := testcaseResults[st := testcaseResults[st][tc := info]];
    }

    /** The status change of an on_start or on_skip callback. */
    method SetTestcaseStatus(st: int, tc: int, status: TestcaseStatus)
      requires Valid() && st in layout && tc in testcaseResults[st]
      modifies this
      ensures Valid()
      ensures testcaseResults == old(testcaseResults)[st := old(testcaseResults)[st][tc :=
                old(testcaseResults)[st][tc].(status := status)]]
      ensures subtaskScores == old(subtaskScores) && subtaskResults == old(subtaskResults) && score == old(score)
    {
      var info := testcaseResults[st][tc].(status := status);
      TestcasesFitUpdate(layout, testcaseResults, st, tc, info);
      testcaseResults := testcaseResults[st := testcaseResults[st][tc := info]];
    }
  }

  // ---------------------------------------------------------------------------
  // The slot an evaluation's on_done callback writes

  /** The slot written by the on_done callback of evaluation k of `count`.
      The closures of add_evaluate_solution read the loop variable when they
      run, after the loop, so as written (`late`) each writes slot count - 1;
      the intended slot is k. */
  function SlotOf(k: nat, count: nat, late: bool): (n: nat)
    requires k < count
    ensures n < count
    ensures !late ==> n == k
    ensures late ==> n == count - 1
  {
    if late then count - 1 else k
  }

  /** The slots after the on_done callbacks of evaluations 0, 1, ... fired, in
      that order, with the given results. */
  function Fill(count: nat, results: seq<ExecResult>, late: bool): (slots: seq<Option<ExecResult>>)
    requires |results| <= count
    ensures |slots| == count
    decreases |results|
  {
    if results == [] then seq(count, _ => None)
    else
      var k := |results| - 1;
      Fill(count, results[..k], late)[SlotOf(k, count, late) := Some(results[k])]
  }

  /** With each callback writing its own slot, slot i holds result i once
      callback i has fired and is empty before. */
  lemma {:induction false} IntendedFill(count: nat, results: seq<ExecResult>)
    requires |results| <= count
    ensures forall i :: 0 <= i < count ==>
              Fill(count, results, false)[i] == (if i < |results| then Some(results[i]) else None)
    decreases |results|
  {
    if results != [] {
      var k := |results| - 1;
      IntendedFill(count, results[..k]);
    }
  }

  /** As written, only the last slot is ever written. */
  lemma {:induction false} LateFill(count: nat, results: seq<ExecResult>)
    requires |results| <= count
    ensures forall i :: 0 <= i < count - 1 ==> Fill(count, results, true)[i].None?
    ensures results != [] ==> Fill(count, results, true)[count - 1] == Some(results[|results| - 1])
    decreases |results|
  {
    if results != [] {
      LateFill(count, results[..|results| - 1]);
    }
  }

  /** With two or more evaluation processes, once every callback fired the
      intended slots are all filled, while the slots as written still miss
      the first one. */
  lemma LateBindingNeverFills(results: seq<ExecResult>)
    requires |results| >= 2
    ensures AllPresent(Fill(|results|, results, false))
    ensures !AllPresent(Fill(|results|, results, true))
    ensures Fill(|results|, results, true)[0].None?
  {
    IntendedFill(|results|, results);
    LateFill(|results|, results);
    assert Fill(|results|, results, true)[0].None?;
  }

  /** As written, an evaluation's result never decides a testcase whose first
      slot is empty: the testcase keeps its status and no subtask score is
      computed. */
  lemma LateBoundEvalNeverDecides(info: TestcaseInfo, k: nat, result: ExecResult)
    requires |info.result| >= 2 && k < |info.result| && info.result[0].None?
    ensures var step := EvalStep(info, SlotOf(k, |info.result|, true), result);
            && step.info.status == info.status && !step.recompute && !step.raised
            && step.info.checked == info.checked
  {
    var slots := info.result[|info.result| - 1 := Some(result)];
    assert slots[0].None?;
  }

  // ---------------------------------------------------------------------------
  // The callbacks bound by add_evaluate_solution and add_evaluate_checking

  /** The callbacks of the evaluation processes of one solution on one
      testcase; `started` and `skipped` are shared by all of them. */
  class EvaluationBinding {
    const solution: SolutionStatus
    const subtask: int
    const testcase: int
    const count: nat
    var started: bool
    var skipped: bool

    constructor (solution: SolutionStatus, subtask: int, testcase: int, count: nat)
      ensures this.solution == solution && this.subtask == subtask && this.testcase == testcase
      ensures this.count == count && !started && !skipped
    {
      this.solution, this.subtask, this.testcase, this.count := solution, subtask, testcase, count;
      started, skipped := false, false;
    }

    ghost predicate Bound()
      reads this, solution
    {
      solution.Valid() && subtask in solution.layout && testcase in solution.testcaseResults[subtask]
    }

    /** on_start: the first start of a process that was not skipped makes the
        testcase SOLVING. */
    method OnStart()
      requires Bound()
      modifies this, solution
      ensures Bound() && skipped == old(skipped) && started == (old(started) || !old(skipped))
      ensures solution.testcaseResults ==
                if !old(started) && !old(skipped)
                then old(solution.testcaseResults)[subtask := old(solution.testcaseResults)[subtask][testcase :=
                       old(solution.testcaseResults)[subtask][testcase].(status := TcSolving)]]
                else old(solution.testcaseResults)
      ensures solution.subtaskScores == old(solution.subtaskScores) && solution.score == old(solution.score)
      ensures solution.subtaskResults == old(solution.subtaskResults)
    {
      if !started && !skipped {
        solution.SetTestcaseStatus(subtask, testcase, TcSolving);
        started := true;
      }
    }

    /** on_skip: the testcase is SKIPPED and no later start changes it. */
    method OnSkip()
      requires Bound()
      modifies this, solution
      ensures Bound() && skipped && started == old(started)
      ensures solution.testcaseResults ==
                old(solution.testcaseResults)[subtask := old(solution.testcaseResults)[subtask][testcase :=
                  old(solution.testcaseResults)[subtask][testcase].(status := Skipped)]]
      ensures solution.subtaskScores == old(solution.subtaskScores) && solution.score == old(solution.score)
      ensures solution.subtaskResults == old(solution.subtaskResults)
    {
      skipped := true;
      solution.SetTestcaseStatus(subtask, testcase, Skipped);
    }

    /** on_done of evaluation k, as written: the result goes to the slot the
        loop variable names after the loop. */
    method OnDone(k: nat, result: ExecResult) returns (ok: bool)
      requires Bound() && k < count && count - 1 < |solution.testcaseResults[subtask][testcase].result|
      modifies solution
      ensures Bound()
      ensures var step := EvalStep(old(solution.testcaseResults)[subtask][testcase], SlotOf(k, count, true), result);
              && ok == !step.raised
              && solution.testcaseResults == old(solution.testcaseResults)[subtask :=
                   old(solution.testcaseResults)[subtask][testcase := step.info]]
              && (solution.subtaskScores, solution.subtaskResults) ==
                   (if step.recompute
                    then solution.Recomputed(solution.testcaseResults, old(solution.subtaskScores),
                                             old(solution.subtaskResults)[subtask := SubRunning], subtask)
                    else (old(solution.subtaskScores), old(solution.subtaskResults)[subtask := SubRunning]))
    {
      ok := solution.UpdateEvalResult(subtask, testcase, result, SlotOf(k, count, true));
    }

    /** on_done of evaluation k as intended: the result goes to slot k. */
    method OnDoneIntended(k: nat, result: ExecResult) returns (ok: bool)
      requires Bound() && k < count && count <= |solution.testcaseResults[subtask][testcase].result|
      modifies solution
      ensures Bound()
      ensures var step := EvalStep(old(solution.testcaseResults)[subtask][testcase], SlotOf(k, count, false), result);
              && ok == !step.raised
              && solution.testcaseResults == old(solution.testcaseResults)[subtask :=
                   old(solution.testcaseResults)[subtask][testcase := step.info]]
              && (solution.subtaskScores, solution.subtaskResults) ==
                   (if step.recompute
                    then solution.Recomputed(solution.testcaseResults, old(solution.subtaskScores),
                                             old(solution.subtaskResults)[subtask := SubRunning], subtask)
                    else (old(solution.subtaskScores), old(solution.subtaskResults)[subtask := SubRunning]))
    {
      ok := solution.UpdateEvalResult(subtask, testcase, result, SlotOf(k, count, false));
    }
  }

  function CheckerFailedMessage(testcase: int, solution: string): string {
    "Checker failed for testcase #" + IntToString(testcase) + " for solution " + solution
  }

  /** The callbacks of the checking of one solution on one testcase. With a
      custom checker its verdict is taken once result, standard output and
      standard error are all known. */
  class CheckingBinding {
    const solution: SolutionStatus
    const ui: Uis.UIInterface
    const subtask: int
    const testcase: int
    const hasCustomChecker: bool
    const state: CustomCheckerState

    constructor (solution: SolutionStatus, ui: Uis.UIInterface, subtask: int, testcase: int,
                 hasCustomChecker: bool, name: string)
      ensures this.solution == solution && this.ui == ui && this.subtask == subtask
      ensures this.testcase == testcase && this.hasCustomChecker == hasCustomChecker
      ensures fresh(state) && state.solution == name
      ensures state.result.None? && state.stdout.None? && state.stderr.None?
      ensures state.callbackSet == hasCustomChecker
    {
      this.solution, this.ui, this.subtask, this.testcase := solution, ui, subtask, testcase;
      this.hasCustomChecker := hasCustomChecker;
      state := new CustomCheckerState(name);
      new;
      if hasCustomChecker {
        var fired := state.SetCallback();
      }
    }

    ghost predicate Bound()
      reads this, solution
    {
      && solution.Valid() && subtask in solution.layout && testcase in solution.testcaseResults[subtask]
      && solution.interface == ui
    }

    /** on_start: the testcase is CHECKING. */
    method OnStart()
      requires Bound()
      modifies solution
      ensures Bound()
      ensures solution.testcaseResults ==
                old(solution.testcaseResults)[subtask := old(solution.testcaseResults)[subtask][testcase :=
                  old(solution.testcaseResults)[subtask][testcase].(status := Checking)]]
      ensures solution.subtaskScores == old(solution.subtaskScores) && solution.score == old(solution.score)
      ensures solution.subtaskResults == old(solution.subtaskResults)
    {
      solution.SetTestcaseStatus(subtask, testcase, Checking);
    }

    /** on_checked: the custom checker's verdict, from the gathered state. */
    method OnChecked() returns (ok: bool)
      requires Bound() && state.Ready()
      modifies solution, ui
      ensures Bound()
      ensures var step := CustomCheckStep(old(solution.testcaseResults)[subtask][testcase], state.result.value,
                                          state.stdout.value, state.stderr.value, testcase, solution.name);
              && ok == !step.raised
              && solution.testcaseResults == old(solution.testcaseResults)[subtask :=
                   old(solution.testcaseResults)[subtask][testcase := step.info]]
              && (solution.subtaskScores, solution.subtaskResults) ==
                   (if step.recompute
                    then solution.Recomputed(solution.testcaseResults, old(solution.subtaskScores),
                                             old(solution.subtaskResults), subtask)
                    else (old(solution.subtaskScores), old(solution.subtaskResults)))
              && ui.errors == old(ui.errors) + (if step.error.Some? then [step.error.value] else [])
      ensures ui.warnings == old(ui.warnings)
    {
      ok := solution.UpdateCustomCheckResult(subtask, testcase, state.result.value, state.stdout.value,
                                             state.stderr.value);
    }

    /** Fires the verdict when a setter found the state complete. */
    method FireIfReady(fired: bool) returns (ok: bool)
      requires Bound() && (fired ==> state.Ready())
      modifies solution, ui
      ensures Bound() && ui.warnings == old(ui.warnings)
      ensures !fired ==> (ok && ui.errors == old(ui.errors)
                          && solution.testcaseResults == old(solution.testcaseResults)
                          && solution.subtaskScores == old(solution.subtaskScores)
                          && solution.subtaskResults == old(solution.subtaskResults)
                          && solution.score == old(solution.score))
      ensures fired ==>
                var step := CustomCheckStep(old(solution.testcaseResults)[subtask][testcase], state.result.value,
                                            state.stdout.value, state.stderr.value, testcase, solution.name);
                && ok == !step.raised
                && solution.testcaseResults == old(solution.testcaseResults)[subtask :=
                     old(solution.testcaseResults)[subtask][testcase := step.info]]
                && (solution.subtaskScores, solution.subtaskResults) ==
                     (if step.recompute
                      then solution.Recomputed(solution.testcaseResults, old(solution.subtaskScores),
                                               old(solution.subtaskResults), subtask)
                      else (old(solution.subtaskScores), old(solution.subtaskResults)))
                && ui.errors == old(ui.errors) + (if step.error.Some? then [step.error.value] else [])
    {
      ok := true;
      if fired {
        ok := OnChecked();
      }
    }

    /** The first part of on_done: the result is stored (firing the verdict
        only when the outputs are already known) and a failed checker adds
        one error. */
    method DeliverResult(result: ExecResult) returns (ok: bool)
      requires Bound()
      modifies state, solution, ui
      ensures Bound() && ui.warnings == old(ui.warnings)
      ensures state.result == Some(result) && state.stdout == old(state.stdout) && state.stderr == old(state.stderr)
      ensures state.callbackSet == old(state.callbackSet)
      ensures old(state.stdout).None? ==>
                && ok && solution.testcaseResults == old(solution.testcaseResults)
                && solution.subtaskScores == old(solution.subtaskScores)
                && solution.subtaskResults == old(solution.subtaskResults)
                && solution.score == old(solution.score)
                && ui.errors == old(ui.errors)
                     + (if result.status != Success then [CheckerFailedMessage(testcase, state.solution)] else [])
    {
      var fired := state.SetResult(result);
      ok := FireEarly(fired);
      if !ok {
        return;
      }
      if result.status != Success {
        ui.AddError(CheckerFailedMessage(testcase, state.solution));
      }
    }

    /** The second part of on_done: the standard output is stored, firing
        the verdict only when the standard error is already known. */
    method DeliverStdout(stdout: CheckerStdout) returns (ok: bool)
      requires Bound()
      modifies state, solution, ui
      ensures Bound() && ui.warnings == old(ui.warnings)
      ensures state.stdout == Some(stdout) && state.result == old(state.result) && state.stderr == old(state.stderr)
      ensures state.callbackSet == old(state.callbackSet)
      ensures old(state.stderr).None? ==>
                && ok && solution.testcaseResults == old(solution.testcaseResults) && ui.errors == old(ui.errors)
                && solution.subtaskScores == old(solution.subtaskScores)
                && solution.subtaskResults == old(solution.subtaskResults)
                && solution.score == old(solution.score)
    {
      var fired := state.SetStdout(stdout);
      ok := FireEarly(fired);
    }

    /** The last setter of on_done: storing the standard error fires the
        verdict whenever the callback is registered. */
    method FinishCustom(result: ExecResult, stdout: CheckerStdout, stderr: string) returns (ok: bool)
      requires Bound() && state.result == Some(result) && state.stdout == Some(stdout)
      modifies state, solution, ui
      ensures Bound() && ui.warnings == old(ui.warnings)
      ensures state.callbackSet ==>
                var step := CustomCheckStep(old(solution.testcaseResults)[subtask][testcase], result,
                                            stdout, stderr, testcase, solution.name);
                && ok == !step.raised
                && solution.testcaseResults == old(solution.testcaseResults)[subtask :=
                     old(solution.testcaseResults)[subtask][testcase := step.info]]
                && (solution.subtaskScores, solution.subtaskResults) ==
                     (if step.recompute
                      then solution.Recomputed(solution.testcaseResults, old(solution.subtaskScores),
                                               old(solution.subtaskResults), subtask)
                      else (old(solution.subtaskScores), old(solution.subtaskResults)))
                && ui.errors == old(ui.errors) + (if step.error.Some? then [step.error.value] else [])
    {
      var fired := state.SetStderr(stderr);
      ok := FireIfReady(fired);
    }

    /** As FireIfReady, where only the case that does not fire matters. */
    method FireEarly(fired: bool) returns (ok: bool)
      requires Bound() && (fired ==> state.Ready())
      modifies solution, ui
      ensures Bound() && ui.warnings == old(ui.warnings)
      ensures !fired ==> (ok && ui.errors == old(ui.errors)
                          && solution.testcaseResults == old(solution.testcaseResults)
                          && solution.subtaskScores == old(solution.subtaskScores)
                          && solution.subtaskResults == old(solution.subtaskResults)
                          && solution.score == old(solution.score))
    {
      ok := FireIfReady(fired);
    }

    /** on_done of the checking, with the process's standard output and error.
        Without a custom checker the default checker's verdict is taken. With
        one, the three pieces are stored in turn, each possibly firing the
        verdict, and a failed checker adds one error; on the first call the
        verdict fires exactly once, after the standard error. */
    method OnDone(result: ExecResult, stdout: CheckerStdout, stderr: string) returns (ok: bool)
      requires Bound()
      modifies state, solution, ui
      ensures Bound()
      ensures !hasCustomChecker ==>
                var step := DefaultCheckStep(old(solution.testcaseResults)[subtask][testcase], result);
                && ok == !step.raised
                && solution.testcaseResults == old(solution.testcaseResults)[subtask :=
                     old(solution.testcaseResults)[subtask][testcase := step.info]]
                && (solution.subtaskScores, solution.subtaskResults) ==
                     (if step.recompute
                      then solution.Recomputed(solution.testcaseResults, old(solution.subtaskScores),
                                               old(solution.subtaskResults), subtask)
                      else (old(solution.subtaskScores), old(solution.subtaskResults)))
                && ui.errors == old(ui.errors)
      ensures hasCustomChecker && state.callbackSet && old(state.stdout).None? && old(state.stderr).None? ==>
                var step := CustomCheckStep(old(solution.testcaseResults)[subtask][testcase], result,
                                            stdout, stderr, testcase, solution.name);
                && ok == !step.raised
                && solution.testcaseResults == old(solution.testcaseResults)[subtask :=
                     old(solution.testcaseResults)[subtask][testcase := step.info]]
                && (solution.subtaskScores, solution.subtaskResults) ==
                     (if step.recompute
                      then solution.Recomputed(solution.testcaseResults, old(solution.subtaskScores),
                                               old(solution.subtaskResults), subtask)
                      else (old(solution.subtaskScores), old(solution.subtaskResults)))
                && ui.errors == old(ui.errors)
                     + (if result.status != Success
                        then [CheckerFailedMessage(testcase, state.solution)]
                        else [])
                     + (if step.error.Some? then [step.error.value] else [])
      ensures ui.warnings == old(ui.warnings)
    {
      if !hasCustomChecker {
        ok := solution.UpdateDefaultCheckResult(subtask, testcase, result);
        return;
      }
      ok := DeliverResult(result);
      if !ok {
        return;
      }
      ok := DeliverStdout(stdout);
      if !ok {
        return;
      }
      ok := FinishCustom(result, stdout, stderr);
    }
  }

  // ---------------------------------------------------------------------------
  // The interface of an IOI-like task (IOIUIInterface)

  /** The three tracked steps of producing a testcase. */
  datatype Phase = Generation | Validation | Solving

  function PhaseStarted(p: Phase): GenerationStatus {
    match p
    case Generation => Generating
    case Validation => Validating
    case Solving => GenSolving
  }

  function PhasePrefix(p: Phase): string {
    match p
    case Generation => "Failed to generate testcase #"
    case Validation => "Failed to validate testcase #"
    case Solving => "Failed to generate output of testcase #"
  }

  function PhaseError(p: Phase, testcase: int): string {
    PhasePrefix(p) + IntToString(testcase)
  }

  lemma SamePrefix(x: string, y: string, s: string, t: string, i: nat)
    requires x + s == y + t && i < |x| && i < |y|
    ensures x[i] == y[i]
  {
    assert (x + s)[i] == x[i];
    assert (y + t)[i] == y[i];
  }

  lemma SameTail(x: string, s: string, t: string)
    requires x + s == x + t
    ensures s == t
  {
    assert s == (x + s)[|x|..];
    assert t == (x + t)[|x|..];
  }

  /** The outcome of a phase's on_done: the next status on success; FAILURE
      and exactly one error naming the phase and the testcase otherwise. */
  function PhaseOutcome(p: Phase, testcase: int, result: ExecResult): (r: (GenerationStatus, Option<string>))
    ensures r.1.None? <==> result.status == Success
    ensures r.0 == GenFailure <==> result.status != Success
    ensures r.1.Some? ==> r.1.value == PhaseError(p, testcase)
  {
    if result.status != Success then (GenFailure, Some(PhaseError(p, testcase)))
    else match p
      case Generation => (Generated, None)
      case Validation => (Validated, None)
      case Solving => (GenDone, None)
  }

  /** Different phases or testcases never fail with the same error. */
  lemma PhaseErrorsDistinct(p: Phase, a: int, q: Phase, b: int)
    ensures PhaseError(p, a) == PhaseError(q, b) ==> p == q && a == b
  {
    if PhaseError(p, a) == PhaseError(q, b) {
      var x, y := PhasePrefix(p), PhasePrefix(q);
      SamePrefix(x, y, IntToString(a), IntToString(b), 10);
      SamePrefix(x, y, IntToString(a), IntToString(b), 19);
      if p == q {
        SameTail(x, IntToString(a), IntToString(b));
        IntToStringInjective(a, b);
      }
    }
  }

  class IOIUIInterface {
    const ui: Uis.UIInterface
    const specs: map<int, SubtaskSpec>
    const order: seq<int>
    const layout: map<int, seq<int>>
    const hasCustomChecker: bool
    var generation: map<int, map<int, GenerationStatus>>
    var testing: map<string, SolutionStatus>

    constructor (specs: map<int, SubtaskSpec>, order: seq<int>, layout: map<int, seq<int>>, hasCustomChecker: bool)
      requires SolutionStatus.Shape(order, layout, specs)
      ensures this.specs == specs && this.order == order && this.layout == layout
      ensures this.hasCustomChecker == hasCustomChecker && fresh(ui)
      ensures ui.solutions == map[] && ui.errors == [] && ui.warnings == []
      ensures generation == map st | st in layout :: map tc | tc in layout[st] :: GenWaiting
      ensures testing == map[]
    {
      ui := new Uis.UIInterface();
      this.specs, this.order, this.layout, this.hasCustomChecker := specs, order, layout, hasCustomChecker;
      generation := map st | st in layout :: map tc | tc in layout[st] :: GenWaiting;
      testing := map[];
    }

    /** The solution is tracked by this interface, over the task's subtasks. */
    ghost predicate Tracks(name: string)
      reads this, testing[name]
      requires name in testing
    {
      var s := testing[name];
      s.Valid() && s.interface == ui && s.layout == layout && s.order == order && s.specs == specs
    }

    /** add_solution: the solution is added to the interface and gets a fresh
        status, every testcase WAITING and every score 0. */
    method AddSolution(name: string, needCompilation: bool)
      requires SolutionStatus.Shape(order, layout, specs)
      modifies this, ui
      ensures ui.solutions == old(ui.solutions)[name :=
                Uis.CompilationEntry(needCompilation, if needCompilation then Uis.Waiting else Uis.Done)]
      ensures ui.errors == old(ui.errors) && ui.warnings == old(ui.warnings)
      ensures testing.Keys == old(testing.Keys) + {name}
      ensures forall n :: n in old(testing) && n != name ==> testing[n] == old(testing[n])
      ensures fresh(testing[name]) && Tracks(name) && testing[name].name == name && testing[name].score == 0.0
      ensures generation == old(generation)
    {
      ui.AddSolution(name, needCompilation);
      var status := new SolutionStatus(name, ui, specs, order, layout);
      testing := testing[name := status];
    }

    /** on_start of a generation, validation or solving. */
    method StartPhase(p: Phase, st: int, tc: int)
      requires st in generation && tc in generation[st]
      modifies this
      ensures generation == old(generation)[st := old(generation)[st][tc := PhaseStarted(p)]]
      ensures testing == old(testing)
    {
      generation := generation[st := generation[st][tc := PhaseStarted(p)]];
    }

    /** on_done of a generation, validation or solving. */
    method FinishPhase(p: Phase, st: int, tc: int, result: ExecResult)
      requires st in generation && tc in generation[st]
      modifies this, ui
      ensures var r := PhaseOutcome(p, tc, result);
              && generation == old(generation)[st := old(generation)[st][tc := r.0]]
              && ui.errors == old(ui.errors) + (if r.1.Some? then [r.1.value] else [])
      ensures ui.warnings == old(ui.warnings) && ui.solutions == old(ui.solutions)
      ensures testing == old(testing)
    {
      var r := PhaseOutcome(p, tc, result);
      if r.1.Some? {
        ui.AddError(r.1.value);
      }
      generation := generation[st := generation[st][tc := r.0]];
    }

    /** add_evaluate_solution: `count` empty slots and the binding of the
        processes' callbacks. */
    method AddEvaluateSolution(st: int, tc: int, name: string, count: nat) returns (b: EvaluationBinding)
      requires name in testing && Tracks(name) && st in layout && tc in layout[st]
      modifies testing[name]
      ensures fresh(b) && b.solution == testing[name] && b.subtask == st && b.testcase == tc
      ensures b.count == count && !b.started && !b.skipped && b.Bound()
      ensures testing[name].testcaseResults == old(testing[name].testcaseResults)[st :=
                old(testing[name].testcaseResults)[st][tc :=
                  old(testing[name].testcaseResults)[st][tc].(result := seq(count, _ => None))]]
      ensures |testing[name].testcaseResults[st][tc].result| == count
    {
      var status := testing[name];
      assert tc in status.testcaseResults[st];
      status.StartEvaluation(st, tc, count);
      b := new EvaluationBinding(status, st, tc, count);
    }

    /** add_evaluate_checking: the binding of the checker's callbacks, with
        the verdict callback registered when the task has a custom checker. */
    method AddEvaluateChecking(st: int, tc: int, name: string) returns (b: CheckingBinding)
      requires name in testing && Tracks(name) && st in layout && tc in layout[st]
      ensures fresh(b) && b.solution == testing[name] && b.ui == ui && b.subtask == st && b.testcase == tc
      ensures b.hasCustomChecker == hasCustomChecker && b.state.callbackSet == hasCustomChecker
      ensures b.state.result.None? && b.state.stdout.None? && b.state.stderr.None?
      ensures b.Bound()
    {
      assert tc in testing[name].testcaseResults[st];
      b := new CheckingBinding(testing[name], ui, st, tc, hasCustomChecker, name);
    }
  }
}

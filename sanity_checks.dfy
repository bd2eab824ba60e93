/** The consistency checks of an IOI-like task (python/sanity_checks/ioi.py):
    the subtask listings found in the LaTeX statements against the task's
    subtasks, the score sums, the verdict of the checker on the sample
    cases and the content of the att/ and sol/ folders. Every check reports
    through the interface's warnings or errors. Regular expressions, the
    filesystem and git are left out: the matches and the file tests are
    given. */
module SanityChecks {
  import opened Common
  import Uis

  // ---------------------------------------------------------------------------
  // Numbers in the statement

  /** A non-empty run of decimal digits, as `[0-9]+` matches. */
  predicate Digits(s: string) {
    |s| > 0 && forall i :: 0 <= i < |s| ==> '0' <= s[i] <= '9'
  }

  /** Python's `int` on a run of digits. */
  function DecValue(s: string): (n: nat)
    requires Digits(s)
    decreases |s|
  {
    var d := (s[|s| - 1] as int - '0' as int) as nat;
    if |s| == 1 then d else DecValue(s[..|s| - 1]) * 10 + d
  }

  // ---------------------------------------------------------------------------
  // check_oii_format

  function NonSequential(statement: string): string {
    "The subtasks in the statement " + statement + " are non-sequentially numbered"
  }

  function DontMatch(statement: string): string {
    "The subtasks in the statement " + statement + " don't match the task's ones"
  }

  /** `int(matches[0][0] == '1')`: the numbering is 1-based exactly when the
      first number is the text "1". */
  function OneBased(matches: seq<(string, string)>): (b: int)
    requires matches != []
    ensures b == 1 <==> matches[0].0 == "1"
    ensures b == 0 <==> matches[0].0 != "1"
  {
    if matches[0].0 == "1" then 1 else 0
  }

  predicate AllDigits(matches: seq<(string, string)>) {
    forall i :: 0 <= i < |matches| ==> Digits(matches[i].0) && Digits(matches[i].1)
  }

  /** The subtask number of a match, shifted to start from 0. */
  function Listed(m: (string, string), oneBased: int): int
    requires Digits(m.0)
  {
    DecValue(m.0) - oneBased
  }

  /** The `k`-th listed subtask does not match: the task has no subtask `k`
      or its maximum score differs from the listed one. */
  predicate OiiMismatch(m: (string, string), k: int, maxScores: map<int, real>)
    requires Digits(m.1)
  {
    k !in maxScores || maxScores[k] != DecValue(m.1) as real
  }

  /** The warning check_oii_format gives: none without matches; the numbering
      one when some listed number is out of sequence; otherwise the mismatch
      one when some listed subtask does not match. */
  function OiiWarnings(statement: string, matches: seq<(string, string)>, maxScores: map<int, real>): seq<string>
    requires AllDigits(matches)
  {
    if matches == [] then []
    else
      var ob := OneBased(matches);
      if exists i :: 0 <= i < |matches| && Listed(matches[i], ob) != i then [NonSequential(statement)]
      else if exists i :: 0 <= i < |matches| && OiiMismatch(matches[i], i, maxScores) then [DontMatch(statement)]
      else []
  }

  /** check_oii_format gives at most one warning; the numbering warning wins
      over the mismatch one, and a statement whose subtasks are listed as
      0, 1, ... (or 1, 2, ...) with the task's maximum scores gives none. */
  lemma OiiWarningsCases(statement: string, matches: seq<(string, string)>, maxScores: map<int, real>)
    requires AllDigits(matches)
    ensures |OiiWarnings(statement, matches, maxScores)| <= 1
    ensures matches == [] ==> OiiWarnings(statement, matches, maxScores) == []
    ensures matches != [] && (exists i :: 0 <= i < |matches| && Listed(matches[i], OneBased(matches)) != i) ==>
              OiiWarnings(statement, matches, maxScores) == [NonSequential(statement)]
    ensures matches != [] && (forall i :: 0 <= i < |matches| ==> Listed(matches[i], OneBased(matches)) == i) ==>
              (OiiWarnings(statement, matches, maxScores) == [] <==>
               forall i :: 0 <= i < |matches| ==> i in maxScores && maxScores[i] == DecValue(matches[i].1) as real)
  {
    if matches != [] && (forall i :: 0 <= i < |matches| ==> Listed(matches[i], OneBased(matches)) == i) {
      if OiiWarnings(statement, matches, maxScores) == [] {
        forall i | 0 <= i < |matches|
          ensures i in maxScores && maxScores[i] == DecValue(matches[i].1) as real
        {
          assert !OiiMismatch(matches[i], i, maxScores);
        }
      }
    }
  }

  /** The numbering check passes exactly for subtasks listed as 0, 1, 2, ...
      or as 1, 2, 3, ... with the first written as "1" (so "01", "02", ...
      is out of sequence). */
  lemma SequentialNumbering(matches: seq<(string, string)>)
    requires AllDigits(matches) && matches != []
    ensures (forall i :: 0 <= i < |matches| ==> Listed(matches[i], OneBased(matches)) == i) <==>
            || (forall i :: 0 <= i < |matches| ==> DecValue(matches[i].0) == i)
            || (matches[0].0 == "1" && forall i :: 0 <= i < |matches| ==> DecValue(matches[i].0) == i + 1)
  {
  }

  /** check_oii_format: scans the matches until the first number out of
      sequence, noting any mismatch on the way, then warns. */
  method CheckOiiFormat(ui: Uis.UIInterface, statement: string, matches: seq<(string, string)>, maxScores: map<int, real>)
    requires AllDigits(matches)
    modifies ui
    ensures ui.warnings == old(ui.warnings) + OiiWarnings(statement, matches, maxScores)
    ensures ui.errors == old(ui.errors) && ui.solutions == old(ui.solutions)
    ensures ui.nonSolutions == old(ui.nonSolutions) && ui.statements == old(ui.statements)
  {
    if matches == [] {
      return;
    }
    var oneBased := OneBased(matches);
    var isNonSequential := false;
    var isWrong := false;
    var last := -1;
    var i := 0;
    while i < |matches|
      invariant 0 <= i <= |matches| && last == i - 1
      invariant forall j :: 0 <= j < i ==> Listed(matches[j], oneBased) == j
      invariant isWrong <==> exists j :: 0 <= j < i && OiiMismatch(matches[j], j, maxScores)
      invariant !isNonSequential
    {
      var subtask := DecValue(matches[i].0) - oneBased;
      var score := DecValue(matches[i].1);
      if subtask != last + 1 {
        isNonSequential := true;
        break;
      }
      last := subtask;
      if subtask !in maxScores || maxScores[subtask] != score as real {
        isWrong := true;
      }
      i := i + 1;
    }
    if isNonSequential {
      ui.AddWarning(NonSequential(statement));
    } else if isWrong {
      ui.AddWarning(DontMatch(statement));
    }
  }

  // ---------------------------------------------------------------------------
  // check_ois_format

  /** Python's `!=` between a `str` and a `float`: objects of different types
      are never equal. */
  predicate StrDiffersFromFloat(s: string, x: real) {
    true
  }

  /** The warnings check_ois_format gives, as written: each listed score is
      compared, as text, with the subtask's float maximum score. */
  function OisWarnings(statement: string, matches: seq<string>, maxScores: seq<real>): seq<string> {
    if matches == [] then []
    else if |matches| != |maxScores|
            || exists i :: 0 <= i < |matches| && i < |maxScores| && StrDiffersFromFloat(matches[i], maxScores[i])
    then [DontMatch(statement)]
    else []
  }

  /** As written, check_ois_format warns for every statement that lists its
      subtasks at all, whatever the scores. */
  lemma OisAlwaysWarns(statement: string, matches: seq<string>, maxScores: seq<real>)
    requires matches != []
    ensures OisWarnings(statement, matches, maxScores) == [DontMatch(statement)]
  {
    if |matches| == |maxScores| {
      assert StrDiffersFromFloat(matches[0], maxScores[0]);
    }
  }

  /** check_ois_format as intended: the listed scores read as numbers. */
  function OisWarningsIntended(statement: string, matches: seq<string>, maxScores: seq<real>): (w: seq<string>)
    requires forall i :: 0 <= i < |matches| ==> Digits(matches[i])
    ensures |w| <= 1
    ensures w == [] <==>
              matches == [] || (|matches| == |maxScores| && forall i :: 0 <= i < |matches| ==> DecValue(matches[i]) as real == maxScores[i])
    ensures w != [] ==> w == [DontMatch(statement)]
  {
    if matches == [] then []
    else if |matches| != |maxScores|
            || exists i :: 0 <= i < |matches| && DecValue(matches[i]) as real != maxScores[i]
    then [DontMatch(statement)]
    else []
  }

  /** check_ois_format: a count mismatch, then each listed score against the
      subtask's maximum score in order, as written. */
  method CheckOisFormat(ui: Uis.UIInterface, statement: string, matches: seq<string>, maxScores: seq<real>)
    modifies ui
    ensures ui.warnings == old(ui.warnings) + OisWarnings(statement, matches, maxScores)
    ensures ui.errors == old(ui.errors) && ui.solutions == old(ui.solutions)
    ensures ui.nonSolutions == old(ui.nonSolutions) && ui.statements == old(ui.statements)
  {
    if matches == [] {
      return;
    }
    var isWrong := |matches| != |maxScores|;
    var i := 0;
    while i < |matches| && i < |maxScores|
      invariant 0 <= i <= |matches| && i <= |maxScores|
      invariant isWrong <==> |matches| != |maxScores| || exists j :: 0 <= j < i && StrDiffersFromFloat(matches[j], maxScores[j])
    {
      if StrDiffersFromFloat(matches[i], maxScores[i]) {
        isWrong := true;
      }
      i := i + 1;
    }
    if isWrong {
      ui.AddWarning(DontMatch(statement));
    }
  }

  // ---------------------------------------------------------------------------
  // Execution and checker callbacks

  /** The errors the callback of a sanity execution reports. */
  function ExecutionErrors(status: ResultStatus, message: string): (errs: seq<string>)
    ensures errs == [] <==> status == Success
    ensures errs != [] ==> errs == [message]
  {
    if status != Success then [message] else []
  }

  /** The errors the callback of a sanity checking reports: one for a failed
      run, and, with a custom checker only, one for an output that is not a
      number or lies outside [0, 1]. `parseFloat` is Python's `float` on the
      checker's output (`None` where it raises). */
  function CheckerErrors(status: ResultStatus, customChecker: bool, stdout: string,
                         parseFloat: string -> Option<real>, message: string): seq<string>
  {
    var failed := if status != Success then [message] else [];
    if !customChecker then failed
    else
      match parseFloat(stdout)
      case None => failed + [message + ": invalid score: " + stdout]
      case Some(score) =>
        if !(0.0 <= score <= 1.0) then failed + [message + ": invalid score: " + stdout] else failed
  }

  /** A failed run is always reported first; the default checker reports
      nothing else; a custom checker adds one error exactly when its output
      is not a score in [0, 1]. */
  lemma CheckerErrorsCases(status: ResultStatus, customChecker: bool, stdout: string,
                           parseFloat: string -> Option<real>, message: string)
    ensures var errs := CheckerErrors(status, customChecker, stdout, parseFloat, message);
            var bad := parseFloat(stdout).None? || !(0.0 <= parseFloat(stdout).value <= 1.0);
            && (status != Success ==> errs != [] && errs[0] == message)
            && (!customChecker ==> errs == ExecutionErrors(status, message))
            && (customChecker ==>
                  |errs| == (if status != Success then 1 else 0) + (if bad then 1 else 0)
                  && (bad ==> errs[|errs| - 1] == message + ": invalid score: " + stdout))
  {
  }

  /** The checker callback of a sample case. */
  method CheckerOnDone(ui: Uis.UIInterface, status: ResultStatus, customChecker: bool, stdout: string,
                       parseFloat: string -> Option<real>, message: string)
    modifies ui
    ensures ui.errors == old(ui.errors) + CheckerErrors(status, customChecker, stdout, parseFloat, message)
    ensures ui.warnings == old(ui.warnings) && ui.solutions == old(ui.solutions)
    ensures ui.nonSolutions == old(ui.nonSolutions) && ui.statements == old(ui.statements)
  {
    if status != Success {
      ui.AddError(message);
    }
    if !customChecker {
      return;
    }
    var score := parseFloat(stdout);
    if score.None? {
      ui.AddError(message + ": invalid score: " + stdout);
      return;
    }
    if !(0.0 <= score.value <= 1.0) {
      ui.AddError(message + ": invalid score: " + stdout);
      return;
    }
  }

  // ---------------------------------------------------------------------------
  // Scores

  function SumOf(xs: seq<real>): real {
    if xs == [] then 0.0 else SumOf(xs[..|xs| - 1]) + xs[|xs| - 1]
  }

  /** check_subtask_score_sum: a warning exactly when the maximum scores do
      not add up to 100. */
  function SubtaskScoreSumWarnings(maxScores: seq<real>): (w: seq<string>)
    ensures w == [] <==> SumOf(maxScores) == 100.0
    ensures w != [] ==> w == ["The sum of the subtask max scores is not 100"]
  {
    if SumOf(maxScores) != 100.0 then ["The sum of the subtask max scores is not 100"] else []
  }

  /** check_solution_score: a warning exactly when the official solution was
      evaluated and does not score the sum of the maximum scores. */
  function SolutionScoreWarnings(official: Option<string>, testing: map<string, real>, maxScores: seq<real>): (w: seq<string>)
    ensures w != [] <==> official.Some? && official.value in testing && testing[official.value] != SumOf(maxScores)
    ensures w != [] ==> w == ["The official solution " + official.value + " does not score full score"]
  {
    if official.None? then []
    else if official.value !in testing then []
    else if testing[official.value] != SumOf(maxScores) then
      ["The official solution " + official.value + " does not score full score"]
    else []
  }

  /** A full mark on subtasks adding up to 100 leaves both score checks silent. */
  lemma FullScoreSilent(official: string, testing: map<string, real>, maxScores: seq<real>)
    requires SumOf(maxScores) == 100.0 && official in testing && testing[official] == 100.0
    ensures SubtaskScoreSumWarnings(maxScores) == [] && SolutionScoreWarnings(Some(official), testing, maxScores) == []
  {
  }

  // ---------------------------------------------------------------------------
  // Folders

  /** _check_graders: with graders in use, one warning per language whose
      grader is missing from the folder. `fileExists` tests a path. */
  function GraderWarnings(folder: string, extensions: seq<string>, hasGrader: bool, fileExists: string -> bool): (w: seq<string>)
    ensures !hasGrader ==> w == []
    ensures |w| <= |extensions|
  {
    if !hasGrader || extensions == [] then []
    else
      var init := GraderWarnings(folder, extensions[..|extensions| - 1], hasGrader, fileExists);
      var ext := extensions[|extensions| - 1];
      if !fileExists(folder + "grader" + ext) then init + ["Missing grader" + ext + " in " + folder + " folder"] else init
  }

  /** The warnings for the files that are not symbolic links. */
  function SymlinkWarnings(files: seq<string>, isLink: string -> bool, prefix: string): (w: seq<string>)
    ensures |w| <= |files|
    ensures (forall i :: 0 <= i < |files| ==> isLink(files[i])) ==> w == []
  {
    if files == [] then []
    else
      var init := SymlinkWarnings(files[..|files| - 1], isLink, prefix);
      var f := files[|files| - 1];
      if !isLink(f) then init + [prefix + f + " is not a symlink"] else init
  }

  /** check_sol_folder: grader files, more than one official solution, and
      official solutions that are not symbolic links. */
  function SolFolderWarnings(extensions: seq<string>, hasGrader: bool, fileExists: string -> bool,
                             sols: seq<string>, isLink: string -> bool): seq<string>
  {
    GraderWarnings("sol/", extensions, hasGrader, fileExists)
    + (if |sols| > 1 then ["More than one official solution found"] else [])
    + SymlinkWarnings(sols, isLink, "Official solution ")
  }

  /** The number of times a message occurs. */
  function Occurrences(w: seq<string>, m: string): nat {
    multiset(w)[m]
  }

  /** Exactly one "More than one official solution found" warning when more
      than one official solution is found, none otherwise. */
  lemma SolFolderCount(extensions: seq<string>, hasGrader: bool, fileExists: string -> bool,
                       sols: seq<string>, isLink: string -> bool)
    ensures Occurrences(SolFolderWarnings(extensions, hasGrader, fileExists, sols, isLink), "More than one official solution found")
            == if |sols| > 1 then 1 else 0
  {
    var m := "More than one official solution found";
    assert !StartsWith(m, "Missing grader") by {
      assert m[1] == 'o' && "Missing grader"[1] == 'i';
    }
    GraderWarningsNot(extensions, hasGrader, fileExists, m);
    SymlinkWarningsNot(sols, isLink, "Official solution ", m);
  }

  /** A grader warning is never another message that does not start with "Missing grader". */
  lemma {:induction false} GraderWarningsNot(extensions: seq<string>, hasGrader: bool, fileExists: string -> bool, m: string)
    requires !StartsWith(m, "Missing grader")
    ensures m !in GraderWarnings("sol/", extensions, hasGrader, fileExists)
    ensures m !in GraderWarnings("att/", extensions, hasGrader, fileExists)
    decreases |extensions|
  {
    if hasGrader && extensions != [] {
      GraderWarningsNot(extensions[..|extensions| - 1], hasGrader, fileExists, m);
      var ext := extensions[|extensions| - 1];
      assert StartsWith("Missing grader" + ext + " in " + "sol/" + " folder", "Missing grader");
      assert StartsWith("Missing grader" + ext + " in " + "att/" + " folder", "Missing grader");
    }
  }

  /** A symlink warning always ends with " is not a symlink". */
  lemma {:induction false} SymlinkWarningsNot(files: seq<string>, isLink: string -> bool, prefix: string, m: string)
    requires !EndsWith(m, " is not a symlink")
    ensures m !in SymlinkWarnings(files, isLink, prefix)
    decreases |files|
  {
    if files != [] {
      SymlinkWarningsNot(files[..|files| - 1], isLink, prefix, m);
      var f := files[|files| - 1];
      assert EndsWith(prefix + f + " is not a symlink", " is not a symlink");
    }
  }

  predicate StartsWith(s: string, prefix: string) {
    |prefix| <= |s| && s[..|prefix|] == prefix
  }

  predicate EndsWith(s: string, suffix: string) {
    |suffix| <= |s| && s[|s| - |suffix|..] == suffix
  }

  const NoSamples: string := "No sample files provided"

  /** check_att_folder, as written: grader files, the task's own source per
      language, sample files that are not symbolic links, and the "no
      sample files" warning when there ARE sample files. */
  function AttFolderWarnings(taskName: string, extensions: seq<string>, hasGrader: bool, fileExists: string -> bool,
                             samples: seq<string>, isLink: string -> bool): seq<string>
  {
    GraderWarnings("att/", extensions, hasGrader, fileExists)
    + TemplateWarnings(taskName, extensions, hasGrader, fileExists)
    + SymlinkWarnings(samples, isLink, "Sample file ")
    + (if |samples| > 0 then [NoSamples] else [])
  }

  /** check_att_folder as intended: the "no sample files" warning when there
      are none. */
  function AttFolderWarningsIntended(taskName: string, extensions: seq<string>, hasGrader: bool, fileExists: string -> bool,
                                     samples: seq<string>, isLink: string -> bool): seq<string>
  {
    GraderWarnings("att/", extensions, hasGrader, fileExists)
    + TemplateWarnings(taskName, extensions, hasGrader, fileExists)
    + SymlinkWarnings(samples, isLink, "Sample file ")
    + (if |samples| == 0 then [NoSamples] else [])
  }

  /** With graders in use, one warning per language whose `att/<task><ext>` is missing. */
  function TemplateWarnings(taskName: string, extensions: seq<string>, hasGrader: bool, fileExists: string -> bool): (w: seq<string>)
    ensures !hasGrader ==> w == []
  {
    if !hasGrader || extensions == [] then []
    else
      var init := TemplateWarnings(taskName, extensions[..|extensions| - 1], hasGrader, fileExists);
      var ext := extensions[|extensions| - 1];
      if !fileExists("att/" + taskName + ext) then init + ["Missing " + taskName + ext + " in att/ folder"] else init
  }

  /** A template warning always ends with " in att/ folder". */
  lemma {:induction false} TemplateWarningsNot(taskName: string, extensions: seq<string>, hasGrader: bool,
                                               fileExists: string -> bool, m: string)
    requires !EndsWith(m, " in att/ folder")
    ensures m !in TemplateWarnings(taskName, extensions, hasGrader, fileExists)
    decreases |extensions|
  {
    if hasGrader && extensions != [] {
      TemplateWarningsNot(taskName, extensions[..|extensions| - 1], hasGrader, fileExists, m);
      var ext := extensions[|extensions| - 1];
      assert EndsWith("Missing " + taskName + ext + " in att/ folder", " in att/ folder");
    }
  }

  /** As written, the "no sample files" warning appears exactly when sample
      files were found; as intended, exactly when none were. */
  lemma NoSamplesWarning(taskName: string, extensions: seq<string>, hasGrader: bool, fileExists: string -> bool,
                         samples: seq<string>, isLink: string -> bool)
    ensures NoSamples in AttFolderWarnings(taskName, extensions, hasGrader, fileExists, samples, isLink) <==> samples != []
    ensures NoSamples in AttFolderWarningsIntended(taskName, extensions, hasGrader, fileExists, samples, isLink) <==> samples == []
  {
    assert !StartsWith(NoSamples, "Missing grader") by {
      assert NoSamples[0] == 'N' && "Missing grader"[0] == 'M';
    }
    assert !EndsWith(NoSamples, " in att/ folder");
    assert !EndsWith(NoSamples, " is not a symlink");
    GraderWarningsNot(extensions, hasGrader, fileExists, NoSamples);
    TemplateWarningsNot(taskName, extensions, hasGrader, fileExists, NoSamples);
    SymlinkWarningsNot(samples, isLink, "Sample file ", NoSamples);
  }

  /** The concrete case: one sample file, a symbolic link, and no graders. */
  lemma SampleGivenWarns(fileExists: string -> bool, isLink: string -> bool)
    requires isLink("att/input0.txt")
    ensures AttFolderWarnings("task", [".cpp"], false, fileExists, ["att/input0.txt"], isLink) == [NoSamples]
  {
  }

  /** _check_graders as a loop over the languages. */
  method CheckGraders(ui: Uis.UIInterface, folder: string, extensions: seq<string>, hasGrader: bool, fileExists: string -> bool)
    modifies ui
    ensures ui.warnings == old(ui.warnings) + GraderWarnings(folder, extensions, hasGrader, fileExists)
    ensures ui.errors == old(ui.errors) && ui.solutions == old(ui.solutions)
    ensures ui.nonSolutions == old(ui.nonSolutions) && ui.statements == old(ui.statements)
  {
    if !hasGrader {
      return;
    }
    for i := 0 to |extensions|
      invariant ui.warnings == old(ui.warnings) + GraderWarnings(folder, extensions[..i], hasGrader, fileExists)
      invariant ui.errors == old(ui.errors) && ui.solutions == old(ui.solutions)
      invariant ui.nonSolutions == old(ui.nonSolutions) && ui.statements == old(ui.statements)
    {
      PrefixOfPrefix(extensions, i);
      var ext := extensions[i];
      if !fileExists(folder + "grader" + ext) {
        ui.AddWarning("Missing grader" + ext + " in " + folder + " folder");
      }
    }
    PrefixSuffix(extensions, 0);
  }

  /** The loop warning about files that are not symbolic links. */
  method CheckSymlinks(ui: Uis.UIInterface, files: seq<string>, isLink: string -> bool, prefix: string)
    modifies ui
    ensures ui.warnings == old(ui.warnings) + SymlinkWarnings(files, isLink, prefix)
    ensures ui.errors == old(ui.errors) && ui.solutions == old(ui.solutions)
    ensures ui.nonSolutions == old(ui.nonSolutions) && ui.statements == old(ui.statements)
  {
    for i := 0 to |files|
      invariant ui.warnings == old(ui.warnings) + SymlinkWarnings(files[..i], isLink, prefix)
      invariant ui.errors == old(ui.errors) && ui.solutions == old(ui.solutions)
      invariant ui.nonSolutions == old(ui.nonSolutions) && ui.statements == old(ui.statements)
    {
      PrefixOfPrefix(files, i);
      if !isLink(files[i]) {
        ui.AddWarning(prefix + files[i] + " is not a symlink");
      }
    }
    PrefixSuffix(files, 0);
  }

  /** check_sol_folder. */
  method CheckSolFolder(ui: Uis.UIInterface, extensions: seq<string>, hasGrader: bool, fileExists: string -> bool,
                        sols: seq<string>, isLink: string -> bool)
    modifies ui
    ensures ui.warnings == old(ui.warnings) + SolFolderWarnings(extensions, hasGrader, fileExists, sols, isLink)
    ensures ui.errors == old(ui.errors) && ui.solutions == old(ui.solutions)
    ensures ui.nonSolutions == old(ui.nonSolutions) && ui.statements == old(ui.statements)
  {
    ghost var w := ui.warnings;
    ghost var g := GraderWarnings("sol/", extensions, hasGrader, fileExists);
    ghost var m: seq<string> := if |sols| > 1 then ["More than one official solution found"] else [];
    CheckGraders(ui, "sol/", extensions, hasGrader, fileExists);
    if |sols| > 1 {
      ui.AddWarning("More than one official solution found");
    }
    CheckSymlinks(ui, sols, isLink, "Official solution ");
    ConcatAssoc(w, g, m);
    ConcatAssoc(w, g + m, SymlinkWarnings(sols, isLink, "Official solution "));
  }

  /** The loop of check_att_folder over the languages. */
  method CheckTemplates(ui: Uis.UIInterface, taskName: string, extensions: seq<string>, hasGrader: bool,
                        fileExists: string -> bool)
    modifies ui
    ensures ui.warnings == old(ui.warnings) + TemplateWarnings(taskName, extensions, hasGrader, fileExists)
    ensures ui.errors == old(ui.errors) && ui.solutions == old(ui.solutions)
    ensures ui.nonSolutions == old(ui.nonSolutions) && ui.statements == old(ui.statements)
  {
    if !hasGrader {
      return;
    }
    for i := 0 to |extensions|
      invariant ui.warnings == old(ui.warnings) + TemplateWarnings(taskName, extensions[..i], hasGrader, fileExists)
      invariant ui.errors == old(ui.errors) && ui.solutions == old(ui.solutions)
      invariant ui.nonSolutions == old(ui.nonSolutions) && ui.statements == old(ui.statements)
    {
      PrefixOfPrefix(extensions, i);
      var ext := extensions[i];
      if !fileExists("att/" + taskName + ext) {
        ui.AddWarning("Missing " + taskName + ext + " in att/ folder");
      }
    }
    PrefixSuffix(extensions, 0);
  }

  /** check_att_folder, as written. */
  method CheckAttFolder(ui: Uis.UIInterface, taskName: string, extensions: seq<string>, hasGrader: bool,
                        fileExists: string -> bool, samples: seq<string>, isLink: string -> bool)
    modifies ui
    ensures ui.warnings == old(ui.warnings) + AttFolderWarnings(taskName, extensions, hasGrader, fileExists, samples, isLink)
    ensures ui.errors == old(ui.errors) && ui.solutions == old(ui.solutions)
    ensures ui.nonSolutions == old(ui.nonSolutions) && ui.statements == old(ui.statements)
  {
    ghost var w := ui.warnings;
    ghost var g := GraderWarnings("att/", extensions, hasGrader, fileExists);
    ghost var t := TemplateWarnings(taskName, extensions, hasGrader, fileExists);
    ghost var l := SymlinkWarnings(samples, isLink, "Sample file ");
    CheckGraders(ui, "att/", extensions, hasGrader, fileExists);
    CheckTemplates(ui, taskName, extensions, hasGrader, fileExists);
    CheckSymlinks(ui, samples, isLink, "Sample file ");
    if |samples| > 0 {
      ui.AddWarning(NoSamples);
    }
    ConcatAssoc(w, g, t);
    ConcatAssoc(w, g + t, l);
    ConcatAssoc(w, g + t + l, if |samples| > 0 then [NoSamples] else []);
  }
}

/** The task description of an IOI-like task (python/formats/ioi_format.py):
    the GEN-file parser, the fallback to static input files, the task.yaml
    option lookup and the choice of checker and solutions. The filesystem is
    left out: the GEN lines, the input file numbers and the glob results are
    given. */
module IoiFormat {
  import opened Common

  const ValidationInputName: string := "tm_input_file"

  datatype Dependency = Dependency(name: string, path: string)

  /** A source file as `from_file` records it: its path and, when compiled
      executables are copied, where the executable is copied to. */
  datatype SourceFile = SourceFile(path: string, copyTo: Option<string>)

  /** `copy_compiled and target`. */
  function CopyTarget(copyCompiled: bool, target: string): (r: Option<string>)
    ensures r.Some? <==> copyCompiled
    ensures r.Some? ==> r.value == target
  {
    if copyCompiled then Some(target) else None
  }

  /** A testcase as the format builds it; `None` is an absent file. */
  datatype TestCase = TestCase(
    generator: Option<SourceFile>,
    generatorArgs: seq<string>,
    extraDeps: seq<Dependency>,
    validator: Option<SourceFile>,
    validatorArgs: seq<string>,
    inputFile: Option<string>,
    outputFile: Option<string>,
    writeInputTo: string,
    writeOutputTo: string)

  /** A subtask; its testcases are a dictionary in insertion order. */
  datatype Subtask = Subtask(mode: ScoreMode, maxScore: real, testcases: seq<(int, TestCase)>)

  // ---------------------------------------------------------------------------
  // Text helpers

  predicate StartsWith(s: string, prefix: string) {
    |prefix| <= |s| && s[..|prefix|] == prefix
  }

  /** `s[n:]` in Python: empty when `n` is past the end. */
  function Drop(s: string, n: nat): (r: string)
    ensures |r| == if n <= |s| then |s| - n else 0
  {
    if n <= |s| then s[n..] else []
  }

  /** `s.split("#")[0]`: the text before the first '#'. */
  function BeforeHash(s: string): (r: string)
    ensures |r| <= |s| && r == s[..|r|]
  {
    if s == [] || s[0] == '#' then [] else [s[0]] + BeforeHash(s[1..])
  }

  /** The text before the first '#' holds no '#', and stops at one or at the end. */
  lemma {:induction false} BeforeHashStops(s: string)
    ensures '#' !in BeforeHash(s)
    ensures |BeforeHash(s)| < |s| ==> s[|BeforeHash(s)|] == '#'
    decreases |s|
  {
    if s != [] && s[0] != '#' {
      BeforeHashStops(s[1..]);
    }
  }

  /** The leading run of non-whitespace characters. */
  function Word(s: string): (r: string)
    ensures |r| <= |s|
    ensures s != [] && !IsSpace(s[0]) ==> r != []
  {
    if s == [] || IsSpace(s[0]) then [] else [s[0]] + Word(s[1..])
  }

  /** A word holds no whitespace and ends at whitespace or at the end. */
  lemma {:induction false} WordStops(s: string)
    ensures forall i :: 0 <= i < |Word(s)| ==> !IsSpace(Word(s)[i])
    ensures |Word(s)| < |s| ==> IsSpace(s[|Word(s)|])
    decreases |s|
  {
    if s != [] && !IsSpace(s[0]) {
      WordStops(s[1..]);
      assert Word(s) == [s[0]] + Word(s[1..]);
    }
  }

  /** Python's `str.split()` with no separator: the maximal runs of
      non-whitespace characters. */
  function SplitWs(s: string): (words: seq<string>)
    decreases |s|
  {
    var t := LStrip(s);
    if t == [] then []
    else
      var w := Word(t);
      [w] + SplitWs(t[|w|..])
  }

  /** The words are non-empty and hold no whitespace. */
  lemma {:induction false} SplitWsWords(s: string)
    ensures forall k :: 0 <= k < |SplitWs(s)| ==> SplitWs(s)[k] != []
    ensures forall k, i :: 0 <= k < |SplitWs(s)| && 0 <= i < |SplitWs(s)[k]| ==> !IsSpace(SplitWs(s)[k][i])
    decreases |s|
  {
    var t := LStrip(s);
    if t != [] {
      var w := Word(t);
      WordStops(t);
      SplitWsWords(t[|w|..]);
      assert SplitWs(s) == [w] + SplitWs(t[|w|..]);
    }
  }

  /** `"|".join(names)`. */
  function JoinBar(names: seq<string>): string {
    if names == [] then "" else if |names| == 1 then names[0] else names[0] + "|" + JoinBar(names[1..])
  }

  // ---------------------------------------------------------------------------
  // Paths

  /** Where a testcase's input is written ("input/inputN.txt"). */
  function WriteInputFile(n: int): (p: string)
    ensures StartsWith(p, "input/input")
  {
    "input/input" + IntToString(n) + ".txt"
  }

  /** Where a testcase's expected output is written ("output/outputN.txt"). */
  function WriteOutputFile(n: int): (p: string)
    ensures StartsWith(p, "output/output")
  {
    "output/output" + IntToString(n) + ".txt"
  }

  /** Distinct testcases are written to distinct files, and an input path is
      never an output path. */
  lemma WriteFilesDistinct(a: int, b: int)
    ensures WriteInputFile(a) == WriteInputFile(b) ==> a == b
    ensures WriteOutputFile(a) == WriteOutputFile(b) ==> a == b
    ensures WriteInputFile(a) != WriteOutputFile(b)
  {
    var sa, sb := IntToString(a), IntToString(b);
    if WriteInputFile(a) == WriteInputFile(b) {
      var pa, pb := WriteInputFile(a), WriteInputFile(b);
      assert sa == pa[11..|pa| - 4] && sb == pb[11..|pb| - 4];
      IntToStringInjective(a, b);
    }
    if WriteOutputFile(a) == WriteOutputFile(b) {
      var pa, pb := WriteOutputFile(a), WriteOutputFile(b);
      assert sa == pa[13..|pa| - 4] && sb == pb[13..|pb| - 4];
      IntToStringInjective(a, b);
    }
    assert WriteInputFile(a)[0] == 'i' && WriteOutputFile(b)[0] == 'o';
  }

  // ---------------------------------------------------------------------------
  // Dictionaries with insertion order

  function Lookup<V>(m: seq<(int, V)>, k: int): (r: Option<V>)
    ensures r.Some? <==> exists i :: 0 <= i < |m| && m[i].0 == k
  {
    if m == [] then None else if m[0].0 == k then Some(m[0].1) else Lookup(m[1..], k)
  }

  function Keys<V>(m: seq<(int, V)>): (ks: seq<int>)
    ensures |ks| == |m| && forall i :: 0 <= i < |m| ==> ks[i] == m[i].0
  {
    if m == [] then [] else [m[0].0] + Keys(m[1..])
  }

  predicate DistinctKeys<V>(m: seq<(int, V)>) {
    forall i, j :: 0 <= i < j < |m| ==> m[i].0 != m[j].0
  }

  /** `d[k] = v`: replaces the value in place when the key is present,
      otherwise appends the entry. */
  function Put<V>(m: seq<(int, V)>, k: int, v: V): (r: seq<(int, V)>)
    ensures |r| == |m| || r == m + [(k, v)]
  {
    if m == [] then [(k, v)]
    else if m[0].0 == k then [(k, v)] + m[1..]
    else [m[0]] + Put(m[1..], k, v)
  }

  /** A key not yet present is appended. */
  lemma {:induction false} PutFresh<V>(m: seq<(int, V)>, k: int, v: V)
    requires forall i :: 0 <= i < |m| ==> m[i].0 != k
    ensures Put(m, k, v) == m + [(k, v)]
  {
    if m != [] {
      PutFresh(m[1..], k, v);
      assert m == [m[0]] + m[1..];
    }
  }

  /** With increasing keys, a key not below the last one replaces the last
      entry or is appended. */
  lemma {:induction false} PutAfterLast<V>(m: seq<(int, V)>, k: int, v: V)
    requires forall a, b :: 0 <= a < b < |m| ==> m[a].0 < m[b].0
    requires m == [] || m[|m| - 1].0 <= k
    ensures Put(m, k, v) == PutLast(m, k, v)
  {
    if m != [] && m[0].0 != k {
      PutAfterLast(m[1..], k, v);
      if |m| > 1 {
        assert m[1..][..|m| - 2] == m[1..|m| - 1];
      }
    }
  }

  // ---------------------------------------------------------------------------
  // load_testcases

  function Insert(xs: seq<int>, x: int): (r: seq<int>)
    requires forall i, j :: 0 <= i < j < |xs| ==> xs[i] <= xs[j]
    ensures forall i, j :: 0 <= i < j < |r| ==> r[i] <= r[j]
    ensures forall y :: y in r <==> y in xs || y == x
  {
    if xs == [] || x <= xs[0] then [x] + xs
    else
      var rest := Insert(xs[1..], x);
      assert forall y :: y in xs <==> y == xs[0] || y in xs[1..];
      assert forall i :: 0 <= i < |rest| ==> xs[0] <= rest[i] by {
        forall i | 0 <= i < |rest| ensures xs[0] <= rest[i] {
          assert rest[i] in rest;
        }
      }
      [xs[0]] + rest
  }

  /** `sorted(xs)`. */
  function Sorted(xs: seq<int>): (r: seq<int>)
    ensures forall i, j :: 0 <= i < j < |r| ==> r[i] <= r[j]
    ensures forall y :: y in r <==> y in xs
  {
    if xs == [] then []
    else
      assert xs == xs[..|xs| - 1] + [xs[|xs| - 1]];
      Insert(Sorted(xs[..|xs| - 1]), xs[|xs| - 1])
  }

  /** The testcase of a static input file numbered `n`. */
  function StaticTestcase(n: int): TestCase {
    TestCase(None, [], [], None, [], Some("input/input" + IntToString(n) + ".txt"),
             Some("output/output" + IntToString(n) + ".txt"), WriteInputFile(n), WriteOutputFile(n))
  }

  /** The entry `(num, v)` put after the last entry of a table: it replaces
      that entry when the key is the same, and is appended otherwise. */
  function PutLast<V>(before: seq<(int, V)>, num: int, v: V): (after: seq<(int, V)>)
    ensures after != [] && after[|after| - 1] == (num, v)
    ensures |before| <= |after| <= |before| + 1
    ensures forall a :: 0 <= a < |after| - 1 ==> after[a] == before[a]
  {
    if before != [] && before[|before| - 1].0 == num then before[..|before| - 1] + [(num, v)]
    else before + [(num, v)]
  }

  /** Putting a key not below the last one keeps the keys increasing. */
  lemma PutLastOrder<V>(before: seq<(int, V)>, num: int, v: V)
    requires forall a, b :: 0 <= a < b < |before| ==> before[a].0 < before[b].0
    requires before == [] || before[|before| - 1].0 <= num
    ensures var after := PutLast(before, num, v);
            forall a, b :: 0 <= a < b < |after| ==> after[a].0 < after[b].0
  {
  }

  /** Putting a key adds exactly that key to the key set. */
  lemma PutLastKeys<V>(before: seq<(int, V)>, num: int, v: V)
    ensures forall n :: n in Keys(PutLast(before, num, v)) <==> n in Keys(before) || n == num
  {
    var after := PutLast(before, num, v);
    if before != [] && before[|before| - 1].0 == num {
      assert Keys(after) == Keys(before[..|before| - 1]) + [num];
      assert Keys(before) == Keys(before[..|before| - 1]) + [num];
    } else {
      assert Keys(after) == Keys(before) + [num];
    }
  }

  /** Putting `f(num)` keeps every value `f` of its key. */
  lemma PutLastPayload<V>(before: seq<(int, V)>, num: int, f: int -> V)
    requires forall a :: 0 <= a < |before| ==> before[a].1 == f(before[a].0)
    ensures var after := PutLast(before, num, f(num));
            forall a :: 0 <= a < |after| ==> after[a].1 == f(after[a].0)
  {
  }

  /** Whether a table has increasing keys, exactly `nums` as keys, and `f`
      of its key as each value. */
  ghost predicate Table<V>(nums: seq<int>, t: seq<(int, V)>, f: int -> V) {
    && (forall i, j :: 0 <= i < j < |t| ==> t[i].0 < t[j].0)
    && (forall n :: n in nums <==> n in Keys(t))
    && (forall i :: 0 <= i < |t| ==> t[i].1 == f(t[i].0))
  }

  /** Putting `f(num)` under a key not below the last extends the table by `num`. */
  lemma TableStep<V>(nums: seq<int>, t: seq<(int, V)>, num: int, f: int -> V)
    requires Table(nums, t, f)
    requires t == [] || t[|t| - 1].0 <= num
    ensures Table(nums + [num], Put(t, num, f(num)), f)
    ensures Put(t, num, f(num))[|Put(t, num, f(num))| - 1].0 == num
  {
    PutAfterLast(t, num, f(num));
    PutLastOrder(t, num, f(num));
    PutLastKeys(t, num, f(num));
    PutLastPayload(t, num, f);
  }

  /** The loop of load_testcases after `i` numbers: the table of those
      numbers, ending with the last of them. */
  ghost predicate FillInv<V>(order: seq<int>, i: int, t: seq<(int, V)>, f: int -> V)
    requires 0 <= i <= |order|
  {
    Table(order[..i], t, f) && (i == 0 <==> t == []) && (i > 0 ==> t[|t| - 1].0 == order[i - 1])
  }

  lemma FillStep<V>(order: seq<int>, i: int, t: seq<(int, V)>, f: int -> V)
    requires forall a, b :: 0 <= a < b < |order| ==> order[a] <= order[b]
    requires 0 <= i < |order| && FillInv(order, i, t, f)
    ensures FillInv(order, i + 1, Put(t, order[i], f(order[i])), f)
  {
    var num := order[i];
    assert t == [] || t[|t| - 1].0 <= num by {
      if i > 0 {
        assert order[i - 1] <= num;
      }
    }
    TableStep(order[..i], t, num, f);
    PrefixSnoc(order, i);
  }

  /** The loop of load_testcases: for each number in increasing order,
      `f` of the number put into the table under that number. */
  method FillTable<V>(order: seq<int>, f: int -> V) returns (t: seq<(int, V)>)
    requires forall i, j :: 0 <= i < j < |order| ==> order[i] <= order[j]
    ensures Table(order, t, f)
  {
    t := [];
    for i := 0 to |order|
      invariant FillInv(order, i, t, f)
    {
      FillStep(order, i, t, f);
      t := Put(t, order[i], f(order[i]));
    }
    PrefixSuffix(order, 0);
  }

  /** load_testcases: one SUM subtask 0 worth 100 with the static testcases in
      increasing number order, or an error when there are no input files. */
  method LoadTestcases(nums: seq<int>) returns (r: Result<(Option<string>, seq<(int, Subtask)>)>)
    ensures nums == [] <==> r.Err?
    ensures r.Err? ==> r.error == "No generator and no input files found!"
    ensures r.Ok? ==> r.value.0 == None && |r.value.1| == 1 && r.value.1[0].0 == 0
    ensures r.Ok? ==>
              var st := r.value.1[0].1;
              st.mode == Sum && st.maxScore == 100.0 && Table(nums, st.testcases, StaticTestcase)
  {
    if nums == [] {
      return Err("No generator and no input files found!");
    }
    var order := Sorted(nums);
    var testcases := FillTable(order, StaticTestcase);
    r := Ok((None, [(0, Subtask(Sum, 100.0, testcases))]));
  }

  /** The outcome load_testcases promises for the numbers of the static input
      files: an error when there are none, and otherwise the one SUM subtask 0
      worth 100 holding their static testcases in increasing order. */
  ghost predicate LoadOutcome(nums: seq<int>, r: Result<(Option<string>, seq<(int, Subtask)>)>) {
    && (nums == [] <==> r.Err?)
    && (r.Err? ==> r.error == "No generator and no input files found!")
    && (r.Ok? ==> r.value.0 == None && |r.value.1| == 1 && r.value.1[0].0 == 0
                  && r.value.1[0].1.mode == Sum && r.value.1[0].1.maxScore == 100.0
                  && Table(nums, r.value.1[0].1.testcases, StaticTestcase))
  }

  // ---------------------------------------------------------------------------
  // gen_testcases

  const StPrefix: string := "#ST: "
  const CopyPrefix: string := "#COPY: "

  /** What the GEN parser is given besides the lines: the generator and
      validator found, whether executables are copied, Python's `float` on a
      score text (`None` where it raises ValueError) and `sanitize_command`. */
  datatype GenTools = GenTools(
    generator: string,
    validator: string,
    copyCompiled: bool,
    parseFloat: string -> Option<real>,
    sanitize: seq<string> -> seq<Dependency>)

  /** The local variables of the GEN loop. */
  datatype GenState = GenState(
    subtasks: seq<(int, Subtask)>,
    current: seq<(int, TestCase)>,
    subtaskNum: int,
    testcaseNum: int,
    score: real)

  /** Before the first line: no subtask, subtask number -1, testcase number 0. */
  const GenStart: GenState := GenState([], [], -1, 0, 0.0)

  /** The testcase each line starts from: only its write paths are set. */
  function BaseTestcase(n: int): (tc: TestCase)
    ensures tc.writeInputTo == WriteInputFile(n) && tc.writeOutputTo == WriteOutputFile(n)
    ensures tc.generator == None && tc.validator == None && tc.inputFile == None && tc.outputFile == None
  {
    TestCase(None, [], [], None, [], None, None, WriteInputFile(n), WriteOutputFile(n))
  }

  function GeneratorOf(tools: GenTools): SourceFile {
    SourceFile(tools.generator, CopyTarget(tools.copyCompiled, "bin/generator"))
  }

  function ValidatorOf(tools: GenTools): SourceFile {
    SourceFile(tools.validator, CopyTarget(tools.copyCompiled, "bin/validator"))
  }

  /** create_subtask: a MIN subtask with the given score, only when it has testcases. */
  function CreateSubtask(subtasks: seq<(int, Subtask)>, num: int, testcases: seq<(int, TestCase)>, score: real)
    : (r: seq<(int, Subtask)>)
    ensures testcases == [] ==> r == subtasks
  {
    if testcases == [] then subtasks else Put(subtasks, num, Subtask(Min, score, testcases))
  }

  /** Whether a GEN line takes a testcase number: every line but a `#ST: `
      line and a line that is blank once its comment is removed. */
  predicate Consumes(line: string) {
    Classify(line).CopyLine? || Classify(line).GeneratorLine?
  }

  /** The testcase of a `#COPY: ` line. */
  function CopyTestcase(n: int, path: string): TestCase {
    BaseTestcase(n).(inputFile := Some(path))
  }

  /** The testcase of a generator line in subtask `num`. */
  function GeneratedTestcase(n: int, num: int, args: seq<string>, tools: GenTools): TestCase {
    BaseTestcase(n).(
      generator := Some(GeneratorOf(tools)), generatorArgs := args, extraDeps := tools.sanitize(args),
      validator := Some(ValidatorOf(tools)), validatorArgs := [ValidationInputName, IntToString(num + 1)])
  }

  /** What a GEN line is, as the loop tells the cases apart: a `#ST: ` line
      with its score text, a `#COPY: ` line with its input path, a line that
      is blank once its comment is removed, or a generator line with its
      text. */
  datatype LineKind = StLine(scoreText: string) | CopyLine(path: string) | Blank | GeneratorLine(args: seq<string>)

  function Classify(line: string): LineKind {
    if StartsWith(line, StPrefix) then StLine(Drop(Strip(line), 5))
    else if StartsWith(line, CopyPrefix) then CopyLine(Strip(line[7..]))
    else
      var text := Strip(BeforeHash(line));
      if text == [] then Blank else GeneratorLine(SplitWs(text))
  }

  /** The cases of a GEN line: exactly one applies, in the order the loop
      tests them, and a `#ST: ` line is recognised before a comment is. */
  lemma ClassifyCases(line: string)
    ensures Classify(line).StLine? <==> StartsWith(line, StPrefix)
    ensures Classify(line).StLine? ==> Classify(line).scoreText == Drop(Strip(line), 5)
    ensures Classify(line).CopyLine? <==> !StartsWith(line, StPrefix) && StartsWith(line, CopyPrefix)
    ensures Classify(line).CopyLine? ==> Classify(line).path == Strip(line[7..])
    ensures Classify(line).Blank? <==>
              !StartsWith(line, StPrefix) && !StartsWith(line, CopyPrefix) && Strip(BeforeHash(line)) == []
    ensures Classify(line).GeneratorLine? ==> Strip(BeforeHash(line)) != [] && Classify(line).args == SplitWs(Strip(BeforeHash(line)))
  {
  }

  /** One iteration of the GEN loop; `Err` where `float` raises. */
  function GenStep(s: GenState, line: string, tools: GenTools): Result<GenState> {
    match Classify(line)
    case StLine(text) =>
      var closed := CreateSubtask(s.subtasks, s.subtaskNum, s.current, s.score);
      (match tools.parseFloat(text)
       case None => Err("could not convert string to float: " + text)
       case Some(x) => Ok(GenState(closed, [], s.subtaskNum + 1, s.testcaseNum, x)))
    case CopyLine(path) =>
      Ok(GenState(s.subtasks, Put(s.current, s.testcaseNum, CopyTestcase(s.testcaseNum, path)), s.subtaskNum,
                  s.testcaseNum + 1, s.score))
    case Blank => Ok(s)
    case GeneratorLine(args) =>
      var num := if s.subtaskNum < 0 then 0 else s.subtaskNum;
      Ok(GenState(s.subtasks, Put(s.current, s.testcaseNum, GeneratedTestcase(s.testcaseNum, num, args, tools)),
                  num, s.testcaseNum + 1, s.score))
  }

  /** The GEN loop over the first lines, stopping at the first error. */
  function GenLines(lines: seq<string>, tools: GenTools): Result<GenState>
    decreases |lines|
  {
    if lines == [] then Ok(GenStart)
    else
      match GenLines(lines[..|lines| - 1], tools)
      case Err(e) => Err(e)
      case Ok(s) => GenStep(s, lines[|lines| - 1], tools)
  }

  /** After the loop: the last subtask is closed, and a lone subtask 0 worth 0
      becomes SUM worth 100; a lone subtask under another number makes the
      lookup of subtask 0 raise KeyError. */
  function GenFinish(s: GenState): Result<seq<(int, Subtask)>> {
    var subtasks := CreateSubtask(s.subtasks, s.subtaskNum, s.current, s.score);
    if |subtasks| == 1 then
      match Lookup(subtasks, 0)
      case None => Err("KeyError: 0")
      case Some(st) =>
        if st.maxScore == 0.0 then Ok(Put(subtasks, 0, st.(mode := Sum, maxScore := 100.0)))
        else Ok(subtasks)
    else Ok(subtasks)
  }

  /** The subtasks a GEN file describes. */
  function GenRun(lines: seq<string>, tools: GenTools): Result<seq<(int, Subtask)>> {
    match GenLines(lines, tools)
    case Err(e) => Err(e)
    case Ok(s) => GenFinish(s)
  }

  /** The number of lines that take a testcase number. */
  function CountConsumed(lines: seq<string>): (n: nat)
    ensures n <= |lines|
  {
    if lines == [] then 0
    else CountConsumed(lines[..|lines| - 1]) + (if Consumes(lines[|lines| - 1]) then 1 else 0)
  }

  /** The testcase numbers of all subtasks, in order. */
  function AllKeys(sts: seq<(int, Subtask)>): seq<int> {
    if sts == [] then [] else AllKeys(sts[..|sts| - 1]) + Keys(sts[|sts| - 1].1.testcases)
  }

  /** The shape of the testcase numbered `e.0` in subtask `k`: a `#COPY: `
      testcase with its input file and no generator, or a generated one with
      the generator, the validator and the 1-based subtask number as the
      validator's second argument. */
  predicate TcShape(k: int, e: (int, TestCase), tools: GenTools) {
    var tc := e.1;
    && tc.writeInputTo == WriteInputFile(e.0) && tc.writeOutputTo == WriteOutputFile(e.0)
    && tc.outputFile == None
    && ((tc.generator == None && tc.validator == None && tc.inputFile.Some?
         && tc.generatorArgs == [] && tc.validatorArgs == [] && tc.extraDeps == [])
        || (k >= 0 && tc.generator == Some(GeneratorOf(tools)) && tc.validator == Some(ValidatorOf(tools))
            && tc.inputFile == None && tc.extraDeps == tools.sanitize(tc.generatorArgs)
            && tc.validatorArgs == [ValidationInputName, IntToString(k + 1)]))
  }

  /** Subtask numbers increase and lie in [-1, subtaskNum). */
  ghost predicate SubtaskKeysOk(subtasks: seq<(int, Subtask)>, subtaskNum: int) {
    && subtaskNum >= -1
    && (forall i, j :: 0 <= i < j < |subtasks| ==> subtasks[i].0 < subtasks[j].0)
    && (forall i :: 0 <= i < |subtasks| ==> -1 <= subtasks[i].0 < subtaskNum)
  }

  /** Every closed subtask is a non-empty MIN subtask. */
  ghost predicate ClosedOk(subtasks: seq<(int, Subtask)>) {
    forall i :: 0 <= i < |subtasks| ==> subtasks[i].1.mode == Min && subtasks[i].1.testcases != []
  }

  /** The testcases seen so far are numbered 0, 1, ..., testcaseNum - 1 in order. */
  ghost predicate Numbered(subtasks: seq<(int, Subtask)>, current: seq<(int, TestCase)>, testcaseNum: int) {
    var ks := AllKeys(subtasks) + Keys(current);
    |ks| == testcaseNum && forall i :: 0 <= i < |ks| ==> ks[i] == i
  }

  /** Every testcase has the shape of its line, with the number of the
      subtask it is in. */
  ghost predicate Shaped(subtasks: seq<(int, Subtask)>, current: seq<(int, TestCase)>, subtaskNum: int, tools: GenTools) {
    && (forall i, j :: 0 <= i < |subtasks| && 0 <= j < |subtasks[i].1.testcases| ==>
          TcShape(subtasks[i].0, subtasks[i].1.testcases[j], tools))
    && (forall j :: 0 <= j < |current| ==> TcShape(subtaskNum, current[j], tools))
  }

  ghost predicate GenInv(s: GenState, tools: GenTools) {
    && SubtaskKeysOk(s.subtasks, s.subtaskNum)
    && ClosedOk(s.subtasks)
    && Numbered(s.subtasks, s.current, s.testcaseNum)
    && Shaped(s.subtasks, s.current, s.subtaskNum, tools)
  }

  lemma KeysAppend<V>(m: seq<(int, V)>, k: int, v: V)
    ensures Keys(m + [(k, v)]) == Keys(m) + [k]
  {
  }

  /** The numbers of the current testcases are below the next number. */
  lemma CurrentKeysBelow(subtasks: seq<(int, Subtask)>, current: seq<(int, TestCase)>, n: int)
    requires Numbered(subtasks, current, n)
    ensures forall j :: 0 <= j < |current| ==> current[j].0 < n
  {
    var ks := AllKeys(subtasks) + Keys(current);
    forall j | 0 <= j < |current| ensures current[j].0 < n {
      assert ks[|AllKeys(subtasks)| + j] == current[j].0;
    }
  }

  /** Closing the current testcases appends one subtask under the current
      subtask number, unless there are none. */
  lemma CloseAppends(s: GenState)
    requires SubtaskKeysOk(s.subtasks, s.subtaskNum)
    ensures CreateSubtask(s.subtasks, s.subtaskNum, s.current, s.score)
            == (if s.current == [] then s.subtasks else s.subtasks + [(s.subtaskNum, Subtask(Min, s.score, s.current))])
  {
    if s.current != [] {
      PutFresh(s.subtasks, s.subtaskNum, Subtask(Min, s.score, s.current));
    }
  }

  lemma CloseKeys(subtasks: seq<(int, Subtask)>, num: int, st: Subtask)
    requires SubtaskKeysOk(subtasks, num)
    ensures SubtaskKeysOk(subtasks + [(num, st)], num + 1)
  {
  }

  lemma CloseNumbered(subtasks: seq<(int, Subtask)>, num: int, current: seq<(int, TestCase)>, score: real, n: int)
    requires Numbered(subtasks, current, n)
    ensures Numbered(subtasks + [(num, Subtask(Min, score, current))], [], n)
  {
    var closed := subtasks + [(num, Subtask(Min, score, current))];
    var none: seq<(int, TestCase)> := [];
    assert Keys(none) == [];
    assert closed[..|closed| - 1] == subtasks;
    assert AllKeys(closed) == AllKeys(subtasks) + Keys(current);
    assert AllKeys(closed) + Keys(none) == AllKeys(closed);
  }

  lemma CloseShaped(subtasks: seq<(int, Subtask)>, num: int, current: seq<(int, TestCase)>, score: real, tools: GenTools)
    requires Shaped(subtasks, current, num, tools)
    ensures Shaped(subtasks + [(num, Subtask(Min, score, current))], [], num + 1, tools)
  {
  }

  lemma EmptyCurrent(subtasks: seq<(int, Subtask)>, num: int, n: int, tools: GenTools)
    requires Numbered(subtasks, [], n) && Shaped(subtasks, [], num, tools)
    ensures Numbered(subtasks, [], n) && Shaped(subtasks, [], num + 1, tools)
  {
  }

  /** Closing keeps the invariant, whatever the new score. */
  lemma CloseInv(s: GenState, x: real, tools: GenTools)
    requires GenInv(s, tools)
    ensures GenInv(GenState(CreateSubtask(s.subtasks, s.subtaskNum, s.current, s.score), [], s.subtaskNum + 1, s.testcaseNum, x), tools)
  {
    CloseAppends(s);
    if s.current != [] {
      CloseInvNonEmpty(s, x, tools);
    } else {
      EmptyCurrent(s.subtasks, s.subtaskNum, s.testcaseNum, tools);
    }
  }

  lemma CloseInvNonEmpty(s: GenState, x: real, tools: GenTools)
    requires GenInv(s, tools) && s.current != []
    ensures GenInv(GenState(s.subtasks + [(s.subtaskNum, Subtask(Min, s.score, s.current))], [], s.subtaskNum + 1, s.testcaseNum, x), tools)
  {
    CloseKeys(s.subtasks, s.subtaskNum, Subtask(Min, s.score, s.current));
    CloseNumbered(s.subtasks, s.subtaskNum, s.current, s.score, s.testcaseNum);
    CloseShaped(s.subtasks, s.subtaskNum, s.current, s.score, tools);
  }

  lemma AddNumbered(subtasks: seq<(int, Subtask)>, current: seq<(int, TestCase)>, n: int, tc: TestCase)
    requires Numbered(subtasks, current, n)
    ensures Numbered(subtasks, current + [(n, tc)], n + 1)
  {
    KeysAppend(current, n, tc);
    ConcatAssoc(AllKeys(subtasks), Keys(current), [n]);
    CountUp(AllKeys(subtasks) + Keys(current), n);
  }

  /** A sequence counting up from 0 keeps counting when its length is added. */
  lemma CountUp(ks: seq<int>, n: int)
    requires |ks| == n && forall i :: 0 <= i < |ks| ==> ks[i] == i
    ensures |ks + [n]| == n + 1 && forall i :: 0 <= i < |ks + [n]| ==> (ks + [n])[i] == i
  {
  }

  lemma AddShaped(subtasks: seq<(int, Subtask)>, current: seq<(int, TestCase)>, old_num: int, num: int,
                  n: int, tc: TestCase, tools: GenTools)
    requires Shaped(subtasks, current, old_num, tools)
    requires num == old_num || (old_num < 0 && num == 0)
    requires TcShape(num, (n, tc), tools)
    ensures Shaped(subtasks, current + [(n, tc)], num, tools)
  {
    forall j | 0 <= j < |current| ensures TcShape(num, current[j], tools) {
      assert TcShape(old_num, current[j], tools);
    }
  }

  lemma AddKeys(subtasks: seq<(int, Subtask)>, old_num: int, num: int)
    requires SubtaskKeysOk(subtasks, old_num)
    requires num == old_num || (old_num < 0 && num == 0)
    ensures SubtaskKeysOk(subtasks, num)
  {
  }

  /** Adding a testcase with the next number to the current subtask keeps the invariant. */
  lemma AddInv(s: GenState, num: int, tc: TestCase, tools: GenTools)
    requires GenInv(s, tools)
    requires num == s.subtaskNum || (s.subtaskNum < 0 && num == 0)
    requires TcShape(num, (s.testcaseNum, tc), tools)
    ensures Put(s.current, s.testcaseNum, tc) == s.current + [(s.testcaseNum, tc)]
    ensures GenInv(GenState(s.subtasks, Put(s.current, s.testcaseNum, tc), num, s.testcaseNum + 1, s.score), tools)
  {
    CurrentKeysBelow(s.subtasks, s.current, s.testcaseNum);
    PutFresh(s.current, s.testcaseNum, tc);
    AddNumbered(s.subtasks, s.current, s.testcaseNum, tc);
    AddShaped(s.subtasks, s.current, s.subtaskNum, num, s.testcaseNum, tc, tools);
    AddKeys(s.subtasks, s.subtaskNum, num);
  }

  lemma CopyLineInv(s: GenState, path: string, tools: GenTools)
    requires GenInv(s, tools)
    ensures GenInv(GenState(s.subtasks, Put(s.current, s.testcaseNum, CopyTestcase(s.testcaseNum, path)), s.subtaskNum,
                            s.testcaseNum + 1, s.score), tools)
  {
    var tc := CopyTestcase(s.testcaseNum, path);
    assert TcShape(s.subtaskNum, (s.testcaseNum, tc), tools);
    AddInv(s, s.subtaskNum, tc, tools);
  }

  lemma GeneratorLineInv(s: GenState, args: seq<string>, tools: GenTools)
    requires GenInv(s, tools)
    ensures var num := if s.subtaskNum < 0 then 0 else s.subtaskNum;
            GenInv(GenState(s.subtasks, Put(s.current, s.testcaseNum, GeneratedTestcase(s.testcaseNum, num, args, tools)),
                            num, s.testcaseNum + 1, s.score), tools)
  {
    var num := if s.subtaskNum < 0 then 0 else s.subtaskNum;
    var tc := GeneratedTestcase(s.testcaseNum, num, args, tools);
    assert TcShape(num, (s.testcaseNum, tc), tools);
    AddInv(s, num, tc, tools);
  }

  /** One GEN line keeps the invariant and advances the testcase number
      exactly when the line takes one. */
  lemma GenStepInv(s: GenState, line: string, tools: GenTools)
    requires GenInv(s, tools)
    requires GenStep(s, line, tools).Ok?
    ensures GenInv(GenStep(s, line, tools).value, tools)
    ensures GenStep(s, line, tools).value.testcaseNum == s.testcaseNum + (if Consumes(line) then 1 else 0)
  {
    match Classify(line)
    case StLine(text) =>
      StStepInv(s, line, tools, text);
    case CopyLine(path) =>
      CopyStepIs(s, line, tools, path);
      CopyLineInv(s, path, tools);
    case Blank =>
      assert GenStep(s, line, tools) == Ok(s);
    case GeneratorLine(args) =>
      var num := if s.subtaskNum < 0 then 0 else s.subtaskNum;
      GeneratorStepIs(s, line, tools, args, num);
      GeneratorLineInv(s, args, tools);
  }

  lemma StStepInv(s: GenState, line: string, tools: GenTools, text: string)
    requires GenInv(s, tools)
    requires Classify(line) == StLine(text) && GenStep(s, line, tools).Ok?
    ensures GenInv(GenStep(s, line, tools).value, tools)
    ensures GenStep(s, line, tools).value.testcaseNum == s.testcaseNum
  {
    var x := tools.parseFloat(text).value;
    StStepIs(s, line, tools, text, x);
    CloseInv(s, x, tools);
  }

  /** The loop state after any prefix of the lines that parses: the
      invariant holds and one testcase number was taken per consuming line. */
  lemma {:induction false} GenLinesInv(lines: seq<string>, tools: GenTools)
    requires GenLines(lines, tools).Ok?
    ensures GenInv(GenLines(lines, tools).value, tools)
    ensures GenLines(lines, tools).value.testcaseNum == CountConsumed(lines)
    decreases |lines|
  {
    if lines == [] {
      var none: seq<(int, TestCase)> := [];
      assert Keys(none) == [];
    } else {
      var init, last := lines[..|lines| - 1], lines[|lines| - 1];
      GenLinesLast(lines, tools);
      GenLinesInv(init, tools);
      GenStepInv(GenLines(init, tools).value, last, tools);
    }
  }

  /** The last line is the last step of the loop. */
  lemma GenLinesLast(lines: seq<string>, tools: GenTools)
    requires lines != [] && GenLines(lines, tools).Ok?
    ensures GenLines(lines[..|lines| - 1], tools).Ok?
    ensures GenLines(lines, tools) == GenStep(GenLines(lines[..|lines| - 1], tools).value, lines[|lines| - 1], tools)
    ensures CountConsumed(lines) == CountConsumed(lines[..|lines| - 1]) + (if Consumes(lines[|lines| - 1]) then 1 else 0)
  {
  }

  lemma StStepIs(s: GenState, line: string, tools: GenTools, text: string, x: real)
    requires Classify(line) == StLine(text) && tools.parseFloat(text) == Some(x)
    ensures GenStep(s, line, tools) == Ok(GenState(CreateSubtask(s.subtasks, s.subtaskNum, s.current, s.score),
                                                   [], s.subtaskNum + 1, s.testcaseNum, x))
  {
  }

  lemma CopyStepIs(s: GenState, line: string, tools: GenTools, path: string)
    requires Classify(line) == CopyLine(path)
    ensures GenStep(s, line, tools) == Ok(GenState(s.subtasks, Put(s.current, s.testcaseNum, CopyTestcase(s.testcaseNum, path)),
                                                   s.subtaskNum, s.testcaseNum + 1, s.score))
  {
  }

  lemma GeneratorStepIs(s: GenState, line: string, tools: GenTools, args: seq<string>, num: int)
    requires Classify(line) == GeneratorLine(args)
    requires num == if s.subtaskNum < 0 then 0 else s.subtaskNum
    ensures GenStep(s, line, tools) == Ok(GenState(s.subtasks, Put(s.current, s.testcaseNum, GeneratedTestcase(s.testcaseNum, num, args, tools)),
                                                   num, s.testcaseNum + 1, s.score))
  {
  }

  /** The loop over one more line is one more step. */
  lemma GenLinesNext(lines: seq<string>, i: nat, s: GenState, tools: GenTools)
    requires i < |lines| && GenLines(lines[..i], tools) == Ok(s)
    ensures GenLines(lines[..i + 1], tools) == GenStep(s, lines[i], tools)
  {
    PrefixOfPrefix(lines, i);
  }

  /** Once a line fails to parse, the whole file fails with its message. */
  lemma {:induction false} GenLinesStops(lines: seq<string>, i: nat, tools: GenTools)
    requires i <= |lines|
    requires GenLines(lines[..i], tools).Err?
    ensures GenLines(lines, tools) == GenLines(lines[..i], tools)
    decreases |lines| - i
  {
    if i < |lines| {
      PrefixOfPrefix(lines, i);
      GenLinesStops(lines, i + 1, tools);
    } else {
      PrefixSuffix(lines, 0);
    }
  }

  /** A `#ST: ` line closes the current subtask (appended, in MIN mode with
      the score in effect, only if it has testcases) and opens the next one
      with the parsed score; a score `float` rejects is an error. */
  lemma StLineCloses(s: GenState, line: string, tools: GenTools)
    requires GenInv(s, tools) && Classify(line).StLine?
    ensures var text := Classify(line).scoreText;
            var subtasks := if s.current == [] then s.subtasks else s.subtasks + [(s.subtaskNum, Subtask(Min, s.score, s.current))];
            && (tools.parseFloat(text).None? ==> GenStep(s, line, tools).Err?)
            && (tools.parseFloat(text).Some? ==>
                  GenStep(s, line, tools) == Ok(GenState(subtasks, [], s.subtaskNum + 1, s.testcaseNum, tools.parseFloat(text).value)))
  {
    CloseAppends(s);
  }

  /** The end of the file: the result is the closed subtasks, except that a
      lone subtask 0 worth 0 becomes SUM worth 100, and a lone subtask under
      another number (such as -1, when the file has only `#COPY: ` lines and
      no `#ST: ` line) is a KeyError. */
  lemma FinishCases(s: GenState)
    ensures var closed := CreateSubtask(s.subtasks, s.subtaskNum, s.current, s.score);
            && (|closed| != 1 ==> GenFinish(s) == Ok(closed))
            && (|closed| == 1 && closed[0].0 == 0 && closed[0].1.maxScore == 0.0 ==>
                  GenFinish(s) == Ok([(0, Subtask(Sum, 100.0, closed[0].1.testcases))]))
            && (|closed| == 1 && closed[0].0 == 0 && closed[0].1.maxScore != 0.0 ==> GenFinish(s) == Ok(closed))
            && (|closed| == 1 && closed[0].0 != 0 ==> GenFinish(s) == Err("KeyError: 0"))
  {
    var closed := CreateSubtask(s.subtasks, s.subtaskNum, s.current, s.score);
    if |closed| == 1 {
      LookupSingle(closed, 0);
      if closed[0].0 == 0 {
        PutSingle(closed, closed[0].1.(mode := Sum, maxScore := 100.0));
      }
    }
  }

  /** In a one-entry list only its own key is found. */
  lemma LookupSingle<V>(m: seq<(int, V)>, k: int)
    requires |m| == 1
    ensures Lookup(m, k) == if m[0].0 == k then Some(m[0].1) else None
  {
    assert m[1..] == [];
  }

  /** Storing under the key of a one-entry list replaces its value. */
  lemma PutSingle<V>(m: seq<(int, V)>, v: V)
    requires |m| == 1
    ensures Put(m, m[0].0, v) == [(m[0].0, v)]
  {
    assert m[1..] == [];
  }

  /** What a GEN file that parses describes: subtasks numbered in increasing
      order, none empty, MIN apart from the lone-subtask case; together they
      hold one testcase per consuming line, numbered 0, 1, ... in order, each
      of the shape of its line with its own subtask's number. */
  lemma GenRunProps(lines: seq<string>, tools: GenTools)
    requires GenRun(lines, tools).Ok?
    ensures var sts := GenRun(lines, tools).value;
            && (forall i, j :: 0 <= i < j < |sts| ==> sts[i].0 < sts[j].0)
            && (forall i :: 0 <= i < |sts| ==> sts[i].1.testcases != [])
            && (forall i :: 0 <= i < |sts| ==>
                  sts[i].1.mode == Min || (|sts| == 1 && sts[i].0 == 0 && sts[i].1.mode == Sum && sts[i].1.maxScore == 100.0))
            && |AllKeys(sts)| == CountConsumed(lines)
            && (forall i :: 0 <= i < |AllKeys(sts)| ==> AllKeys(sts)[i] == i)
            && (forall i, j :: 0 <= i < |sts| && 0 <= j < |sts[i].1.testcases| ==> TcShape(sts[i].0, sts[i].1.testcases[j], tools))
  {
    GenLinesInv(lines, tools);
    var s := GenLines(lines, tools).value;
    CloseInv(s, 0.0, tools);
    FinishCases(s);
    var closed := CreateSubtask(s.subtasks, s.subtaskNum, s.current, s.score);
    var none: seq<(int, TestCase)> := [];
    assert Keys(none) == [];
    assert AllKeys(closed) + Keys(none) == AllKeys(closed);
    if |closed| == 1 && closed[0].1.maxScore == 0.0 {
      var hacked := [(0, Subtask(Sum, 100.0, closed[0].1.testcases))];
      assert hacked[..0] == [] && closed[..0] == [];
      assert AllKeys(hacked) == AllKeys(closed);
    }
  }

  /** The body of the GEN loop for one line. */
  method GenLineStep(s: GenState, line: string, tools: GenTools) returns (r: Result<GenState>)
    ensures r == GenStep(s, line, tools)
  {
    var kind := Classify(line);
    match kind {
      case StLine(text) => r := StLineStep(s, line, tools, text);
      case CopyLine(path) => r := CopyLineStep(s, line, tools, path);
      case Blank => r := Ok(s);
      case GeneratorLine(args) => r := GeneratorLineStep(s, line, tools, args);
    }
  }

  /** A `#ST: ` line closes the current subtask and opens the next one. */
  method StLineStep(s: GenState, line: string, tools: GenTools, text: string) returns (r: Result<GenState>)
    requires Classify(line) == StLine(text)
    ensures r == GenStep(s, line, tools)
  {
    var subtasks, current, subtaskNum := s.subtasks, s.current, s.subtaskNum;
    if current != [] {
      subtasks := Put(subtasks, subtaskNum, Subtask(Min, s.score, current));
    }
    subtaskNum := subtaskNum + 1;
    current := [];
    var parsed := tools.parseFloat(text);
    if parsed.None? {
      return Err("could not convert string to float: " + text);
    }
    StStepIs(s, line, tools, text, parsed.value);
    r := Ok(GenState(subtasks, current, subtaskNum, s.testcaseNum, parsed.value));
  }

  /** A `#COPY: ` line adds a testcase read from a file. */
  method CopyLineStep(s: GenState, line: string, tools: GenTools, path: string) returns (r: Result<GenState>)
    requires Classify(line) == CopyLine(path)
    ensures r == GenStep(s, line, tools)
  {
    var testcase := BaseTestcase(s.testcaseNum);
    testcase := testcase.(inputFile := Some(path));
    assert testcase == CopyTestcase(s.testcaseNum, path);
    CopyStepIs(s, line, tools, path);
    r := Ok(GenState(s.subtasks, Put(s.current, s.testcaseNum, testcase), s.subtaskNum, s.testcaseNum + 1, s.score));
  }

  /** Any other non-blank line adds a testcase made by the generator. */
  method GeneratorLineStep(s: GenState, line: string, tools: GenTools, args: seq<string>) returns (r: Result<GenState>)
    requires Classify(line) == GeneratorLine(args)
    ensures r == GenStep(s, line, tools)
  {
    var subtaskNum := s.subtaskNum;
    if subtaskNum < 0 {
      subtaskNum := 0;
    }
    var testcase := BaseTestcase(s.testcaseNum);
    testcase := testcase.(
      generator := Some(SourceFile(tools.generator, CopyTarget(tools.copyCompiled, "bin/generator"))),
      generatorArgs := args, extraDeps := tools.sanitize(args),
      validator := Some(SourceFile(tools.validator, CopyTarget(tools.copyCompiled, "bin/validator"))),
      validatorArgs := [ValidationInputName, IntToString(subtaskNum + 1)]);
    assert testcase == GeneratedTestcase(s.testcaseNum, subtaskNum, args, tools);
    GeneratorStepIs(s, line, tools, args, subtaskNum);
    r := Ok(GenState(s.subtasks, Put(s.current, s.testcaseNum, testcase), subtaskNum, s.testcaseNum + 1, s.score));
  }

  /** The loop of gen_testcases over the GEN lines, starting from subtask
      number -1 and testcase number 0 and stopping at the first error. */
  method ParseGenLines(lines: seq<string>, tools: GenTools) returns (r: Result<GenState>)
    ensures r == GenLines(lines, tools)
  {
    var state := GenStart;
    for i := 0 to |lines|
      invariant GenLines(lines[..i], tools) == Ok(state)
    {
      GenLinesNext(lines, i, state, tools);
      var next := GenLineStep(state, lines[i], tools);
      if next.Err? {
        GenLinesStops(lines, i + 1, tools);
        return Err(next.error);
      }
      state := next.value;
    }
    PrefixSuffix(lines, 0);
    r := Ok(state);
  }

  /** The end of gen_testcases: the last subtask closed and the lone-subtask
      rule applied. */
  method FinishGen(s: GenState) returns (r: Result<seq<(int, Subtask)>>)
    ensures r == GenFinish(s)
  {
    var subtasks := s.subtasks;
    if s.current != [] {
      subtasks := Put(subtasks, s.subtaskNum, Subtask(Min, s.score, s.current));
    }
    if |subtasks| == 1 {
      var first := Lookup(subtasks, 0);
      if first.None? {
        return Err("KeyError: 0");
      }
      if first.value.maxScore == 0.0 {
        subtasks := Put(subtasks, 0, first.value.(mode := Sum, maxScore := 100.0));
      }
    }
    r := Ok(subtasks);
  }

  /** gen_testcases: without a generator the static input files are used;
      without a validator or an official solution it raises; otherwise the
      GEN lines are parsed and the official solution is returned with the
      subtasks. */
  method GenTestcases(generator: Option<string>, validator: Option<string>, officialSolution: Option<string>,
                      staticNums: seq<int>, lines: seq<string>, copyCompiled: bool,
                      parseFloat: string -> Option<real>, sanitize: seq<string> -> seq<Dependency>)
    returns (r: Result<(Option<string>, seq<(int, Subtask)>)>)
    ensures generator.None? ==> LoadOutcome(staticNums, r)
    ensures generator.Some? && validator.None? ==> r == Err("No validator found")
    ensures generator.Some? && validator.Some? && officialSolution.None? ==> r == Err("No official solution found")
    ensures generator.Some? && validator.Some? && officialSolution.Some? ==>
              var tools := GenTools(generator.value, validator.value, copyCompiled, parseFloat, sanitize);
              (match GenRun(lines, tools)
               case Err(e) => r == Err(e)
               case Ok(sts) => r == Ok((officialSolution, sts)))
  {
    if generator.None? {
      r := LoadTestcases(staticNums);
      return;
    }
    if validator.None? {
      return Err("No validator found");
    }
    if officialSolution.None? {
      return Err("No official solution found");
    }
    var tools := GenTools(generator.value, validator.value, copyCompiled, parseFloat, sanitize);
    var parsed := ParseGenLines(lines, tools);
    if parsed.Err? {
      return Err(parsed.error);
    }
    var subtasks := FinishGen(parsed.value);
    if subtasks.Err? {
      return Err(subtasks.error);
    }
    r := Ok((officialSolution, subtasks.value));
  }

  // ---------------------------------------------------------------------------
  // task.yaml

  /** A value read from task.yaml. */
  datatype Value = Null | Bool(b: bool) | Int(i: int) | Real(r: real) | Str(s: string) | Other(truthy: bool)

  /** Python truthiness of a value. */
  predicate Truthy(v: Value) {
    match v
    case Null => false
    case Bool(b) => b
    case Int(i) => i != 0
    case Real(r) => r != 0.0
    case Str(s) => s != []
    case Other(t) => t
  }

  /** `get_options`: the value of the first listed key present in the data;
      otherwise the default, which must be truthy. */
  function GetOptions(data: map<string, Value>, names: seq<string>, default: Value): (r: Result<Value>)
    ensures forall i :: 0 <= i < |names| && names[i] in data && (forall j :: 0 <= j < i ==> names[j] !in data) ==>
              r == Ok(data[names[i]])
    ensures (forall i :: 0 <= i < |names| ==> names[i] !in data) ==>
              r == (if Truthy(default) then Ok(default) else Err(MissingField(names)))
  {
    OptionsFromFirst(data, names, 0, default);
    OptionsFrom(data, names, 0, default)
  }

  function MissingField(names: seq<string>): string {
    "Non optional field " + JoinBar(names) + " missing from task.yaml"
  }

  /** The loop of `get_options` from the `k`-th name on. */
  function OptionsFrom(data: map<string, Value>, names: seq<string>, k: nat, default: Value): Result<Value>
    requires k <= |names|
    decreases |names| - k
  {
    if k == |names| then (if !Truthy(default) then Err(MissingField(names)) else Ok(default))
    else if names[k] in data then Ok(data[names[k]])
    else OptionsFrom(data, names, k + 1, default)
  }

  /** From the `k`-th name on, the first name present decides; with none
      present, the default does. */
  lemma {:induction false} OptionsFromFirst(data: map<string, Value>, names: seq<string>, k: nat, default: Value)
    requires k <= |names|
    ensures var r := OptionsFrom(data, names, k, default);
            && (forall i :: k <= i < |names| && names[i] in data && (forall j :: k <= j < i ==> names[j] !in data) ==>
                  r == Ok(data[names[i]]))
            && ((forall i :: k <= i < |names| ==> names[i] !in data) ==>
                  r == (if Truthy(default) then Ok(default) else Err(MissingField(names))))
    decreases |names| - k
  {
    if k < |names| && names[k] !in data {
      OptionsFromFirst(data, names, k + 1, default);
    }
  }

  /** `"abc" * 1024`. */
  function Repeat(s: string, n: nat): (r: string)
    ensures |r| == |s| * n
  {
    if n == 0 then [] else s + Repeat(s, n - 1)
  }

  /** `value * 1024` as Python evaluates it; `None` and other objects raise.
      A list or tuple given as the memory limit is among the `Other` values,
      so the model raises where Python would repeat it 1024 times. */
  function Times1024(v: Value): Result<Value> {
    match v
    case Int(i) => Ok(Int(i * 1024))
    case Real(r) => Ok(Real(r * 1024.0))
    case Bool(b) => Ok(Int(if b then 1024 else 0))
    case Str(s) => Ok(Str(Repeat(s, 1024)))
    case _ => Err("TypeError: unsupported operand type for *")
  }

  /** The fields of a Task that create_task_from_yaml sets; the subtasks,
      graders, official solution and checker start empty. */
  datatype TaskInfo = TaskInfo(
    name: Value,
    title: Value,
    timeLimit: Value,
    memoryLimit: Value,
    inputFile: Value,
    outputFile: Value)

  /** `x if x else ""`. */
  function OrEmpty(v: Value): (r: Value)
    ensures Truthy(v) ==> r == v
    ensures !Truthy(v) ==> r == Str("")
  {
    if Truthy(v) then v else Str("")
  }

  /** create_task_from_yaml, raising in the order the source does. */
  function CreateTaskFromYaml(data: map<string, Value>): Result<TaskInfo> {
    match GetOptions(data, ["name", "nome_breve"], Null)
    case Err(e) => Err(e)
    case Ok(name) =>
      match GetOptions(data, ["title", "nome"], Null)
      case Err(e) => Err(e)
      case Ok(title) =>
        if name == Null then Err("The name is not set in the yaml")
        else if title == Null then Err("The title is not set in the yaml")
        else
          match GetOptions(data, ["time_limit", "timeout"], Null)
          case Err(e) => Err(e)
          case Ok(timeLimit) =>
            match GetOptions(data, ["memory_limit", "memlimit"], Null)
            case Err(e) => Err(e)
            case Ok(memory) =>
              match Times1024(memory)
              case Err(e) => Err(e)
              case Ok(memoryLimit) =>
                var inputFile := GetOptions(data, ["infile"], Str("input.txt"));
                var outputFile := GetOptions(data, ["outfile"], Str("output.txt"));
                Ok(TaskInfo(name, title, timeLimit, memoryLimit, OrEmpty(inputFile.value), OrEmpty(outputFile.value)))
  }

  /** get_options over two names: the first present wins. */
  lemma OptionsPair(data: map<string, Value>, a: string, b: string, default: Value)
    ensures GetOptions(data, [a, b], default)
            == if a in data then Ok(data[a]) else if b in data then Ok(data[b])
               else if Truthy(default) then Ok(default) else Err(MissingField([a, b]))
  {
    var names := [a, b];
    assert names[0] == a && names[1] == b;
  }

  /** get_options over one name. */
  lemma OptionsSingle(data: map<string, Value>, a: string, default: Value)
    ensures GetOptions(data, [a], default)
            == if a in data then Ok(data[a]) else if Truthy(default) then Ok(default) else Err(MissingField([a]))
  {
    var names := [a];
    assert names[0] == a;
  }

  /** The message for two missing keys names both, separated by a bar. */
  lemma MissingPair(a: string, b: string)
    ensures MissingField([a, b]) == "Non optional field " + a + "|" + b + " missing from task.yaml"
  {
    var names := [a, b];
    assert names[1..] == [b];
    assert JoinBar(names) == a + "|" + b;
    assert "Non optional field " + (a + "|" + b) + " missing from task.yaml"
        == "Non optional field " + a + "|" + b + " missing from task.yaml";
  }

  /** A task.yaml without a name is rejected with both accepted keys listed. */
  lemma CreateTaskNoName(data: map<string, Value>)
    requires "name" !in data && "nome_breve" !in data
    ensures CreateTaskFromYaml(data) == Err(MissingField(["name", "nome_breve"]))
  {
    OptionsPair(data, "name", "nome_breve", Null);
  }

  /** A task.yaml with a name but no title is rejected with both accepted
      title keys listed. */
  lemma CreateTaskNoTitle(data: map<string, Value>)
    requires ("name" in data || "nome_breve" in data) && "title" !in data && "nome" !in data
    ensures CreateTaskFromYaml(data) == Err(MissingField(["title", "nome"]))
  {
    OptionsPair(data, "name", "nome_breve", Null);
    OptionsPair(data, "title", "nome", Null);
  }

  /** A name or title given as null is reported, the name first. */
  lemma CreateTaskNull(data: map<string, Value>)
    requires ("title" in data || "nome" in data)
    ensures "name" in data && data["name"] == Null ==>
              CreateTaskFromYaml(data) == Err("The name is not set in the yaml")
    ensures "name" in data && data["name"] != Null && "title" in data && data["title"] == Null ==>
              CreateTaskFromYaml(data) == Err("The title is not set in the yaml")
  {
    OptionsPair(data, "name", "nome_breve", Null);
    OptionsPair(data, "title", "nome", Null);
  }

  /** A task built from task.yaml has a name and a title, its memory limit in
      KiB, and its I/O files defaulting to input.txt / output.txt, a falsy
      value meaning standard input or output. */
  lemma CreateTaskFields(data: map<string, Value>)
    requires CreateTaskFromYaml(data).Ok?
    ensures var t := CreateTaskFromYaml(data).value;
            && t.name != Null && t.title != Null
            && ("memory_limit" in data && data["memory_limit"].Int? ==> t.memoryLimit == Int(data["memory_limit"].i * 1024))
            && ("infile" !in data ==> t.inputFile == Str("input.txt"))
            && ("infile" in data && !Truthy(data["infile"]) ==> t.inputFile == Str(""))
            && ("infile" in data && Truthy(data["infile"]) ==> t.inputFile == data["infile"])
            && ("outfile" !in data ==> t.outputFile == Str("output.txt"))
            && ("outfile" in data && !Truthy(data["outfile"]) ==> t.outputFile == Str(""))
            && ("outfile" in data && Truthy(data["outfile"]) ==> t.outputFile == data["outfile"])
  {
    CreateTaskNames(data);
    CreateTaskFiles(data);
  }

  /** The name and the title are present, and the memory limit is in KiB. */
  lemma CreateTaskNames(data: map<string, Value>)
    requires CreateTaskFromYaml(data).Ok?
    ensures var t := CreateTaskFromYaml(data).value;
            && t.name != Null && t.title != Null
            && ("memory_limit" in data && data["memory_limit"].Int? ==> t.memoryLimit == Int(data["memory_limit"].i * 1024))
  {
    OptionsPair(data, "name", "nome_breve", Null);
    OptionsPair(data, "title", "nome", Null);
    OptionsPair(data, "memory_limit", "memlimit", Null);
  }

  /** The I/O files default to input.txt and output.txt; a falsy value means
      standard input or output. */
  lemma CreateTaskFiles(data: map<string, Value>)
    requires CreateTaskFromYaml(data).Ok?
    ensures var t := CreateTaskFromYaml(data).value;
            && ("infile" !in data ==> t.inputFile == Str("input.txt"))
            && ("infile" in data && !Truthy(data["infile"]) ==> t.inputFile == Str(""))
            && ("infile" in data && Truthy(data["infile"]) ==> t.inputFile == data["infile"])
            && ("outfile" !in data ==> t.outputFile == Str("output.txt"))
            && ("outfile" in data && !Truthy(data["outfile"]) ==> t.outputFile == Str(""))
            && ("outfile" in data && Truthy(data["outfile"]) ==> t.outputFile == data["outfile"])
  {
    OptionsSingle(data, "infile", Str("input.txt"));
    OptionsSingle(data, "outfile", Str("output.txt"));
  }

  // ---------------------------------------------------------------------------
  // Solutions and checker

  /** The glob patterns get_solutions lists, and the files it excludes: each
      named solution under sol/ (the prefix added when missing) followed by
      `*`, or, with no names, everything in sol/ but grader files and
      `sol/__init__.py`. */
  function SolutionPatterns(solutions: seq<string>, graders: seq<string>): (r: (seq<string>, seq<string>))
    ensures solutions != [] ==> |r.0| == |solutions| && r.1 == []
    ensures solutions != [] ==> forall i :: 0 <= i < |solutions| ==>
              r.0[i] == (if StartsWith(solutions[i], "sol/") then solutions[i] else "sol/" + solutions[i]) + "*"
    ensures forall i :: 0 <= i < |r.0| ==> StartsWith(r.0[i], "sol/") && r.0[i][|r.0[i]| - 1] == '*'
    ensures solutions == [] ==> r == (["sol/*"], graders + ["sol/__init__.py"])
  {
    if solutions != [] then (Rewrite(solutions), []) else (["sol/*"], graders + ["sol/__init__.py"])
  }

  function Rewrite(solutions: seq<string>): (r: seq<string>)
    ensures |r| == |solutions|
    ensures forall i :: 0 <= i < |solutions| ==>
              r[i] == (if StartsWith(solutions[i], "sol/") then solutions[i] else "sol/" + solutions[i]) + "*"
    ensures forall i :: 0 <= i < |r| ==> StartsWith(r[i], "sol/") && r[i][|r[i]| - 1] == '*'
  {
    if solutions == [] then []
    else
      var sol := solutions[0];
      var p := (if StartsWith(sol, "sol/") then sol else "sol/" + sol) + "*";
      assert StartsWith(p, "sol/") by {
        if !StartsWith(sol, "sol/") {
          assert p[..4] == "sol/";
        } else {
          assert p[..4] == sol[..4];
        }
      }
      [p] + Rewrite(solutions[1..])
  }

  /** get_checker over the files found: none, exactly one, or too many. */
  function GetChecker(checkers: seq<string>): (r: Result<Option<string>>)
    ensures r.Err? <==> |checkers| > 1
    ensures r.Err? ==> r.error == "Too many checkers in cor/ folder"
    ensures r == Ok(None) <==> checkers == []
    ensures r.Ok? && r.value.Some? ==> [r.value.value] == checkers
  {
    if checkers == [] then Ok(None)
    else if |checkers| == 1 then Ok(Some(checkers[0]))
    else Err("Too many checkers in cor/ folder")
  }
}

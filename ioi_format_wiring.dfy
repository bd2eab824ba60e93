/** The execution graph the single-file IOI format builds
    (`generate_inputs` and `evaluate_solutions` in
    python/formats/ioi_format.py): per testcase a generation, a validation
    and an official-solution run, or the static output; per solution and
    testcase an evaluation and a checking. Executions are records; a file
    handed from one execution to another is named by the description of the
    execution that produces it.

    The files an execution receives are handed over by callbacks that run
    once the promised file exists, after the loops have finished. The
    callbacks name their execution through the loop variable (`gen`, `val`,
    `sol`, `eval`, `check`, and `dep` for the dependency's name), which
    by then holds the value of the last iteration. The model records each
    handover as an `Attach` and resolves the whole list at the end, either
    with the final values of the variables (as written) or with the values
    they had when the callback was registered (as intended). */
module IoiFormatWiring {
  import opened Common
  import IoiFormat

  /** Where a file comes from: a file of the task folder, or the standard
      output or a named output file of an execution. */
  datatype FileRef = Provided(path: string) | StdoutOf(exec: string) | OutputOf(exec: string, name: string)

  /** The program an execution runs: a source file of the task, or `diff`. */
  datatype Program = Source(path: string) | Diff

  /** One registered execution: its files by name, its standard input and
      the files it only waits for. */
  datatype Exec = Exec(
    description: string,
    program: Program,
    args: seq<string>,
    inputs: seq<(string, FileRef)>,
    stdin: Option<FileRef>,
    waits: seq<FileRef>)

  /** The loop variables the callbacks read. */
  datatype Role = GenVar | ValVar | SolVar | EvalVar | CheckVar

  /** A file handed over by a callback: the variable naming the execution,
      the execution it named when the callback was registered, the name the
      file gets there and whether it becomes the standard input. */
  datatype Attach = Attach(role: Role, own: string, name: string, file: FileRef, toStdin: bool)

  /** The task's `input_file` and `output_file`; the empty text is unset. */
  datatype TaskIo = TaskIo(inputFile: string, outputFile: string)

  /** What `generate_inputs` leaves behind: its three dictionaries in
      insertion order, the registered executions, the pending handovers, and
      the final values of its loop variables. */
  datatype Generated = Generated(
    inputs: seq<(int, FileRef)>,
    outputs: seq<(int, FileRef)>,
    validations: seq<(int, FileRef)>,
    execs: seq<Exec>,
    attaches: seq<Attach>,
    bound: map<Role, string>,
    depName: Option<string>)

  /** `"Static input %d" + tc_num`: a `str` plus an `int`. */
  const StaticInputError: string := "TypeError: cannot concatenate str and int"
  /** `.prepare` on a source that is `None`. */
  const NoneError: string := "AttributeError: 'NoneType' object has no attribute 'prepare'"

  function GenDesc(n: int): string { "Generation of input " + IntToString(n) }
  function ValDesc(n: int): string { "Validation of input " + IntToString(n) }
  function SolDesc(n: int): string { "Generation of output " + IntToString(n) }
  function EvalDesc(name: string, n: int): string { "Evaluation of " + name + " on testcase " + IntToString(n) }
  function CheckDesc(name: string, n: int): string { "Checking solution " + name + " for testcase " + IntToString(n) }

  /** The validations are told apart by their testcase number, and are
      neither a generation nor an official-solution run. */
  lemma ValDescDistinct(a: int, b: int)
    ensures ValDesc(a) == ValDesc(b) ==> a == b
    ensures ValDesc(a) != GenDesc(b) && ValDesc(a) != SolDesc(b)
  {
    var p := "Validation of input ";
    if ValDesc(a) == ValDesc(b) {
      assert IntToString(a) == ValDesc(a)[|p|..];
      assert IntToString(b) == ValDesc(b)[|p|..];
      IntToStringInjective(a, b);
    }
    assert ValDesc(a)[0] == 'V' && GenDesc(b)[0] == 'G' && SolDesc(b)[0] == 'G';
  }

  /** A decimal text has no space in it. */
  lemma IntToStringNoSpace(n: int)
    ensures forall i :: 0 <= i < |IntToString(n)| ==> IntToString(n)[i] != ' '
  {
    if n < 0 {
      assert IntToString(n) == "-" + NatToString(-n);
    }
  }

  /** A description `pre + name + post + number`, where `post` ends in a
      space, determines its name and its number. */
  lemma DescSplit(pre: string, a: string, b: string, post: string, m: int, n: int)
    requires |post| > 0 && post[|post| - 1] == ' '
    requires pre + a + post + IntToString(m) == pre + b + post + IntToString(n)
    ensures a == b && m == n
  {
    IntToStringNoSpace(m);
    IntToStringNoSpace(n);
    var u, v := pre + a + post, pre + b + post;
    assert u + IntToString(m) == v + IntToString(n);
    SpaceSuffix(u, v, IntToString(m), IntToString(n));
    IntToStringInjective(m, n);
    assert a == u[|pre|..|pre| + |a|] == v[|pre|..|pre| + |b|] == b;
  }

  /** Two texts that each end in a space, followed by words without one,
      agree only when both parts agree. */
  lemma SpaceSuffix(u: string, v: string, x: string, y: string)
    requires |u| > 0 && u[|u| - 1] == ' ' && |v| > 0 && v[|v| - 1] == ' '
    requires forall i :: 0 <= i < |x| ==> x[i] != ' '
    requires forall i :: 0 <= i < |y| ==> y[i] != ' '
    requires u + x == v + y
    ensures u == v && x == y
  {
    var s := u + x;
    // the last space of s sits just before each word
    assert s[|s| - |x| - 1] == ' ' && s[|s| - |y| - 1] == ' ';
    assert forall i :: |s| - |x| <= i < |s| ==> s[i] == x[i - (|s| - |x|)];
    assert forall i :: |s| - |y| <= i < |s| ==> s[i] == y[i - (|s| - |y|)];
    assert |x| == |y|;
    assert u == s[..|u|] == v;
    assert x == s[|u|..] == y;
  }

  /** The evaluations and the checkings are told apart by solution name
      and testcase number, and no evaluation is a checking. */
  lemma EvalDescDistinct(a: string, m: int, b: string, n: int)
    ensures EvalDesc(a, m) == EvalDesc(b, n) ==> a == b && m == n
    ensures CheckDesc(a, m) == CheckDesc(b, n) ==> a == b && m == n
    ensures EvalDesc(a, m) != CheckDesc(b, n)
  {
    if EvalDesc(a, m) == EvalDesc(b, n) {
      DescSplit("Evaluation of ", a, b, " on testcase ", m, n);
    }
    if CheckDesc(a, m) == CheckDesc(b, n) {
      DescSplit("Checking solution ", a, b, " for testcase ", m, n);
    }
    assert EvalDesc(a, m)[0] == 'E' && CheckDesc(b, n)[0] == 'C';
  }

  // ---------------------------------------------------------------------------
  // Routing

  /** The handover of an input: under the task's input file name when it has
      one, as standard input otherwise. */
  function FeedAttach(role: Role, own: string, io: TaskIo, input: FileRef): seq<Attach> {
    if io.inputFile != "" then [Attach(role, own, io.inputFile, input, false)]
    else [Attach(role, own, "", input, true)]
  }

  /** The output of a run: its output file when the task has one, its
      standard output otherwise. */
  function ReadOutput(io: TaskIo, desc: string): FileRef {
    if io.outputFile != "" then OutputOf(desc, io.outputFile) else StdoutOf(desc)
  }

  /** A run gets its input exactly once, through the named file or through
      stdin, and its output is read from that same run. */
  lemma RoutingCases(role: Role, own: string, io: TaskIo, input: FileRef, desc: string)
    ensures |FeedAttach(role, own, io, input)| == 1
    ensures var a := FeedAttach(role, own, io, input)[0];
            && a.role == role && a.own == own && a.file == input
            && (a.toStdin <==> io.inputFile == "")
            && (!a.toStdin ==> a.name == io.inputFile)
    ensures ReadOutput(io, desc).exec == desc
    ensures ReadOutput(io, desc).OutputOf? <==> io.outputFile != ""
    ensures ReadOutput(io, desc).OutputOf? ==> ReadOutput(io, desc).name == io.outputFile
  {
  }

  // ---------------------------------------------------------------------------
  // generate_inputs, one testcase

  /** The handovers of the extra dependencies to a generation. */
  function DepAttaches(own: string, deps: seq<IoiFormat.Dependency>): (r: seq<Attach>)
    ensures |r| == |deps|
    ensures forall i :: 0 <= i < |deps| ==> r[i] == Attach(GenVar, own, deps[i].name, Provided(deps[i].path), false)
  {
    if deps == [] then []
    else DepAttaches(own, deps[..|deps| - 1]) + [Attach(GenVar, own, deps[|deps| - 1].name, Provided(deps[|deps| - 1].path), false)]
  }

  /** `if testcase.input_file:`, Python's truth test: a static input with
      an empty path (a `#COPY: ` line with nothing after it) counts as none. */
  predicate StaticInput(tc: IoiFormat.TestCase) {
    tc.inputFile.Some? && tc.inputFile.value != ""
  }

  /** `if testcase.output_file:`, the same truth test for a static output:
      an empty path counts as none and the official solution runs instead. */
  predicate StaticOutput(tc: IoiFormat.TestCase) {
    tc.outputFile.Some? && tc.outputFile.value != ""
  }

  /** One iteration of generate_inputs. A static input raises while its
      description is built; a generated one registers the generation and the
      validation, then the official solution unless the output is static. */
  function GenerateStep(g: Generated, n: int, tc: IoiFormat.TestCase, official: Option<string>, io: TaskIo): Result<Generated> {
    if StaticInput(tc) then Err(StaticInputError)
    else if tc.generator.None? || tc.validator.None? then Err(NoneError)
    else
      var input := StdoutOf(GenDesc(n));
      var validation := StdoutOf(ValDesc(n));
      var gen := Exec(GenDesc(n), Source(tc.generator.value.path), tc.generatorArgs, [], None, []);
      var val := Exec(ValDesc(n), Source(tc.validator.value.path), tc.validatorArgs, [], None, []);
      var fed := DepAttaches(GenDesc(n), tc.extraDeps) + [Attach(ValVar, ValDesc(n), IoiFormat.ValidationInputName, input, false)];
      var inputs := IoiFormat.Put(g.inputs, n, input);
      var validations := IoiFormat.Put(g.validations, n, validation);
      var depName := if tc.extraDeps == [] then g.depName else Some(tc.extraDeps[|tc.extraDeps| - 1].name);
      var bound := g.bound[GenVar := GenDesc(n)][ValVar := ValDesc(n)];
      if StaticOutput(tc) then
        Ok(Generated(inputs, IoiFormat.Put(g.outputs, n, Provided(tc.outputFile.value)), validations,
                     g.execs + [gen, val], g.attaches + fed, bound, depName))
      else if official.None? then Err(NoneError)
      else
        var d := SolDesc(n);
        var sol := Exec(d, Source(official.value), [], [], None, []);
        var solFed := [Attach(SolVar, d, "wait_for_validation", validation, false)] + FeedAttach(SolVar, d, io, input);
        Ok(Generated(inputs, IoiFormat.Put(g.outputs, n, ReadOutput(io, d)), validations,
                     g.execs + [gen, val, sol], g.attaches + fed + solFed, bound[SolVar := d], depName))
  }

  /** A testcase with a static input always raises; a generated one is
      generated, validated on the generation's standard output, and solved
      unless its output is static. */
  lemma GenerateStepCases(g: Generated, n: int, tc: IoiFormat.TestCase, official: Option<string>, io: TaskIo)
    ensures StaticInput(tc) ==> GenerateStep(g, n, tc, official, io) == Err(StaticInputError)
    ensures GenerateStep(g, n, tc, official, io).Ok? <==>
              !StaticInput(tc) && tc.generator.Some? && tc.validator.Some? && (StaticOutput(tc) || official.Some?)
    ensures GenerateStep(g, n, tc, official, io).Ok? ==>
              var g' := GenerateStep(g, n, tc, official, io).value;
              && g'.execs[..|g.execs|] == g.execs
              && g'.execs[|g.execs|] == Exec(GenDesc(n), Source(tc.generator.value.path), tc.generatorArgs, [], None, [])
              && g'.execs[|g.execs| + 1] == Exec(ValDesc(n), Source(tc.validator.value.path), tc.validatorArgs, [], None, [])
              && |g'.execs| == |g.execs| + (if StaticOutput(tc) then 2 else 3)
              && g'.attaches[|g.attaches| + |tc.extraDeps|] == Attach(ValVar, ValDesc(n), IoiFormat.ValidationInputName, StdoutOf(GenDesc(n)), false)
              && (!StaticOutput(tc) ==> g'.execs[|g.execs| + 2].program == Source(official.value))
  {
  }

  /** A `#COPY: ` line with no path after it leaves an empty path, which
      the truth test treats as no static input: generate_inputs takes the
      generator branch and fails on the missing generator, while a
      non-empty path fails on the description instead. */
  lemma EmptyCopyRaisesNone(g: Generated, n: int, path: string, official: Option<string>, io: TaskIo)
    ensures GenerateStep(g, n, IoiFormat.CopyTestcase(n, path), official, io)
              == if path == "" then Err(NoneError) else Err(StaticInputError)
  {
  }

  // ---------------------------------------------------------------------------
  // Folds that stop at the first exception

  /** Applies `step` to each element in turn, stopping at the first error. */
  function Fold<S, X>(s0: S, xs: seq<X>, step: (S, X) -> Result<S>): Result<S> {
    if xs == [] then Ok(s0)
    else
      match Fold(s0, xs[..|xs| - 1], step)
      case Err(e) => Err(e)
      case Ok(s) => step(s, xs[|xs| - 1])
  }

  /** One more element is one more step. */
  lemma FoldNext<S, X>(s0: S, xs: seq<X>, x: X, step: (S, X) -> Result<S>)
    ensures Fold(s0, xs + [x], step) == match Fold(s0, xs, step) case Err(e) => Err(e) case Ok(s) => step(s, x)
  {
    SnocPrefix(xs, x);
  }

  /** After an error nothing more is done. */
  lemma {:induction false} FoldStops<S, X>(s0: S, xs: seq<X>, rest: seq<X>, step: (S, X) -> Result<S>)
    requires Fold(s0, xs, step).Err?
    ensures Fold(s0, xs + rest, step) == Fold(s0, xs, step)
    decreases |rest|
  {
    if rest == [] {
      assert xs + rest == xs;
    } else {
      var init := rest[..|rest| - 1];
      FoldStops(s0, xs, init, step);
      assert xs + rest == (xs + init) + [rest[|rest| - 1]];
      FoldNext(s0, xs + init, rest[|rest| - 1], step);
    }
  }

  // ---------------------------------------------------------------------------
  // generate_inputs

  /** The testcases of all subtasks, in the order the loops visit them. */
  function Flatten(subtasks: seq<(int, IoiFormat.Subtask)>): seq<(int, IoiFormat.TestCase)> {
    FlattenBy(subtasks, CasesOf)
  }

  function CasesOf(s: (int, IoiFormat.Subtask)): seq<(int, IoiFormat.TestCase)> {
    s.1.testcases
  }

  /** The lists `f` gives for each group, concatenated in order. */
  function FlattenBy<S, T>(groups: seq<S>, f: S -> seq<T>): seq<T> {
    if groups == [] then []
    else FlattenBy(groups[..|groups| - 1], f) + f(groups[|groups| - 1])
  }

  const NoneGenerated: Generated := Generated([], [], [], [], [], map[], None)

  /** generate_inputs over the testcases in loop order. */
  function GenerateAll(tcs: seq<(int, IoiFormat.TestCase)>, official: Option<string>, io: TaskIo): Result<Generated> {
    Fold(NoneGenerated, tcs, (g: Generated, e: (int, IoiFormat.TestCase)) => GenerateStep(g, e.0, e.1, official, io))
  }

  lemma GenerateAllNext(tcs: seq<(int, IoiFormat.TestCase)>, e: (int, IoiFormat.TestCase), official: Option<string>, io: TaskIo)
    ensures GenerateAll(tcs + [e], official, io) ==
              match GenerateAll(tcs, official, io) case Err(x) => Err(x) case Ok(g) => GenerateStep(g, e.0, e.1, official, io)
  {
    FoldNext(NoneGenerated, tcs, e, (g: Generated, e: (int, IoiFormat.TestCase)) => GenerateStep(g, e.0, e.1, official, io));
  }

  lemma GenerateAllStops(tcs: seq<(int, IoiFormat.TestCase)>, rest: seq<(int, IoiFormat.TestCase)>, official: Option<string>, io: TaskIo)
    requires GenerateAll(tcs, official, io).Err?
    ensures GenerateAll(tcs + rest, official, io) == GenerateAll(tcs, official, io)
  {
    FoldStops(NoneGenerated, tcs, rest, (g: Generated, e: (int, IoiFormat.TestCase)) => GenerateStep(g, e.0, e.1, official, io));
  }

  /** A task whose first testcase has a static input, as every testcase
      load_testcases builds has, never gets its inputs. */
  lemma StaticFirstRaises(tcs: seq<(int, IoiFormat.TestCase)>, official: Option<string>, io: TaskIo)
    requires tcs != [] && StaticInput(tcs[0].1)
    ensures GenerateAll(tcs, official, io) == Err(StaticInputError)
  {
    GenerateAllNext([], tcs[0], official, io);
    assert [] + [tcs[0]] == [tcs[0]];
    GenerateAllStops([tcs[0]], tcs[1..], official, io);
    assert [tcs[0]] + tcs[1..] == tcs;
  }

  /** The concrete case: the testcase load_testcases builds for input 0. */
  lemma LoadedTestcaseRaises(official: Option<string>, io: TaskIo)
    ensures GenerateAll([(0, IoiFormat.StaticTestcase(0))], official, io) == Err(StaticInputError)
  {
    StaticFirstRaises([(0, IoiFormat.StaticTestcase(0))], official, io);
  }

  lemma PutKeys<V>(m: seq<(int, V)>, k: int, v: V)
    ensures forall x :: x in IoiFormat.Keys(IoiFormat.Put(m, k, v)) <==> x in IoiFormat.Keys(m) || x == k
  {
    if m != [] && m[0].0 != k {
      PutKeys(m[1..], k, v);
    }
  }

  /** `n` is the number of one of the testcases. */
  predicate Numbered(tcs: seq<(int, IoiFormat.TestCase)>, n: int) {
    exists i :: 0 <= i < |tcs| && tcs[i].0 == n
  }

  lemma NumberedNext(tcs: seq<(int, IoiFormat.TestCase)>, e: (int, IoiFormat.TestCase))
    ensures forall n :: Numbered(tcs + [e], n) <==> Numbered(tcs, n) || n == e.0
  {
    var all := tcs + [e];
    forall n ensures Numbered(all, n) <==> Numbered(tcs, n) || n == e.0 {
      if Numbered(all, n) && n != e.0 {
        var i :| 0 <= i < |all| && all[i].0 == n;
        assert tcs[i].0 == n;
      }
      if Numbered(tcs, n) {
        var i :| 0 <= i < |tcs| && tcs[i].0 == n;
        assert all[i].0 == n;
      }
      if n == e.0 {
        assert all[|tcs|].0 == n;
      }
    }
  }

  /** When generate_inputs succeeds, every testcase has exactly one entry in
      each of the inputs, the outputs and the validations. */
  lemma {:induction false} GenerateKeys(tcs: seq<(int, IoiFormat.TestCase)>, official: Option<string>, io: TaskIo)
    requires GenerateAll(tcs, official, io).Ok?
    ensures var g := GenerateAll(tcs, official, io).value;
            && (forall n :: n in IoiFormat.Keys(g.inputs) <==> Numbered(tcs, n))
            && (forall n :: n in IoiFormat.Keys(g.outputs) <==> Numbered(tcs, n))
            && (forall n :: n in IoiFormat.Keys(g.validations) <==> Numbered(tcs, n))
    decreases |tcs|
  {
    if tcs != [] {
      var init, e := tcs[..|tcs| - 1], tcs[|tcs| - 1];
      InitLast(tcs);
      GenerateAllNext(init, e, official, io);
      if GenerateAll(init, official, io).Err? {
        assert false;
      }
      GenerateKeys(init, official, io);
      NumberedNext(init, e);
      var g0 := GenerateAll(init, official, io).value;
      PutKeys(g0.inputs, e.0, StdoutOf(GenDesc(e.0)));
      PutKeys(g0.validations, e.0, StdoutOf(ValDesc(e.0)));
      if StaticOutput(e.1) {
        PutKeys(g0.outputs, e.0, Provided(e.1.outputFile.value));
      } else {
        PutKeys(g0.outputs, e.0, ReadOutput(io, SolDesc(e.0)));
      }
    }
  }

  lemma FlattenNext<S, T>(groups: seq<S>, f: S -> seq<T>, i: int)
    requires 0 <= i < |groups|
    ensures FlattenBy(groups[..i + 1], f) == FlattenBy(groups[..i], f) + f(groups[i])
  {
    PrefixOfPrefix(groups, i);
  }

  /** The lists of the groups from `i` on. */
  function FlattenFrom<S, T>(groups: seq<S>, f: S -> seq<T>, i: int): seq<T>
    requires 0 <= i <= |groups|
    decreases |groups| - i
  {
    if i == |groups| then [] else f(groups[i]) + FlattenFrom(groups, f, i + 1)
  }

  lemma {:induction false} FlattenSplit<S, T>(groups: seq<S>, f: S -> seq<T>, i: int)
    requires 0 <= i <= |groups|
    ensures FlattenBy(groups, f) == FlattenBy(groups[..i], f) + FlattenFrom(groups, f, i)
    decreases |groups| - i
  {
    if i == |groups| {
      PrefixSuffix(groups, 0);
    } else {
      FlattenSplit(groups, f, i + 1);
      FlattenNext(groups, f, i);
      var head, x, tail := FlattenBy(groups[..i], f), f(groups[i]), FlattenFrom(groups, f, i + 1);
      assert FlattenFrom(groups, f, i) == x + tail;
      assert (head + x) + tail == head + (x + tail);
    }
  }

  lemma FlattenRest<S, T>(groups: seq<S>, f: S -> seq<T>, i: int, j: int)
    requires 0 <= i < |groups| && 0 <= j < |f(groups[i])|
    ensures var xs := f(groups[i]);
            FlattenBy(groups, f) == FlattenBy(groups[..i], f) + xs[..j + 1] + (xs[j + 1..] + FlattenFrom(groups, f, i + 1))
  {
    var xs := f(groups[i]);
    var head, tail := FlattenBy(groups[..i], f), FlattenFrom(groups, f, i + 1);
    FlattenSplit(groups, f, i);
    assert FlattenFrom(groups, f, i) == xs + tail;
    assert xs == xs[..j + 1] + xs[j + 1..];
    ConcatAssoc(xs[..j + 1], xs[j + 1..], tail);
    ConcatAssoc(head, xs[..j + 1], xs[j + 1..] + tail);
  }

  /** One more testcase of the current subtask is one more step. */
  lemma InnerNext(done: seq<(int, IoiFormat.TestCase)>, tcs: seq<(int, IoiFormat.TestCase)>, j: int, g: Generated,
                  official: Option<string>, io: TaskIo)
    requires 0 <= j < |tcs| && GenerateAll(done + tcs[..j], official, io) == Ok(g)
    ensures GenerateAll(done + tcs[..j + 1], official, io) == GenerateStep(g, tcs[j].0, tcs[j].1, official, io)
  {
    SnocSlice(done, tcs, j);
    GenerateAllNext(done + tcs[..j], tcs[j], official, io);
  }

  lemma SnocSlice<T>(done: seq<T>, xs: seq<T>, j: int)
    requires 0 <= j < |xs|
    ensures done + xs[..j + 1] == (done + xs[..j]) + [xs[j]]
  {
    PrefixSnoc(xs, j);
  }

  /** A failing testcase ends generate_inputs with its error. */
  lemma InnerStops(subtasks: seq<(int, IoiFormat.Subtask)>, i: int, j: int, official: Option<string>, io: TaskIo)
    requires 0 <= i < |subtasks| && 0 <= j < |subtasks[i].1.testcases|
    requires GenerateAll(Flatten(subtasks[..i]) + subtasks[i].1.testcases[..j + 1], official, io).Err?
    ensures GenerateAll(Flatten(subtasks), official, io) == GenerateAll(Flatten(subtasks[..i]) + subtasks[i].1.testcases[..j + 1], official, io)
  {
    var tcs := subtasks[i].1.testcases;
    var done := Flatten(subtasks[..i]) + tcs[..j + 1];
    GenerateAllStops(done, tcs[j + 1..] + FlattenFrom(subtasks, CasesOf, i + 1), official, io);
    FlattenRest(subtasks, CasesOf, i, j);
  }

  /** generate_inputs: over the subtasks, over their testcases. */
  method GenerateInputs(subtasks: seq<(int, IoiFormat.Subtask)>, official: Option<string>, io: TaskIo)
    returns (r: Result<Generated>)
    ensures r == GenerateAll(Flatten(subtasks), official, io)
  {
    var g := NoneGenerated;
    for i := 0 to |subtasks|
      invariant GenerateAll(Flatten(subtasks[..i]), official, io) == Ok(g)
    {
      var tcs := subtasks[i].1.testcases;
      var done := Flatten(subtasks[..i]);
      assert done + tcs[..0] == done;
      for j := 0 to |tcs|
        invariant GenerateAll(done + tcs[..j], official, io) == Ok(g)
      {
        InnerNext(done, tcs, j, g, official, io);
        var step := GenerateStep(g, tcs[j].0, tcs[j].1, official, io);
        if step.Err? {
          InnerStops(subtasks, i, j, official, io);
          return step;
        }
        g := step.value;
      }
      PrefixSuffix(tcs, 0);
      FlattenNext(subtasks, CasesOf, i);
    }
    PrefixSuffix(subtasks, 0);
    r := Ok(g);
  }

  // ---------------------------------------------------------------------------
  // Resolving the handovers

  /** The execution a handover reaches: the variable's final value as
      written (`late`), its value at registration as intended. */
  function Target(a: Attach, late: bool, bound: map<Role, string>): string {
    if late && a.role in bound then bound[a.role] else a.own
  }

  /** The name a handover gives its file; a dependency's name is read from
      the `dep` variable as well. */
  function NameOf(a: Attach, late: bool, depName: Option<string>): string {
    if late && a.role == GenVar && depName.Some? then depName.value else a.name
  }

  /** The named files the execution `desc` receives, in handover order. */
  function FilesFor(desc: string, attaches: seq<Attach>, late: bool, bound: map<Role, string>, depName: Option<string>): seq<(string, FileRef)> {
    if attaches == [] then []
    else
      var init := FilesFor(desc, attaches[..|attaches| - 1], late, bound, depName);
      var a := attaches[|attaches| - 1];
      if Target(a, late, bound) == desc && !a.toStdin then init + [(NameOf(a, late, depName), a.file)] else init
  }

  /** The standard input the execution `desc` receives: the last one handed over. */
  function StdinFor(desc: string, attaches: seq<Attach>, late: bool, bound: map<Role, string>): Option<FileRef> {
    if attaches == [] then None
    else
      var a := attaches[|attaches| - 1];
      if Target(a, late, bound) == desc && a.toStdin then Some(a.file) else StdinFor(desc, attaches[..|attaches| - 1], late, bound)
  }

  /** The executions with every handover applied. */
  function Resolve(execs: seq<Exec>, attaches: seq<Attach>, late: bool, bound: map<Role, string>, depName: Option<string>): (r: seq<Exec>)
    ensures |r| == |execs|
  {
    seq(|execs|, k requires 0 <= k < |execs| =>
      execs[k].(inputs := execs[k].inputs + FilesFor(execs[k].description, attaches, late, bound, depName),
                stdin := if execs[k].stdin.Some? then execs[k].stdin else StdinFor(execs[k].description, attaches, late, bound)))
  }

  /** As written, a handover reaches only an execution some variable still
      names at the end. */
  lemma {:induction false} LateMissesUnbound(desc: string, attaches: seq<Attach>, bound: map<Role, string>, depName: Option<string>)
    requires forall k :: 0 <= k < |attaches| ==> attaches[k].role in bound
    requires forall r :: r in bound ==> bound[r] != desc
    ensures FilesFor(desc, attaches, true, bound, depName) == []
    ensures StdinFor(desc, attaches, true, bound) == None
    decreases |attaches|
  {
    if attaches != [] {
      LateMissesUnbound(desc, attaches[..|attaches| - 1], bound, depName);
    }
  }

  /** As intended, every file an execution receives was handed to it when
      it was registered, and any file handed to it is received. */
  lemma {:induction false} EarlyFilesOwn(desc: string, attaches: seq<Attach>, bound: map<Role, string>, depName: Option<string>)
    ensures forall p :: p in FilesFor(desc, attaches, false, bound, depName) ==>
              exists k :: 0 <= k < |attaches| && attaches[k].own == desc && !attaches[k].toStdin
                          && p == (attaches[k].name, attaches[k].file)
    ensures (exists k :: 0 <= k < |attaches| && attaches[k].own == desc && !attaches[k].toStdin) ==>
              FilesFor(desc, attaches, false, bound, depName) != []
    decreases |attaches|
  {
    if attaches != [] {
      var init := attaches[..|attaches| - 1];
      EarlyFilesOwn(desc, init, bound, depName);
      forall p | p in FilesFor(desc, attaches, false, bound, depName)
        ensures exists k :: 0 <= k < |attaches| && attaches[k].own == desc && !attaches[k].toStdin
                            && p == (attaches[k].name, attaches[k].file)
      {
        if p in FilesFor(desc, init, false, bound, depName) {
          var k :| 0 <= k < |init| && init[k].own == desc && !init[k].toStdin && p == (init[k].name, init[k].file);
          assert attaches[k] == init[k];
        } else {
          assert p == (attaches[|attaches| - 1].name, attaches[|attaches| - 1].file);
        }
      }
      if exists k :: 0 <= k < |attaches| && attaches[k].own == desc && !attaches[k].toStdin {
        var k :| 0 <= k < |attaches| && attaches[k].own == desc && !attaches[k].toStdin;
        if k < |init| {
          assert init[k] == attaches[k];
        }
      }
    }
  }

  /** As intended, every file handed to an execution is among those it receives. */
  lemma {:induction false} EarlyFilesHas(desc: string, attaches: seq<Attach>, bound: map<Role, string>, depName: Option<string>)
    ensures forall a :: a in attaches && a.own == desc && !a.toStdin ==> (a.name, a.file) in FilesFor(desc, attaches, false, bound, depName)
    decreases |attaches|
  {
    if attaches != [] {
      var init := attaches[..|attaches| - 1];
      EarlyFilesHas(desc, init, bound, depName);
      assert attaches == init + [attaches[|attaches| - 1]];
    }
  }

  /** As intended, the standard input an execution receives was handed to
      it as standard input, and one is received whenever one was handed over. */
  lemma {:induction false} EarlyStdinOwn(desc: string, attaches: seq<Attach>, bound: map<Role, string>)
    ensures StdinFor(desc, attaches, false, bound).Some? ==>
              exists a :: a in attaches && a.own == desc && a.toStdin && a.file == StdinFor(desc, attaches, false, bound).value
    ensures (exists a :: a in attaches && a.own == desc && a.toStdin) ==> StdinFor(desc, attaches, false, bound).Some?
    decreases |attaches|
  {
    if attaches != [] {
      var init := attaches[..|attaches| - 1];
      EarlyStdinOwn(desc, init, bound);
      assert attaches == init + [attaches[|attaches| - 1]];
    }
  }

  // ---------------------------------------------------------------------------
  // The shape of the generation graph

  /** Every pending handover names a variable that has a value. */
  ghost predicate AttachesBound(attaches: seq<Attach>, bound: map<Role, string>) {
    forall k :: 0 <= k < |attaches| ==> attaches[k].role in bound
  }

  /** generate_inputs binds only its own three variables: `gen` and `val` to
      the last testcase's generation and validation, `sol` to some official
      solution run. */
  ghost predicate BoundLast(tcs: seq<(int, IoiFormat.TestCase)>, bound: map<Role, string>) {
    && (forall r :: r in bound ==> r == GenVar || r == ValVar || r == SolVar)
    && (tcs == [] ==> bound == map[])
    && (tcs != [] ==> GenVar in bound && bound[GenVar] == GenDesc(tcs[|tcs| - 1].0)
                      && ValVar in bound && bound[ValVar] == ValDesc(tcs[|tcs| - 1].0))
    && (SolVar in bound ==> exists m :: bound[SolVar] == SolDesc(m))
  }

  /** Each handover comes from the iteration of its testcase: to a
      generation, a dependency; to a validation, the testcase's input under
      the validation name; to an official-solution run, anything. */
  ghost predicate AttachesOwned(tcs: seq<(int, IoiFormat.TestCase)>, attaches: seq<Attach>) {
    forall k :: 0 <= k < |attaches| ==>
      match attaches[k].role
      case GenVar => (exists m :: attaches[k].own == GenDesc(m))
      case ValVar =>
        (exists i :: 0 <= i < |tcs| && attaches[k] == Attach(ValVar, ValDesc(tcs[i].0), IoiFormat.ValidationInputName, StdoutOf(GenDesc(tcs[i].0)), false))
      case SolVar => (exists m :: attaches[k].own == SolDesc(m))
      case _ => false
  }

  /** The validation of testcase `n` is registered, with no files yet. */
  ghost predicate HasValExec(execs: seq<Exec>, n: int) {
    exists k :: 0 <= k < |execs| && execs[k].description == ValDesc(n) && execs[k].inputs == [] && execs[k].stdin.None?
  }

  /** The input of testcase `n` is handed to its validation. */
  ghost predicate HasValAttach(attaches: seq<Attach>, n: int) {
    Attach(ValVar, ValDesc(n), IoiFormat.ValidationInputName, StdoutOf(GenDesc(n)), false) in attaches
  }

  /** Every testcase's validation is registered and has its input handed over. */
  ghost predicate ValidationsRegistered(tcs: seq<(int, IoiFormat.TestCase)>, execs: seq<Exec>, attaches: seq<Attach>) {
    forall i :: 0 <= i < |tcs| ==> HasValExec(execs, tcs[i].0) && HasValAttach(attaches, tcs[i].0)
  }

  ghost predicate GenShape(tcs: seq<(int, IoiFormat.TestCase)>, g: Generated) {
    && AttachesBound(g.attaches, g.bound)
    && BoundLast(tcs, g.bound)
    && AttachesOwned(tcs, g.attaches)
    && ValidationsRegistered(tcs, g.execs, g.attaches)
  }

  lemma OwnedGrow(tcs: seq<(int, IoiFormat.TestCase)>, e: (int, IoiFormat.TestCase), attaches: seq<Attach>, more: seq<Attach>)
    requires AttachesOwned(tcs, attaches)
    requires AttachesOwned([e], more)
    ensures AttachesOwned(tcs + [e], attaches + more)
  {
    var all := tcs + [e];
    forall k | 0 <= k < |attaches + more|
      ensures match (attaches + more)[k].role
              case GenVar => (exists m :: (attaches + more)[k].own == GenDesc(m))
              case ValVar =>
                (exists i :: 0 <= i < |all| && (attaches + more)[k] == Attach(ValVar, ValDesc(all[i].0), IoiFormat.ValidationInputName, StdoutOf(GenDesc(all[i].0)), false))
              case SolVar => (exists m :: (attaches + more)[k].own == SolDesc(m))
              case _ => false
    {
      if k < |attaches| {
        assert (attaches + more)[k] == attaches[k];
        if attaches[k].role == ValVar {
          var i :| 0 <= i < |tcs| && attaches[k] == Attach(ValVar, ValDesc(tcs[i].0), IoiFormat.ValidationInputName, StdoutOf(GenDesc(tcs[i].0)), false);
          assert all[i] == tcs[i];
        }
      } else {
        assert (attaches + more)[k] == more[k - |attaches|];
        if more[k - |attaches|].role == ValVar {
          assert all[|tcs|] == e;
        }
      }
    }
  }

  /** The handovers of one generated testcase belong to it. */
  lemma StepOwned(n: int, tc: IoiFormat.TestCase, io: TaskIo)
    ensures AttachesOwned([(n, tc)], GenFed(n, tc)) && AttachesOwned([(n, tc)], GenFed(n, tc) + SolFed(n, io))
  {
    var fed := GenFed(n, tc);
    var one := [(n, tc)];
    assert one[0].0 == n;
    forall k | 0 <= k < |fed|
      ensures match fed[k].role
              case GenVar => (exists m :: fed[k].own == GenDesc(m))
              case ValVar =>
                (exists i :: 0 <= i < |one| && fed[k] == Attach(ValVar, ValDesc(one[i].0), IoiFormat.ValidationInputName, StdoutOf(GenDesc(one[i].0)), false))
              case SolVar => (exists m :: fed[k].own == SolDesc(m))
              case _ => false
    {
      if k < |tc.extraDeps| {
        assert fed[k].own == GenDesc(n);
      }
    }
    var solFed := SolFed(n, io);
    forall k | 0 <= k < |fed + solFed|
      ensures match (fed + solFed)[k].role
              case GenVar => (exists m :: (fed + solFed)[k].own == GenDesc(m))
              case ValVar =>
                (exists i :: 0 <= i < |one| && (fed + solFed)[k] == Attach(ValVar, ValDesc(one[i].0), IoiFormat.ValidationInputName, StdoutOf(GenDesc(one[i].0)), false))
              case SolVar => (exists m :: (fed + solFed)[k].own == SolDesc(m))
              case _ => false
    {
      if k < |fed| {
        assert (fed + solFed)[k] == fed[k];
        if k < |tc.extraDeps| {
          assert fed[k].own == GenDesc(n);
        }
      } else {
        assert (fed + solFed)[k].own == SolDesc(n);
      }
    }
  }

  lemma BoundStep(tcs: seq<(int, IoiFormat.TestCase)>, e: (int, IoiFormat.TestCase), bound: map<Role, string>, sol: bool)
    requires BoundLast(tcs, bound)
    ensures var b := bound[GenVar := GenDesc(e.0)][ValVar := ValDesc(e.0)];
            BoundLast(tcs + [e], if sol then b[SolVar := SolDesc(e.0)] else b)
  {
  }

  lemma BoundAttaches(attaches: seq<Attach>, more: seq<Attach>, bound: map<Role, string>, bound': map<Role, string>)
    requires AttachesBound(attaches, bound)
    requires bound.Keys <= bound'.Keys
    requires forall k :: 0 <= k < |more| ==> more[k].role in bound'
    ensures AttachesBound(attaches + more, bound')
  {
  }

  lemma HasValExecGrow(execs: seq<Exec>, more: seq<Exec>, n: int)
    requires HasValExec(execs, n)
    ensures HasValExec(execs + more, n)
  {
    var k :| 0 <= k < |execs| && execs[k].description == ValDesc(n) && execs[k].inputs == [] && execs[k].stdin.None?;
    assert (execs + more)[k] == execs[k];
  }

  lemma RegisteredGrow(tcs: seq<(int, IoiFormat.TestCase)>, e: (int, IoiFormat.TestCase), execs: seq<Exec>, attaches: seq<Attach>,
                       moreExecs: seq<Exec>, moreAttaches: seq<Attach>)
    requires ValidationsRegistered(tcs, execs, attaches)
    requires |moreExecs| >= 2 && moreExecs[1].description == ValDesc(e.0) && moreExecs[1].inputs == [] && moreExecs[1].stdin.None?
    requires HasValAttach(moreAttaches, e.0)
    ensures ValidationsRegistered(tcs + [e], execs + moreExecs, attaches + moreAttaches)
  {
    var all := tcs + [e];
    forall i | 0 <= i < |all|
      ensures HasValExec(execs + moreExecs, all[i].0) && HasValAttach(attaches + moreAttaches, all[i].0)
    {
      if i < |tcs| {
        assert all[i] == tcs[i];
        HasValExecGrow(execs, moreExecs, tcs[i].0);
      } else {
        assert all[i] == e;
        assert (execs + moreExecs)[|execs| + 1] == moreExecs[1];
      }
    }
  }

  /** The invariant one more generated testcase keeps. */
  lemma GenShapeStep(tcs: seq<(int, IoiFormat.TestCase)>, e: (int, IoiFormat.TestCase), g: Generated, official: Option<string>, io: TaskIo)
    requires GenShape(tcs, g)
    requires GenerateStep(g, e.0, e.1, official, io).Ok?
    ensures GenShape(tcs + [e], GenerateStep(g, e.0, e.1, official, io).value)
  {
    var g' := GenerateStep(g, e.0, e.1, official, io).value;
    if StaticOutput(e.1) {
      GenGrowsGiven(e, g, official, io);
      GenShapeGrow(tcs, e, g, g', GenExecs(e.0, e.1), GenFed(e.0, e.1), false);
    } else {
      GenGrowsSolved(e, g, official, io);
      GenShapeGrow(tcs, e, g, g', GenExecs(e.0, e.1) + [Exec(SolDesc(e.0), Source(official.value), [], [], None, [])],
                   GenFed(e.0, e.1) + SolFed(e.0, io), true);
    }
  }

  /** What one iteration of generate_inputs for testcase `e` does to `g`:
      it registers `more`, the validation second, hands over `fed`, the
      testcase's own handovers with its input under the validation name,
      and rebinds the variables to the testcase. */
  ghost predicate Grows(e: (int, IoiFormat.TestCase), g: Generated, g': Generated, more: seq<Exec>, fed: seq<Attach>, sol: bool) {
    && AttachesOwned([e], fed) && HasValAttach(fed, e.0)
    && |more| >= 2 && more[1].description == ValDesc(e.0) && more[1].inputs == [] && more[1].stdin.None?
    && g'.execs == g.execs + more && g'.attaches == g.attaches + fed
    && g'.bound == (var b := g.bound[GenVar := GenDesc(e.0)][ValVar := ValDesc(e.0)]; if sol then b[SolVar := SolDesc(e.0)] else b)
    && AttachesBound(fed, g'.bound)
  }

  /** The invariant grows by one testcase. */
  lemma GenShapeGrow(tcs: seq<(int, IoiFormat.TestCase)>, e: (int, IoiFormat.TestCase), g: Generated, g': Generated,
                     more: seq<Exec>, fed: seq<Attach>, sol: bool)
    requires GenShape(tcs, g) && Grows(e, g, g', more, fed, sol)
    ensures GenShape(tcs + [e], g')
  {
    BoundStep(tcs, e, g.bound, sol);
    BoundAttaches(g.attaches, fed, g.bound, g'.bound);
    OwnedGrow(tcs, e, g.attaches, fed);
    RegisteredGrow(tcs, e, g.execs, g.attaches, more, fed);
  }

  /** The generation and the validation of a testcase. */
  function GenExecs(n: int, tc: IoiFormat.TestCase): seq<Exec>
    requires tc.generator.Some? && tc.validator.Some?
  {
    [Exec(GenDesc(n), Source(tc.generator.value.path), tc.generatorArgs, [], None, []),
     Exec(ValDesc(n), Source(tc.validator.value.path), tc.validatorArgs, [], None, [])]
  }

  /** The handovers of a generated testcase: its dependencies, then its input to the validation. */
  function GenFed(n: int, tc: IoiFormat.TestCase): seq<Attach> {
    DepAttaches(GenDesc(n), tc.extraDeps) + [Attach(ValVar, ValDesc(n), IoiFormat.ValidationInputName, StdoutOf(GenDesc(n)), false)]
  }

  /** The handovers to the official solution of a testcase. */
  function SolFed(n: int, io: TaskIo): seq<Attach> {
    [Attach(SolVar, SolDesc(n), "wait_for_validation", StdoutOf(ValDesc(n)), false)] + FeedAttach(SolVar, SolDesc(n), io, StdoutOf(GenDesc(n)))
  }

  /** What a generation step with a given official output produces. */
  lemma StepValueGiven(g: Generated, n: int, tc: IoiFormat.TestCase, official: Option<string>, io: TaskIo)
    requires StaticOutput(tc) && GenerateStep(g, n, tc, official, io).Ok?
    ensures var g' := GenerateStep(g, n, tc, official, io).value;
            && g'.execs == g.execs + GenExecs(n, tc) && g'.attaches == g.attaches + GenFed(n, tc)
            && g'.bound == g.bound[GenVar := GenDesc(n)][ValVar := ValDesc(n)]
  {
  }

  /** What a generation step that runs the official solution produces. */
  lemma StepValueSolved(g: Generated, n: int, tc: IoiFormat.TestCase, official: Option<string>, io: TaskIo)
    requires !StaticOutput(tc) && GenerateStep(g, n, tc, official, io).Ok?
    ensures official.Some?
    ensures var g' := GenerateStep(g, n, tc, official, io).value;
            && g'.execs == g.execs + (GenExecs(n, tc) + [Exec(SolDesc(n), Source(official.value), [], [], None, [])])
            && g'.attaches == g.attaches + (GenFed(n, tc) + SolFed(n, io))
            && g'.bound == g.bound[GenVar := GenDesc(n)][ValVar := ValDesc(n)][SolVar := SolDesc(n)]
  {
    ConcatAssoc(g.attaches, GenFed(n, tc), SolFed(n, io));
  }

  /** The handovers of a generated testcase go to the generation and the
      validation; those to its official solution, to the solution. */
  lemma FedRoles(n: int, tc: IoiFormat.TestCase, io: TaskIo)
    ensures forall k :: 0 <= k < |GenFed(n, tc)| ==> GenFed(n, tc)[k].role == GenVar || GenFed(n, tc)[k].role == ValVar
    ensures forall k :: 0 <= k < |SolFed(n, io)| ==> SolFed(n, io)[k].role == SolVar
  {
  }

  /** The validation's input is among the handovers of its testcase. */
  lemma FedHasVal(n: int, tc: IoiFormat.TestCase, io: TaskIo)
    ensures HasValAttach(GenFed(n, tc), n) && HasValAttach(GenFed(n, tc) + SolFed(n, io), n)
  {
    var fed := GenFed(n, tc);
    assert fed[|fed| - 1] == (fed + SolFed(n, io))[|fed| - 1];
  }

  /** One more testcase whose official output is a given file. */
  lemma GenGrowsGiven(e: (int, IoiFormat.TestCase), g: Generated, official: Option<string>, io: TaskIo)
    requires StaticOutput(e.1) && GenerateStep(g, e.0, e.1, official, io).Ok?
    ensures Grows(e, g, GenerateStep(g, e.0, e.1, official, io).value, GenExecs(e.0, e.1), GenFed(e.0, e.1), false)
  {
    var n, tc := e.0, e.1;
    StepOwned(n, tc, io);
    StepValueGiven(g, n, tc, official, io);
    FedRoles(n, tc, io);
    FedHasVal(n, tc, io);
  }

  /** One more testcase whose official output the official solution writes. */
  lemma GenGrowsSolved(e: (int, IoiFormat.TestCase), g: Generated, official: Option<string>, io: TaskIo)
    requires !StaticOutput(e.1) && GenerateStep(g, e.0, e.1, official, io).Ok?
    ensures official.Some?
    ensures Grows(e, g, GenerateStep(g, e.0, e.1, official, io).value,
                  GenExecs(e.0, e.1) + [Exec(SolDesc(e.0), Source(official.value), [], [], None, [])],
                  GenFed(e.0, e.1) + SolFed(e.0, io), true)
  {
    var n, tc := e.0, e.1;
    StepOwned(n, tc, io);
    StepValueSolved(g, n, tc, official, io);
    FedRoles(n, tc, io);
    FedHasVal(n, tc, io);
    var more := GenExecs(n, tc) + [Exec(SolDesc(n), Source(official.value), [], [], None, [])];
    assert more[1] == GenExecs(n, tc)[1];
    assert [e] == [(n, tc)];
  }

  /** The invariant holds after any successful generate_inputs. */
  lemma {:induction false} GenerateShape(tcs: seq<(int, IoiFormat.TestCase)>, official: Option<string>, io: TaskIo)
    requires GenerateAll(tcs, official, io).Ok?
    ensures GenShape(tcs, GenerateAll(tcs, official, io).value)
    decreases |tcs|
  {
    if tcs != [] {
      var init, e := tcs[..|tcs| - 1], tcs[|tcs| - 1];
      InitLast(tcs);
      GenerateAllNext(init, e, official, io);
      if GenerateAll(init, official, io).Err? {
        assert false;
      }
      GenerateShape(init, official, io);
      GenShapeStep(init, e, GenerateAll(init, official, io).value, official, io);
    }
  }

  /** The generation graph, with the handovers resolved as written or as intended. */
  function GenerationGraph(g: Generated, late: bool): seq<Exec> {
    Resolve(g.execs, g.attaches, late, g.bound, g.depName)
  }

  /** As written, the validation of any testcase but the last one is
      registered and never receives the input it validates. */
  lemma LateValidationStarved(tcs: seq<(int, IoiFormat.TestCase)>, official: Option<string>, io: TaskIo, i: int)
    requires GenerateAll(tcs, official, io).Ok?
    requires 0 <= i < |tcs| && tcs[i].0 != tcs[|tcs| - 1].0
    ensures var g := GenerateAll(tcs, official, io).value;
            exists k :: 0 <= k < |g.execs| && g.execs[k].description == ValDesc(tcs[i].0)
                        && GenerationGraph(g, true)[k].inputs == [] && GenerationGraph(g, true)[k].stdin.None?
  {
    var g := GenerateAll(tcs, official, io).value;
    GenerateShape(tcs, official, io);
    var n := tcs[i].0;
    assert HasValExec(g.execs, n);
    var k :| 0 <= k < |g.execs| && g.execs[k].description == ValDesc(n) && g.execs[k].inputs == [] && g.execs[k].stdin.None?;
    forall r | r in g.bound ensures g.bound[r] != ValDesc(n) {
      ValDescDistinct(n, tcs[|tcs| - 1].0);
      if r == SolVar {
        var m :| g.bound[SolVar] == SolDesc(m);
        ValDescDistinct(n, m);
      }
    }
    LateMissesUnbound(ValDesc(n), g.attaches, g.bound, g.depName);
    assert GenerationGraph(g, true)[k].inputs == g.execs[k].inputs + FilesFor(ValDesc(n), g.attaches, true, g.bound, g.depName);
  }

  /** The generations are told apart by their testcase number, and are
      neither a validation nor an official-solution run. */
  lemma GenDescDistinct(a: int, b: int)
    ensures GenDesc(a) == GenDesc(b) ==> a == b
    ensures GenDesc(a) != SolDesc(b)
  {
    var p := "Generation of input ";
    if GenDesc(a) == GenDesc(b) {
      assert IntToString(a) == GenDesc(a)[|p|..];
      assert IntToString(b) == GenDesc(b)[|p|..];
      IntToStringInjective(a, b);
    }
    assert GenDesc(a)[14] == 'i' && SolDesc(b)[14] == 'o';
  }

  /** Once some dependency has been handed to a generation, the `dep`
      variable holds a dependency. */
  lemma {:induction false} GenerateDepName(tcs: seq<(int, IoiFormat.TestCase)>, official: Option<string>, io: TaskIo)
    requires GenerateAll(tcs, official, io).Ok?
    ensures var g := GenerateAll(tcs, official, io).value;
            forall a :: a in g.attaches && a.role == GenVar ==> g.depName.Some?
    decreases |tcs|
  {
    if tcs != [] {
      var init, e := tcs[..|tcs| - 1], tcs[|tcs| - 1];
      InitLast(tcs);
      GenerateAllNext(init, e, official, io);
      if GenerateAll(init, official, io).Err? {
        assert false;
      }
      GenerateDepName(init, official, io);
      DepNameStep(GenerateAll(init, official, io).value, e.0, e.1, official, io);
    }
  }

  /** One step keeps a dependency in `dep` once one was handed over. */
  lemma DepNameStep(g: Generated, n: int, tc: IoiFormat.TestCase, official: Option<string>, io: TaskIo)
    requires GenerateStep(g, n, tc, official, io).Ok?
    requires forall a :: a in g.attaches && a.role == GenVar ==> g.depName.Some?
    ensures var g' := GenerateStep(g, n, tc, official, io).value;
            forall a :: a in g'.attaches && a.role == GenVar ==> g'.depName.Some?
  {
    var g' := GenerateStep(g, n, tc, official, io).value;
    FedRoles(n, tc, io);
    if tc.extraDeps == [] {
      assert GenFed(n, tc) == [Attach(ValVar, ValDesc(n), IoiFormat.ValidationInputName, StdoutOf(GenDesc(n)), false)];
      if StaticOutput(tc) {
        StepValueGiven(g, n, tc, official, io);
      } else {
        StepValueSolved(g, n, tc, official, io);
      }
    }
  }

  /** As written, the `gen`, `dep` and `sol` callbacks miss their targets
      too: every dependency handed to a generation goes to the last
      testcase's generation, under the last dependency's name, so the
      generation of any other testcase receives no file; and all
      handovers to official-solution runs go to one and the same run. */
  lemma LateGenerationStarved(tcs: seq<(int, IoiFormat.TestCase)>, official: Option<string>, io: TaskIo, i: int)
    requires GenerateAll(tcs, official, io).Ok?
    requires 0 <= i < |tcs| && tcs[i].0 != tcs[|tcs| - 1].0
    ensures var g := GenerateAll(tcs, official, io).value;
            && FilesFor(GenDesc(tcs[i].0), g.attaches, true, g.bound, g.depName) == []
            && StdinFor(GenDesc(tcs[i].0), g.attaches, true, g.bound) == None
            && (forall a :: a in g.attaches && a.role == GenVar ==>
                  Target(a, true, g.bound) == GenDesc(tcs[|tcs| - 1].0)
                  && g.depName.Some? && NameOf(a, true, g.depName) == g.depName.value)
            && (forall a, b :: a in g.attaches && b in g.attaches && a.role == SolVar && b.role == SolVar ==>
                  Target(a, true, g.bound) == Target(b, true, g.bound))
  {
    var g := GenerateAll(tcs, official, io).value;
    GenerateShape(tcs, official, io);
    var n := tcs[i].0;
    forall r | r in g.bound ensures g.bound[r] != GenDesc(n) {
      GenDescDistinct(n, tcs[|tcs| - 1].0);
      ValDescDistinct(tcs[|tcs| - 1].0, n);
      if r == SolVar {
        var m :| g.bound[SolVar] == SolDesc(m);
        GenDescDistinct(n, m);
      }
    }
    LateMissesUnbound(GenDesc(n), g.attaches, g.bound, g.depName);
    GenerateDepName(tcs, official, io);
  }

  /** A file handed to the validation of testcase `n` is its input, under
      the validation name. */
  lemma ValAttachFile(tcs: seq<(int, IoiFormat.TestCase)>, attaches: seq<Attach>, n: int, j: int)
    requires AttachesOwned(tcs, attaches)
    requires 0 <= j < |attaches| && attaches[j].own == ValDesc(n)
    ensures (attaches[j].name, attaches[j].file) == (IoiFormat.ValidationInputName, StdoutOf(GenDesc(n)))
  {
    match attaches[j].role
    case GenVar =>
      var m :| attaches[j].own == GenDesc(m);
      ValDescDistinct(n, m);
    case ValVar =>
      var i' :| 0 <= i' < |tcs| && attaches[j] == Attach(ValVar, ValDesc(tcs[i'].0), IoiFormat.ValidationInputName, StdoutOf(GenDesc(tcs[i'].0)), false);
      ValDescDistinct(n, tcs[i'].0);
    case SolVar =>
      var m :| attaches[j].own == SolDesc(m);
      ValDescDistinct(n, m);
  }

  /** In a graph of the generation shape, the validation of a testcase
      receives, as intended, exactly its own input. */
  lemma ShapeValidationFed(tcs: seq<(int, IoiFormat.TestCase)>, g: Generated, n: int)
    requires GenShape(tcs, g)
    requires exists i :: 0 <= i < |tcs| && tcs[i].0 == n
    ensures exists k :: 0 <= k < |g.execs| && g.execs[k].description == ValDesc(n)
                        && GenerationGraph(g, false)[k].inputs != []
                        && forall p :: p in GenerationGraph(g, false)[k].inputs ==>
                                         p == (IoiFormat.ValidationInputName, StdoutOf(GenDesc(n)))
  {
    assert HasValExec(g.execs, n) && HasValAttach(g.attaches, n);
    var k :| 0 <= k < |g.execs| && g.execs[k].description == ValDesc(n) && g.execs[k].inputs == [] && g.execs[k].stdin.None?;
    EarlyFilesOwn(ValDesc(n), g.attaches, g.bound, g.depName);
    var files := FilesFor(ValDesc(n), g.attaches, false, g.bound, g.depName);
    assert GenerationGraph(g, false)[k].inputs == [] + files;
    assert [] + files == files;
    forall p | p in files ensures p == (IoiFormat.ValidationInputName, StdoutOf(GenDesc(n))) {
      var j :| 0 <= j < |g.attaches| && g.attaches[j].own == ValDesc(n) && !g.attaches[j].toStdin
               && p == (g.attaches[j].name, g.attaches[j].file);
      ValAttachFile(tcs, g.attaches, n, j);
    }
  }

  /** As intended, the validation of every testcase is registered and
      receives exactly its own input, under the validation name. */
  lemma EarlyValidationFed(tcs: seq<(int, IoiFormat.TestCase)>, official: Option<string>, io: TaskIo, i: int)
    requires GenerateAll(tcs, official, io).Ok?
    requires 0 <= i < |tcs|
    ensures var g := GenerateAll(tcs, official, io).value;
            exists k :: 0 <= k < |g.execs| && g.execs[k].description == ValDesc(tcs[i].0)
                        && GenerationGraph(g, false)[k].inputs != []
                        && forall p :: p in GenerationGraph(g, false)[k].inputs ==>
                                         p == (IoiFormat.ValidationInputName, StdoutOf(GenDesc(tcs[i].0)))
  {
    GenerateShape(tcs, official, io);
    ShapeValidationFed(tcs, GenerateAll(tcs, official, io).value, tcs[i].0);
  }

  // ---------------------------------------------------------------------------
  // evaluate_solutions

  /** A solution: its name and its source path. */
  datatype Solution = Solution(name: string, path: string)

  /** What `evaluate_solutions` leaves behind: the registered executions,
      the pending handovers and the final values of `eval` and `check`. */
  datatype Evaluated = Evaluated(execs: seq<Exec>, attaches: seq<Attach>, bound: map<Role, string>)

  const NoneEvaluated: Evaluated := Evaluated([], [], map[])

  /** The checking of a contestant output: the task's checker with the
      input, or `diff -w` on the two outputs. */
  function CheckExec(checker: Option<string>, d: string): Exec {
    if checker.Some? then Exec(d, Source(checker.value), ["input", "output", "contestant_output"], [], None, [])
    else Exec(d, Diff, ["-w", "output", "contestant_output"], [], None, [])
  }

  function CheckAttaches(checker: Option<string>, d: string, input: FileRef, expected: FileRef, contestant: FileRef): seq<Attach> {
    (if checker.Some? then [Attach(CheckVar, d, "input", input, false)] else [])
    + [Attach(CheckVar, d, "output", expected, false), Attach(CheckVar, d, "contestant_output", contestant, false)]
  }

  /** Both kinds of checking are handed the official output as "output" and
      the contestant's as "contestant_output"; only the custom checker gets
      the input; every file handed over is named in the arguments. */
  lemma CheckFiles(checker: Option<string>, d: string, input: FileRef, expected: FileRef, contestant: FileRef)
    ensures var e := CheckExec(checker, d);
            var fed := CheckAttaches(checker, d, input, expected, contestant);
            && Attach(CheckVar, d, "output", expected, false) in fed
            && Attach(CheckVar, d, "contestant_output", contestant, false) in fed
            && (Attach(CheckVar, d, "input", input, false) in fed <==> checker.Some?)
            && (forall k :: 0 <= k < |fed| ==> fed[k].name in e.args && !fed[k].toStdin && fed[k].own == d)
            && (checker.None? ==> e.program == Diff && e.args[0] == "-w")
            && (checker.Some? ==> e.program == Source(checker.value))
  {
  }

  /** The evaluation and the checking of one solution on one testcase. The
      validation and the official output are looked up and raise a KeyError
      when missing. */
  function EvaluateOne(acc: Evaluated, sol: Solution, n: int, input: FileRef, g: Generated, io: TaskIo, checker: Option<string>): Result<Evaluated> {
    match IoiFormat.Lookup(g.validations, n)
    case None => Err("KeyError: " + IntToString(n))
    case Some(val) =>
      match IoiFormat.Lookup(g.outputs, n)
      case None => Err("KeyError: " + IntToString(n))
      case Some(expected) =>
        var d := EvalDesc(sol.name, n);
        var cd := CheckDesc(sol.name, n);
        var eval := Exec(d, Source(sol.path), [], [], None, [val]);
        var fed := FeedAttach(EvalVar, d, io, input) + CheckAttaches(checker, cd, input, expected, ReadOutput(io, d));
        Ok(Evaluated(acc.execs + [eval, CheckExec(checker, cd)], acc.attaches + fed, acc.bound[EvalVar := d][CheckVar := cd]))
  }

  /** The evaluations of one solution over the inputs, in order. */
  function EvaluateSolution(acc: Evaluated, sol: Solution, ins: seq<(int, FileRef)>, g: Generated, io: TaskIo, checker: Option<string>): Result<Evaluated> {
    if ins == [] then Ok(acc)
    else
      match EvaluateSolution(acc, sol, ins[..|ins| - 1], g, io, checker)
      case Err(x) => Err(x)
      case Ok(a) => EvaluateOne(a, sol, ins[|ins| - 1].0, ins[|ins| - 1].1, g, io, checker)
  }

  /** evaluate_solutions over the solutions, in order. */
  function EvaluateAll(sols: seq<Solution>, g: Generated, io: TaskIo, checker: Option<string>): Result<Evaluated> {
    if sols == [] then Ok(NoneEvaluated)
    else
      match EvaluateAll(sols[..|sols| - 1], g, io, checker)
      case Err(x) => Err(x)
      case Ok(a) => EvaluateSolution(a, sols[|sols| - 1], g.inputs, g, io, checker)
  }

  lemma EvaluateSolutionNext(acc: Evaluated, sol: Solution, ins: seq<(int, FileRef)>, e: (int, FileRef), g: Generated, io: TaskIo, checker: Option<string>)
    ensures EvaluateSolution(acc, sol, ins + [e], g, io, checker) ==
              match EvaluateSolution(acc, sol, ins, g, io, checker)
              case Err(x) => Err(x)
              case Ok(a) => EvaluateOne(a, sol, e.0, e.1, g, io, checker)
  {
    SnocPrefix(ins, e);
  }

  lemma {:induction false} EvaluateSolutionStops(acc: Evaluated, sol: Solution, ins: seq<(int, FileRef)>, rest: seq<(int, FileRef)>,
                                                 g: Generated, io: TaskIo, checker: Option<string>)
    requires EvaluateSolution(acc, sol, ins, g, io, checker).Err?
    ensures EvaluateSolution(acc, sol, ins + rest, g, io, checker) == EvaluateSolution(acc, sol, ins, g, io, checker)
    decreases |rest|
  {
    if rest == [] {
      assert ins + rest == ins;
    } else {
      var init := rest[..|rest| - 1];
      EvaluateSolutionStops(acc, sol, ins, init, g, io, checker);
      assert ins + rest == (ins + init) + [rest[|rest| - 1]];
      EvaluateSolutionNext(acc, sol, ins + init, rest[|rest| - 1], g, io, checker);
    }
  }

  lemma EvaluateAllNext(sols: seq<Solution>, s: Solution, g: Generated, io: TaskIo, checker: Option<string>)
    ensures EvaluateAll(sols + [s], g, io, checker) ==
              match EvaluateAll(sols, g, io, checker)
              case Err(x) => Err(x)
              case Ok(a) => EvaluateSolution(a, s, g.inputs, g, io, checker)
  {
    SnocPrefix(sols, s);
  }

  lemma {:induction false} EvaluateAllStops(sols: seq<Solution>, rest: seq<Solution>, g: Generated, io: TaskIo, checker: Option<string>)
    requires EvaluateAll(sols, g, io, checker).Err?
    ensures EvaluateAll(sols + rest, g, io, checker) == EvaluateAll(sols, g, io, checker)
    decreases |rest|
  {
    if rest == [] {
      assert sols + rest == sols;
    } else {
      var init := rest[..|rest| - 1];
      EvaluateAllStops(sols, init, g, io, checker);
      assert sols + rest == (sols + init) + [rest[|rest| - 1]];
      EvaluateAllNext(sols + init, rest[|rest| - 1], g, io, checker);
    }
  }

  /** Some input has no validation or no official output. */
  predicate Incomplete(ins: seq<(int, FileRef)>, g: Generated) {
    exists k :: 0 <= k < |ins| && (IoiFormat.Lookup(g.validations, ins[k].0).None? || IoiFormat.Lookup(g.outputs, ins[k].0).None?)
  }

  /** One more input is incomplete exactly when it lacks its validation or
      its official output. */
  lemma IncompleteSnoc(init: seq<(int, FileRef)>, e: (int, FileRef), g: Generated)
    ensures Incomplete(init + [e], g) <==>
              Incomplete(init, g) || IoiFormat.Lookup(g.validations, e.0).None? || IoiFormat.Lookup(g.outputs, e.0).None?
  {
    var ins := init + [e];
    assert forall j :: 0 <= j < |init| ==> ins[j] == init[j];
    assert ins[|init|] == e;
  }

  /** One evaluation fails exactly when its input lacks its validation or
      its official output, and otherwise registers two executions. */
  lemma EvaluateOneCount(acc: Evaluated, sol: Solution, n: int, input: FileRef, g: Generated, io: TaskIo, checker: Option<string>)
    ensures EvaluateOne(acc, sol, n, input, g, io, checker).Err? <==>
              IoiFormat.Lookup(g.validations, n).None? || IoiFormat.Lookup(g.outputs, n).None?
    ensures EvaluateOne(acc, sol, n, input, g, io, checker).Ok? ==>
              |EvaluateOne(acc, sol, n, input, g, io, checker).value.execs| == |acc.execs| + 2
  {
  }

  /** Every handover of evaluate_solutions names `eval` or `check`, both bound. */
  ghost predicate EvalShape(ev: Evaluated) {
    && (forall r :: r in ev.bound ==> r == EvalVar || r == CheckVar)
    && AttachesBound(ev.attaches, ev.bound)
  }

  /** One solution gets one evaluation and one checking per input, and
      fails exactly when some input lacks its validation or its official
      output. */
  lemma {:induction false} EvaluateSolutionCount(acc: Evaluated, sol: Solution, ins: seq<(int, FileRef)>, g: Generated, io: TaskIo, checker: Option<string>)
    ensures EvaluateSolution(acc, sol, ins, g, io, checker).Err? <==> Incomplete(ins, g)
    ensures EvaluateSolution(acc, sol, ins, g, io, checker).Ok? ==>
              |EvaluateSolution(acc, sol, ins, g, io, checker).value.execs| == |acc.execs| + 2 * |ins|
    decreases |ins|
  {
    if ins != [] {
      var init, e := ins[..|ins| - 1], ins[|ins| - 1];
      InitLast(ins);
      EvaluateSolutionNext(acc, sol, init, e, g, io, checker);
      EvaluateSolutionCount(acc, sol, init, g, io, checker);
      IncompleteSnoc(init, e, g);
      if EvaluateSolution(acc, sol, init, g, io, checker).Ok? {
        EvaluateOneCount(EvaluateSolution(acc, sol, init, g, io, checker).value, sol, e.0, e.1, g, io, checker);
      }
    }
  }

  /** Every handover of one solution's evaluations names `eval` or `check`. */
  lemma {:induction false} EvaluateSolutionShape(acc: Evaluated, sol: Solution, ins: seq<(int, FileRef)>, g: Generated, io: TaskIo, checker: Option<string>)
    requires EvalShape(acc)
    requires EvaluateSolution(acc, sol, ins, g, io, checker).Ok?
    ensures EvalShape(EvaluateSolution(acc, sol, ins, g, io, checker).value)
    decreases |ins|
  {
    if ins != [] {
      var init, e := ins[..|ins| - 1], ins[|ins| - 1];
      assert EvaluateSolution(acc, sol, init, g, io, checker).Ok?;
      EvaluateSolutionShape(acc, sol, init, g, io, checker);
    }
  }

  lemma OneMoreRound(a: nat, b: nat)
    ensures 2 * (a + 1) * b == 2 * a * b + 2 * b
  {
  }

  /** evaluate_solutions registers one evaluation and one checking per
      solution and input, and fails exactly when there is a solution and
      some input lacks its validation or official output. */
  lemma {:induction false} EvaluateAllCount(sols: seq<Solution>, g: Generated, io: TaskIo, checker: Option<string>)
    ensures EvaluateAll(sols, g, io, checker).Err? <==> sols != [] && Incomplete(g.inputs, g)
    ensures EvaluateAll(sols, g, io, checker).Ok? ==> |EvaluateAll(sols, g, io, checker).value.execs| == 2 * |sols| * |g.inputs|
    ensures EvaluateAll(sols, g, io, checker).Ok? ==> EvalShape(EvaluateAll(sols, g, io, checker).value)
    decreases |sols|
  {
    if sols != [] {
      var init, s := sols[..|sols| - 1], sols[|sols| - 1];
      InitLast(sols);
      EvaluateAllNext(init, s, g, io, checker);
      EvaluateAllCount(init, g, io, checker);
      if EvaluateAll(init, g, io, checker).Ok? {
        EvaluateSolutionCount(EvaluateAll(init, g, io, checker).value, s, g.inputs, g, io, checker);
        if EvaluateAll(sols, g, io, checker).Ok? {
          EvaluateSolutionShape(EvaluateAll(init, g, io, checker).value, s, g.inputs, g, io, checker);
        }
        OneMoreRound(|init|, |g.inputs|);
      }
    }
  }

  /** After a successful generate_inputs no evaluation raises a KeyError. */
  lemma GeneratedComplete(tcs: seq<(int, IoiFormat.TestCase)>, official: Option<string>, io: TaskIo)
    requires GenerateAll(tcs, official, io).Ok?
    ensures !Incomplete(GenerateAll(tcs, official, io).value.inputs, GenerateAll(tcs, official, io).value)
  {
    var g := GenerateAll(tcs, official, io).value;
    GenerateKeys(tcs, official, io);
    forall k | 0 <= k < |g.inputs|
      ensures IoiFormat.Lookup(g.validations, g.inputs[k].0).Some? && IoiFormat.Lookup(g.outputs, g.inputs[k].0).Some?
    {
      var n := g.inputs[k].0;
      assert IoiFormat.Keys(g.inputs)[k] == n;
      assert n in IoiFormat.Keys(g.validations) && n in IoiFormat.Keys(g.outputs);
      var kv :| 0 <= kv < |g.validations| && IoiFormat.Keys(g.validations)[kv] == n;
      var ko :| 0 <= ko < |g.outputs| && IoiFormat.Keys(g.outputs)[ko] == n;
      assert g.validations[kv].0 == n && g.outputs[ko].0 == n;
    }
  }

  /** The evaluation graph, with the handovers resolved as written or as intended. */
  function EvaluationGraph(ev: Evaluated, late: bool): seq<Exec> {
    Resolve(ev.execs, ev.attaches, late, ev.bound, None)
  }

  // ---------------------------------------------------------------------------
  // The shape of the evaluation graph

  /** The official output of testcase `n`, where there is one. */
  function OutputFor(g: Generated, n: int): FileRef {
    match IoiFormat.Lookup(g.outputs, n)
    case Some(f) => f
    case None => Provided("")
  }

  /** The handovers registered for the evaluation of `sol` on the input `e`
      and for its checking. */
  function PairFed(sol: Solution, e: (int, FileRef), g: Generated, io: TaskIo, checker: Option<string>): seq<Attach> {
    var d := EvalDesc(sol.name, e.0);
    FeedAttach(EvalVar, d, io, e.1) + CheckAttaches(checker, CheckDesc(sol.name, e.0), e.1, OutputFor(g, e.0), ReadOutput(io, d))
  }

  /** No registered execution has a file of its own before the handovers. */
  ghost predicate Bare(execs: seq<Exec>) {
    forall k :: 0 <= k < |execs| ==> execs[k].inputs == [] && execs[k].stdin.None?
  }

  /** The evaluation of `sol` on `e` and its checking are registered, and
      their handovers are pending. */
  ghost predicate Covers(ev: Evaluated, sol: Solution, e: (int, FileRef), g: Generated, io: TaskIo, checker: Option<string>) {
    && (exists k :: 0 <= k < |ev.execs| && ev.execs[k].description == EvalDesc(sol.name, e.0))
    && (exists k :: 0 <= k < |ev.execs| && ev.execs[k].description == CheckDesc(sol.name, e.0))
    && (forall a :: a in PairFed(sol, e, g, io, checker) ==> a in ev.attaches)
  }

  /** Every pending handover belongs to the evaluation of some solution on
      some input, or to its checking. */
  ghost predicate FedFrom(attaches: seq<Attach>, sols: seq<Solution>, ins: seq<(int, FileRef)>, g: Generated, io: TaskIo, checker: Option<string>) {
    forall a :: a in attaches ==>
      exists s, j :: 0 <= s < |sols| && 0 <= j < |ins| && a in PairFed(sols[s], ins[j], g, io, checker)
  }

  /** Registering more executions and handovers keeps what was covered. */
  lemma CoversGrow(ev: Evaluated, ev': Evaluated, sol: Solution, e: (int, FileRef), g: Generated, io: TaskIo, checker: Option<string>)
    requires Covers(ev, sol, e, g, io, checker)
    requires |ev.execs| <= |ev'.execs| && ev'.execs[..|ev.execs|] == ev.execs
    requires forall a :: a in ev.attaches ==> a in ev'.attaches
    ensures Covers(ev', sol, e, g, io, checker)
  {
    var k1 :| 0 <= k1 < |ev.execs| && ev.execs[k1].description == EvalDesc(sol.name, e.0);
    var k2 :| 0 <= k2 < |ev.execs| && ev.execs[k2].description == CheckDesc(sol.name, e.0);
    assert ev'.execs[k1] == ev.execs[k1] && ev'.execs[k2] == ev.execs[k2];
  }

  /** What one evaluation adds: its two executions, with no file of their
      own, and exactly the handovers of its pair; `eval` and `check` then
      name that pair. */
  ghost predicate OneFeeds(a: Evaluated, r: Evaluated, sol: Solution, e: (int, FileRef), g: Generated, io: TaskIo, checker: Option<string>) {
    && |a.execs| + 2 == |r.execs| && r.execs[..|a.execs|] == a.execs
    && (Bare(a.execs) ==> Bare(r.execs))
    && r.attaches == a.attaches + PairFed(sol, e, g, io, checker)
    && r.bound == a.bound[EvalVar := EvalDesc(sol.name, e.0)][CheckVar := CheckDesc(sol.name, e.0)]
    && Covers(r, sol, e, g, io, checker)
  }

  lemma EvaluateOneFeeds(acc: Evaluated, sol: Solution, e: (int, FileRef), g: Generated, io: TaskIo, checker: Option<string>)
    requires EvaluateOne(acc, sol, e.0, e.1, g, io, checker).Ok?
    ensures OneFeeds(acc, EvaluateOne(acc, sol, e.0, e.1, g, io, checker).value, sol, e, g, io, checker)
  {
    var r := EvaluateOne(acc, sol, e.0, e.1, g, io, checker).value;
    assert r.execs[|acc.execs|].description == EvalDesc(sol.name, e.0);
    assert r.execs[|acc.execs| + 1].description == CheckDesc(sol.name, e.0);
  }

  /** What one solution's evaluations add over the inputs `ins`: every
      input covered, only the handovers of its own pairs, and `eval` and
      `check` naming the last pair. */
  ghost predicate SolutionFeeds(acc: Evaluated, r: Evaluated, sol: Solution, ins: seq<(int, FileRef)>, g: Generated, io: TaskIo, checker: Option<string>) {
    && |acc.execs| <= |r.execs| && r.execs[..|acc.execs|] == acc.execs
    && (Bare(acc.execs) ==> Bare(r.execs))
    && (forall a :: a in acc.attaches ==> a in r.attaches)
    && (forall a :: a in r.attaches ==> a in acc.attaches || exists j :: 0 <= j < |ins| && a in PairFed(sol, ins[j], g, io, checker))
    && (forall j :: 0 <= j < |ins| ==> Covers(r, sol, ins[j], g, io, checker))
    && (ins == [] ==> r.bound == acc.bound)
    && (ins != [] ==> r.bound == acc.bound[EvalVar := EvalDesc(sol.name, ins[|ins| - 1].0)]
                                          [CheckVar := CheckDesc(sol.name, ins[|ins| - 1].0)])
  }

  lemma SolutionFeedsStep(acc: Evaluated, a: Evaluated, r: Evaluated, sol: Solution, init: seq<(int, FileRef)>, e: (int, FileRef),
                          g: Generated, io: TaskIo, checker: Option<string>)
    requires SolutionFeeds(acc, a, sol, init, g, io, checker)
    requires OneFeeds(a, r, sol, e, g, io, checker)
    ensures SolutionFeeds(acc, r, sol, init + [e], g, io, checker)
  {
    assert r.execs[..|acc.execs|] == a.execs[..|acc.execs|];
    SolutionCoversStep(a, r, sol, init, e, g, io, checker);
    SolutionFedStep(acc.attaches, a.attaches, r.attaches, sol, init, e, g, io, checker);
    OverrideTwice(acc.bound, a.bound, r.bound, init, EvalDesc(sol.name, e.0), CheckDesc(sol.name, e.0),
                  if init == [] then "" else EvalDesc(sol.name, init[|init| - 1].0),
                  if init == [] then "" else CheckDesc(sol.name, init[|init| - 1].0));
  }

  /** One more input keeps every earlier input covered and covers its own. */
  lemma SolutionCoversStep(a: Evaluated, r: Evaluated, sol: Solution, init: seq<(int, FileRef)>, e: (int, FileRef),
                           g: Generated, io: TaskIo, checker: Option<string>)
    requires forall j :: 0 <= j < |init| ==> Covers(a, sol, init[j], g, io, checker)
    requires |a.execs| <= |r.execs| && r.execs[..|a.execs|] == a.execs
    requires forall x :: x in a.attaches ==> x in r.attaches
    requires Covers(r, sol, e, g, io, checker)
    ensures forall j :: 0 <= j < |init| + 1 ==> Covers(r, sol, (init + [e])[j], g, io, checker)
  {
    var ins := init + [e];
    forall j | 0 <= j < |ins| ensures Covers(r, sol, ins[j], g, io, checker) {
      if j < |init| {
        assert ins[j] == init[j];
        CoversGrow(a, r, sol, ins[j], g, io, checker);
      }
    }
  }

  /** One more input adds only the handovers of its own pair. */
  lemma SolutionFedStep(acc: seq<Attach>, a: seq<Attach>, r: seq<Attach>, sol: Solution, init: seq<(int, FileRef)>, e: (int, FileRef),
                        g: Generated, io: TaskIo, checker: Option<string>)
    requires forall x :: x in a ==> x in acc || exists j :: 0 <= j < |init| && x in PairFed(sol, init[j], g, io, checker)
    requires r == a + PairFed(sol, e, g, io, checker)
    ensures forall x :: x in r ==> x in acc || exists j :: 0 <= j < |init| + 1 && x in PairFed(sol, (init + [e])[j], g, io, checker)
  {
    var ins := init + [e];
    forall x | x in r
      ensures x in acc || exists j :: 0 <= j < |ins| && x in PairFed(sol, ins[j], g, io, checker)
    {
      if x in a {
        if x !in acc {
          var j :| 0 <= j < |init| && x in PairFed(sol, init[j], g, io, checker);
          assert ins[j] == init[j];
        }
      } else {
        assert ins[|init|] == e;
      }
    }
  }

  /** Rebinding `eval` and `check` twice leaves the second binding. */
  lemma OverrideTwice(acc: map<Role, string>, a: map<Role, string>, r: map<Role, string>, init: seq<(int, FileRef)>,
                      d: string, cd: string, d0: string, cd0: string)
    requires init == [] ==> a == acc
    requires init != [] ==> a == acc[EvalVar := d0][CheckVar := cd0]
    requires r == a[EvalVar := d][CheckVar := cd]
    ensures r == acc[EvalVar := d][CheckVar := cd]
  {
  }

  /** One solution's evaluations cover every input and add only the
      handovers of its own pairs. */
  lemma {:induction false} EvaluateSolutionFeeds(acc: Evaluated, sol: Solution, ins: seq<(int, FileRef)>, g: Generated, io: TaskIo, checker: Option<string>)
    requires EvaluateSolution(acc, sol, ins, g, io, checker).Ok?
    ensures SolutionFeeds(acc, EvaluateSolution(acc, sol, ins, g, io, checker).value, sol, ins, g, io, checker)
    decreases |ins|
  {
    if ins != [] {
      var init, e := ins[..|ins| - 1], ins[|ins| - 1];
      InitLast(ins);
      EvaluateSolutionNext(acc, sol, init, e, g, io, checker);
      var a := EvaluateSolution(acc, sol, init, g, io, checker).value;
      EvaluateSolutionFeeds(acc, sol, init, g, io, checker);
      EvaluateOneFeeds(a, sol, e, g, io, checker);
      SolutionFeedsStep(acc, a, EvaluateSolution(acc, sol, ins, g, io, checker).value, sol, init, e, g, io, checker);
    } else {
      assert EvaluateSolution(acc, sol, ins, g, io, checker).value == acc;
    }
  }

  /** The bindings of `eval` and `check` after one more solution round. */
  lemma RebindBoth(bound: map<Role, string>, d: string, cd: string)
    requires forall r :: r in bound ==> r == EvalVar || r == CheckVar
    ensures bound[EvalVar := d][CheckVar := cd] == map[EvalVar := d, CheckVar := cd]
  {
  }

  /** The evaluation graph after the solutions `sols`: the two executions
      of every solution and input registered with no file of their own,
      exactly the handovers of those pairs, and `eval` and `check` naming
      the last pair. */
  ghost predicate AllFeeds(ev: Evaluated, sols: seq<Solution>, g: Generated, io: TaskIo, checker: Option<string>) {
    && Bare(ev.execs)
    && (forall s, j :: 0 <= s < |sols| && 0 <= j < |g.inputs| ==> Covers(ev, sols[s], g.inputs[j], g, io, checker))
    && FedFrom(ev.attaches, sols, g.inputs, g, io, checker)
    && (sols == [] || g.inputs == [] ==> ev.bound == map[])
    && (sols != [] && g.inputs != [] ==>
          ev.bound == map[EvalVar := EvalDesc(sols[|sols| - 1].name, g.inputs[|g.inputs| - 1].0),
                          CheckVar := CheckDesc(sols[|sols| - 1].name, g.inputs[|g.inputs| - 1].0)])
  }

  lemma AllFeedsStep(a: Evaluated, ev: Evaluated, init: seq<Solution>, sol: Solution, g: Generated, io: TaskIo, checker: Option<string>)
    requires AllFeeds(a, init, g, io, checker)
    requires SolutionFeeds(a, ev, sol, g.inputs, g, io, checker)
    ensures AllFeeds(ev, init + [sol], g, io, checker)
  {
    AllCoversStep(a, ev, init, sol, g, io, checker);
    AllFedFromStep(a.attaches, ev.attaches, init, sol, g, io, checker);
    AllBoundStep(a.bound, ev.bound, init, sol, g.inputs);
  }

  /** After one more solution, `eval` and `check` name its last pair. */
  lemma AllBoundStep(before: map<Role, string>, after: map<Role, string>, init: seq<Solution>, sol: Solution, ins: seq<(int, FileRef)>)
    requires init == [] || ins == [] ==> before == map[]
    requires init != [] && ins != [] ==>
               before == map[EvalVar := EvalDesc(init[|init| - 1].name, ins[|ins| - 1].0),
                             CheckVar := CheckDesc(init[|init| - 1].name, ins[|ins| - 1].0)]
    requires ins == [] ==> after == before
    requires ins != [] ==> after == before[EvalVar := EvalDesc(sol.name, ins[|ins| - 1].0)][CheckVar := CheckDesc(sol.name, ins[|ins| - 1].0)]
    ensures ins == [] ==> after == map[]
    ensures ins != [] ==> after == map[EvalVar := EvalDesc(sol.name, ins[|ins| - 1].0), CheckVar := CheckDesc(sol.name, ins[|ins| - 1].0)]
  {
    if ins != [] {
      RebindBoth(before, EvalDesc(sol.name, ins[|ins| - 1].0), CheckDesc(sol.name, ins[|ins| - 1].0));
    }
  }

  /** One more solution keeps every pair covered and covers its own. */
  lemma AllCoversStep(a: Evaluated, ev: Evaluated, init: seq<Solution>, sol: Solution, g: Generated, io: TaskIo, checker: Option<string>)
    requires forall s, j :: 0 <= s < |init| && 0 <= j < |g.inputs| ==> Covers(a, init[s], g.inputs[j], g, io, checker)
    requires |a.execs| <= |ev.execs| && ev.execs[..|a.execs|] == a.execs
    requires forall x :: x in a.attaches ==> x in ev.attaches
    requires forall j :: 0 <= j < |g.inputs| ==> Covers(ev, sol, g.inputs[j], g, io, checker)
    ensures forall s, j :: 0 <= s < |init| + 1 && 0 <= j < |g.inputs| ==> Covers(ev, (init + [sol])[s], g.inputs[j], g, io, checker)
  {
    var sols := init + [sol];
    forall s, j | 0 <= s < |sols| && 0 <= j < |g.inputs| ensures Covers(ev, sols[s], g.inputs[j], g, io, checker) {
      if s < |init| {
        assert sols[s] == init[s];
        CoversGrow(a, ev, sols[s], g.inputs[j], g, io, checker);
      }
    }
  }

  /** One more solution's handovers all belong to some pair. */
  lemma AllFedFromStep(before: seq<Attach>, after: seq<Attach>, init: seq<Solution>, sol: Solution, g: Generated, io: TaskIo, checker: Option<string>)
    requires FedFrom(before, init, g.inputs, g, io, checker)
    requires forall x :: x in after ==> x in before || exists j :: 0 <= j < |g.inputs| && x in PairFed(sol, g.inputs[j], g, io, checker)
    ensures FedFrom(after, init + [sol], g.inputs, g, io, checker)
  {
    var sols := init + [sol];
    forall x | x in after
      ensures exists s, j :: 0 <= s < |sols| && 0 <= j < |g.inputs| && x in PairFed(sols[s], g.inputs[j], g, io, checker)
    {
      if x in before {
        var s, j :| 0 <= s < |init| && 0 <= j < |g.inputs| && x in PairFed(init[s], g.inputs[j], g, io, checker);
        assert sols[s] == init[s];
      } else {
        var j :| 0 <= j < |g.inputs| && x in PairFed(sol, g.inputs[j], g, io, checker);
        assert sols[|init|] == sol;
      }
    }
  }

  /** evaluate_solutions builds the graph AllFeeds describes. */
  lemma {:induction false} EvaluateAllFeeds(sols: seq<Solution>, g: Generated, io: TaskIo, checker: Option<string>)
    requires EvaluateAll(sols, g, io, checker).Ok?
    ensures AllFeeds(EvaluateAll(sols, g, io, checker).value, sols, g, io, checker)
    decreases |sols|
  {
    if sols != [] {
      var init, sol := sols[..|sols| - 1], sols[|sols| - 1];
      InitLast(sols);
      EvaluateAllNext(init, sol, g, io, checker);
      EvaluateAllFeeds(init, g, io, checker);
      var a := EvaluateAll(init, g, io, checker).value;
      EvaluateSolutionFeeds(a, sol, g.inputs, g, io, checker);
      AllFeedsStep(a, EvaluateAll(sols, g, io, checker).value, init, sol, g, io, checker);
    }
  }

  /** The files and the standard input an execution receives once the
      handovers are resolved. */
  lemma ResolveAt(execs: seq<Exec>, attaches: seq<Attach>, late: bool, bound: map<Role, string>, depName: Option<string>, k: int)
    requires 0 <= k < |execs| && execs[k].inputs == [] && execs[k].stdin.None?
    ensures Resolve(execs, attaches, late, bound, depName)[k].inputs == FilesFor(execs[k].description, attaches, late, bound, depName)
    ensures Resolve(execs, attaches, late, bound, depName)[k].stdin == StdinFor(execs[k].description, attaches, late, bound)
  {
    assert [] + FilesFor(execs[k].description, attaches, late, bound, depName) == FilesFor(execs[k].description, attaches, late, bound, depName);
  }

  /** As written, the evaluation of a solution on an input, and its
      checking, receive no file at all unless that pair is the last one
      evaluated: the callbacks name the executions through `eval` and
      `check`, which by then name the last pair. */
  lemma LateEvaluationStarved(sols: seq<Solution>, g: Generated, io: TaskIo, checker: Option<string>, s: int, j: int)
    requires EvaluateAll(sols, g, io, checker).Ok?
    requires 0 <= s < |sols| && 0 <= j < |g.inputs|
    requires (sols[s].name, g.inputs[j].0) != (sols[|sols| - 1].name, g.inputs[|g.inputs| - 1].0)
    ensures var ev := EvaluateAll(sols, g, io, checker).value;
            var late := EvaluationGraph(ev, true);
            && (exists k :: 0 <= k < |ev.execs| && ev.execs[k].description == EvalDesc(sols[s].name, g.inputs[j].0)
                            && late[k].inputs == [] && late[k].stdin.None?)
            && (exists k :: 0 <= k < |ev.execs| && ev.execs[k].description == CheckDesc(sols[s].name, g.inputs[j].0)
                            && late[k].inputs == [] && late[k].stdin.None?)
  {
    var ev := EvaluateAll(sols, g, io, checker).value;
    EvaluateAllFeeds(sols, g, io, checker);
    EvaluateAllCount(sols, g, io, checker);
    assert Covers(ev, sols[s], g.inputs[j], g, io, checker);
    GraphLateStarved(ev, sols[s], g.inputs[j], sols[|sols| - 1].name, g.inputs[|g.inputs| - 1].0, g, io, checker);
  }

  /** As written, a pair whose executions no final binding names receives nothing. */
  lemma GraphLateStarved(ev: Evaluated, sol: Solution, e: (int, FileRef), lastName: string, lastN: int,
                         g: Generated, io: TaskIo, checker: Option<string>)
    requires Bare(ev.execs) && Covers(ev, sol, e, g, io, checker) && AttachesBound(ev.attaches, ev.bound)
    requires ev.bound == map[EvalVar := EvalDesc(lastName, lastN), CheckVar := CheckDesc(lastName, lastN)]
    requires (sol.name, e.0) != (lastName, lastN)
    ensures var late := EvaluationGraph(ev, true);
            && (exists k :: 0 <= k < |ev.execs| && ev.execs[k].description == EvalDesc(sol.name, e.0)
                            && late[k].inputs == [] && late[k].stdin.None?)
            && (exists k :: 0 <= k < |ev.execs| && ev.execs[k].description == CheckDesc(sol.name, e.0)
                            && late[k].inputs == [] && late[k].stdin.None?)
  {
    var name, n := sol.name, e.0;
    EvalDescDistinct(name, n, lastName, lastN);
    EvalDescDistinct(lastName, lastN, name, n);
    var k1 :| 0 <= k1 < |ev.execs| && ev.execs[k1].description == EvalDesc(name, n);
    var k2 :| 0 <= k2 < |ev.execs| && ev.execs[k2].description == CheckDesc(name, n);
    LateMissesUnbound(EvalDesc(name, n), ev.attaches, ev.bound, None);
    LateMissesUnbound(CheckDesc(name, n), ev.attaches, ev.bound, None);
    ResolveAt(ev.execs, ev.attaches, true, ev.bound, None, k1);
    ResolveAt(ev.execs, ev.attaches, true, ev.bound, None, k2);
  }

  /** In the evaluation graph, with distinct testcase numbers, a handover
      to the evaluation of a solution named `name` on the `j`-th input is
      that input, and a handover to its checking is one of its checking's. */
  lemma PairOwner(ev: Evaluated, sols: seq<Solution>, g: Generated, io: TaskIo, checker: Option<string>, a: Attach, name: string, j: int)
    requires FedFrom(ev.attaches, sols, g.inputs, g, io, checker) && IoiFormat.DistinctKeys(g.inputs)
    requires a in ev.attaches && 0 <= j < |g.inputs|
    ensures var (n, input) := g.inputs[j];
            && (a.own == EvalDesc(name, n) ==> a == FeedAttach(EvalVar, EvalDesc(name, n), io, input)[0])
            && (a.own == CheckDesc(name, n) ==>
                  a in CheckAttaches(checker, CheckDesc(name, n), input, OutputFor(g, n), ReadOutput(io, EvalDesc(name, n))))
  {
    var s', j' :| 0 <= s' < |sols| && 0 <= j' < |g.inputs| && a in PairFed(sols[s'], g.inputs[j'], g, io, checker);
    assert g.inputs[j'].0 == g.inputs[j].0 ==> j' == j;
    InPairOwned(a, sols[s'], g.inputs[j'], g, io, checker, name, g.inputs[j]);
  }

  /** A handover of one pair owned by the evaluation of `name` on `e`, or
      by its checking, is one of that pair's when the testcase numbers
      single out `e`. */
  lemma InPairOwned(a: Attach, sol: Solution, e': (int, FileRef), g: Generated, io: TaskIo, checker: Option<string>,
                    name: string, e: (int, FileRef))
    requires a in PairFed(sol, e', g, io, checker)
    requires e'.0 == e.0 ==> e' == e
    ensures a.own == EvalDesc(name, e.0) ==> a == FeedAttach(EvalVar, EvalDesc(name, e.0), io, e.1)[0]
    ensures a.own == CheckDesc(name, e.0) ==>
              a in CheckAttaches(checker, CheckDesc(name, e.0), e.1, OutputFor(g, e.0), ReadOutput(io, EvalDesc(name, e.0)))
  {
    EvalDescDistinct(name, e.0, sol.name, e'.0);
    EvalDescDistinct(sol.name, e'.0, name, e.0);
    var feed := FeedAttach(EvalVar, EvalDesc(sol.name, e'.0), io, e'.1);
    assert a in feed || a in CheckAttaches(checker, CheckDesc(sol.name, e'.0), e'.1, OutputFor(g, e'.0),
                                           ReadOutput(io, EvalDesc(sol.name, e'.0)));
  }

  /** An evaluation execution, once resolved, reads exactly `input`: as the
      task's input file when it names one, as standard input otherwise. */
  ghost predicate EvalFed(e: Exec, io: TaskIo, input: FileRef) {
    && (io.inputFile != "" ==> && e.inputs != []
                               && (forall p :: p in e.inputs ==> p == (io.inputFile, input))
                               && e.stdin.None?)
    && (io.inputFile == "" ==> e.inputs == [] && e.stdin == Some(input))
  }

  /** A checking execution, once resolved, reads exactly the official output
      as "output", the contestant's output as "contestant_output" and, with
      a custom checker and only then, the input as "input"; no standard input. */
  ghost predicate CheckFed(e: Exec, checker: Option<string>, input: FileRef, expected: FileRef, contestant: FileRef) {
    && e.stdin.None?
    && ("output", expected) in e.inputs
    && ("contestant_output", contestant) in e.inputs
    && (("input", input) in e.inputs <==> checker.Some?)
    && (forall p :: p in e.inputs ==>
          p == ("output", expected) || p == ("contestant_output", contestant) || (checker.Some? && p == ("input", input)))
  }

  /** When the handovers owned by `desc` are exactly those of `fed`, none of
      them to standard input, the execution `desc` reads exactly their files
      and no standard input. */
  lemma HandedExactly(desc: string, attaches: seq<Attach>, bound: map<Role, string>, fed: seq<Attach>)
    requires forall a :: a in attaches && a.own == desc ==> a in fed
    requires forall a :: a in fed ==> a in attaches && a.own == desc && !a.toStdin
    ensures var files := FilesFor(desc, attaches, false, bound, None);
            && (forall a :: a in fed ==> (a.name, a.file) in files)
            && (forall p :: p in files ==> exists a :: a in fed && p == (a.name, a.file))
            && StdinFor(desc, attaches, false, bound).None?
  {
    EarlyFilesOwn(desc, attaches, bound, None);
    EarlyFilesHas(desc, attaches, bound, None);
    EarlyStdinOwn(desc, attaches, bound);
    var files := FilesFor(desc, attaches, false, bound, None);
    forall p | p in files ensures exists a :: a in fed && p == (a.name, a.file) {
      var i :| 0 <= i < |attaches| && attaches[i].own == desc && !attaches[i].toStdin
               && p == (attaches[i].name, attaches[i].file);
      assert attaches[i] in attaches;
    }
  }

  /** As intended, the evaluation of a solution on an input receives
      exactly that input, routed as the task says. */
  lemma GraphEvalFed(ev: Evaluated, sols: seq<Solution>, s: int, j: int, g: Generated, io: TaskIo, checker: Option<string>)
    requires Bare(ev.execs) && FedFrom(ev.attaches, sols, g.inputs, g, io, checker) && IoiFormat.DistinctKeys(g.inputs)
    requires 0 <= s < |sols| && 0 <= j < |g.inputs| && Covers(ev, sols[s], g.inputs[j], g, io, checker)
    ensures exists k :: 0 <= k < |ev.execs| && ev.execs[k].description == EvalDesc(sols[s].name, g.inputs[j].0)
                        && EvalFed(EvaluationGraph(ev, false)[k], io, g.inputs[j].1)
  {
    var name, n, input := sols[s].name, g.inputs[j].0, g.inputs[j].1;
    var d := EvalDesc(name, n);
    var k :| 0 <= k < |ev.execs| && ev.execs[k].description == d;
    ResolveAt(ev.execs, ev.attaches, false, ev.bound, None, k);
    RoutingCases(EvalVar, d, io, input, d);
    var feed := FeedAttach(EvalVar, d, io, input)[0];
    assert feed in PairFed(sols[s], g.inputs[j], g, io, checker);
    forall a | a in ev.attaches && a.own == d ensures a == feed {
      PairOwner(ev, sols, g, io, checker, a, name, j);
    }
    EarlyFilesOwn(d, ev.attaches, ev.bound, None);
    EarlyFilesHas(d, ev.attaches, ev.bound, None);
    EarlyStdinOwn(d, ev.attaches, ev.bound);
    var files := FilesFor(d, ev.attaches, false, ev.bound, None);
    forall p | p in files ensures p == (feed.name, feed.file) && !feed.toStdin {
      var i :| 0 <= i < |ev.attaches| && ev.attaches[i].own == d && !ev.attaches[i].toStdin
               && p == (ev.attaches[i].name, ev.attaches[i].file);
      assert ev.attaches[i] in ev.attaches;
    }
    assert files != [] ==> files[0] in files;
  }

  /** As intended, the checking of a solution on an input receives the
      official output, that evaluation's output, the input when there is a
      custom checker, nothing else, and no standard input. */
  lemma GraphCheckFed(ev: Evaluated, sols: seq<Solution>, s: int, j: int, g: Generated, io: TaskIo, checker: Option<string>)
    requires Bare(ev.execs) && FedFrom(ev.attaches, sols, g.inputs, g, io, checker) && IoiFormat.DistinctKeys(g.inputs)
    requires 0 <= s < |sols| && 0 <= j < |g.inputs| && Covers(ev, sols[s], g.inputs[j], g, io, checker)
    ensures exists k :: 0 <= k < |ev.execs| && ev.execs[k].description == CheckDesc(sols[s].name, g.inputs[j].0)
                        && CheckFed(EvaluationGraph(ev, false)[k], checker, g.inputs[j].1, OutputFor(g, g.inputs[j].0),
                                    ReadOutput(io, EvalDesc(sols[s].name, g.inputs[j].0)))
  {
    var name, n, input := sols[s].name, g.inputs[j].0, g.inputs[j].1;
    var cd := CheckDesc(name, n);
    var contestant := ReadOutput(io, EvalDesc(name, n));
    var fed := CheckAttaches(checker, cd, input, OutputFor(g, n), contestant);
    var k :| 0 <= k < |ev.execs| && ev.execs[k].description == cd;
    forall a | a in ev.attaches && a.own == cd ensures a in fed {
      PairOwner(ev, sols, g, io, checker, a, name, j);
    }
    CheckFiles(checker, cd, input, OutputFor(g, n), contestant);
    assert forall a :: a in fed ==> a in PairFed(sols[s], g.inputs[j], g, io, checker);
    HandedExactly(cd, ev.attaches, ev.bound, fed);
    ResolveAt(ev.execs, ev.attaches, false, ev.bound, None, k);
    CheckFedFrom(EvaluationGraph(ev, false)[k], checker, cd, input, OutputFor(g, n), contestant);
  }

  /** The files of `fed`, a checking's handovers, make that checking `CheckFed`. */
  lemma CheckFedFrom(e: Exec, checker: Option<string>, cd: string, input: FileRef, expected: FileRef, contestant: FileRef)
    requires var fed := CheckAttaches(checker, cd, input, expected, contestant);
             && e.stdin.None?
             && (forall a :: a in fed ==> (a.name, a.file) in e.inputs)
             && (forall p :: p in e.inputs ==> exists a :: a in fed && p == (a.name, a.file))
    ensures CheckFed(e, checker, input, expected, contestant)
  {
    var fed := CheckAttaches(checker, cd, input, expected, contestant);
    var out, con := Attach(CheckVar, cd, "output", expected, false), Attach(CheckVar, cd, "contestant_output", contestant, false);
    var inp := Attach(CheckVar, cd, "input", input, false);
    assert fed == if checker.Some? then [inp, out, con] else [out, con];
    assert out in fed && con in fed;
    assert checker.Some? ==> inp in fed;
    forall p | p in e.inputs
      ensures p == ("output", expected) || p == ("contestant_output", contestant) || (checker.Some? && p == ("input", input))
    {
      var a :| a in fed && p == (a.name, a.file);
    }
  }

  /** As intended, every solution's evaluation on every input receives
      exactly that input, routed as the task says, and its checking
      receives exactly the official output, that evaluation's output, and
      the input when there is a custom checker. */
  lemma EarlyEvaluationFed(sols: seq<Solution>, g: Generated, io: TaskIo, checker: Option<string>, s: int, j: int)
    requires EvaluateAll(sols, g, io, checker).Ok?
    requires 0 <= s < |sols| && 0 <= j < |g.inputs| && IoiFormat.DistinctKeys(g.inputs)
    ensures var ev := EvaluateAll(sols, g, io, checker).value;
            var early := EvaluationGraph(ev, false);
            var n := g.inputs[j].0;
            && IoiFormat.Lookup(g.outputs, n).Some?
            && (exists k :: 0 <= k < |ev.execs| && ev.execs[k].description == EvalDesc(sols[s].name, n)
                            && EvalFed(early[k], io, g.inputs[j].1))
            && (exists k :: 0 <= k < |ev.execs| && ev.execs[k].description == CheckDesc(sols[s].name, n)
                            && CheckFed(early[k], checker, g.inputs[j].1, IoiFormat.Lookup(g.outputs, n).value,
                                        ReadOutput(io, EvalDesc(sols[s].name, n))))
  {
    var ev := EvaluateAll(sols, g, io, checker).value;
    EvaluateAllFeeds(sols, g, io, checker);
    EvaluateAllCount(sols, g, io, checker);
    assert !Incomplete(g.inputs, g);
    assert IoiFormat.Lookup(g.outputs, g.inputs[j].0).Some?;
    assert Covers(ev, sols[s], g.inputs[j], g, io, checker);
    GraphEvalFed(ev, sols, s, j, g, io, checker);
    GraphCheckFed(ev, sols, s, j, g, io, checker);
  }

  /** One more input after a successful prefix: a success extends the
      prefix, a failure is the outcome over all the inputs. */
  lemma EvaluateSolutionStep(acc: Evaluated, sol: Solution, ins: seq<(int, FileRef)>, j: int, cur: Evaluated,
                             g: Generated, io: TaskIo, checker: Option<string>)
    requires 0 <= j < |ins| && EvaluateSolution(acc, sol, ins[..j], g, io, checker) == Ok(cur)
    ensures var one := EvaluateOne(cur, sol, ins[j].0, ins[j].1, g, io, checker);
            && (one.Ok? ==> EvaluateSolution(acc, sol, ins[..j + 1], g, io, checker) == one)
            && (one.Err? ==> EvaluateSolution(acc, sol, ins, g, io, checker) == one)
  {
    PrefixSnoc(ins, j);
    EvaluateSolutionNext(acc, sol, ins[..j], ins[j], g, io, checker);
    if EvaluateOne(cur, sol, ins[j].0, ins[j].1, g, io, checker).Err? {
      EvaluateSolutionStops(acc, sol, ins[..j + 1], ins[j + 1..], g, io, checker);
      assert ins[..j + 1] + ins[j + 1..] == ins;
    }
  }

  /** The evaluation and the checking of one solution on the j-th input,
      after the inputs before it succeeded. */
  method EvaluateInput(acc: Evaluated, sol: Solution, j: int, cur: Evaluated, g: Generated, io: TaskIo, checker: Option<string>)
    returns (one: Result<Evaluated>)
    requires 0 <= j < |g.inputs| && EvaluateSolution(acc, sol, g.inputs[..j], g, io, checker) == Ok(cur)
    ensures one.Ok? ==> EvaluateSolution(acc, sol, g.inputs[..j + 1], g, io, checker) == one
    ensures one.Err? ==> EvaluateSolution(acc, sol, g.inputs, g, io, checker) == one
  {
    EvaluateSolutionStep(acc, sol, g.inputs, j, cur, g, io, checker);
    one := EvaluateOne(cur, sol, g.inputs[j].0, g.inputs[j].1, g, io, checker);
  }

  /** The inner loop of evaluate_solutions: one solution over the inputs. */
  method EvaluateOneSolution(acc: Evaluated, sol: Solution, g: Generated, io: TaskIo, checker: Option<string>)
    returns (r: Result<Evaluated>)
    ensures r == EvaluateSolution(acc, sol, g.inputs, g, io, checker)
  {
    var cur := acc;
    for j := 0 to |g.inputs|
      invariant EvaluateSolution(acc, sol, g.inputs[..j], g, io, checker) == Ok(cur)
    {
      var one := EvaluateInput(acc, sol, j, cur, g, io, checker);
      if one.Err? {
        return one;
      }
      cur := one.value;
    }
    PrefixSuffix(g.inputs, 0);
    r := Ok(cur);
  }

  /** One more solution after a successful prefix: a success extends the
      prefix, a failure is the outcome over all the solutions. */
  lemma EvaluateAllStep(sols: seq<Solution>, i: int, cur: Evaluated, g: Generated, io: TaskIo, checker: Option<string>)
    requires 0 <= i < |sols| && EvaluateAll(sols[..i], g, io, checker) == Ok(cur)
    ensures var next := EvaluateSolution(cur, sols[i], g.inputs, g, io, checker);
            && (next.Ok? ==> EvaluateAll(sols[..i + 1], g, io, checker) == next)
            && (next.Err? ==> EvaluateAll(sols, g, io, checker) == next)
  {
    PrefixSnoc(sols, i);
    EvaluateAllNext(sols[..i], sols[i], g, io, checker);
    if EvaluateSolution(cur, sols[i], g.inputs, g, io, checker).Err? {
      EvaluateAllStops(sols[..i + 1], sols[i + 1..], g, io, checker);
      assert sols[..i + 1] + sols[i + 1..] == sols;
    }
  }

  /** evaluate_solutions: over the solutions, over the inputs. */
  method EvaluateSolutions(sols: seq<Solution>, g: Generated, io: TaskIo, checker: Option<string>)
    returns (r: Result<Evaluated>)
    ensures r == EvaluateAll(sols, g, io, checker)
  {
    var cur := NoneEvaluated;
    for i := 0 to |sols|
      invariant EvaluateAll(sols[..i], g, io, checker) == Ok(cur)
    {
      EvaluateAllStep(sols, i, cur, g, io, checker);
      var next := EvaluateOneSolution(cur, sols[i], g, io, checker);
      if next.Err? {
        return next;
      }
      cur := next.value;
    }
    PrefixSuffix(sols, 0);
    r := Ok(cur);
  }
}

/** The construction of the evaluation graph of an IOI-like task
    (python/formats/ioi_format/execution.py): which executions produce each
    testcase's input, validation and expected output, how their files are
    routed, and which evaluations every solution gets. Executions, files and
    calls into the interface are recorded as abstract values. */
module IoiExecution {
  import opened Common

  const ValidationInputName: string := "tm_input_file"
  const WaitForValidation: string := "wait_for_validation"

  /** A file of the graph: provided from disk, or produced by execution `exec`. */
  datatype FileRef =
    | Provided(path: string, description: string)
    | StdoutOf(exec: nat)
    | OutputOf(exec: nat, name: string)

  datatype ExecKind = GenerationKind | ValidationKind | SolutionKind

  /** Literal arguments, or those a validator builds for a testcase and a
      1-based subtask number. */
  datatype Args = Literal(values: seq<string>) | ValidatorArgs(testcase: int, subtask: int)

  datatype ExecRecord = ExecRecord(
    description: string,
    kind: ExecKind,
    subtask: int,
    testcase: int,
    source: string,
    args: Args,
    inputs: map<string, FileRef>,
    stdin: Option<FileRef>,
    outputs: seq<string>)

  /** What the construction asks of the pool and of the interface, in order. */
  datatype Event =
    | Prepare(source: string)
    | NonSolution(source: string)
    | Solution(source: string)
    | Generation(subtask: int, testcase: int, exec: nat)
    | Validation(subtask: int, testcase: int, exec: nat)
    | Solving(subtask: int, testcase: int, exec: nat)
    | Error(message: string)
    | Failure(subtask: int, testcase: int)
    | WriteFile(file: FileRef, path: string)
    | Evaluate(solution: string, subtask: int, testcase: int, input: FileRef,
               validation: Option<FileRef>, output: Option<FileRef>)
    | EvaluateSolution(subtask: int, testcase: int, solution: string)
    | EvaluateChecking(subtask: int, testcase: int, solution: string)

  /** A testcase of the task; an empty string is an absent file name. */
  datatype Testcase = Testcase(
    inputFile: string,
    generator: Option<string>,
    generatorArgs: seq<string>,
    validator: Option<string>,
    extraDeps: seq<(string, string)>,
    outputFile: string,
    writeInputTo: string,
    writeOutputTo: string)

  datatype Task = Task(
    subtasks: seq<(int, seq<(int, Testcase)>)>,
    batch: bool,
    inputFile: string,
    outputFile: string,
    officialSolution: Option<string>,
    checker: Option<string>)

  /** The frontend's behaviour: the paths whose provideFile raises
      RuntimeError (with its message) and whether this is a dry run. */
  datatype Frontend = Frontend(failures: map<string, string>, dryRun: bool)

  datatype DagState = DagState(
    execs: seq<ExecRecord>,
    inputs: map<(int, int), FileRef>,
    inputOrder: seq<(int, int)>,
    outputs: map<(int, int), FileRef>,
    validations: map<(int, int), FileRef>,
    prepared: set<string>,
    events: seq<Event>)

  /** The state, and whether the construction raised (and stopped) there. */
  datatype Outcome = Outcome(state: DagState, raised: bool)

  const Empty: DagState := DagState([], map[], [], map[], map[], {}, [])

  // ---------------------------------------------------------------------------
  // The specification of generate_inputs, one testcase at a time

  /** add_non_solution: a source is prepared and registered only the first time. */
  function AddNonSolution(s: DagState, source: string): (r: DagState)
    ensures r.prepared == s.prepared + {source}
    ensures r.events == s.events + (if source in s.prepared then [] else [Prepare(source), NonSolution(source)])
    ensures r == s.(prepared := r.prepared, events := r.events)
  {
    if source in s.prepared then s
    else s.(prepared := s.prepared + {source}, events := s.events + [Prepare(source), NonSolution(source)])
  }

  function ProvideDeps(fe: Frontend, deps: seq<(string, string)>): Option<map<string, FileRef>>
  {
    if deps == [] then Some(map[])
    else
      var last := deps[|deps| - 1];
      match ProvideDeps(fe, deps[..|deps| - 1])
      case None => None
      case Some(m) =>
        if last.1 in fe.failures then None else Some(m[last.0 := Provided(last.1, last.1)])
  }

  function ValidationRecord(st: int, tc: int, validator: string, input: FileRef): ExecRecord {
    ExecRecord("Validation of input " + IntToString(tc), ValidationKind, st, tc, validator,
               ValidatorArgs(tc, st + 1), map[ValidationInputName := input], None, [])
  }

  /** Appends a validation of the testcase's input by `validator`. */
  function AddValidation(s: DagState, st: int, tc: int, validator: string): DagState
    requires (st, tc) in s.inputs
  {
    var k := |s.execs|;
    s.(execs := s.execs + [ValidationRecord(st, tc, validator, s.inputs[(st, tc)])],
       validations := s.validations[(st, tc) := StdoutOf(k)],
       events := s.events + [Validation(st, tc, k)])
  }

  function SetInput(s: DagState, id: (int, int), f: FileRef): DagState {
    s.(inputs := s.inputs[id := f],
       inputOrder := if id in s.inputs then s.inputOrder else s.inputOrder + [id])
  }

  /** The input part of one testcase (lines 85-154). */
  function InputStep(task: Task, fe: Frontend, s: DagState, st: int, tc: int, t: Testcase): Outcome {
    var s1 := if t.validator.Some? then AddNonSolution(s, t.validator.value) else s;
    if t.inputFile != "" then
      if t.inputFile in fe.failures then
        // the RuntimeError is caught: error, FAILURE, and the next testcase
        Outcome(s1.(events := s1.events + [Error(fe.failures[t.inputFile]), Failure(st, tc)]), false)
      else Outcome(StoreStaticInput(s1, st, tc, t), false)
    else if t.generator.None? then Outcome(s1, true)
    else GenerateInput(fe, AddNonSolution(s1, t.generator.value), st, tc, t)
  }

  /** A static input that can be provided: stored, then validated when the
      testcase has a validator. */
  function StoreStaticInput(s1: DagState, st: int, tc: int, t: Testcase): DagState {
    var s2 := SetInput(s1, (st, tc), Provided(t.inputFile, "Static input " + IntToString(tc)));
    if t.validator.Some? then AddValidation(s2, st, tc, t.validator.value) else s2
  }

  /** A generated input, once the generator is registered: raises when an
      extra dependency cannot be provided or there is no validator. */
  function GenerateInput(fe: Frontend, s2: DagState, st: int, tc: int, t: Testcase): Outcome
    requires t.generator.Some?
  {
    match ProvideDeps(fe, t.extraDeps)
    case None => Outcome(s2, true)
    case Some(deps) =>
      var k := |s2.execs|;
      var gen := ExecRecord("Generation of input " + IntToString(tc), GenerationKind, st, tc,
                            t.generator.value, Literal(t.generatorArgs), deps, None, []);
      var s3 := SetInput(s2.(execs := s2.execs + [gen], events := s2.events + [Generation(st, tc, k)]),
                         (st, tc), StdoutOf(k));
      if t.validator.None? then Outcome(s3, true)
      else Outcome(AddValidation(s3, st, tc, t.validator.value), false)
  }

  /** The expected-output part of one testcase of a Batch task (lines 159-194). */
  function OutputStep(task: Task, fe: Frontend, s: DagState, st: int, tc: int, t: Testcase): Outcome
    requires (st, tc) in s.inputs
  {
    var id := (st, tc);
    if t.outputFile != "" then
      if t.outputFile in fe.failures then Outcome(s, true)
      else Outcome(s.(outputs := s.outputs[id := Provided(t.outputFile, "Static output " + IntToString(tc))]), false)
    else if task.officialSolution.None? then Outcome(s, true)
    else
      var sol := task.officialSolution.value;
      var s1 := AddNonSolution(s, sol);
      if id !in s1.validations then Outcome(s1, true)
      else
        var input := s1.inputs[id];
        var deps := map[WaitForValidation := s1.validations[id]];
        var deps' := if task.inputFile != "" then deps[task.inputFile := input] else deps;
        var stdin := if task.inputFile != "" then None else Some(input);
        var outs := if task.outputFile != "" then [task.outputFile] else [];
        var k := |s1.execs|;
        var rec := ExecRecord("Generation of output " + IntToString(tc), SolutionKind, st, tc, sol,
                              Literal([]), deps', stdin, outs);
        var out := if task.outputFile != "" then OutputOf(k, task.outputFile) else StdoutOf(k);
        Outcome(s1.(execs := s1.execs + [rec], outputs := s1.outputs[id := out],
                    events := s1.events + [Solving(st, tc, k)]), false)
  }

  function WriteIf(s: DagState, fe: Frontend, f: FileRef, path: string): DagState {
    if path != "" && !fe.dryRun then s.(events := s.events + [WriteFile(f, path)]) else s
  }

  /** One testcase of generate_inputs. */
  function CaseStep(task: Task, fe: Frontend, s: DagState, st: int, tc: int, t: Testcase): Outcome {
    var id := (st, tc);
    var o := InputStep(task, fe, s, st, tc, t);
    if o.raised then o
    else if t.inputFile != "" && t.inputFile in fe.failures then o
    else if id !in o.state.inputs then Outcome(o.state, true)
    else
      var s1 := WriteIf(o.state, fe, o.state.inputs[id], t.writeInputTo);
      if !task.batch then Outcome(s1, false)
      else
        var o2 := OutputStep(task, fe, s1, st, tc, t);
        if o2.raised || id !in o2.state.outputs then o2
        else Outcome(WriteIf(o2.state, fe, o2.state.outputs[id], t.writeOutputTo), false)
  }

  /** The testcases of one subtask, in order, stopping at the first raise. */
  function CasesStep(task: Task, fe: Frontend, s: DagState, st: int, tcs: seq<(int, Testcase)>): Outcome
    decreases |tcs|
  {
    if tcs == [] then Outcome(s, false)
    else
      var o := CasesStep(task, fe, s, st, tcs[..|tcs| - 1]);
      if o.raised then o
      else
        var last := tcs[|tcs| - 1];
        CaseStep(task, fe, o.state, st, last.0, last.1)
  }

  function SubtasksStep(task: Task, fe: Frontend, s: DagState, sts: seq<(int, seq<(int, Testcase)>)>): Outcome
    decreases |sts|
  {
    if sts == [] then Outcome(s, false)
    else
      var o := SubtasksStep(task, fe, s, sts[..|sts| - 1]);
      if o.raised then o
      else
        var last := sts[|sts| - 1];
        CasesStep(task, fe, o.state, last.0, last.1)
  }

  /** generate_inputs: every testcase, then the checker. */
  function GenerateInputsSpec(task: Task, fe: Frontend): Outcome {
    var o := SubtasksStep(task, fe, Empty, task.subtasks);
    if o.raised || task.checker.None? then o
    else Outcome(AddNonSolution(o.state, task.checker.value), false)
  }

  // ---------------------------------------------------------------------------
  // What one testcase gets

  /** A static input that cannot be provided: the error is reported, the
      testcase is marked failed, and nothing else is created for it. */
  lemma FailedInputCreatesNothing(task: Task, fe: Frontend, s: DagState, st: int, tc: int, t: Testcase)
    requires t.inputFile != "" && t.inputFile in fe.failures
    ensures var o := CaseStep(task, fe, s, st, tc, t);
            !o.raised && GraphOf(o.state) == GraphOf(s) && o.state.inputOrder == s.inputOrder
            && |o.state.events| >= 2
            && o.state.events[|o.state.events| - 2..] == [Error(fe.failures[t.inputFile]), Failure(st, tc)]
  {
  }

  /** A static input that can be provided is the input, with no generation;
      it is validated exactly when the testcase has a validator. */
  lemma StaticInputProvided(task: Task, fe: Frontend, s: DagState, st: int, tc: int, t: Testcase)
    requires t.inputFile != "" && t.inputFile !in fe.failures
    requires (st, tc) !in s.validations
    ensures var o := InputStep(task, fe, s, st, tc, t);
            !o.raised
            && o.state.inputs == s.inputs[(st, tc) := Provided(t.inputFile, "Static input " + IntToString(tc))]
            && ((st, tc) in o.state.validations <==> t.validator.Some?)
            && (t.validator.Some? ==>
                  o.state.execs == s.execs + [ValidationRecord(st, tc, t.validator.value, o.state.inputs[(st, tc)])]
                  && o.state.validations[(st, tc)] == StdoutOf(|s.execs|))
            && (t.validator.None? ==> o.state.execs == s.execs)
  {
  }

  /** Without a static input, the input is the stdout of one new generation
      execution, followed by one validation of it with the 1-based subtask
      number; a missing generator or validator, or an extra dependency that
      cannot be provided, raises. */
  lemma GeneratedInput(task: Task, fe: Frontend, s: DagState, st: int, tc: int, t: Testcase)
    requires t.inputFile == ""
    ensures var o := InputStep(task, fe, s, st, tc, t);
            (o.raised <==> t.generator.None? || t.validator.None? || ProvideDeps(fe, t.extraDeps).None?)
            && (!o.raised ==>
                  var k := |s.execs|;
                  |o.state.execs| == k + 2 && o.state.execs[..k] == s.execs
                  && o.state.execs[k].kind == GenerationKind && o.state.execs[k].source == t.generator.value
                  && o.state.execs[k].args == Literal(t.generatorArgs)
                  && o.state.execs[k].inputs == ProvideDeps(fe, t.extraDeps).value
                  && o.state.inputs[(st, tc)] == StdoutOf(k)
                  && o.state.execs[k + 1] == ValidationRecord(st, tc, t.validator.value, StdoutOf(k))
                  && o.state.execs[k + 1].args == ValidatorArgs(tc, st + 1)
                  && o.state.validations[(st, tc)] == StdoutOf(k + 1))
  {
  }

  /** The expected output: a static output file is used as it is (raising when
      it cannot be provided); otherwise the official solution is run, which
      raises without an official solution or without a validation to wait for. */
  lemma OutputCases(task: Task, fe: Frontend, s: DagState, st: int, tc: int, t: Testcase)
    requires (st, tc) in s.inputs
    ensures var o := OutputStep(task, fe, s, st, tc, t);
            (t.outputFile != "" ==>
               (o.raised <==> t.outputFile in fe.failures)
               && (!o.raised ==>
                     (o.state.execs == s.execs
                      && o.state.outputs == s.outputs[(st, tc) := Provided(t.outputFile, "Static output " + IntToString(tc))])))
            && (t.outputFile == "" ==>
                  (o.raised <==> task.officialSolution.None? || (st, tc) !in s.validations)
                  && (!o.raised ==>
                        (|o.state.execs| == |s.execs| + 1 && o.state.execs[..|s.execs|] == s.execs
                         && o.state.execs[|s.execs|].kind == SolutionKind
                         && o.state.execs[|s.execs|].source == task.officialSolution.value
                         && Routed(task, o.state.execs[|s.execs|], s.inputs[(st, tc)], s.validations[(st, tc)])
                         && o.state.outputs == s.outputs[(st, tc) := OutputRef(task, |s.execs|)])))
  {
  }

  /** A task that is not Batch gets no expected outputs. */
  lemma NonBatchNoOutputs(task: Task, fe: Frontend, s: DagState, st: int, tc: int, t: Testcase)
    requires !task.batch
    ensures CaseStep(task, fe, s, st, tc, t).state.outputs == s.outputs
  {
    InputStepKeepsOutputs(task, fe, s, st, tc, t);
  }

  /** The input part never sets an expected output. */
  lemma InputStepKeepsOutputs(task: Task, fe: Frontend, s: DagState, st: int, tc: int, t: Testcase)
    ensures InputStep(task, fe, s, st, tc, t).state.outputs == s.outputs
  {
    var s1 := if t.validator.Some? then AddNonSolution(s, t.validator.value) else s;
    assert s1.outputs == s.outputs;
    if t.inputFile == "" && t.generator.Some? {
      var s2 := AddNonSolution(s1, t.generator.value);
      assert GenerateInput(fe, s2, st, tc, t).state.outputs == s2.outputs;
    }
  }

  // ---------------------------------------------------------------------------
  // The shape of the graph generate_inputs builds

  /** The executions and the three dictionaries. */
  datatype Graph = Graph(
    execs: seq<ExecRecord>,
    inputs: map<(int, int), FileRef>,
    validations: map<(int, int), FileRef>,
    outputs: map<(int, int), FileRef>)

  function GraphOf(s: DagState): Graph {
    Graph(s.execs, s.inputs, s.validations, s.outputs)
  }

  function Key(e: ExecRecord): (int, int) {
    (e.subtask, e.testcase)
  }

  /** Where the expected output of official-solution execution `j` is read. */
  function OutputRef(task: Task, j: nat): FileRef {
    if task.outputFile != "" then OutputOf(j, task.outputFile) else StdoutOf(j)
  }

  /** The official solution reads the input from the task's input file when
      there is one, else from stdin; it waits for the validation; it leaves
      the output in the task's output file when there is one. */
  predicate Routed(task: Task, e: ExecRecord, input: FileRef, validation: FileRef) {
    (task.inputFile != "" ==>
       e.stdin == None && task.inputFile in e.inputs && e.inputs[task.inputFile] == input)
    && (task.inputFile == "" ==> e.stdin == Some(input) && e.inputs == map[WaitForValidation := validation])
    && (task.inputFile != WaitForValidation ==>
          WaitForValidation in e.inputs && e.inputs[WaitForValidation] == validation)
    && e.outputs == (if task.outputFile != "" then [task.outputFile] else [])
  }

  /** Execution `j` is the one its testcase's dictionary entry names. */
  predicate ExecLinked(task: Task, g: Graph, j: nat)
    requires j < |g.execs|
  {
    var e := g.execs[j];
    var id := Key(e);
    match e.kind
    case GenerationKind =>
      id in g.inputs && g.inputs[id] == StdoutOf(j) && e.stdin.None?
    case ValidationKind =>
      id in g.inputs && id in g.validations && g.validations[id] == StdoutOf(j)
      && e.inputs == map[ValidationInputName := g.inputs[id]] && e.stdin.None?
      && e.args == ValidatorArgs(id.1, id.0 + 1)
    case SolutionKind =>
      task.batch && task.officialSolution == Some(e.source)
      && id in g.inputs && id in g.validations && id in g.outputs
      && g.outputs[id] == OutputRef(task, j) && Routed(task, e, g.inputs[id], g.validations[id])
  }

  /** An input is a provided file or the stdout of its testcase's generation. */
  predicate InputSource(g: Graph, id: (int, int))
    requires id in g.inputs
  {
    match g.inputs[id]
    case Provided(_, _) => true
    case StdoutOf(j) => j < |g.execs| && g.execs[j].kind == GenerationKind && Key(g.execs[j]) == id
    case OutputOf(_, _) => false
  }

  /** A validation is the stdout of its testcase's validation execution. */
  predicate ValidationSource(g: Graph, id: (int, int))
    requires id in g.validations
  {
    match g.validations[id]
    case StdoutOf(j) => j < |g.execs| && g.execs[j].kind == ValidationKind && Key(g.execs[j]) == id
    case _ => false
  }

  /** An expected output is a provided file or produced by its testcase's
      official-solution execution. */
  predicate OutputSource(g: Graph, id: (int, int))
    requires id in g.outputs
  {
    match g.outputs[id]
    case Provided(_, _) => true
    case StdoutOf(j) => j < |g.execs| && g.execs[j].kind == SolutionKind && Key(g.execs[j]) == id
    case OutputOf(j, _) => j < |g.execs| && g.execs[j].kind == SolutionKind && Key(g.execs[j]) == id
  }

  predicate Linked(task: Task, g: Graph) {
    (forall j :: 0 <= j < |g.execs| ==> ExecLinked(task, g, j))
    && (forall id :: id in g.inputs ==> InputSource(g, id))
    && (forall id :: id in g.validations ==> ValidationSource(g, id))
    && (forall id :: id in g.outputs ==> OutputSource(g, id))
    && (!task.batch ==> g.outputs == map[])
  }

  /** The testcases the graph mentions. */
  function Touched(g: Graph): set<(int, int)> {
    g.inputs.Keys + g.validations.Keys + g.outputs.Keys + ExecKeys(g.execs)
  }

  function ExecKeys(es: seq<ExecRecord>): set<(int, int)> {
    set j | 0 <= j < |es| :: Key(es[j])
  }

  /** A testcase the graph does not mention has no execution. */
  lemma NotTouchedNoExecs(g: Graph, id: (int, int))
    requires id !in Touched(g)
    ensures forall j :: 0 <= j < |g.execs| ==> Key(g.execs[j]) != id
  {
    forall j | 0 <= j < |g.execs| ensures Key(g.execs[j]) != id {
      assert Key(g.execs[j]) in ExecKeys(g.execs);
    }
  }

  lemma ExecKeysAppend(es: seq<ExecRecord>, rec: ExecRecord)
    ensures ExecKeys(es + [rec]) == ExecKeys(es) + {Key(rec)}
  {
    var es' := es + [rec];
    forall x | x in ExecKeys(es') ensures x in ExecKeys(es) + {Key(rec)} {
      var j :| 0 <= j < |es'| && Key(es'[j]) == x;
      if j < |es| {
        assert Key(es[j]) == x;
      }
    }
    forall x | x in ExecKeys(es) ensures x in ExecKeys(es') {
      var j :| 0 <= j < |es| && Key(es[j]) == x;
      assert Key(es'[j]) == x;
    }
    assert Key(es'[|es|]) == Key(rec);
  }

  /** In a linked graph a testcase has at most one execution of each kind. */
  lemma LinkedUnique(task: Task, g: Graph, j1: nat, j2: nat)
    requires Linked(task, g)
    requires j1 < |g.execs| && j2 < |g.execs|
    requires g.execs[j1].kind == g.execs[j2].kind && Key(g.execs[j1]) == Key(g.execs[j2])
    ensures j1 == j2
  {
    assert ExecLinked(task, g, j1) && ExecLinked(task, g, j2);
  }

  // The graph operations of one testcase, each keeping the graph linked.

  lemma AddGenerationLinked(task: Task, g: Graph, id: (int, int), rec: ExecRecord)
    requires Linked(task, g) && id !in Touched(g)
    requires rec.kind == GenerationKind && Key(rec) == id && rec.stdin.None?
    ensures var g' := g.(execs := g.execs + [rec], inputs := g.inputs[id := StdoutOf(|g.execs|)]);
            Linked(task, g') && Touched(g') == Touched(g) + {id} && KindsOf(g', id, {GenerationKind})
  {
    var g' := g.(execs := g.execs + [rec], inputs := g.inputs[id := StdoutOf(|g.execs|)]);
    NotTouchedNoExecs(g, id);
    GenerationExecsLinked(task, g, id, rec);
    GenerationSourcesLinked(task, g, id, rec);
    GenerationTouched(g, id, rec);
  }

  /** A generation touches its own testcase and no other. */
  lemma GenerationTouched(g: Graph, id: (int, int), rec: ExecRecord)
    requires Key(rec) == id
    ensures var g' := g.(execs := g.execs + [rec], inputs := g.inputs[id := StdoutOf(|g.execs|)]);
            Touched(g') == Touched(g) + {id}
  {
    var g' := g.(execs := g.execs + [rec], inputs := g.inputs[id := StdoutOf(|g.execs|)]);
    ExecKeysAppend(g.execs, rec);
    assert g'.inputs.Keys == g.inputs.Keys + {id};
  }

  lemma GenerationExecsLinked(task: Task, g: Graph, id: (int, int), rec: ExecRecord)
    requires Linked(task, g) && id !in Touched(g)
    requires rec.kind == GenerationKind && Key(rec) == id && rec.stdin.None?
    ensures var g' := g.(execs := g.execs + [rec], inputs := g.inputs[id := StdoutOf(|g.execs|)]);
            forall j :: 0 <= j < |g'.execs| ==> ExecLinked(task, g', j)
  {
    var g' := g.(execs := g.execs + [rec], inputs := g.inputs[id := StdoutOf(|g.execs|)]);
    forall j | 0 <= j < |g'.execs| ensures ExecLinked(task, g', j) {
      if j < |g.execs| {
        assert g'.execs[j] == g.execs[j];
        assert ExecLinked(task, g, j);
        assert Key(g.execs[j]) in ExecKeys(g.execs);
      }
    }
  }

  lemma GenerationSourcesLinked(task: Task, g: Graph, id: (int, int), rec: ExecRecord)
    requires Linked(task, g) && id !in Touched(g)
    requires rec.kind == GenerationKind && Key(rec) == id
    ensures var g' := g.(execs := g.execs + [rec], inputs := g.inputs[id := StdoutOf(|g.execs|)]);
            && (forall k :: k in g'.inputs ==> InputSource(g', k))
            && (forall k :: k in g'.validations ==> ValidationSource(g', k))
            && (forall k :: k in g'.outputs ==> OutputSource(g', k))
  {
    var g' := g.(execs := g.execs + [rec], inputs := g.inputs[id := StdoutOf(|g.execs|)]);
    forall k | k in g'.inputs ensures InputSource(g', k) {
      if k != id {
        assert InputSource(g, k);
      }
    }
    forall k | k in g'.validations ensures ValidationSource(g', k) {
      assert ValidationSource(g, k);
    }
    forall k | k in g'.outputs ensures OutputSource(g', k) {
      assert OutputSource(g, k);
    }
  }

  lemma SetProvidedInputLinked(task: Task, g: Graph, id: (int, int), f: FileRef)
    requires Linked(task, g) && id !in Touched(g) && f.Provided?
    ensures var g' := g.(inputs := g.inputs[id := f]);
            Linked(task, g') && Touched(g') == Touched(g) + {id} && KindsOf(g', id, {GenerationKind})
  {
    var g' := g.(inputs := g.inputs[id := f]);
    NotTouchedNoExecs(g, id);
    ProvidedInputExecsLinked(task, g, id, f);
    forall k | k in g'.inputs ensures InputSource(g', k) {
      if k != id {
        assert InputSource(g, k);
      }
    }
    assert g'.inputs.Keys == g.inputs.Keys + {id};
  }

  lemma ProvidedInputExecsLinked(task: Task, g: Graph, id: (int, int), f: FileRef)
    requires Linked(task, g) && id !in Touched(g)
    ensures var g' := g.(inputs := g.inputs[id := f]);
            forall j :: 0 <= j < |g'.execs| ==> ExecLinked(task, g', j)
  {
    var g' := g.(inputs := g.inputs[id := f]);
    forall j | 0 <= j < |g'.execs| ensures ExecLinked(task, g', j) {
      assert ExecLinked(task, g, j);
      assert Key(g.execs[j]) in ExecKeys(g.execs);
    }
  }

  /** The executions of testcase `id` are all of the given kinds. */
  predicate KindsOf(g: Graph, id: (int, int), kinds: set<ExecKind>) {
    forall j :: 0 <= j < |g.execs| && Key(g.execs[j]) == id ==> g.execs[j].kind in kinds
  }

  /** The executions stay linked when a validation is appended. */
  lemma ValidationExecsLinked(task: Task, g: Graph, id: (int, int), rec: ExecRecord)
    requires Linked(task, g) && id in g.inputs && id !in g.validations
    requires KindsOf(g, id, {GenerationKind})
    requires rec == ValidationRecord(id.0, id.1, rec.source, g.inputs[id])
    ensures var g' := g.(execs := g.execs + [rec], validations := g.validations[id := StdoutOf(|g.execs|)]);
            forall j :: 0 <= j < |g'.execs| ==> ExecLinked(task, g', j)
  {
    var g' := g.(execs := g.execs + [rec], validations := g.validations[id := StdoutOf(|g.execs|)]);
    forall j | 0 <= j < |g'.execs| ensures ExecLinked(task, g', j) {
      if j < |g.execs| {
        assert g'.execs[j] == g.execs[j];
        assert ExecLinked(task, g, j);
      }
    }
  }

  /** The dictionaries stay linked when a validation is appended. */
  lemma ValidationSourcesLinked(task: Task, g: Graph, id: (int, int), rec: ExecRecord)
    requires Linked(task, g) && id in g.inputs && id !in g.validations && id !in g.outputs
    requires rec == ValidationRecord(id.0, id.1, rec.source, g.inputs[id])
    ensures var g' := g.(execs := g.execs + [rec], validations := g.validations[id := StdoutOf(|g.execs|)]);
            && (forall k :: k in g'.inputs ==> InputSource(g', k))
            && (forall k :: k in g'.validations ==> ValidationSource(g', k))
            && (forall k :: k in g'.outputs ==> OutputSource(g', k))
  {
    var g' := g.(execs := g.execs + [rec], validations := g.validations[id := StdoutOf(|g.execs|)]);
    forall k | k in g'.inputs ensures InputSource(g', k) {
      assert InputSource(g, k);
    }
    forall k | k in g'.validations ensures ValidationSource(g', k) {
      if k != id {
        assert ValidationSource(g, k);
      }
    }
    forall k | k in g'.outputs ensures OutputSource(g', k) {
      assert OutputSource(g, k);
    }
  }

  lemma AddValidationLinked(task: Task, g: Graph, id: (int, int), rec: ExecRecord)
    requires Linked(task, g) && id in g.inputs && id !in g.validations && id !in g.outputs
    requires KindsOf(g, id, {GenerationKind})
    requires rec == ValidationRecord(id.0, id.1, rec.source, g.inputs[id])
    ensures var g' := g.(execs := g.execs + [rec], validations := g.validations[id := StdoutOf(|g.execs|)]);
            Linked(task, g') && KindsOf(g', id, {GenerationKind, ValidationKind})
            && Touched(g') == Touched(g)
  {
    var g' := g.(execs := g.execs + [rec], validations := g.validations[id := StdoutOf(|g.execs|)]);
    ValidationExecsLinked(task, g, id, rec);
    ValidationSourcesLinked(task, g, id, rec);
    ValidationKindsTouched(g, id, rec);
  }

  /** Appending a validation adds a validation kind and no testcase. */
  lemma ValidationKindsTouched(g: Graph, id: (int, int), rec: ExecRecord)
    requires id in g.inputs && KindsOf(g, id, {GenerationKind})
    requires rec.kind == ValidationKind && Key(rec) == id
    ensures var g' := g.(execs := g.execs + [rec], validations := g.validations[id := StdoutOf(|g.execs|)]);
            KindsOf(g', id, {GenerationKind, ValidationKind}) && Touched(g') == Touched(g)
  {
    var g' := g.(execs := g.execs + [rec], validations := g.validations[id := StdoutOf(|g.execs|)]);
    forall j | 0 <= j < |g'.execs| && Key(g'.execs[j]) == id
      ensures g'.execs[j].kind in {GenerationKind, ValidationKind}
    {
      if j < |g.execs| {
        assert g'.execs[j] == g.execs[j];
      }
    }
    ExecKeysAppend(g.execs, rec);
    assert g'.validations.Keys == g.validations.Keys + {id};
  }

  lemma SetProvidedOutputLinked(task: Task, g: Graph, id: (int, int), f: FileRef)
    requires Linked(task, g) && task.batch && id in g.inputs && id !in g.outputs && f.Provided?
    requires KindsOf(g, id, {GenerationKind, ValidationKind})
    ensures var g' := g.(outputs := g.outputs[id := f]);
            Linked(task, g') && Touched(g') == Touched(g)
  {
    var g' := g.(outputs := g.outputs[id := f]);
    forall j | 0 <= j < |g'.execs| ensures ExecLinked(task, g', j) {
      assert ExecLinked(task, g, j);
    }
    forall k | k in g'.outputs ensures OutputSource(g', k) {
      if k != id {
        assert OutputSource(g, k);
      }
    }
  }

  lemma AddSolutionLinked(task: Task, g: Graph, id: (int, int), rec: ExecRecord)
    requires Linked(task, g) && task.batch && id in g.inputs && id in g.validations && id !in g.outputs
    requires KindsOf(g, id, {GenerationKind, ValidationKind})
    requires rec.kind == SolutionKind && Key(rec) == id && task.officialSolution == Some(rec.source)
    requires Routed(task, rec, g.inputs[id], g.validations[id])
    ensures var g' := g.(execs := g.execs + [rec], outputs := g.outputs[id := OutputRef(task, |g.execs|)]);
            Linked(task, g') && Touched(g') == Touched(g)
  {
    var g' := g.(execs := g.execs + [rec], outputs := g.outputs[id := OutputRef(task, |g.execs|)]);
    SolutionExecsLinked(task, g, id, rec);
    SolutionSourcesLinked(task, g, id, rec);
    SolutionTouched(task, g, id, rec);
  }

  /** An official-solution execution of a testcase with an input touches no new testcase. */
  lemma SolutionTouched(task: Task, g: Graph, id: (int, int), rec: ExecRecord)
    requires id in g.inputs && Key(rec) == id
    ensures var g' := g.(execs := g.execs + [rec], outputs := g.outputs[id := OutputRef(task, |g.execs|)]);
            Touched(g') == Touched(g)
  {
    var g' := g.(execs := g.execs + [rec], outputs := g.outputs[id := OutputRef(task, |g.execs|)]);
    ExecKeysAppend(g.execs, rec);
    assert g'.outputs.Keys == g.outputs.Keys + {id};
  }

  lemma SolutionExecsLinked(task: Task, g: Graph, id: (int, int), rec: ExecRecord)
    requires Linked(task, g) && task.batch && id in g.inputs && id in g.validations && id !in g.outputs
    requires KindsOf(g, id, {GenerationKind, ValidationKind})
    requires rec.kind == SolutionKind && Key(rec) == id && task.officialSolution == Some(rec.source)
    requires Routed(task, rec, g.inputs[id], g.validations[id])
    ensures var g' := g.(execs := g.execs + [rec], outputs := g.outputs[id := OutputRef(task, |g.execs|)]);
            forall j :: 0 <= j < |g'.execs| ==> ExecLinked(task, g', j)
  {
    var g' := g.(execs := g.execs + [rec], outputs := g.outputs[id := OutputRef(task, |g.execs|)]);
    forall j | 0 <= j < |g'.execs| ensures ExecLinked(task, g', j) {
      if j < |g.execs| {
        assert g'.execs[j] == g.execs[j];
        assert ExecLinked(task, g, j);
      }
    }
  }

  lemma SolutionSourcesLinked(task: Task, g: Graph, id: (int, int), rec: ExecRecord)
    requires Linked(task, g) && id !in g.outputs
    requires rec.kind == SolutionKind && Key(rec) == id
    ensures var g' := g.(execs := g.execs + [rec], outputs := g.outputs[id := OutputRef(task, |g.execs|)]);
            && (forall k :: k in g'.inputs ==> InputSource(g', k))
            && (forall k :: k in g'.validations ==> ValidationSource(g', k))
            && (forall k :: k in g'.outputs ==> OutputSource(g', k))
  {
    var g' := g.(execs := g.execs + [rec], outputs := g.outputs[id := OutputRef(task, |g.execs|)]);
    forall k | k in g'.inputs ensures InputSource(g', k) {
      assert InputSource(g, k);
    }
    forall k | k in g'.validations ensures ValidationSource(g', k) {
      assert ValidationSource(g, k);
    }
    forall k | k in g'.outputs ensures OutputSource(g', k) {
      if k != id {
        assert OutputSource(g, k);
      }
    }
  }

  /** The input part of a testcase not yet in the graph keeps it linked, and
      gives the testcase no expected output and no official-solution execution. */
  lemma InputStepLinked(task: Task, fe: Frontend, s: DagState, st: int, tc: int, t: Testcase)
    requires Linked(task, GraphOf(s)) && (st, tc) !in Touched(GraphOf(s))
    ensures var g' := GraphOf(InputStep(task, fe, s, st, tc, t).state);
            Linked(task, g') && Touched(g') <= Touched(GraphOf(s)) + {(st, tc)}
            && (st, tc) !in g'.outputs && KindsOf(g', (st, tc), {GenerationKind, ValidationKind})
  {
    var s1 := if t.validator.Some? then AddNonSolution(s, t.validator.value) else s;
    assert GraphOf(s1) == GraphOf(s);
    NotTouchedNoExecs(GraphOf(s), (st, tc));
    if t.inputFile != "" {
      if t.inputFile !in fe.failures {
        StaticInputLinked(task, s1, st, tc, t);
      }
    } else if t.generator.Some? {
      GenerateInputLinked(task, fe, AddNonSolution(s1, t.generator.value), st, tc, t);
    }
  }

  lemma StaticInputLinked(task: Task, s1: DagState, st: int, tc: int, t: Testcase)
    requires Linked(task, GraphOf(s1)) && (st, tc) !in Touched(GraphOf(s1))
    ensures var g' := GraphOf(StoreStaticInput(s1, st, tc, t));
            Linked(task, g') && Touched(g') == Touched(GraphOf(s1)) + {(st, tc)}
            && (st, tc) !in g'.outputs && KindsOf(g', (st, tc), {GenerationKind, ValidationKind})
  {
    var id, g := (st, tc), GraphOf(s1);
    var f := Provided(t.inputFile, "Static input " + IntToString(tc));
    var s2 := SetInput(s1, id, f);
    assert GraphOf(s2) == g.(inputs := g.inputs[id := f]);
    SetProvidedInputLinked(task, g, id, f);
    if t.validator.Some? {
      ValidateLinked(task, s2, st, tc, t.validator.value);
    }
  }

  /** Validating a stored input keeps the graph linked and touches nothing new. */
  lemma ValidateLinked(task: Task, s: DagState, st: int, tc: int, validator: string)
    requires Linked(task, GraphOf(s)) && (st, tc) in s.inputs && (st, tc) !in s.validations && (st, tc) !in s.outputs
    requires KindsOf(GraphOf(s), (st, tc), {GenerationKind})
    ensures var g' := GraphOf(AddValidation(s, st, tc, validator));
            Linked(task, g') && Touched(g') == Touched(GraphOf(s))
            && (st, tc) !in g'.outputs && KindsOf(g', (st, tc), {GenerationKind, ValidationKind})
  {
    var g := GraphOf(s);
    var rec := ValidationRecord(st, tc, validator, s.inputs[(st, tc)]);
    assert GraphOf(AddValidation(s, st, tc, validator))
           == g.(execs := g.execs + [rec], validations := g.validations[(st, tc) := StdoutOf(|g.execs|)]);
    AddValidationLinked(task, g, (st, tc), rec);
  }

  lemma GenerateInputLinked(task: Task, fe: Frontend, s2: DagState, st: int, tc: int, t: Testcase)
    requires Linked(task, GraphOf(s2)) && (st, tc) !in Touched(GraphOf(s2)) && t.generator.Some?
    ensures var g' := GraphOf(GenerateInput(fe, s2, st, tc, t).state);
            Linked(task, g') && Touched(g') <= Touched(GraphOf(s2)) + {(st, tc)}
            && (st, tc) !in g'.outputs && KindsOf(g', (st, tc), {GenerationKind, ValidationKind})
  {
    var deps := ProvideDeps(fe, t.extraDeps);
    if deps.Some? {
      var k := |s2.execs|;
      var gen := ExecRecord("Generation of input " + IntToString(tc), GenerationKind, st, tc,
                            t.generator.value, Literal(t.generatorArgs), deps.value, None, []);
      var s3 := SetInput(s2.(execs := s2.execs + [gen], events := s2.events + [Generation(st, tc, k)]),
                         (st, tc), StdoutOf(k));
      GeneratedLinked(task, s2, s3, st, tc, gen);
      if t.validator.Some? {
        ValidateLinked(task, s3, st, tc, t.validator.value);
      }
    } else {
      NotTouchedNoExecs(GraphOf(s2), (st, tc));
    }
  }

  /** Registering the generation of a testcase not yet in the graph keeps it
      linked and stores the generation's output as the input. */
  lemma GeneratedLinked(task: Task, s2: DagState, s3: DagState, st: int, tc: int, gen: ExecRecord)
    requires Linked(task, GraphOf(s2)) && (st, tc) !in Touched(GraphOf(s2))
    requires gen.kind == GenerationKind && Key(gen) == (st, tc) && gen.stdin.None?
    requires s3 == SetInput(s2.(execs := s2.execs + [gen], events := s2.events + [Generation(st, tc, |s2.execs|)]),
                            (st, tc), StdoutOf(|s2.execs|))
    ensures var g' := GraphOf(s3);
            Linked(task, g') && Touched(g') == Touched(GraphOf(s2)) + {(st, tc)}
            && (st, tc) in s3.inputs && (st, tc) !in s3.validations && (st, tc) !in s3.outputs
            && KindsOf(g', (st, tc), {GenerationKind})
  {
    var g := GraphOf(s2);
    assert GraphOf(s3) == g.(execs := g.execs + [gen], inputs := g.inputs[(st, tc) := StdoutOf(|g.execs|)]);
    AddGenerationLinked(task, g, (st, tc), gen);
  }

  /** The expected-output part of a Batch testcase keeps the graph linked. */
  lemma OutputStepLinked(task: Task, fe: Frontend, s: DagState, st: int, tc: int, t: Testcase)
    requires Linked(task, GraphOf(s)) && task.batch
    requires (st, tc) in s.inputs && (st, tc) !in s.outputs
    requires KindsOf(GraphOf(s), (st, tc), {GenerationKind, ValidationKind})
    ensures var g' := GraphOf(OutputStep(task, fe, s, st, tc, t).state);
            Linked(task, g') && Touched(g') == Touched(GraphOf(s))
  {
    var id, g := (st, tc), GraphOf(s);
    if t.outputFile != "" {
      if t.outputFile !in fe.failures {
        SetProvidedOutputLinked(task, g, id, Provided(t.outputFile, "Static output " + IntToString(tc)));
      }
    } else if task.officialSolution.Some? {
      var sol := task.officialSolution.value;
      var s1 := AddNonSolution(s, sol);
      assert GraphOf(s1) == g;
      if id in s1.validations {
        var input := s1.inputs[id];
        var deps := map[WaitForValidation := s1.validations[id]];
        var deps' := if task.inputFile != "" then deps[task.inputFile := input] else deps;
        var stdin := if task.inputFile != "" then None else Some(input);
        var outs := if task.outputFile != "" then [task.outputFile] else [];
        var rec := ExecRecord("Generation of output " + IntToString(tc), SolutionKind, st, tc, sol,
                              Literal([]), deps', stdin, outs);
        assert Routed(task, rec, g.inputs[id], g.validations[id]);
        AddSolutionLinked(task, g, id, rec);
        assert GraphOf(OutputStep(task, fe, s, st, tc, t).state)
               == g.(execs := g.execs + [rec], outputs := g.outputs[id := OutputRef(task, |g.execs|)]);
      }
    }
  }

  /** One testcase not yet in the graph keeps it linked and touches only itself. */
  lemma CaseStepLinked(task: Task, fe: Frontend, s: DagState, st: int, tc: int, t: Testcase)
    requires Linked(task, GraphOf(s)) && (st, tc) !in Touched(GraphOf(s))
    ensures var g' := GraphOf(CaseStep(task, fe, s, st, tc, t).state);
            Linked(task, g') && Touched(g') <= Touched(GraphOf(s)) + {(st, tc)}
  {
    var id := (st, tc);
    InputStepLinked(task, fe, s, st, tc, t);
    var o := InputStep(task, fe, s, st, tc, t);
    if !o.raised && !(t.inputFile != "" && t.inputFile in fe.failures) && id in o.state.inputs {
      var s1 := WriteIf(o.state, fe, o.state.inputs[id], t.writeInputTo);
      assert GraphOf(s1) == GraphOf(o.state);
      if task.batch {
        BatchOutputLinked(task, fe, s1, st, tc, t);
      }
    }
  }

  /** The expected-output part of a Batch testcase, with its write, keeps
      the graph linked and touches nothing new. */
  lemma BatchOutputLinked(task: Task, fe: Frontend, s1: DagState, st: int, tc: int, t: Testcase)
    requires Linked(task, GraphOf(s1)) && task.batch
    requires (st, tc) in s1.inputs && (st, tc) !in s1.outputs
    requires KindsOf(GraphOf(s1), (st, tc), {GenerationKind, ValidationKind})
    ensures var o2 := OutputStep(task, fe, s1, st, tc, t);
            var s2 := if o2.raised || (st, tc) !in o2.state.outputs then o2.state
                      else WriteIf(o2.state, fe, o2.state.outputs[(st, tc)], t.writeOutputTo);
            Linked(task, GraphOf(s2)) && Touched(GraphOf(s2)) == Touched(GraphOf(s1))
  {
    OutputStepLinked(task, fe, s1, st, tc, t);
    var o2 := OutputStep(task, fe, s1, st, tc, t);
    if !o2.raised && (st, tc) in o2.state.outputs {
      assert GraphOf(WriteIf(o2.state, fe, o2.state.outputs[(st, tc)], t.writeOutputTo)) == GraphOf(o2.state);
    }
  }

  /** The testcases of one subtask. */
  function CaseIds(st: int, tcs: seq<(int, Testcase)>): set<(int, int)> {
    set k | 0 <= k < |tcs| :: (st, tcs[k].0)
  }

  /** The testcases of the task. */
  function TaskIds(sts: seq<(int, seq<(int, Testcase)>)>): set<(int, int)> {
    set i, k | 0 <= i < |sts| && 0 <= k < |sts[i].1| :: (sts[i].0, sts[i].1[k].0)
  }

  /** Subtask numbers, and testcase numbers within a subtask, are dictionary keys. */
  predicate WellKeyed(sts: seq<(int, seq<(int, Testcase)>)>) {
    (forall a, b :: 0 <= a < b < |sts| ==> sts[a].0 != sts[b].0)
    && (forall i, a, b :: 0 <= i < |sts| && 0 <= a < b < |sts[i].1| ==> sts[i].1[a].0 != sts[i].1[b].0)
  }

  lemma {:induction false} CasesStepLinked(task: Task, fe: Frontend, s: DagState, st: int, tcs: seq<(int, Testcase)>)
    requires Linked(task, GraphOf(s)) && CaseIds(st, tcs) !! Touched(GraphOf(s))
    requires forall a, b :: 0 <= a < b < |tcs| ==> tcs[a].0 != tcs[b].0
    ensures var g' := GraphOf(CasesStep(task, fe, s, st, tcs).state);
            Linked(task, g') && Touched(g') <= Touched(GraphOf(s)) + CaseIds(st, tcs)
    decreases |tcs|
  {
    if tcs != [] {
      var init, last := tcs[..|tcs| - 1], tcs[|tcs| - 1];
      assert CaseIds(st, tcs) == CaseIds(st, init) + {(st, last.0)} by {
        assert forall k :: 0 <= k < |init| ==> init[k] == tcs[k];
        assert tcs[|tcs| - 1] == last;
      }
      CasesStepLinked(task, fe, s, st, init);
      var o := CasesStep(task, fe, s, st, init);
      if !o.raised {
        assert (st, last.0) !in CaseIds(st, init) by {
          assert forall k :: 0 <= k < |init| ==> init[k].0 != last.0;
        }
        CaseStepLinked(task, fe, o.state, st, last.0, last.1);
      }
    }
  }

  lemma {:induction false} SubtasksStepLinked(task: Task, fe: Frontend, s: DagState,
                                              sts: seq<(int, seq<(int, Testcase)>)>)
    requires Linked(task, GraphOf(s)) && TaskIds(sts) !! Touched(GraphOf(s)) && WellKeyed(sts)
    ensures var g' := GraphOf(SubtasksStep(task, fe, s, sts).state);
            Linked(task, g') && Touched(g') <= Touched(GraphOf(s)) + TaskIds(sts)
    decreases |sts|
  {
    if sts != [] {
      var init, last := sts[..|sts| - 1], sts[|sts| - 1];
      assert TaskIds(sts) == TaskIds(init) + CaseIds(last.0, last.1) by {
        assert forall i :: 0 <= i < |init| ==> init[i] == sts[i];
        assert sts[|sts| - 1] == last;
      }
      assert WellKeyed(init) by {
        assert forall i :: 0 <= i < |init| ==> init[i] == sts[i];
      }
      SubtasksStepLinked(task, fe, s, init);
      var o := SubtasksStep(task, fe, s, init);
      if !o.raised {
        assert TaskIds(init) !! CaseIds(last.0, last.1) by {
          forall i, k | 0 <= i < |init| && 0 <= k < |init[i].1| ensures (init[i].0, init[i].1[k].0) !in CaseIds(last.0, last.1) {
            assert init[i] == sts[i];
          }
        }
        CasesStepLinked(task, fe, o.state, last.0, last.1);
      }
    }
  }

  /** The graph generate_inputs builds is linked (so each testcase has at most
      one generation, one validation and one official-solution execution, each
      the one its dictionary entry names), and it mentions only the task's
      testcases. */
  lemma GenerateInputsLinked(task: Task, fe: Frontend)
    requires WellKeyed(task.subtasks)
    ensures var g := GraphOf(GenerateInputsSpec(task, fe).state);
            Linked(task, g) && Touched(g) <= TaskIds(task.subtasks)
  {
    assert Touched(GraphOf(Empty)) == {} by {
      assert ExecKeys([]) == {};
    }
    SubtasksStepLinked(task, fe, Empty, task.subtasks);
    var o := SubtasksStep(task, fe, Empty, task.subtasks);
    if !o.raised && task.checker.Some? {
      assert GraphOf(AddNonSolution(o.state, task.checker.value)) == GraphOf(o.state);
    }
  }

  // ---------------------------------------------------------------------------
  // Preparing sources once

  /** Every non-solution source is prepared and registered at most once, and
      every source marked prepared was registered. */
  predicate PreparedOnce(s: DagState) {
    (forall a, b :: 0 <= a < b < |s.events| && s.events[a].Prepare? && s.events[b].Prepare? ==>
       s.events[a].source != s.events[b].source)
    && (forall a, b :: 0 <= a < b < |s.events| && s.events[a].NonSolution? && s.events[b].NonSolution? ==>
          s.events[a].source != s.events[b].source)
    && (forall a :: 0 <= a < |s.events| && (s.events[a].Prepare? || s.events[a].NonSolution?) ==>
          s.events[a].source in s.prepared)
    && (forall x :: x in s.prepared ==> NonSolution(x) in s.events)
  }

  predicate Bookkept(s: DagState) {
    PreparedOnce(s) && OrderMatches(s)
  }

  /** None of the events prepares or registers a source. */
  predicate NoRegistration(es: seq<Event>) {
    forall k :: 0 <= k < |es| ==> !es[k].Prepare? && !es[k].NonSolution?
  }

  lemma AddNonSolutionOnce(s: DagState, source: string)
    requires Bookkept(s)
    ensures Bookkept(AddNonSolution(s, source))
  {
    var r := AddNonSolution(s, source);
    if source !in s.prepared {
      var n := |s.events|;
      assert r.events[n] == Prepare(source) && r.events[n + 1] == NonSolution(source);
      forall a | 0 <= a < n && (s.events[a].Prepare? || s.events[a].NonSolution?)
        ensures s.events[a].source != source {
      }
    }
  }

  lemma AppendOnce(s: DagState, s': DagState, es: seq<Event>)
    requires Bookkept(s) && NoRegistration(es)
    requires s'.events == s.events + es && s'.prepared == s.prepared
    requires s'.inputs == s.inputs && s'.inputOrder == s.inputOrder
    ensures Bookkept(s')
  {
    forall x | x in s'.prepared ensures NonSolution(x) in s'.events {
      assert NonSolution(x) in s.events;
    }
  }

  lemma SetInputOnce(s: DagState, id: (int, int), f: FileRef)
    requires Bookkept(s)
    ensures Bookkept(SetInput(s, id, f))
  {
  }

  lemma InputStepOnce(task: Task, fe: Frontend, s: DagState, st: int, tc: int, t: Testcase)
    requires Bookkept(s)
    ensures Bookkept(InputStep(task, fe, s, st, tc, t).state)
  {
    var s1 := if t.validator.Some? then AddNonSolution(s, t.validator.value) else s;
    if t.validator.Some? {
      AddNonSolutionOnce(s, t.validator.value);
    }
    if t.inputFile != "" {
      if t.inputFile in fe.failures {
        AppendOnce(s1, s1.(events := s1.events + [Error(fe.failures[t.inputFile]), Failure(st, tc)]),
                   [Error(fe.failures[t.inputFile]), Failure(st, tc)]);
      } else {
        StaticInputOnce(s1, st, tc, t);
      }
    } else if t.generator.Some? {
      AddNonSolutionOnce(s1, t.generator.value);
      GenerateInputOnce(fe, AddNonSolution(s1, t.generator.value), st, tc, t);
    }
  }

  lemma StaticInputOnce(s1: DagState, st: int, tc: int, t: Testcase)
    requires Bookkept(s1)
    ensures Bookkept(StoreStaticInput(s1, st, tc, t))
  {
    var s2 := SetInput(s1, (st, tc), Provided(t.inputFile, "Static input " + IntToString(tc)));
    SetInputOnce(s1, (st, tc), Provided(t.inputFile, "Static input " + IntToString(tc)));
    if t.validator.Some? {
      AppendOnce(s2, AddValidation(s2, st, tc, t.validator.value), [Validation(st, tc, |s2.execs|)]);
    }
  }

  lemma GenerateInputOnce(fe: Frontend, s2: DagState, st: int, tc: int, t: Testcase)
    requires Bookkept(s2) && t.generator.Some?
    ensures Bookkept(GenerateInput(fe, s2, st, tc, t).state)
  {
    var deps := ProvideDeps(fe, t.extraDeps);
    if deps.Some? {
      var k := |s2.execs|;
      var gen := ExecRecord("Generation of input " + IntToString(tc), GenerationKind, st, tc,
                            t.generator.value, Literal(t.generatorArgs), deps.value, None, []);
      var s2' := s2.(execs := s2.execs + [gen], events := s2.events + [Generation(st, tc, k)]);
      AppendOnce(s2, s2', [Generation(st, tc, k)]);
      var s3 := SetInput(s2', (st, tc), StdoutOf(k));
      SetInputOnce(s2', (st, tc), StdoutOf(k));
      if t.validator.Some? {
        AppendOnce(s3, AddValidation(s3, st, tc, t.validator.value), [Validation(st, tc, |s3.execs|)]);
      }
    }
  }

  lemma OutputStepOnce(task: Task, fe: Frontend, s: DagState, st: int, tc: int, t: Testcase)
    requires Bookkept(s) && (st, tc) in s.inputs
    ensures Bookkept(OutputStep(task, fe, s, st, tc, t).state)
  {
    var id := (st, tc);
    if t.outputFile == "" && task.officialSolution.Some? {
      var s1 := AddNonSolution(s, task.officialSolution.value);
      AddNonSolutionOnce(s, task.officialSolution.value);
      if id in s1.validations {
        var o := OutputStep(task, fe, s, st, tc, t);
        AppendOnce(s1, o.state, [Solving(st, tc, |s1.execs|)]);
      }
    }
  }

  lemma WriteIfOnce(s: DagState, fe: Frontend, f: FileRef, path: string)
    requires Bookkept(s)
    ensures Bookkept(WriteIf(s, fe, f, path))
  {
    if path != "" && !fe.dryRun {
      AppendOnce(s, WriteIf(s, fe, f, path), [WriteFile(f, path)]);
    }
  }

  lemma CaseStepOnce(task: Task, fe: Frontend, s: DagState, st: int, tc: int, t: Testcase)
    requires Bookkept(s)
    ensures Bookkept(CaseStep(task, fe, s, st, tc, t).state)
  {
    var id := (st, tc);
    InputStepOnce(task, fe, s, st, tc, t);
    var o := InputStep(task, fe, s, st, tc, t);
    if !o.raised && !(t.inputFile != "" && t.inputFile in fe.failures) && id in o.state.inputs {
      var s1 := WriteIf(o.state, fe, o.state.inputs[id], t.writeInputTo);
      WriteIfOnce(o.state, fe, o.state.inputs[id], t.writeInputTo);
      if task.batch {
        OutputStepOnce(task, fe, s1, st, tc, t);
        var o2 := OutputStep(task, fe, s1, st, tc, t);
        if !o2.raised && id in o2.state.outputs {
          WriteIfOnce(o2.state, fe, o2.state.outputs[id], t.writeOutputTo);
        }
      }
    }
  }

  lemma {:induction false} CasesStepOnce(task: Task, fe: Frontend, s: DagState, st: int, tcs: seq<(int, Testcase)>)
    requires Bookkept(s)
    ensures Bookkept(CasesStep(task, fe, s, st, tcs).state)
    decreases |tcs|
  {
    if tcs != [] {
      CasesStepOnce(task, fe, s, st, tcs[..|tcs| - 1]);
      var o := CasesStep(task, fe, s, st, tcs[..|tcs| - 1]);
      if !o.raised {
        CaseStepOnce(task, fe, o.state, st, tcs[|tcs| - 1].0, tcs[|tcs| - 1].1);
      }
    }
  }

  lemma {:induction false} SubtasksStepOnce(task: Task, fe: Frontend, s: DagState,
                                            sts: seq<(int, seq<(int, Testcase)>)>)
    requires Bookkept(s)
    ensures Bookkept(SubtasksStep(task, fe, s, sts).state)
    decreases |sts|
  {
    if sts != [] {
      SubtasksStepOnce(task, fe, s, sts[..|sts| - 1]);
      var o := SubtasksStep(task, fe, s, sts[..|sts| - 1]);
      if !o.raised {
        CasesStepOnce(task, fe, o.state, sts[|sts| - 1].0, sts[|sts| - 1].1);
      }
    }
  }

  /** However many testcases use it, generate_inputs prepares and registers
      each non-solution source at most once; and the order in which inputs
      were added lists each of them once. */
  lemma GenerateInputsOnce(task: Task, fe: Frontend)
    ensures Bookkept(GenerateInputsSpec(task, fe).state)
  {
    SubtasksStepOnce(task, fe, Empty, task.subtasks);
    var o := SubtasksStep(task, fe, Empty, task.subtasks);
    if !o.raised && task.checker.Some? {
      AddNonSolutionOnce(o.state, task.checker.value);
    }
  }

  // ---------------------------------------------------------------------------
  // The specification of evaluate_solutions

  function Get(m: map<(int, int), FileRef>, id: (int, int)): (r: Option<FileRef>)
    ensures r.Some? <==> id in m
    ensures r.Some? ==> r.value == m[id]
  {
    if id in m then Some(m[id]) else None
  }

  /** What evaluating one solution on one testcase asks for. */
  function EvaluationBlock(s: DagState, sol: string, id: (int, int)): seq<Event>
    requires id in s.inputs
  {
    [Evaluate(sol, id.0, id.1, s.inputs[id], Get(s.validations, id), Get(s.outputs, id)),
     EvaluateSolution(id.0, id.1, sol),
     EvaluateChecking(id.0, id.1, sol)]
  }

  function TestcaseEvents(s: DagState, sol: string, ids: seq<(int, int)>): seq<Event>
    requires forall k :: 0 <= k < |ids| ==> ids[k] in s.inputs
    decreases |ids|
  {
    if ids == [] then []
    else TestcaseEvents(s, sol, ids[..|ids| - 1]) + EvaluationBlock(s, sol, ids[|ids| - 1])
  }

  lemma TestcaseEventsNext(s: DagState, sol: string, ids: seq<(int, int)>, j: int)
    requires forall k :: 0 <= k < |ids| ==> ids[k] in s.inputs
    requires 0 <= j < |ids|
    ensures TestcaseEvents(s, sol, ids[..j + 1]) == TestcaseEvents(s, sol, ids[..j]) + EvaluationBlock(s, sol, ids[j])
  {
    PrefixOfPrefix(ids, j);
  }

  /** evaluate_solutions: every solution, in order, on every testcase with an input. */
  function SolutionEvents(s: DagState, sols: seq<string>): seq<Event>
    requires forall k :: 0 <= k < |s.inputOrder| ==> s.inputOrder[k] in s.inputs
    decreases |sols|
  {
    if sols == [] then []
    else
      var sol := sols[|sols| - 1];
      SolutionEvents(s, sols[..|sols| - 1]) + [Prepare(sol), Solution(sol)] + TestcaseEvents(s, sol, s.inputOrder)
  }

  lemma SolutionEventsNext(s: DagState, sols: seq<string>, i: int)
    requires forall k :: 0 <= k < |s.inputOrder| ==> s.inputOrder[k] in s.inputs
    requires 0 <= i < |sols|
    ensures SolutionEvents(s, sols[..i + 1])
            == SolutionEvents(s, sols[..i]) + [Prepare(sols[i]), Solution(sols[i])] + TestcaseEvents(s, sols[i], s.inputOrder)
  {
    PrefixOfPrefix(sols, i);
  }

  /** The evaluations depend only on the dictionaries, not on what was asked before. */
  lemma {:induction false} TestcaseEventsMapsOnly(s: DagState, s': DagState, sol: string, ids: seq<(int, int)>)
    requires s.inputs == s'.inputs && s.validations == s'.validations && s.outputs == s'.outputs
    requires forall k :: 0 <= k < |ids| ==> ids[k] in s.inputs
    ensures TestcaseEvents(s, sol, ids) == TestcaseEvents(s', sol, ids)
    decreases |ids|
  {
    if ids != [] {
      TestcaseEventsMapsOnly(s, s', sol, ids[..|ids| - 1]);
    }
  }

  /** Everything but the asked-for events is the same. */
  predicate Unchanged(s: DagState, s': DagState) {
    s'.execs == s.execs && s'.inputs == s.inputs && s'.inputOrder == s.inputOrder
    && s'.outputs == s.outputs && s'.validations == s.validations && s'.prepared == s.prepared
  }

  /** The insertion order of the inputs lists each of their keys once. */
  predicate OrderMatches(s: DagState) {
    (forall k :: 0 <= k < |s.inputOrder| ==> s.inputOrder[k] in s.inputs)
    && (forall id :: id in s.inputs ==> id in s.inputOrder)
    && (forall a, b :: 0 <= a < b < |s.inputOrder| ==> s.inputOrder[a] != s.inputOrder[b])
  }

  /** The three requests of one evaluation, by position: the evaluate call,
      the registered evaluation and the registered checking. */
  function BlockEvent(s: DagState, sol: string, id: (int, int), which: nat): (e: Event)
    requires id in s.inputs && which < 3
    ensures e.Evaluate? || e.EvaluateSolution? || e.EvaluateChecking?
  {
    EvaluationBlock(s, sol, id)[which]
  }

  lemma BlockMultiplicity(s: DagState, sol: string, a: (int, int), sol': string, b: (int, int), which: nat)
    requires a in s.inputs && b in s.inputs && which < 3
    ensures multiset(EvaluationBlock(s, sol', b))[BlockEvent(s, sol, a, which)]
            == (if sol == sol' && a == b then 1 else 0)
  {
    var blk := EvaluationBlock(s, sol', b);
    assert multiset(blk) == multiset{blk[0]} + multiset{blk[1]} + multiset{blk[2]} by {
      assert blk == [blk[0]] + [blk[1]] + [blk[2]];
    }
  }

  /** One solution is evaluated, and its evaluation and checking registered,
      once per occurrence of the testcase in the list. */
  lemma {:induction false} TestcaseEventsCount(s: DagState, sol: string, ids: seq<(int, int)>,
                                               sol': string, id: (int, int), which: nat)
    requires forall k :: 0 <= k < |ids| ==> ids[k] in s.inputs
    requires id in s.inputs && which < 3
    ensures multiset(TestcaseEvents(s, sol, ids))[BlockEvent(s, sol', id, which)]
            == (if sol == sol' then multiset(ids)[id] else 0)
    decreases |ids|
  {
    if ids != [] {
      var init, last := ids[..|ids| - 1], ids[|ids| - 1];
      TestcaseEventsCount(s, sol, init, sol', id, which);
      BlockMultiplicity(s, sol', id, sol, last, which);
      TestcaseEventsSplit(s, sol, ids, BlockEvent(s, sol', id, which));
      MultisetLast(ids, id);
    }
  }

  lemma TestcaseEventsSplit(s: DagState, sol: string, ids: seq<(int, int)>, e: Event)
    requires forall k :: 0 <= k < |ids| ==> ids[k] in s.inputs
    requires ids != []
    ensures multiset(TestcaseEvents(s, sol, ids))[e]
            == multiset(TestcaseEvents(s, sol, ids[..|ids| - 1]))[e] + multiset(EvaluationBlock(s, sol, ids[|ids| - 1]))[e]
  {
  }

  lemma SolutionEventsSplit(s: DagState, sols: seq<string>, e: Event)
    requires forall k :: 0 <= k < |s.inputOrder| ==> s.inputOrder[k] in s.inputs
    requires sols != [] && (e.Evaluate? || e.EvaluateSolution? || e.EvaluateChecking?)
    ensures multiset(SolutionEvents(s, sols))[e]
            == multiset(SolutionEvents(s, sols[..|sols| - 1]))[e]
               + multiset(TestcaseEvents(s, sols[|sols| - 1], s.inputOrder))[e]
  {
    var last := sols[|sols| - 1];
    assert multiset([Prepare(last), Solution(last)])[e] == 0 by {
      assert multiset([Prepare(last), Solution(last)]) == multiset{Prepare(last), Solution(last)};
    }
  }

  lemma MultisetLast<T>(xs: seq<T>, x: T)
    requires xs != []
    ensures multiset(xs)[x] == multiset(xs[..|xs| - 1])[x] + (if x == xs[|xs| - 1] then 1 else 0)
  {
    assert xs == xs[..|xs| - 1] + [xs[|xs| - 1]];
  }

  /** A sequence without repetitions holds each of its elements once. */
  lemma {:induction false} DistinctOnce<T>(xs: seq<T>, x: T)
    requires forall a, b :: 0 <= a < b < |xs| ==> xs[a] != xs[b]
    ensures multiset(xs)[x] == (if x in xs then 1 else 0)
    decreases |xs|
  {
    if xs != [] {
      var init, last := xs[..|xs| - 1], xs[|xs| - 1];
      InitLast(xs);
      DistinctOnce(init, x);
      assert x == last ==> x !in init;
    }
  }

  /** evaluate_solutions evaluates every solution exactly once on each testcase
      with an input (as often as the solution is listed): the evaluate call, the
      registered evaluation and the registered checking. */
  lemma {:induction false} SolutionEventsCount(s: DagState, sols: seq<string>, sol: string,
                                               id: (int, int), which: nat)
    requires OrderMatches(s)
    requires id in s.inputs && which < 3
    ensures multiset(SolutionEvents(s, sols))[BlockEvent(s, sol, id, which)] == multiset(sols)[sol]
    decreases |sols|
  {
    if sols != [] {
      var init, last := sols[..|sols| - 1], sols[|sols| - 1];
      SolutionEventsCount(s, init, sol, id, which);
      TestcaseEventsCount(s, last, s.inputOrder, sol, id, which);
      DistinctOnce(s.inputOrder, id);
      var e := BlockEvent(s, sol, id, which);
      SolutionEventsSplit(s, sols, e);
      MultisetLast(sols, sol);
    }
  }

  /** A testcase without an input is neither evaluated nor checked. */
  lemma {:induction false} SolutionEventsNotIn(s: DagState, sols: seq<string>, sol: string, id: (int, int))
    requires OrderMatches(s)
    requires id !in s.inputs
    ensures EvaluateSolution(id.0, id.1, sol) !in SolutionEvents(s, sols)
    ensures EvaluateChecking(id.0, id.1, sol) !in SolutionEvents(s, sols)
    decreases |sols|
  {
    if sols != [] {
      SolutionEventsNotIn(s, sols[..|sols| - 1], sol, id);
      TestcaseEventsNotIn(s, sols[|sols| - 1], s.inputOrder, id);
    }
  }

  /** No testcase outside the inputs is evaluated or checked. */
  lemma {:induction false} TestcaseEventsNotIn(s: DagState, sol: string, ids: seq<(int, int)>, id: (int, int))
    requires forall k :: 0 <= k < |ids| ==> ids[k] in s.inputs
    requires id !in s.inputs
    ensures forall sol' :: EvaluateSolution(id.0, id.1, sol') !in TestcaseEvents(s, sol, ids)
    ensures forall sol' :: EvaluateChecking(id.0, id.1, sol') !in TestcaseEvents(s, sol, ids)
    decreases |ids|
  {
    if ids != [] {
      TestcaseEventsNotIn(s, sol, ids[..|ids| - 1], id);
    }
  }

  /** Every evaluation receives the testcase's input, and its validation and
      expected output where they exist (None where they do not). */
  lemma {:induction false} SolutionEventsFiles(s: DagState, sols: seq<string>)
    requires OrderMatches(s)
    ensures forall e :: e in SolutionEvents(s, sols) && e.Evaluate? ==>
              var id := (e.subtask, e.testcase);
              id in s.inputs && e.input == s.inputs[id]
              && e.validation == Get(s.validations, id) && e.output == Get(s.outputs, id)
    decreases |sols|
  {
    if sols != [] {
      SolutionEventsFiles(s, sols[..|sols| - 1]);
      TestcaseEventsFiles(s, sols[|sols| - 1], s.inputOrder);
    }
  }

  lemma {:induction false} TestcaseEventsFiles(s: DagState, sol: string, ids: seq<(int, int)>)
    requires forall k :: 0 <= k < |ids| ==> ids[k] in s.inputs
    ensures forall e :: e in TestcaseEvents(s, sol, ids) && e.Evaluate? ==>
              var id := (e.subtask, e.testcase);
              id in s.inputs && e.input == s.inputs[id]
              && e.validation == Get(s.validations, id) && e.output == Get(s.outputs, id)
    decreases |ids|
  {
    if ids != [] {
      TestcaseEventsFiles(s, sol, ids[..|ids| - 1]);
    }
  }

  // ---------------------------------------------------------------------------
  // The imperative construction

  /** The dictionaries of generate_inputs and the calls it makes, filled in
      place one testcase at a time. */
  class DagBuilder {
    var execs: seq<ExecRecord>
    var inputs: map<(int, int), FileRef>
    var inputOrder: seq<(int, int)>
    var outputs: map<(int, int), FileRef>
    var validations: map<(int, int), FileRef>
    var prepared: set<string>
    var events: seq<Event>

    function State(): DagState
      reads this
    {
      DagState(execs, inputs, inputOrder, outputs, validations, prepared, events)
    }

    constructor ()
      ensures State() == Empty
    {
      execs, inputs, inputOrder, outputs, validations, prepared, events := [], map[], [], map[], map[], {}, [];
    }

    method RegisterNonSolution(source: string)
      modifies this
      ensures State() == AddNonSolution(old(State()), source)
    {
      if source !in prepared {
        prepared := prepared + {source};
        events := events + [Prepare(source), NonSolution(source)];
      }
    }

    method StoreInput(id: (int, int), f: FileRef)
      modifies this
      ensures State() == SetInput(old(State()), id, f)
    {
      if id !in inputs {
        inputOrder := inputOrder + [id];
      }
      inputs := inputs[id := f];
    }

    method AddValidationExec(st: int, tc: int, validator: string)
      requires (st, tc) in inputs
      modifies this
      ensures State() == AddValidation(old(State()), st, tc, validator)
    {
      var k := |execs|;
      execs := execs + [ValidationRecord(st, tc, validator, inputs[(st, tc)])];
      validations := validations[(st, tc) := StdoutOf(k)];
      events := events + [Validation(st, tc, k)];
    }

    method WriteFileIf(fe: Frontend, f: FileRef, path: string)
      modifies this
      ensures State() == WriteIf(old(State()), fe, f, path)
    {
      if path != "" && !fe.dryRun {
        events := events + [WriteFile(f, path)];
      }
    }

    /** The input part of one testcase; `raised` where the source raises. */
    method AddInput(task: Task, fe: Frontend, st: int, tc: int, t: Testcase) returns (raised: bool)
      modifies this
      ensures Outcome(State(), raised) == InputStep(task, fe, old(State()), st, tc, t)
    {
      var id := (st, tc);
      if t.validator.Some? {
        RegisterNonSolution(t.validator.value);
      }
      if t.inputFile != "" {
        if t.inputFile in fe.failures {
          events := events + [Error(fe.failures[t.inputFile]), Failure(st, tc)];
          return false;
        }
        StoreInput(id, Provided(t.inputFile, "Static input " + IntToString(tc)));
        if t.validator.Some? {
          AddValidationExec(st, tc, t.validator.value);
        }
        return false;
      }
      if t.generator.None? {
        return true;
      }
      RegisterNonSolution(t.generator.value);
      var deps := ProvideDeps(fe, t.extraDeps);
      if deps.None? {
        return true;
      }
      var k := |execs|;
      execs := execs + [ExecRecord("Generation of input " + IntToString(tc), GenerationKind, st, tc,
                                   t.generator.value, Literal(t.generatorArgs), deps.value, None, [])];
      events := events + [Generation(st, tc, k)];
      StoreInput(id, StdoutOf(k));
      if t.validator.None? {
        return true;
      }
      AddValidationExec(st, tc, t.validator.value);
      raised := false;
    }

    /** The expected-output part of one testcase of a Batch task. */
    method AddOutput(task: Task, fe: Frontend, st: int, tc: int, t: Testcase) returns (raised: bool)
      requires (st, tc) in inputs
      modifies this
      ensures Outcome(State(), raised) == OutputStep(task, fe, old(State()), st, tc, t)
    {
      var id := (st, tc);
      if t.outputFile != "" {
        if t.outputFile in fe.failures {
          return true;
        }
        outputs := outputs[id := Provided(t.outputFile, "Static output " + IntToString(tc))];
        return false;
      }
      if task.officialSolution.None? {
        return true;
      }
      var sol := task.officialSolution.value;
      RegisterNonSolution(sol);
      ghost var s1 := State();
      if id !in validations {
        return true;
      }
      var deps := map[WaitForValidation := validations[id]];
      var stdin: Option<FileRef> := Some(inputs[id]);
      if task.inputFile != "" {
        deps := deps[task.inputFile := inputs[id]];
        stdin := None;
      }
      var outs: seq<string> := if task.outputFile != "" then [task.outputFile] else [];
      var k := |execs|;
      execs := execs + [ExecRecord("Generation of output " + IntToString(tc), SolutionKind, st, tc, sol,
                                   Literal([]), deps, stdin, outs)];
      if task.outputFile != "" {
        outputs := outputs[id := OutputOf(k, task.outputFile)];
      } else {
        outputs := outputs[id := StdoutOf(k)];
      }
      events := events + [Solving(st, tc, k)];
      raised := false;
      assert execs == s1.execs + [ExecRecord("Generation of output " + IntToString(tc), SolutionKind, st, tc, sol,
                                             Literal([]), deps, stdin, outs)];
    }

    /** One testcase of generate_inputs. */
    method AddTestcase(task: Task, fe: Frontend, st: int, tc: int, t: Testcase) returns (raised: bool)
      modifies this
      ensures Outcome(State(), raised) == CaseStep(task, fe, old(State()), st, tc, t)
    {
      var id := (st, tc);
      raised := AddInput(task, fe, st, tc, t);
      if raised || (t.inputFile != "" && t.inputFile in fe.failures) {
        return;
      }
      if id !in inputs {
        return true;
      }
      WriteFileIf(fe, inputs[id], t.writeInputTo);
      if !task.batch {
        return false;
      }
      raised := AddOutput(task, fe, st, tc, t);
      if raised || id !in outputs {
        return;
      }
      WriteFileIf(fe, outputs[id], t.writeOutputTo);
    }

    /** One solution of evaluate_solutions: prepared, registered, and evaluated on every input. */
    method EvaluateOne(sol: string)
      requires OrderMatches(State())
      modifies this
      ensures Unchanged(old(State()), State())
      ensures events == old(events) + [Prepare(sol), Solution(sol)] + TestcaseEvents(old(State()), sol, old(State()).inputOrder)
    {
      ghost var s0 := State();
      events := events + [Prepare(sol), Solution(sol)];
      ghost var mid := events;
      var j := 0;
      while j < |inputOrder|
        invariant 0 <= j <= |inputOrder|
        invariant Unchanged(s0, State())
        invariant events == mid + TestcaseEvents(s0, sol, inputOrder[..j])
      {
        var id := inputOrder[j];
        TestcaseEventsNext(s0, sol, inputOrder, j);
        ConcatAssoc(mid, TestcaseEvents(s0, sol, inputOrder[..j]), EvaluationBlock(s0, sol, id));
        events := events + [Evaluate(sol, id.0, id.1, inputs[id], Get(validations, id), Get(outputs, id)),
                            EvaluateSolution(id.0, id.1, sol),
                            EvaluateChecking(id.0, id.1, sol)];
        j := j + 1;
      }
      PrefixSuffix(inputOrder, 0);
    }

    /** evaluate_solutions over the dictionaries built so far. */
    method EvaluateSolutions(sols: seq<string>)
      requires OrderMatches(State())
      modifies this
      ensures Unchanged(old(State()), State())
      ensures events == old(events) + SolutionEvents(old(State()), sols)
    {
      ghost var s0 := State();
      var i := 0;
      while i < |sols|
        invariant 0 <= i <= |sols|
        invariant Unchanged(s0, State())
        invariant events == s0.events + SolutionEvents(s0, sols[..i])
      {
        ghost var before := State();
        EvaluateOne(sols[i]);
        TestcaseEventsMapsOnly(before, s0, sols[i], inputOrder);
        SolutionEventsNext(s0, sols, i);
        ghost var head := [Prepare(sols[i]), Solution(sols[i])];
        ghost var tail := TestcaseEvents(s0, sols[i], s0.inputOrder);
        ConcatAssoc(s0.events + SolutionEvents(s0, sols[..i]), head, tail);
        ConcatAssoc(s0.events, SolutionEvents(s0, sols[..i]), head + tail);
        ConcatAssoc(SolutionEvents(s0, sols[..i]), head, tail);
        i := i + 1;
      }
      PrefixSuffix(sols, 0);
    }

    /** generate_inputs: the loop over the subtasks, each one's testcases
        in turn, then the checker. */
    method GenerateInputs(task: Task, fe: Frontend) returns (raised: bool)
      requires State() == Empty
      modifies this
      ensures Outcome(State(), raised) == GenerateInputsSpec(task, fe)
    {
      var i := 0;
      raised := false;
      while i < |task.subtasks|
        invariant 0 <= i <= |task.subtasks| && !raised
        invariant Outcome(State(), raised) == SubtasksStep(task, fe, Empty, task.subtasks[..i])
      {
        PrefixOfPrefix(task.subtasks, i);
        raised := GenerateSubtask(task, fe, task.subtasks[i].0, task.subtasks[i].1);
        if raised {
          SubtasksStepStops(task, fe, Empty, task.subtasks, i + 1);
          return;
        }
        i := i + 1;
      }
      PrefixSuffix(task.subtasks, 0);
      if task.checker.Some? {
        RegisterNonSolution(task.checker.value);
      }
    }

    /** The inner loop of generate_inputs: the testcases of one subtask,
        stopping at the first that raises. */
    method GenerateSubtask(task: Task, fe: Frontend, st: int, tcs: seq<(int, Testcase)>) returns (raised: bool)
      modifies this
      ensures Outcome(State(), raised) == CasesStep(task, fe, old(State()), st, tcs)
    {
      ghost var before := State();
      raised := false;
      var j := 0;
      while j < |tcs|
        invariant 0 <= j <= |tcs| && !raised
        invariant Outcome(State(), raised) == CasesStep(task, fe, before, st, tcs[..j])
      {
        PrefixOfPrefix(tcs, j);
        raised := AddTestcase(task, fe, st, tcs[j].0, tcs[j].1);
        if raised {
          CasesStepStops(task, fe, before, st, tcs, j + 1);
          return;
        }
        j := j + 1;
      }
      PrefixSuffix(tcs, 0);
    }
  }

  lemma {:induction false} CasesStepStops(task: Task, fe: Frontend, s: DagState, st: int,
                                          tcs: seq<(int, Testcase)>, n: nat)
    requires n <= |tcs| && CasesStep(task, fe, s, st, tcs[..n]).raised
    ensures CasesStep(task, fe, s, st, tcs) == CasesStep(task, fe, s, st, tcs[..n])
    decreases |tcs| - n
  {
    if n < |tcs| {
      PrefixOfPrefix(tcs, n);
      CasesStepStops(task, fe, s, st, tcs, n + 1);
    } else {
      PrefixSuffix(tcs, 0);
    }
  }

  lemma {:induction false} SubtasksStepStops(task: Task, fe: Frontend, s: DagState,
                                             sts: seq<(int, seq<(int, Testcase)>)>, n: nat)
    requires n <= |sts| && SubtasksStep(task, fe, s, sts[..n]).raised
    ensures SubtasksStep(task, fe, s, sts) == SubtasksStep(task, fe, s, sts[..n])
    decreases |sts| - n
  {
    if n < |sts| {
      PrefixOfPrefix(sts, n);
      SubtasksStepStops(task, fe, s, sts, n + 1);
    } else {
      PrefixSuffix(sts, 0);
    }
  }
}

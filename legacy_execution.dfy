/** One execution of the first C++ core (core/execution.cpp): its files,
    the request it sends to the local executor, and how it reads the files
    the executor produced. The file store is the set of hashes already
    stored; the executor is the response it gives, or the exception it
    throws. */
module LegacyExecution {
  import opened Common
  import opened Proto
  import SortedMap

  /** A file of an execution: its id, its description and its hash once
      known. */
  datatype FileId = FileId(id: int, description: string, hash: Option<Sha>)

  /** How Run ends: it returns whether the run succeeded, or raises. */
  datatype RunResult = Returned(ok: bool) | Raised(ex: Thrown)

  // ---------------------------------------------------------------------------
  // Building the request

  /** One input of the request; a file with no name is the standard input. */
  function PrepareInput(id: int, name: string, getHash: int -> Sha): (r: FileInfo)
    ensures r.ftype == Stdin <==> name == ""
    ensures r.ftype == Stdin || r.ftype == Normal
    ensures r.name == name && r.hash == getHash(id) && r.contents.None?
  {
    FileInfo(name, if name == "" then Stdin else Normal, getHash(id), None, false)
  }

  function PrepareInputs(inputs: seq<(string, FileId)>, getHash: int -> Sha): (r: seq<FileInfo>)
    ensures |r| == |inputs|
    ensures forall i :: 0 <= i < |inputs| ==> r[i] == PrepareInput(inputs[i].1.id, inputs[i].0, getHash)
  {
    if inputs == [] then [] else [PrepareInput(inputs[0].1.id, inputs[0].0, getHash)] + PrepareInputs(inputs[1..], getHash)
  }

  function OutputNames(outputs: seq<(string, FileId)>): (r: seq<FileInfo>)
    ensures |r| == |outputs|
    ensures forall i {:trigger r[i]} :: 0 <= i < |outputs| ==> r[i] == OutputRequest(outputs[i].0)
  {
    if outputs == [] then [] else [OutputRequest(outputs[0].0)] + OutputNames(outputs[1..])
  }

  /** The request: the command, the inputs (standard input first when its
      id is not 0), every output name twice, the limits and exclusivity. */
  function BuildRequest(executable: string, args: seq<string>, stdin: int, inputs: seq<(string, FileId)>,
                        outputs: seq<(string, FileId)>, limits: Limits, exclusive: bool, getHash: int -> Sha): Request
  {
    Request(executable, false, args,
            (if stdin != 0 then [PrepareInput(stdin, "", getHash)] else []) + PrepareInputs(inputs, getHash),
            OutputNames(outputs) + OutputNames(outputs), [], limits, 0.0, exclusive)
  }

  /** The standard input goes first, unnamed; the named inputs follow, each
      with its own name and hash; each output name is asked for twice. */
  lemma RequestShape(executable: string, args: seq<string>, stdin: int, inputs: seq<(string, FileId)>,
                     outputs: seq<(string, FileId)>, limits: Limits, exclusive: bool, getHash: int -> Sha)
    ensures var r := BuildRequest(executable, args, stdin, inputs, outputs, limits, exclusive, getHash);
            var off := if stdin != 0 then 1 else 0;
            && r.executable == executable && r.args == args && r.exclusive == exclusive
            && |r.inputs| == off + |inputs|
            && (stdin != 0 ==> r.inputs[0] == FileInfo("", Stdin, getHash(stdin), None, false))
            && (forall i :: 0 <= i < |inputs| ==> r.inputs[off + i] == PrepareInput(inputs[i].1.id, inputs[i].0, getHash))
            && |r.outputs| == 2 * |outputs|
            && (forall i :: 0 <= i < |outputs| ==> r.outputs[i].name == outputs[i].0 && r.outputs[|outputs| + i].name == outputs[i].0)
  {
    RequestStdin(stdin, inputs, getHash);
    RequestNamedInputs(stdin, inputs, getHash);
    RequestOutputsShape(outputs);
  }

  /** The standard input, when its id is not 0, is the first input. */
  lemma RequestStdin(stdin: int, inputs: seq<(string, FileId)>, getHash: int -> Sha)
    ensures var r := (if stdin != 0 then [PrepareInput(stdin, "", getHash)] else []) + PrepareInputs(inputs, getHash);
            && |r| == (if stdin != 0 then 1 else 0) + |inputs|
            && (stdin != 0 ==> r[0] == FileInfo("", Stdin, getHash(stdin), None, false))
  {
  }

  /** The named inputs follow, in order. */
  lemma RequestNamedInputs(stdin: int, inputs: seq<(string, FileId)>, getHash: int -> Sha)
    ensures var r := (if stdin != 0 then [PrepareInput(stdin, "", getHash)] else []) + PrepareInputs(inputs, getHash);
            forall i :: 0 <= i < |inputs| ==> r[(if stdin != 0 then 1 else 0) + i] == PrepareInput(inputs[i].1.id, inputs[i].0, getHash)
  {
    var head: seq<FileInfo> := if stdin != 0 then [PrepareInput(stdin, "", getHash)] else [];
    ShiftedBy(head, PrepareInputs(inputs, getHash), inputs, getHash);
  }

  lemma ShiftedBy(head: seq<FileInfo>, rest: seq<FileInfo>, inputs: seq<(string, FileId)>, getHash: int -> Sha)
    requires |rest| == |inputs|
    requires forall i :: 0 <= i < |inputs| ==> rest[i] == PrepareInput(inputs[i].1.id, inputs[i].0, getHash)
    ensures forall i :: 0 <= i < |inputs| ==> (head + rest)[|head| + i] == PrepareInput(inputs[i].1.id, inputs[i].0, getHash)
  {
    forall i | 0 <= i < |inputs| ensures (head + rest)[|head| + i] == PrepareInput(inputs[i].1.id, inputs[i].0, getHash) {
      assert (head + rest)[|head| + i] == rest[i];
    }
  }

  lemma RequestOutputsShape(outputs: seq<(string, FileId)>)
    ensures var r := OutputNames(outputs) + OutputNames(outputs);
            && |r| == 2 * |outputs|
            && (forall i :: 0 <= i < |outputs| ==> r[i].name == outputs[i].0 && r[|outputs| + i].name == outputs[i].0)
  {
    var names: seq<FileInfo> := OutputNames(outputs);
    forall i | 0 <= i < |outputs| ensures (names + names)[i].name == outputs[i].0 && (names + names)[|outputs| + i].name == outputs[i].0 {
      assert (names + names)[i] == names[i];
      assert (names + names)[|outputs| + i] == names[i];
    }
  }

  // ---------------------------------------------------------------------------
  // Reading the output files

  /** What the output loop changes: the execution's files, the store, and
      the `set_hash` calls made so far. */
  datatype OutState = OutState(stdout: FileId, stderr: FileId, outputs: seq<(string, FileId)>, stored: set<Sha>, setHashes: seq<(int, Sha)>)

  datatype Processed = Processed(state: OutState, error: Option<Thrown>)

  const UnrequestedOutput: string := "Unrequested output"

  /** The file of a fresh output takes its hash and `set_hash` is called;
      a named output must have been requested. */
  function Propagate(s: OutState, out: FileInfo): Processed {
    if out.ftype == Stdout then
      var f := s.stdout.(hash := Some(out.hash));
      Processed(s.(stdout := f, setHashes := s.setHashes + [(f.id, out.hash)]), None)
    else if out.ftype == Stderr then
      var f := s.stderr.(hash := Some(out.hash));
      Processed(s.(stderr := f, setHashes := s.setHashes + [(f.id, out.hash)]), None)
    else
      match SortedMap.Find(s.outputs, out.name)
      case None => Processed(s, Some(LogicError(UnrequestedOutput)))
      case Some(f) =>
        Processed(s.(outputs := SortedMap.Update(s.outputs, out.name, f.(hash := Some(out.hash))),
                     setHashes := s.setHashes + [(f.id, out.hash)]), None)
  }

  /** One output, as written: a file already in the store is skipped
      altogether; otherwise it is written, then its hash is propagated. */
  function ProcessOutput(s: OutState, out: FileInfo): Processed {
    if out.hash in s.stored then Processed(s, None)
    else Propagate(s.(stored := s.stored + {out.hash}), out)
  }

  /** One output, as the later core does it: only the write is skipped for
      a file already stored; the hash is propagated in any case. */
  function ProcessOutputIntended(s: OutState, out: FileInfo): Processed {
    Propagate(s.(stored := s.stored + {out.hash}), out)
  }

  /** The output loop, stopping at the first exception; `intended` picks
      the loop body. */
  function ProcessAll(s: OutState, outs: seq<FileInfo>, intended: bool): Processed {
    if outs == [] then Processed(s, None)
    else
      var p := ProcessAll(s, outs[..|outs| - 1], intended);
      if p.error.Some? then p
      else if intended then ProcessOutputIntended(p.state, outs[|outs| - 1])
      else ProcessOutput(p.state, outs[|outs| - 1])
  }

  lemma ProcessAllNext(s: OutState, outs: seq<FileInfo>, out: FileInfo, intended: bool)
    ensures ProcessAll(s, outs + [out], intended) ==
              var p := ProcessAll(s, outs, intended);
              if p.error.Some? then p
              else if intended then ProcessOutputIntended(p.state, out)
              else ProcessOutput(p.state, out)
  {
    SnocPrefix(outs, out);
  }

  lemma {:induction false} ProcessAllStops(s: OutState, outs: seq<FileInfo>, rest: seq<FileInfo>, intended: bool)
    requires ProcessAll(s, outs, intended).error.Some?
    ensures ProcessAll(s, outs + rest, intended) == ProcessAll(s, outs, intended)
    decreases |rest|
  {
    if rest == [] {
      assert outs + rest == outs;
    } else {
      var init := rest[..|rest| - 1];
      ProcessAllStops(s, outs, init, intended);
      assert outs + rest == (outs + init) + [rest[|rest| - 1]];
      ProcessAllNext(s, outs + init, rest[|rest| - 1], intended);
    }
  }

  /** The output at `i` is fresh: its hash was neither stored before nor
      written by an earlier output. */
  ghost predicate FreshAt(s: OutState, outs: seq<FileInfo>, i: int)
    requires 0 <= i < |outs|
  {
    outs[i].hash !in s.stored + HashesOf(outs[..i])
  }

  /** A named output whose name the request did not ask for. */
  predicate Unrequested(outputs: seq<(string, FileId)>, out: FileInfo) {
    out.ftype != Stdout && out.ftype != Stderr && SortedMap.Find(outputs, out.name).None?
  }

  predicate UnrequestedAt(s: OutState, outs: seq<FileInfo>, i: int)
    requires 0 <= i < |outs|
  {
    Unrequested(s.outputs, outs[i])
  }

  /** Propagating keeps the output keys and the store, raises only for an
      unrequested output, and otherwise makes one `set_hash` call with the
      output's hash. */
  lemma PropagateStep(s: OutState, out: FileInfo)
    ensures var p := Propagate(s, out);
            && SortedMap.Keys(p.state.outputs) == SortedMap.Keys(s.outputs)
            && p.state.stored == s.stored
            && (p.error.None? <==> !Unrequested(s.outputs, out))
            && (p.error.Some? ==> p == Processed(s, Some(LogicError(UnrequestedOutput))))
            && (p.error.None? ==> p.state.setHashes == s.setHashes + [(p.state.setHashes[|s.setHashes|].0, out.hash)])
  {
  }

  lemma FindSameKeys<V>(a: seq<(string, V)>, b: seq<(string, V)>, k: string)
    requires SortedMap.Keys(a) == SortedMap.Keys(b)
    ensures SortedMap.Find(a, k).Some? <==> SortedMap.Find(b, k).Some?
  {
    if SortedMap.Find(a, k).Some? {
      var i :| 0 <= i < |a| && a[i].0 == k;
      assert SortedMap.Keys(b)[i] == k;
    }
    if SortedMap.Find(b, k).Some? {
      var i :| 0 <= i < |b| && b[i].0 == k;
      assert SortedMap.Keys(a)[i] == k;
    }
  }

  /** As written: the loop keeps the output keys, and raises exactly when
      a fresh output was not requested, with the "Unrequested output"
      logic error. */
  lemma {:induction false} WrittenErrors(s: OutState, outs: seq<FileInfo>)
    ensures var p := ProcessAll(s, outs, false);
            && SortedMap.Keys(p.state.outputs) == SortedMap.Keys(s.outputs)
            && (p.error.None? <==> forall i :: 0 <= i < |outs| && FreshAt(s, outs, i) ==> !UnrequestedAt(s, outs, i))
            && (p.error.Some? ==> p.error == Some(LogicError(UnrequestedOutput)))
    decreases |outs|
  {
    if outs != [] {
      var init, out := outs[..|outs| - 1], outs[|outs| - 1];
      InitLast(outs);
      ProcessAllNext(s, init, out, false);
      WrittenErrors(s, init);
      WrittenStore(s, init);
      var p := ProcessAll(s, init, false);
      forall i | 0 <= i < |init|
        ensures FreshAt(s, outs, i) == FreshAt(s, init, i)
        ensures UnrequestedAt(s, outs, i) == UnrequestedAt(s, init, i)
      {
        assert outs[..i] == init[..i];
      }
      if p.error.None? {
        var t := p.state;
        FindSameKeys(s.outputs, t.outputs, out.name);
        PropagateStep(t.(stored := t.stored + {out.hash}), out);
        assert outs[..|init|] == init;
        assert FreshAt(s, outs, |init|) <==> out.hash !in t.stored;
      } else {
        var i :| 0 <= i < |init| && FreshAt(s, init, i) && UnrequestedAt(s, init, i);
        assert FreshAt(s, outs, i) && UnrequestedAt(s, outs, i);
      }
    }
  }

  /** As written: without an exception, every output's file is in the
      store afterwards, and nothing else was added. */
  lemma {:induction false} WrittenStore(s: OutState, outs: seq<FileInfo>)
    ensures var p := ProcessAll(s, outs, false);
            && s.stored <= p.state.stored <= s.stored + HashesOf(outs)
            && (p.error.None? ==> p.state.stored == s.stored + HashesOf(outs))
    decreases |outs|
  {
    if outs != [] {
      var init, out := outs[..|outs| - 1], outs[|outs| - 1];
      ProcessAllNext(s, init, out, false);
      InitLast(outs);
      WrittenStore(s, init);
      var p := ProcessAll(s, init, false);
      if p.error.None? {
        PropagateStep(p.state.(stored := p.state.stored + {out.hash}), out);
      }
    }
  }

  /** As written: `set_hash` is called at most once per hash, only for
      hashes of the outputs that were not stored before, and only after
      their file was written. */
  lemma {:induction false} WrittenCalls(s: OutState, outs: seq<FileInfo>)
    ensures var p := ProcessAll(s, outs, false);
            && |s.setHashes| <= |p.state.setHashes|
            && p.state.setHashes[..|s.setHashes|] == s.setHashes
            && (forall k :: |s.setHashes| <= k < |p.state.setHashes| ==>
                  p.state.setHashes[k].1 !in s.stored && p.state.setHashes[k].1 in HashesOf(outs) && p.state.setHashes[k].1 in p.state.stored)
            && (forall k, l :: |s.setHashes| <= k < l < |p.state.setHashes| ==> p.state.setHashes[k].1 != p.state.setHashes[l].1)
    decreases |outs|
  {
    if outs != [] {
      var init, out := outs[..|outs| - 1], outs[|outs| - 1];
      ProcessAllNext(s, init, out, false);
      InitLast(outs);
      WrittenCalls(s, init);
      WrittenStore(s, init);
      var p := ProcessAll(s, init, false);
      if p.error.None? && out.hash !in p.state.stored {
        var t := p.state;
        PropagateStep(t.(stored := t.stored + {out.hash}), out);
        var q := ProcessOutput(t, out);
        if q.error.None? {
          var c := q.state.setHashes;
          assert c == t.setHashes + [(c[|t.setHashes|].0, out.hash)];
          assert c[..|s.setHashes|] == t.setHashes[..|s.setHashes|];
          forall k | |s.setHashes| <= k < |c|
            ensures c[k].1 !in s.stored && c[k].1 in HashesOf(outs) && c[k].1 in q.state.stored
          {
            if k < |t.setHashes| {
              assert c[k] == t.setHashes[k];
            }
          }
          forall k, l | |s.setHashes| <= k < l < |c| ensures c[k].1 != c[l].1 {
            assert c[k] == t.setHashes[k];
            if l < |t.setHashes| {
              assert c[l] == t.setHashes[l];
            }
          }
        }
      }
    }
  }

  /** As intended: every output is propagated and gets its own `set_hash`
      call, in order, whether or not its file was already stored, and the
      loop raises exactly when some output was not requested. */
  lemma {:induction false} ProcessAllIntended(s: OutState, outs: seq<FileInfo>)
    ensures var p := ProcessAll(s, outs, true);
            && SortedMap.Keys(p.state.outputs) == SortedMap.Keys(s.outputs)
            && (p.error.None? <==> forall i :: 0 <= i < |outs| ==> !UnrequestedAt(s, outs, i))
            && (p.error.None? ==> |p.state.setHashes| == |s.setHashes| + |outs|
                                  && p.state.setHashes[..|s.setHashes|] == s.setHashes
                                  && forall i :: 0 <= i < |outs| ==> p.state.setHashes[|s.setHashes| + i].1 == outs[i].hash)
    decreases |outs|
  {
    if outs != [] {
      var init, out := outs[..|outs| - 1], outs[|outs| - 1];
      InitLast(outs);
      ProcessAllNext(s, init, out, true);
      ProcessAllIntended(s, init);
      var p := ProcessAll(s, init, true);
      forall i | 0 <= i < |init| ensures UnrequestedAt(s, outs, i) == UnrequestedAt(s, init, i) {
      }
      if p.error.None? {
        var t := p.state;
        FindSameKeys(s.outputs, t.outputs, out.name);
        PropagateStep(t.(stored := t.stored + {out.hash}), out);
        var q := ProcessOutputIntended(t, out);
        assert UnrequestedAt(s, outs, |init|) <==> q.error.Some?;
        if q.error.None? {
          var c := q.state.setHashes;
          forall i | 0 <= i < |outs| ensures c[|s.setHashes| + i].1 == outs[i].hash {
            if i < |init| {
              assert c[|s.setHashes| + i] == t.setHashes[|s.setHashes| + i];
            }
          }
          assert c[..|s.setHashes|] == t.setHashes[..|s.setHashes|];
        }
      } else {
        var i :| 0 <= i < |init| && UnrequestedAt(s, init, i);
        assert UnrequestedAt(s, outs, i);
      }
    }
  }

  /** The difference, on the smallest input: a standard output whose file
      is already stored keeps no hash and is never reported to `set_hash`
      as written, while the later core reports it. */
  lemma StoredOutputNotPropagated(stdout: FileId, stderr: FileId, h: Sha)
    ensures var s := OutState(stdout, stderr, [], {h}, []);
            var outs := [FileInfo("", Stdout, h, None, false)];
            && ProcessAll(s, outs, false) == Processed(s, None)
            && ProcessAll(s, outs, true).state.setHashes == [(stdout.id, h)]
            && ProcessAll(s, outs, true).state.stdout.hash == Some(h)
  {
    var s := OutState(stdout, stderr, [], {h}, []);
    var outs := [FileInfo("", Stdout, h, None, false)];
    ProcessAllNext(s, [], outs[0], false);
    ProcessAllNext(s, [], outs[0], true);
    assert [] + [outs[0]] == outs;
  }

  /** The same happens within one response: when standard output and
      standard error have the same contents, only the first gets its hash. */
  lemma EqualOutputsNotPropagated(stdout: FileId, stderr: FileId, h: Sha)
    ensures var s := OutState(stdout, stderr, [], {}, []);
            var outs := [FileInfo("", Stdout, h, None, false), FileInfo("", Stderr, h, None, false)];
            && ProcessAll(s, outs, false).state.stderr == stderr
            && ProcessAll(s, outs, false).state.setHashes == [(stdout.id, h)]
            && ProcessAll(s, outs, true).state.setHashes == [(stdout.id, h), (stderr.id, h)]
  {
    var s := OutState(stdout, stderr, [], {}, []);
    var outs := [FileInfo("", Stdout, h, None, false), FileInfo("", Stderr, h, None, false)];
    ProcessAllNext(s, [], outs[0], false);
    ProcessAllNext(s, [], outs[0], true);
    assert [] + [outs[0]] == [outs[0]];
    ProcessAllNext(s, [outs[0]], outs[1], false);
    ProcessAllNext(s, [outs[0]], outs[1], true);
    assert [outs[0]] + [outs[1]] == outs;
  }

  // ---------------------------------------------------------------------------
  // The execution

  class Execution {
    var executable: string
    var args: seq<string>
    var exclusive: bool
    var limits: Limits
    var stdin: int
    var inputs: seq<(string, FileId)>
    var outputs: seq<(string, FileId)>
    var stdout: FileId
    var stderr: FileId
    var dieOnError: bool
    var response: Response

    /** The two file maps keep their keys in order. */
    ghost predicate Valid()
      reads this
    {
      SortedMap.Sorted(inputs) && SortedMap.Sorted(outputs)
    }

    /** An execution with no files but its standard output and error. (Its
        constructor in the C++ header is not part of this model.) */
    constructor(executable: string, args: seq<string>, stdout: FileId, stderr: FileId, dieOnError: bool)
      ensures Valid()
      ensures this.executable == executable && this.args == args && this.stdout == stdout && this.stderr == stderr
      ensures this.dieOnError == dieOnError && stdin == 0 && inputs == [] && outputs == []
    {
      this.executable := executable;
      this.args := args;
      exclusive := false;
      limits := Limits(0.0, 0.0, 0, 0, 0, 0, 0, 0);
      stdin := 0;
      inputs := [];
      outputs := [];
      this.stdout := stdout;
      this.stderr := stderr;
      this.dieOnError := dieOnError;
      response := EmptyResponse;
    }

    /** The output file `name`, created on the first request with the id
        `newId` (FileID's id allocation is not part of this model). */
    method Output(name: string, description: string, newId: int) returns (f: FileId)
      requires Valid()
      modifies this`outputs
      ensures Valid()
      ensures SortedMap.Find(outputs, name) == Some(f)
      ensures SortedMap.Find(old(outputs), name).Some? ==> f == SortedMap.Find(old(outputs), name).value && outputs == old(outputs)
      ensures SortedMap.Find(old(outputs), name).None? ==> f == FileId(newId, description, None)
      ensures forall k :: k != name ==> SortedMap.Find(outputs, k) == SortedMap.Find(old(outputs), k)
    {
      if SortedMap.Find(outputs, name).None? {
        SortedMap.InsertSorted(outputs, name, FileId(newId, description, None));
        outputs := SortedMap.Insert(outputs, name, FileId(newId, description, None));
      }
      f := SortedMap.Find(outputs, name).value;
    }

    /** The ids this execution reads: its standard input when not 0, then
        its inputs in name order. */
    function Deps(): (r: seq<int>)
      reads this
      ensures |r| == (if stdin != 0 then 1 else 0) + |inputs|
      ensures stdin != 0 ==> r[0] == stdin
      ensures forall i :: 0 <= i < |inputs| ==> r[|r| - |inputs| + i] == inputs[i].1.id
    {
      (if stdin != 0 then [stdin] else []) + Ids(inputs, (f: FileId) => f.id)
    }

    function Request(getHash: int -> Sha): Request
      reads this
    {
      BuildRequest(executable, args, stdin, inputs, outputs, limits, exclusive, getHash)
    }

    /** One output of the response, as the loop body of Run handles it. */
    method ReadOutput(out: FileInfo, stored: set<Sha>, setHashes: seq<(int, Sha)>)
      returns (error: Option<Thrown>, stored': set<Sha>, setHashes': seq<(int, Sha)>)
      requires SortedMap.Sorted(outputs)
      modifies this`stdout, this`stderr, this`outputs
      ensures SortedMap.Sorted(outputs)
      ensures ProcessOutput(OutState(old(stdout), old(stderr), old(outputs), stored, setHashes), out)
              == Processed(OutState(stdout, stderr, outputs, stored', setHashes'), error)
    {
      ghost var s := OutState(stdout, stderr, outputs, stored, setHashes);
      stored', setHashes' := stored, setHashes;
      error := None;
      if out.hash in stored {
        return;
      }
      stored' := stored + {out.hash};
      if out.ftype == Stdout {
        stdout := stdout.(hash := Some(out.hash));
        setHashes' := setHashes + [(stdout.id, out.hash)];
      } else if out.ftype == Stderr {
        stderr := stderr.(hash := Some(out.hash));
        setHashes' := setHashes + [(stderr.id, out.hash)];
      } else {
        var f := SortedMap.Find(outputs, out.name);
        if f.None? {
          error := Some(LogicError(UnrequestedOutput));
          return;
        }
        SortedMap.UpdateSorted(outputs, out.name, f.value.(hash := Some(out.hash)));
        PropagateNamed(s.(stored := stored'), out, f.value);
        outputs := SortedMap.Update(outputs, out.name, f.value.(hash := Some(out.hash)));
        setHashes' := setHashes + [(f.value.id, out.hash)];
      }
    }

    /** The output loop of Run, stopping at the first exception. */
    method ReadOutputs(outs: seq<FileInfo>, store: set<Sha>)
      returns (error: Option<Thrown>, setHashes: seq<(int, Sha)>, stored: set<Sha>)
      requires SortedMap.Sorted(outputs)
      modifies this`stdout, this`stderr, this`outputs
      ensures SortedMap.Sorted(outputs)
      ensures ProcessAll(OutState(old(stdout), old(stderr), old(outputs), store, []), outs, false)
              == Processed(OutState(stdout, stderr, outputs, stored, setHashes), error)
    {
      var s0 := OutState(stdout, stderr, outputs, store, []);
      setHashes, stored := [], store;
      for i := 0 to |outs|
        invariant SortedMap.Sorted(outputs)
        invariant ProcessAll(s0, outs[..i], false) == Processed(OutState(stdout, stderr, outputs, stored, setHashes), None)
      {
        PrefixSnoc(outs, i);
        ProcessAllNext(s0, outs[..i], outs[i], false);
        var err;
        err, stored, setHashes := ReadOutput(outs[i], stored, setHashes);
        if err.Some? {
          ProcessAllStops(s0, outs[..i + 1], outs[i + 1..], false);
          PrefixSuffix(outs, i + 1);
          return err, setHashes, stored;
        }
      }
      PrefixSuffix(outs, 0);
      error := None;
    }

    /** Run: send the request; a failed run returns false, or raises when
        the execution must not fail; otherwise read the outputs and return
        true. */
    method Run(getHash: int -> Sha, outcome: ExecutorResult, store: set<Sha>)
      returns (result: RunResult, setHashes: seq<(int, Sha)>, stored: set<Sha>)
      requires Valid()
      modifies this`response, this`stdout, this`stderr, this`outputs
      ensures Valid()
      ensures outcome.Failed? ==>
                && result == Raised(outcome.ex) && setHashes == [] && stored == store
                && response == old(response) && stdout == old(stdout) && stderr == old(stderr) && outputs == old(outputs)
      ensures outcome.Replied? ==> response == outcome.response
      ensures outcome.Replied? && (response.status != Status.Success || response.signal != 0) ==>
                && result == (if dieOnError then Raised(ExecutionFailure) else Returned(false))
                && setHashes == [] && stored == store
                && stdout == old(stdout) && stderr == old(stderr) && outputs == old(outputs)
      ensures outcome.Replied? && response.status == Status.Success && response.signal == 0 ==>
                var p := ProcessAll(OutState(old(stdout), old(stderr), old(outputs), store, []), response.outputs, false);
                && stdout == p.state.stdout && stderr == p.state.stderr && outputs == p.state.outputs
                && setHashes == p.state.setHashes && stored == p.state.stored
                && result == (if p.error.Some? then Raised(p.error.value) else Returned(true))
    {
      var request := Request(getHash);
      if outcome.Failed? {
        return Raised(outcome.ex), [], store;
      }
      response := outcome.response;
      if response.status != Status.Success || response.signal != 0 {
        if !dieOnError {
          return Returned(false), [], store;
        }
        return Raised(ExecutionFailure), [], store;
      }
      var error;
      error, setHashes, stored := ReadOutputs(response.outputs, store);
      result := if error.Some? then Raised(error.value) else Returned(true);
    }
  }

  /** A requested named output takes its hash. */
  lemma PropagateNamed(s: OutState, out: FileInfo, f: FileId)
    requires out.ftype != Stdout && out.ftype != Stderr && SortedMap.Find(s.outputs, out.name) == Some(f)
    ensures Propagate(s, out)
            == Processed(s.(outputs := SortedMap.Update(s.outputs, out.name, f.(hash := Some(out.hash))),
                            setHashes := s.setHashes + [(f.id, out.hash)]), None)
  {
  }
}

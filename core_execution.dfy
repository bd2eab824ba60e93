/** One execution of the C++ core (cpp/core/execution.cpp): the files it
    reads and writes, how it asks an executor to run it (through the cache),
    and how it propagates the hashes of the files the executor produced.

    Files are `FileId` values kept in the execution's fields; the executor
    and the cache are reached through the outcome the executor gives and a
    `Cacher` object. The file store is the set of hashes already stored. */
module CoreExecution {
  import opened Common
  import opened Proto
  import SortedMap

  /** When a cached response may stand in for running the request. */
  datatype CachingMode = Always | SameExecutor | Never

  /** A file of an execution: its id in the core, its description, its hash
      once known, and whether it is executable. */
  datatype FileId = FileId(id: int, description: string, hash: Option<Sha>, executable: bool)

  /** What the executor did with a request: answered it, or threw the
      exception with this message. */
  datatype ExecOutcome = Answered(response: Response) | Threw(what: string)

  /** The message of the exception the sandbox raises on a file it cannot
      execute. */
  const ExecFormatError: string := "exec: Exec format error"

  /** The response RunWithCache makes of an exception of the executor. */
  function ExceptionResponse(what: string): (r: Response)
    ensures r.status == Status.NotExecutable <==> what == ExecFormatError
    ensures r.status == Status.NotExecutable || r.status == Status.InternalError
    ensures r.errorMessage == (if r.status == Status.NotExecutable then "Execution error: " else "Sandbox error: ") + what
    ensures r.outputs == []
  {
    if what == ExecFormatError then EmptyResponse.(status := Status.NotExecutable, errorMessage := "Execution error: " + what)
    else EmptyResponse.(status := Status.InternalError, errorMessage := "Sandbox error: " + what)
  }

  /** The response of a request that is run: the executor's own answer, or
      the one made of its exception. */
  function Executed(outcome: ExecOutcome): Response {
    match outcome
    case Answered(resp) => resp
    case Threw(what) => ExceptionResponse(what)
  }

  /** The response cache, by request and executor. Its implementation is
      not part of this model. */
  class Cacher {
    var entries: map<(Request, string), Response>

    constructor()
      ensures entries == map[]
    {
      entries := map[];
    }

    /** A response cached for the request by any executor. */
    method GetAny(request: Request) returns (r: Option<Response>)
      ensures r.Some? <==> exists k :: k in entries && k.0 == request
      ensures r.Some? ==> exists k :: k in entries && k.0 == request && entries[k] == r.value
    {
      if exists k :: k in entries && k.0 == request {
        var k :| k in entries && k.0 == request;
        r := Some(entries[k]);
      } else {
        r := None;
      }
    }

    /** The response cached for the request by this executor. */
    method Get(request: Request, executor: string) returns (r: Option<Response>)
      ensures r.Some? <==> (request, executor) in entries
      ensures r.Some? ==> r.value == entries[(request, executor)]
    {
      if (request, executor) in entries {
        r := Some(entries[(request, executor)]);
      } else {
        r := None;
      }
    }

    method Put(request: Request, executor: string, response: Response)
      modifies this
      ensures entries == old(entries)[(request, executor) := response]
    {
      entries := entries[(request, executor) := response];
    }
  }

  // ---------------------------------------------------------------------------
  // Building the request

  /** One input of the request. A file with no name is the standard input. */
  function PrepareInput(f: FileId, name: string, getHash: int -> Sha): (r: FileInfo)
    ensures r.ftype == Stdin <==> name == ""
    ensures r.ftype == Stdin || r.ftype == Normal
    ensures r.name == name && r.hash == getHash(f.id) && r.executable == f.executable && r.contents.None?
  {
    FileInfo(name, if name == "" then Stdin else Normal, getHash(f.id), None, f.executable)
  }

  function PrepareInputs(inputs: seq<(string, FileId)>, getHash: int -> Sha): (r: seq<FileInfo>)
    ensures |r| == |inputs|
    ensures forall i :: 0 <= i < |inputs| ==> r[i] == PrepareInput(inputs[i].1, inputs[i].0, getHash)
  {
    if inputs == [] then [] else [PrepareInput(inputs[0].1, inputs[0].0, getHash)] + PrepareInputs(inputs[1..], getHash)
  }

  /** The requested outputs, by name, in map order. */
  function OutputNames(outputs: seq<(string, FileId)>): (r: seq<FileInfo>)
    ensures |r| == |outputs|
    ensures forall i :: 0 <= i < |outputs| ==> r[i] == OutputRequest(outputs[i].0)
  {
    if outputs == [] then [] else [OutputRequest(outputs[0].0)] + OutputNames(outputs[1..])
  }

  function Names(files: seq<FileInfo>): (r: seq<string>)
    ensures |r| == |files|
    ensures forall i :: 0 <= i < |files| ==> r[i] == files[i].name
  {
    if files == [] then [] else [files[0].name] + Names(files[1..])
  }

  /** The request Run sends: the command, the inputs (standard input
      first), the output names — listed once before the inputs and once
      after them — the limits and the exclusivity. */
  function BuildRequest(executable: string, keepSandbox: bool, args: seq<string>, stdin: Option<FileId>,
                        inputs: seq<(string, FileId)>, outputs: seq<(string, FileId)>, limits: Limits, extraTime: real,
                        exclusive: bool, getHash: int -> Sha): Request
  {
    Request(executable, keepSandbox, args,
            (if stdin.Some? then [PrepareInput(stdin.value, "", getHash)] else []) + PrepareInputs(inputs, getHash),
            OutputNames(outputs) + OutputNames(outputs), [], limits, extraTime, exclusive)
  }

  /** Each key of a sorted map occurs once among its keys. */
  lemma {:induction false} KeysOnce<V>(m: seq<(string, V)>)
    requires SortedMap.Sorted(m)
    ensures forall k :: multiset(SortedMap.Keys(m))[k] == (if k in SortedMap.Keys(m) then 1 else 0)
    decreases |m|
  {
    if m != [] {
      SortedMap.SortedTail(m);
      KeysOnce(m[1..]);
      assert SortedMap.Keys(m) == [m[0].0] + SortedMap.Keys(m[1..]);
      if m[0].0 in SortedMap.Keys(m[1..]) {
        var j :| 0 <= j < |m[1..]| && SortedMap.Keys(m[1..])[j] == m[0].0;
        SortedMap.LexIrreflexive(m[0].0);
        assert false;
      }
    }
  }

  lemma {:induction false} OutputNamesKeys(outputs: seq<(string, FileId)>)
    ensures Names(OutputNames(outputs)) == SortedMap.Keys(outputs)
  {
    assert |Names(OutputNames(outputs))| == |SortedMap.Keys(outputs)|;
    forall i | 0 <= i < |outputs| ensures Names(OutputNames(outputs))[i] == SortedMap.Keys(outputs)[i] {
    }
  }

  /** The request carries the standard input first, with no name, then each
      input under its own name and with its own hash, and the command as
      the execution has it. */
  lemma RequestInputs(executable: string, keepSandbox: bool, args: seq<string>, stdin: Option<FileId>,
                      inputs: seq<(string, FileId)>, outputs: seq<(string, FileId)>, limits: Limits, extraTime: real,
                      exclusive: bool, getHash: int -> Sha)
    ensures var r := BuildRequest(executable, keepSandbox, args, stdin, inputs, outputs, limits, extraTime, exclusive, getHash);
            var off := if stdin.Some? then 1 else 0;
            && r.executable == executable && r.args == args && r.exclusive == exclusive && r.fifos == []
            && |r.inputs| == off + |inputs|
            && (stdin.Some? ==> r.inputs[0] == FileInfo("", Stdin, getHash(stdin.value.id), None, stdin.value.executable))
            && (forall i :: 0 <= i < |inputs| ==> r.inputs[off + i] == PrepareInput(inputs[i].1, inputs[i].0, getHash))
  {
    var r := BuildRequest(executable, keepSandbox, args, stdin, inputs, outputs, limits, extraTime, exclusive, getHash);
    var off := if stdin.Some? then 1 else 0;
    forall i | 0 <= i < |inputs| ensures r.inputs[off + i] == PrepareInput(inputs[i].1, inputs[i].0, getHash) {
      assert r.inputs[off + i] == PrepareInputs(inputs, getHash)[i];
    }
  }

  /** Every output name is asked for exactly twice, and no other name. */
  lemma RequestOutputsTwice(executable: string, keepSandbox: bool, args: seq<string>, stdin: Option<FileId>,
                            inputs: seq<(string, FileId)>, outputs: seq<(string, FileId)>, limits: Limits, extraTime: real,
                            exclusive: bool, getHash: int -> Sha)
    requires SortedMap.Sorted(outputs)
    ensures var r := BuildRequest(executable, keepSandbox, args, stdin, inputs, outputs, limits, extraTime, exclusive, getHash);
            && |r.outputs| == 2 * |outputs|
            && (forall k :: multiset(Names(r.outputs))[k] == (if k in SortedMap.Keys(outputs) then 2 else 0))
  {
    var r := BuildRequest(executable, keepSandbox, args, stdin, inputs, outputs, limits, extraTime, exclusive, getHash);
    var o := OutputNames(outputs);
    assert r.outputs == o + o;
    NamesAppend(o, o);
    OutputNamesKeys(outputs);
    KeysOnce(outputs);
    MultisetTwice(SortedMap.Keys(outputs));
  }

  lemma NamesAppend(a: seq<FileInfo>, b: seq<FileInfo>)
    ensures Names(a + b) == Names(a) + Names(b)
  {
    assert |Names(a + b)| == |Names(a) + Names(b)|;
    forall i | 0 <= i < |a + b| ensures Names(a + b)[i] == (Names(a) + Names(b))[i] {
    }
  }

  lemma MultisetTwice<T>(xs: seq<T>)
    ensures forall k :: multiset(xs + xs)[k] == 2 * multiset(xs)[k]
  {
    assert multiset(xs + xs) == multiset(xs) + multiset(xs);
  }

  // ---------------------------------------------------------------------------
  // Reading the output files

  /** What the output loop changes: the files of the execution, the hashes
      in the store, and the `set_hash` calls made so far. */
  datatype OutState = OutState(stdout: FileId, stderr: FileId, outputs: seq<(string, FileId)>, stored: set<Sha>, setHashes: seq<(int, Sha)>)

  /** The state the loop reaches, and the exception that stopped it. */
  datatype Processed = Processed(state: OutState, error: Option<Thrown>)

  const MissingOutput: string := "Cached request with missing output"
  const UnrequestedOutput: string := "Unrequested output"

  function HashCall(successful: bool, id: int, h: Sha): seq<(int, Sha)> {
    if successful then [(id, h)] else []
  }

  /** One output of the response. A file not yet in the store is written
      from its inline contents, or fetched from the executor unless the
      response came from the cache; then the file it belongs to takes its
      hash, and `set_hash` is called when the run succeeded. */
  function ProcessOutput(s: OutState, out: FileInfo, cached: bool, successful: bool): Processed {
    if out.hash !in s.stored && out.contents.None? && cached then Processed(s, Some(RuntimeError(MissingOutput)))
    else
      var written := s.(stored := s.stored + {out.hash});
      if out.ftype == Stdout then
        var f := s.stdout.(hash := Some(out.hash));
        Processed(written.(stdout := f, setHashes := s.setHashes + HashCall(successful, f.id, out.hash)), None)
      else if out.ftype == Stderr then
        var f := s.stderr.(hash := Some(out.hash));
        Processed(written.(stderr := f, setHashes := s.setHashes + HashCall(successful, f.id, out.hash)), None)
      else
        match SortedMap.Find(s.outputs, out.name)
        case None => Processed(written, Some(LogicError(UnrequestedOutput)))
        case Some(f) =>
          Processed(written.(outputs := SortedMap.Update(s.outputs, out.name, f.(hash := Some(out.hash))),
                             setHashes := s.setHashes + HashCall(successful, f.id, out.hash)), None)
  }

  /** A named output that was requested takes its hash. */
  lemma ProcessNamedOutput(s: OutState, out: FileInfo, cached: bool, successful: bool, f: FileId)
    requires !(out.hash !in s.stored && out.contents.None? && cached)
    requires out.ftype != Stdout && out.ftype != Stderr && SortedMap.Find(s.outputs, out.name) == Some(f)
    ensures ProcessOutput(s, out, cached, successful)
            == Processed(s.(stored := s.stored + {out.hash}, outputs := SortedMap.Update(s.outputs, out.name, f.(hash := Some(out.hash))),
                            setHashes := s.setHashes + HashCall(successful, f.id, out.hash)), None)
  {
  }

  /** The standard output or error takes the hash. */
  lemma ProcessStream(s: OutState, out: FileInfo, cached: bool, successful: bool)
    requires !(out.hash !in s.stored && out.contents.None? && cached)
    requires out.ftype == Stdout || out.ftype == Stderr
    ensures out.ftype == Stdout ==>
              ProcessOutput(s, out, cached, successful)
              == Processed(s.(stored := s.stored + {out.hash}, stdout := s.stdout.(hash := Some(out.hash)),
                              setHashes := s.setHashes + HashCall(successful, s.stdout.id, out.hash)), None)
    ensures out.ftype == Stderr ==>
              ProcessOutput(s, out, cached, successful)
              == Processed(s.(stored := s.stored + {out.hash}, stderr := s.stderr.(hash := Some(out.hash)),
                              setHashes := s.setHashes + HashCall(successful, s.stderr.id, out.hash)), None)
  {
  }

  /** A named output that was not requested raises after its file is written. */
  lemma ProcessUnrequested(s: OutState, out: FileInfo, cached: bool, successful: bool)
    requires !(out.hash !in s.stored && out.contents.None? && cached)
    requires out.ftype != Stdout && out.ftype != Stderr && SortedMap.Find(s.outputs, out.name).None?
    ensures ProcessOutput(s, out, cached, successful)
            == Processed(s.(stored := s.stored + {out.hash}), Some(LogicError(UnrequestedOutput)))
  {
  }

  /** The output loop, stopping at the first exception. */
  function ProcessAll(s: OutState, outs: seq<FileInfo>, cached: bool, successful: bool): Processed {
    if outs == [] then Processed(s, None)
    else
      var p := ProcessAll(s, outs[..|outs| - 1], cached, successful);
      if p.error.Some? then p else ProcessOutput(p.state, outs[|outs| - 1], cached, successful)
  }

  lemma ProcessAllNext(s: OutState, outs: seq<FileInfo>, out: FileInfo, cached: bool, successful: bool)
    ensures ProcessAll(s, outs + [out], cached, successful) ==
              var p := ProcessAll(s, outs, cached, successful);
              if p.error.Some? then p else ProcessOutput(p.state, out, cached, successful)
  {
    SnocPrefix(outs, out);
  }

  lemma {:induction false} ProcessAllStops(s: OutState, outs: seq<FileInfo>, rest: seq<FileInfo>, cached: bool, successful: bool)
    requires ProcessAll(s, outs, cached, successful).error.Some?
    ensures ProcessAll(s, outs + rest, cached, successful) == ProcessAll(s, outs, cached, successful)
    decreases |rest|
  {
    if rest == [] {
      assert outs + rest == outs;
    } else {
      var init := rest[..|rest| - 1];
      ProcessAllStops(s, outs, init, cached, successful);
      assert outs + rest == (outs + init) + [rest[|rest| - 1]];
      ProcessAllNext(s, outs + init, rest[|rest| - 1], cached, successful);
    }
  }

  /** The keys and ids of two maps are the same; only hashes may differ. */
  ghost predicate SameIds(a: seq<(string, FileId)>, b: seq<(string, FileId)>) {
    |a| == |b| && forall i :: 0 <= i < |a| ==> a[i].0 == b[i].0 && a[i].1.id == b[i].1.id
  }

  /** The output at `i` comes from the cache, has no contents, and its hash
      was neither in the store nor written by an earlier output. */
  ghost predicate MissingAt(s: OutState, outs: seq<FileInfo>, i: int, cached: bool)
    requires 0 <= i < |outs|
  {
    cached && outs[i].contents.None? && outs[i].hash !in s.stored + HashesOf(outs[..i])
  }

  /** The output at `i` is a named file the request did not ask for. */
  predicate UnrequestedAt(s: OutState, outs: seq<FileInfo>, i: int)
    requires 0 <= i < |outs|
  {
    outs[i].ftype != Stdout && outs[i].ftype != Stderr && SortedMap.Find(s.outputs, outs[i].name).None?
  }

  /** The id of the file an output belongs to. */
  function TargetId(s: OutState, out: FileInfo): int {
    if out.ftype == Stdout then s.stdout.id
    else if out.ftype == Stderr then s.stderr.id
    else match SortedMap.Find(s.outputs, out.name) case Some(f) => f.id case None => 0
  }

  lemma SameIdsFind(a: seq<(string, FileId)>, b: seq<(string, FileId)>, k: string)
    requires SameIds(a, b)
    ensures SortedMap.Find(a, k).Some? <==> SortedMap.Find(b, k).Some?
    ensures SortedMap.Find(a, k).Some? ==> SortedMap.Find(a, k).value.id == SortedMap.Find(b, k).value.id
  {
    if a != [] {
      assert SameIds(a[1..], b[1..]) by {
        forall i | 0 <= i < |a[1..]| ensures a[1..][i].0 == b[1..][i].0 && a[1..][i].1.id == b[1..][i].1.id {
          assert a[1..][i] == a[i + 1] && b[1..][i] == b[i + 1];
        }
      }
      SameIdsFind(a[1..], b[1..], k);
    }
  }

  lemma UpdateSameIds(m: seq<(string, FileId)>, k: string, f: FileId, h: Option<Sha>)
    requires SortedMap.Sorted(m) && SortedMap.Find(m, k) == Some(f)
    ensures SameIds(m, SortedMap.Update(m, k, f.(hash := h)))
  {
    var r := SortedMap.Update(m, k, f.(hash := h));
    forall i | 0 <= i < |m| ensures m[i].0 == r[i].0 && m[i].1.id == r[i].1.id {
      assert SortedMap.Keys(r)[i] == SortedMap.Keys(m)[i];
      if m[i].0 == k {
        SortedMap.FindAt(m, i);
      }
    }
  }

  /** The invariant of the output loop. */
  ghost predicate Kept(s: OutState, t: OutState) {
    && t.stdout.id == s.stdout.id && t.stderr.id == s.stderr.id
    && SameIds(s.outputs, t.outputs)
    && s.setHashes <= t.setHashes
  }

  lemma SameIdsSorted(a: seq<(string, FileId)>, b: seq<(string, FileId)>)
    requires SameIds(a, b) && SortedMap.Sorted(a)
    ensures SortedMap.Sorted(b)
  {
  }

  lemma SameIdsTrans(a: seq<(string, FileId)>, b: seq<(string, FileId)>, c: seq<(string, FileId)>)
    requires SameIds(a, b) && SameIds(b, c)
    ensures SameIds(a, c)
  {
  }

  /** One output keeps the ids, stores its hash, and calls `set_hash` for
      the file it belongs to when the run succeeded. */
  lemma ProcessOutputShape(s: OutState, t: OutState, out: FileInfo, cached: bool, successful: bool)
    requires SortedMap.Sorted(s.outputs) && Kept(s, t)
    ensures var q := ProcessOutput(t, out, cached, successful);
            && Kept(s, q.state)
            && (q.error.None? ==> q.state.stored == t.stored + {out.hash})
            && (q.error.None? && successful ==> q.state.setHashes == t.setHashes + [(TargetId(s, out), out.hash)])
            && (!successful ==> q.state.setHashes == t.setHashes)
  {
    if out.hash !in t.stored && out.contents.None? && cached {
    } else if out.ftype == Stdout || out.ftype == Stderr {
      StreamOutputShape(s, t, out, cached, successful);
    } else {
      NamedOutputShape(s, t, out, cached, successful);
    }
  }

  lemma StreamOutputShape(s: OutState, t: OutState, out: FileInfo, cached: bool, successful: bool)
    requires Kept(s, t)
    requires !(out.hash !in t.stored && out.contents.None? && cached) && (out.ftype == Stdout || out.ftype == Stderr)
    ensures var q := ProcessOutput(t, out, cached, successful);
            && q.error.None? && Kept(s, q.state) && q.state.stored == t.stored + {out.hash}
            && q.state.setHashes == t.setHashes + HashCall(successful, TargetId(s, out), out.hash)
  {
    PrefixAppend(s.setHashes, t.setHashes, HashCall(successful, TargetId(t, out), out.hash));
  }

  lemma NamedOutputShape(s: OutState, t: OutState, out: FileInfo, cached: bool, successful: bool)
    requires SortedMap.Sorted(s.outputs) && Kept(s, t)
    requires !(out.hash !in t.stored && out.contents.None? && cached) && out.ftype != Stdout && out.ftype != Stderr
    ensures var q := ProcessOutput(t, out, cached, successful);
            && Kept(s, q.state) && q.state.stored == t.stored + {out.hash}
            && (q.error.None? ==> q.state.setHashes == t.setHashes + HashCall(successful, TargetId(s, out), out.hash))
            && (q.error.Some? ==> q.state.setHashes == t.setHashes)
  {
    SameIdsFind(s.outputs, t.outputs, out.name);
    var found := SortedMap.Find(t.outputs, out.name);
    if found.Some? {
      var f := found.value;
      ProcessNamedOutput(t, out, cached, successful, f);
      SameIdsSorted(s.outputs, t.outputs);
      UpdateSameIds(t.outputs, out.name, f, Some(out.hash));
      SameIdsTrans(s.outputs, t.outputs, SortedMap.Update(t.outputs, out.name, f.(hash := Some(out.hash))));
      PrefixAppend(s.setHashes, t.setHashes, HashCall(successful, f.id, out.hash));
    }
  }

  /** What the outputs processed so far leave behind: ids unchanged, their
      hashes stored, and one `set_hash` per output when the run succeeded. */
  lemma {:induction false} ProcessAllShape(s: OutState, outs: seq<FileInfo>, cached: bool, successful: bool)
    requires SortedMap.Sorted(s.outputs)
    ensures var p := ProcessAll(s, outs, cached, successful);
            && Kept(s, p.state)
            && (p.error.None? ==> p.state.stored == s.stored + HashesOf(outs))
            && (p.error.None? && successful ==>
                  && |p.state.setHashes| == |s.setHashes| + |outs|
                  && forall i :: 0 <= i < |outs| ==> p.state.setHashes[|s.setHashes| + i] == (TargetId(s, outs[i]), outs[i].hash))
            && (!successful ==> p.state.setHashes == s.setHashes)
    decreases |outs|
  {
    if outs == [] {
      assert SameIds(s.outputs, s.outputs);
    } else {
      var init, out := outs[..|outs| - 1], outs[|outs| - 1];
      InitLast(outs);
      ProcessAllNext(s, init, out, cached, successful);
      ProcessAllShape(s, init, cached, successful);
      var p := ProcessAll(s, init, cached, successful);
      if p.error.None? {
        var t := p.state;
        var q := ProcessOutput(t, out, cached, successful);
        ProcessOutputShape(s, t, out, cached, successful);
        if q.error.None? && successful {
          forall i | 0 <= i < |outs| ensures q.state.setHashes[|s.setHashes| + i] == (TargetId(s, outs[i]), outs[i].hash) {
            if i < |init| {
              assert outs[i] == init[i];
            }
          }
        }
      }
    }
  }

  /** One output raises exactly when it is missing from a cached response
      or was not requested. */
  lemma ProcessOutputErrors(s: OutState, t: OutState, out: FileInfo, cached: bool, successful: bool)
    requires Kept(s, t)
    ensures var q := ProcessOutput(t, out, cached, successful);
            && (q.error.None? <==> !(cached && out.contents.None? && out.hash !in t.stored)
                                   && !(out.ftype != Stdout && out.ftype != Stderr && SortedMap.Find(s.outputs, out.name).None?))
            && (q.error.Some? ==> q.error == Some(LogicError(UnrequestedOutput)) || (cached && q.error == Some(RuntimeError(MissingOutput))))
  {
    SameIdsFind(s.outputs, t.outputs, out.name);
  }

  /** The loop raises exactly when some output is missing from a cached
      response or was not requested, and otherwise processes everything. */
  lemma {:induction false} ProcessAllErrors(s: OutState, outs: seq<FileInfo>, cached: bool, successful: bool)
    requires SortedMap.Sorted(s.outputs)
    ensures var p := ProcessAll(s, outs, cached, successful);
            && (p.error.None? <==> forall i :: 0 <= i < |outs| ==> !MissingAt(s, outs, i, cached) && !UnrequestedAt(s, outs, i))
            && (p.error.Some? ==> p.error == Some(LogicError(UnrequestedOutput)) || (cached && p.error == Some(RuntimeError(MissingOutput))))
    decreases |outs|
  {
    if outs != [] {
      var init, out := outs[..|outs| - 1], outs[|outs| - 1];
      InitLast(outs);
      ProcessAllNext(s, init, out, cached, successful);
      ProcessAllErrors(s, init, cached, successful);
      ProcessAllShape(s, init, cached, successful);
      var p := ProcessAll(s, init, cached, successful);
      forall i | 0 <= i < |init|
        ensures MissingAt(s, outs, i, cached) == MissingAt(s, init, i, cached)
        ensures UnrequestedAt(s, outs, i) == UnrequestedAt(s, init, i)
      {
        assert outs[..i] == init[..i];
      }
      assert outs[..|init|] == init;
      if p.error.None? {
        ProcessOutputErrors(s, p.state, out, cached, successful);
        assert MissingAt(s, outs, |init|, cached) <==> cached && out.contents.None? && out.hash !in p.state.stored;
      } else {
        var i :| 0 <= i < |init| && (MissingAt(s, init, i, cached) || UnrequestedAt(s, init, i));
        assert MissingAt(s, outs, i, cached) || UnrequestedAt(s, outs, i);
      }
    }
  }

  /** When the run did not succeed the loop calls `set_hash` for nothing. */
  lemma FailedRunSetsNoHash(s: OutState, outs: seq<FileInfo>, cached: bool)
    requires SortedMap.Sorted(s.outputs)
    ensures ProcessAll(s, outs, cached, false).state.setHashes == s.setHashes
  {
    ProcessAllShape(s, outs, cached, false);
  }

  // ---------------------------------------------------------------------------
  // The execution

  /** What RunWithCache leaves behind, from cache `before` to cache `after`:
      a hit exactly when the caching mode finds the request (by any executor
      under Always, by this one under SameExecutor), the cached response and
      an unchanged cache on a hit, and otherwise the executed response,
      cached unless the executor threw or answered INTERNAL_ERROR. */
  ghost predicate CacheStep(mode: CachingMode, before: map<(Request, string), Response>,
                            after: map<(Request, string), Response>, cached: bool,
                            request: Request, executor: string, outcome: ExecOutcome, r: Response)
  {
    && (cached <==> (mode == Always && exists k :: k in before && k.0 == request)
                    || (mode == SameExecutor && (request, executor) in before))
    && (cached && mode == Always ==>
          (exists k :: k in before && k.0 == request && before[k] == r) && after == before)
    && (cached && mode == SameExecutor ==> r == before[(request, executor)] && after == before)
    && (!cached ==> r == Executed(outcome))
    && (!cached && outcome.Answered? && r.status != Status.InternalError ==> after == before[(request, executor) := r])
    && (!cached && (outcome.Threw? || r.status == Status.InternalError) ==> after == before)
  }

  class Execution {
    var executable: string
    var args: seq<string>
    var keepSandbox: bool
    var exclusive: bool
    var limits: Limits
    var extraTime: real
    var stdin: Option<FileId>
    var inputs: seq<(string, FileId)>
    var outputs: seq<(string, FileId)>
    var stdout: FileId
    var stderr: FileId
    var cachingMode: CachingMode
    var cacher: Cacher
    var cached: bool
    var response: Response
    var successful: bool
    var message: string

    /** The two file maps keep their keys in order. */
    ghost predicate Valid()
      reads this
    {
      SortedMap.Sorted(inputs) && SortedMap.Sorted(outputs)
    }

    /** An execution with no files but its standard output and error. (Its
        constructor in the C++ header is not part of this model.) */
    constructor(executable: string, args: seq<string>, stdout: FileId, stderr: FileId, cacher: Cacher, cachingMode: CachingMode)
      ensures Valid()
      ensures this.executable == executable && this.args == args && this.stdout == stdout && this.stderr == stderr
      ensures this.cacher == cacher && this.cachingMode == cachingMode
      ensures stdin.None? && inputs == [] && outputs == []
    {
      this.executable := executable;
      this.args := args;
      keepSandbox := false;
      exclusive := false;
      limits := Limits(0.0, 0.0, 0, 0, 0, 0, 0, 0);
      extraTime := 0.0;
      stdin := None;
      inputs := [];
      outputs := [];
      this.stdout := stdout;
      this.stderr := stderr;
      this.cachingMode := cachingMode;
      this.cacher := cacher;
      cached := false;
      response := EmptyResponse;
      successful := false;
      message := "";
    }

    /** The output file `name`, created on the first request with the id
        `newId` (FileID's id allocation is not part of this model). */
    method Output(name: string, description: string, newId: int) returns (f: FileId)
      requires Valid()
      modifies this`outputs
      ensures Valid()
      ensures SortedMap.Find(outputs, name) == Some(f)
      ensures SortedMap.Find(old(outputs), name).Some? ==> f == SortedMap.Find(old(outputs), name).value && outputs == old(outputs)
      ensures SortedMap.Find(old(outputs), name).None? ==> f == FileId(newId, description, None, false)
      ensures forall k :: k != name ==> SortedMap.Find(outputs, k) == SortedMap.Find(old(outputs), k)
    {
      if SortedMap.Find(outputs, name).None? {
        SortedMap.InsertSorted(outputs, name, FileId(newId, description, None, false));
        outputs := SortedMap.Insert(outputs, name, FileId(newId, description, None, false));
      }
      f := SortedMap.Find(outputs, name).value;
    }

    /** The ids this execution reads: its standard input first, then its
        inputs in name order. */
    function Deps(): (r: seq<int>)
      reads this
      ensures |r| == (if stdin.Some? then 1 else 0) + |inputs|
      ensures stdin.Some? ==> r[0] == stdin.value.id
      ensures forall i :: 0 <= i < |inputs| ==> r[|r| - |inputs| + i] == inputs[i].1.id
    {
      (if stdin.Some? then [stdin.value.id] else []) + Ids(inputs, (f: FileId) => f.id)
    }

    /** The ids this execution writes: standard output, standard error,
        then its outputs in name order. */
    function Produces(): (r: seq<int>)
      reads this
      ensures |r| == 2 + |outputs|
      ensures r[0] == stdout.id && r[1] == stderr.id
      ensures forall i :: 0 <= i < |outputs| ==> r[2 + i] == outputs[i].1.id
    {
      [stdout.id, stderr.id] + Ids(outputs, (f: FileId) => f.id)
    }

    function Request(getHash: int -> Sha): Request
      reads this
    {
      BuildRequest(executable, keepSandbox, args, stdin, inputs, outputs, limits, extraTime, exclusive, getHash)
    }

    /** RunWithCache: a cached response when the caching mode allows one,
        otherwise the executor's, cached unless it is an internal error. */
    method RunWithCache(outcome: ExecOutcome, executor: string, request: Request) returns (r: Response)
      modifies this`cached, cacher
      ensures CacheStep(cachingMode, old(cacher.entries), cacher.entries, cached, request, executor, outcome, r)
    {
      cached := true;
      if cachingMode == Always {
        var hit := cacher.GetAny(request);
        if hit.Some? {
          return hit.value;
        }
      } else if cachingMode == SameExecutor {
        var hit := cacher.Get(request, executor);
        if hit.Some? {
          return hit.value;
        }
      }
      cached := false;
      match outcome
      case Answered(resp) =>
        r := resp;
        if r.status != Status.InternalError {
          cacher.Put(request, executor, r);
        }
      case Threw(what) =>
        r := ExceptionResponse(what);
    }

    /** One output of the response, as the loop body of Run handles it. */
    method ReadOutput(out: FileInfo, stored: set<Sha>, setHashes: seq<(int, Sha)>)
      returns (error: Option<Thrown>, stored': set<Sha>, setHashes': seq<(int, Sha)>)
      requires SortedMap.Sorted(outputs)
      modifies this`stdout, this`stderr, this`outputs
      ensures SortedMap.Sorted(outputs)
      ensures ProcessOutput(OutState(old(stdout), old(stderr), old(outputs), stored, setHashes), out, cached, successful)
              == Processed(OutState(stdout, stderr, outputs, stored', setHashes'), error)
    {
      ghost var s := OutState(stdout, stderr, outputs, stored, setHashes);
      stored', setHashes' := stored, setHashes;
      error := None;
      if out.hash !in stored {
        if out.contents.None? && cached {
          error := Some(RuntimeError(MissingOutput));
          return;
        }
        stored' := stored + {out.hash};
      }
      assert stored' == stored + {out.hash};
      if out.ftype == Stdout {
        stdout := stdout.(hash := Some(out.hash));
        setHashes' := setHashes + HashCall(successful, stdout.id, out.hash);
        ProcessStream(s, out, cached, successful);
      } else if out.ftype == Stderr {
        stderr := stderr.(hash := Some(out.hash));
        setHashes' := setHashes + HashCall(successful, stderr.id, out.hash);
        ProcessStream(s, out, cached, successful);
      } else {
        var f := SortedMap.Find(outputs, out.name);
        if f.None? {
          error := Some(LogicError(UnrequestedOutput));
          ProcessUnrequested(s, out, cached, successful);
          return;
        }
        SortedMap.UpdateSorted(outputs, out.name, f.value.(hash := Some(out.hash)));
        ProcessNamedOutput(s, out, cached, successful, f.value);
        outputs := SortedMap.Update(outputs, out.name, f.value.(hash := Some(out.hash)));
        setHashes' := setHashes + HashCall(successful, f.value.id, out.hash);
      }
    }

    /** The output loop of Run, stopping at the first exception. */
    method ReadOutputs(outs: seq<FileInfo>, store: set<Sha>)
      returns (error: Option<Thrown>, setHashes: seq<(int, Sha)>, stored: set<Sha>)
      requires SortedMap.Sorted(outputs)
      modifies this`stdout, this`stderr, this`outputs
      ensures SortedMap.Sorted(outputs)
      ensures ProcessAll(OutState(old(stdout), old(stderr), old(outputs), store, []), outs, cached, successful)
              == Processed(OutState(stdout, stderr, outputs, stored, setHashes), error)
    {
      var s0 := OutState(stdout, stderr, outputs, store, []);
      setHashes, stored := [], store;
      for i := 0 to |outs|
        invariant SortedMap.Sorted(outputs)
        invariant ProcessAll(s0, outs[..i], cached, successful) == Processed(OutState(stdout, stderr, outputs, stored, setHashes), None)
      {
        ghost var t := OutState(stdout, stderr, outputs, stored, setHashes);
        PrefixSnoc(outs, i);
        ProcessAllNext(s0, outs[..i], outs[i], cached, successful);
        var err;
        err, stored, setHashes := ReadOutput(outs[i], stored, setHashes);
        if err.Some? {
          ProcessAllStops(s0, outs[..i + 1], outs[i + 1..], cached, successful);
          PrefixSuffix(outs, i + 1);
          return err, setHashes, stored;
        }
      }
      PrefixSuffix(outs, 0);
      error := None;
    }

    /** Run: build the request, get the response, raise on an internal
        error, then read every output file, returning the exception that
        stopped the loop, if any, the `set_hash` calls and the new store. */
    method Run(getHash: int -> Sha, outcome: ExecOutcome, executor: string, store: set<Sha>)
      returns (error: Option<Thrown>, setHashes: seq<(int, Sha)>, stored: set<Sha>)
      requires Valid()
      modifies this`cached, this`response, this`successful, this`message, this`stdout, this`stderr, this`outputs, cacher
      ensures Valid()
      ensures CacheStep(cachingMode, old(cacher.entries), cacher.entries, cached, old(Request(getHash)),
                        executor, outcome, response)
      ensures response.status == Status.InternalError ==>
                && error == Some(RuntimeError(response.errorMessage)) && setHashes == [] && stored == store
                && stdout == old(stdout) && stderr == old(stderr) && outputs == old(outputs)
                && successful == old(successful) && message == old(message)
      ensures response.status != Status.InternalError ==>
                && successful == (response.status == Status.Success) && message == response.errorMessage
                && ProcessAll(OutState(old(stdout), old(stderr), old(outputs), store, []), response.outputs, cached, successful)
                   == Processed(OutState(stdout, stderr, outputs, stored, setHashes), error)
    {
      var request := Request(getHash);
      var resp := RunWithCache(outcome, executor, request);
      error, setHashes, stored := HandleResponse(resp, store);
    }

    /** The part of Run after the response is known. */
    method HandleResponse(resp: Response, store: set<Sha>)
      returns (error: Option<Thrown>, setHashes: seq<(int, Sha)>, stored: set<Sha>)
      requires Valid()
      modifies this`response, this`successful, this`message, this`stdout, this`stderr, this`outputs
      ensures Valid() && response == resp
      ensures resp.status == Status.InternalError ==>
                && error == Some(RuntimeError(resp.errorMessage)) && setHashes == [] && stored == store
                && stdout == old(stdout) && stderr == old(stderr) && outputs == old(outputs)
                && successful == old(successful) && message == old(message)
      ensures resp.status != Status.InternalError ==>
                && successful == (resp.status == Status.Success) && message == resp.errorMessage
                && ProcessAll(OutState(old(stdout), old(stderr), old(outputs), store, []), resp.outputs, cached, successful)
                   == Processed(OutState(stdout, stderr, outputs, stored, setHashes), error)
    {
      response := resp;
      if resp.status == Status.InternalError {
        return Some(RuntimeError(resp.errorMessage)), [], store;
      }
      successful := resp.status == Status.Success;
      message := resp.errorMessage;
      error, setHashes, stored := ReadOutputs(resp.outputs, store);
    }
  }
}

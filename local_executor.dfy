/** The executor that runs requests on this machine
    (executor/local_executor.cpp): the counter of busy worker slots, the
    rules that place request files in the sandbox and read the produced
    files back, and the steps of one execution. The sandbox, the temporary
    directory and the file store are parameters: what the sandbox ran, the
    contents of each file it left, and the hash of some contents. */
module LocalExecutor {
  import opened Common
  import opened Proto

  /** The directory inside the temporary directory where the program runs. */
  const BoxDir: string := "box"
  /** Files up to this size travel inline in the response. */
  const ChunkSize: int := 32 * 1024

  const InvalidFileName: string := "Invalid file name"
  const FifosNotImplemented: string := "FIFOs are not implemented yet"
  const SmallFileChunks: string := "Small file with more than one chunk"
  const ExclusiveBusy: string := "Exclusive execution failed: worker busy"
  const SharedBusy: string := "Execution failed: worker busy"

  // ---------------------------------------------------------------------------
  // Worker slots

  /** The process-wide count of busy slots that `ThreadGuard` maintains. An
      exclusive execution takes every slot, a shared one takes one. The
      ghost multiset records the guards alive (true for an exclusive one). */
  class Slots {
    const max: int
    var cur: int
    ghost var held: multiset<bool>

    /** The count is in range and agrees with the guards alive; with at
        least one slot an exclusive guard is alive alone. */
    ghost predicate Valid()
      reads this
    {
      && 0 <= cur <= max
      && (held[true] == 0 ==> cur == held[false])
      && (held[true] > 0 ==> cur == max && held[false] == 0 && (max > 0 ==> held[true] == 1))
    }

    constructor(max: nat)
      ensures Valid() && this.max == max && cur == 0 && held == multiset{}
    {
      this.max := max;
      cur := 0;
      held := multiset{};
    }

    /** The guard's constructor: an exclusive guard needs every slot free
        and takes them all; a shared one needs one free slot. */
    method Acquire(exclusive: bool) returns (error: Option<Thrown>)
      requires Valid()
      modifies this
      ensures Valid()
      ensures exclusive ==> (error.Some? <==> old(cur) != 0)
      ensures !exclusive ==> (error.Some? <==> old(cur) == max)
      ensures error.Some? ==> error == Some(TooManyExecutions(if exclusive then ExclusiveBusy else SharedBusy))
                              && cur == old(cur) && held == old(held)
      ensures error.None? ==> cur == (if exclusive then max else old(cur) + 1) && held == old(held) + multiset{exclusive}
    {
      if exclusive {
        if cur != 0 {
          return Some(TooManyExecutions(ExclusiveBusy));
        }
        cur := max;
      } else {
        if cur == max {
          return Some(TooManyExecutions(SharedBusy));
        }
        cur := cur + 1;
      }
      held := held + multiset{exclusive};
      error := None;
    }

    /** The guard's destructor: an exclusive guard frees every slot, a
        shared one its own. */
    method Release(exclusive: bool)
      requires Valid() && exclusive in held
      modifies this
      ensures Valid()
      ensures cur == (if exclusive then 0 else old(cur) - 1)
      ensures held == old(held) - multiset{exclusive}
    {
      cur := if exclusive then 0 else cur - 1;
      held := held - multiset{exclusive};
    }

    /** With at least one slot, an exclusive execution runs alone. */
    lemma ExclusiveAlone()
      requires Valid() && max > 0 && true in held
      ensures held == multiset{true}
    {
      assert forall b :: held[b] == multiset{true}[b];
    }
  }

  // ---------------------------------------------------------------------------
  // File names

  predicate IsAlnum(c: char) {
    ('a' <= c <= 'z') || ('A' <= c <= 'Z') || ('0' <= c <= '9')
  }

  /** The characters a sandbox file name may contain. */
  predicate IsValidChar(c: char) {
    IsAlnum(c) || c == '.' || c == '-' || c == '_'
  }

  /** `std::find_if` over a name: the first position whose character is
      valid (`want`) or invalid (`!want`), or the length if none is. */
  function FindIf(name: string, want: bool): (r: nat)
    ensures r <= |name|
    ensures r < |name| ==> IsValidChar(name[r]) == want
    ensures forall j :: 0 <= j < r ==> IsValidChar(name[j]) != want
  {
    if name == [] then 0
    else if IsValidChar(name[0]) == want then 0
    else 1 + FindIf(name[1..], want)
  }

  /** Whether a name is refused. As written the search looks for a valid
      character, so a name is refused as soon as it has one; the intended
      check refuses a name with an invalid character. */
  predicate NameRejected(name: string, intended: bool) {
    FindIf(name, !intended) != |name|
  }

  lemma RejectedAsWritten(name: string)
    ensures NameRejected(name, false) <==> exists i :: 0 <= i < |name| && IsValidChar(name[i])
  {
    if NameRejected(name, false) {
      assert IsValidChar(name[FindIf(name, true)]);
    }
  }

  lemma RejectedIntended(name: string)
    ensures NameRejected(name, true) <==> exists i :: 0 <= i < |name| && !IsValidChar(name[i])
  {
    if NameRejected(name, true) {
      assert !IsValidChar(name[FindIf(name, false)]);
    }
  }

  function JoinPath(a: string, b: string): string {
    a + "/" + b
  }

  /** Where an input goes, where it is copied from, and whether it is the
      standard input. */
  datatype Placement = Placement(dest: string, source: Sha, stdinFile: Option<string>)

  /** `PrepareFile`: the standard input goes to `stdin` in the temporary
      directory, any other file into the box under its own name, once the
      name passes the check. */
  function PrepareFile(info: FileInfo, tmp: string, intended: bool): (r: Result<Placement>)
    ensures r.Err? <==> info.ftype != Stdin && NameRejected(info.name, intended)
    ensures r.Err? ==> r.error == InvalidFileName
    ensures r.Ok? ==> r.value.source == info.hash && (r.value.stdinFile.Some? <==> info.ftype == Stdin)
  {
    if info.ftype == Stdin then
      var path := JoinPath(tmp, "stdin");
      Ok(Placement(path, info.hash, Some(path)))
    else if NameRejected(info.name, intended) then Err(InvalidFileName)
    else Ok(Placement(JoinPath(tmp, JoinPath(BoxDir, info.name)), info.hash, None))
  }

  /** As written, an ordinary name such as `input.txt` is refused, while a
      name made only of separators is let through. */
  lemma PrepareRefusesOrdinaryNames(tmp: string, h: Sha)
    ensures PrepareFile(FileInfo("input.txt", Normal, h, None, false), tmp, false) == Err(InvalidFileName)
    ensures PrepareFile(FileInfo("input.txt", Normal, h, None, false), tmp, true).Ok?
    ensures PrepareFile(FileInfo("/", Normal, h, None, false), tmp, false).Ok?
    ensures PrepareFile(FileInfo("/", Normal, h, None, false), tmp, true) == Err(InvalidFileName)
  {
    OrdinarySearches();
    SeparatorSearches();
  }

  /** Searching `input.txt`: its first character is valid and none is invalid. */
  lemma OrdinarySearches()
    ensures FindIf("input.txt", true) == 0 && FindIf("input.txt", false) == |"input.txt"|
  {
    OrdinaryNameValid();
    AllValidFound("input.txt");
  }

  /** Searching `/`: its only character is invalid. */
  lemma SeparatorSearches()
    ensures FindIf("/", true) == |"/"| && FindIf("/", false) == 0
  {
    assert !IsValidChar("/"[0]);
  }

  /** Every character of `input.txt` is valid. */
  lemma OrdinaryNameValid()
    ensures forall i :: 0 <= i < |"input.txt"| ==> IsValidChar("input.txt"[i])
  {
  }

  /** A name of valid characters has no invalid one to find. */
  lemma {:induction false} AllValidFound(name: string)
    requires forall i :: 0 <= i < |name| ==> IsValidChar(name[i])
    ensures FindIf(name, false) == |name|
    ensures name != [] ==> FindIf(name, true) == 0
  {
    if name != [] {
      AllValidFound(name[1..]);
    }
  }

  /** With the intended check, a file other than the standard input lands
      directly inside the box: its name holds no path separator. */
  lemma {:induction false} PreparedInsideBox(info: FileInfo, tmp: string)
    requires PrepareFile(info, tmp, true).Ok? && info.ftype != Stdin
    ensures PrepareFile(info, tmp, true).value.dest == tmp + "/" + BoxDir + "/" + info.name
    ensures forall i :: 0 <= i < |info.name| ==> info.name[i] != '/'
  {
    RejectedIntended(info.name);
    assert !IsValidChar('/');
  }

  /** The file of the temporary directory a produced file is read from,
      once its name passed the check. As written the standard output is
      read from `stderr`, and the standard error falls into the name check
      with an empty name, which reads the box directory itself. */
  function RetrievePath(info: FileInfo, tmp: string, intended: bool): string {
    if info.ftype == Stdin then JoinPath(tmp, "stdin")
    else if info.ftype == Stdout then JoinPath(tmp, if intended then "stdout" else "stderr")
    else if intended && info.ftype == Stderr then JoinPath(tmp, "stderr")
    else JoinPath(tmp, JoinPath(BoxDir, info.name))
  }

  /** Whether reading back `info` starts with the name check. */
  predicate RetrieveChecked(info: FileInfo, intended: bool) {
    if intended then info.ftype == Normal else info.ftype != Stdin && info.ftype != Stdout
  }

  /** `RetrieveFile`: the produced file, hashed, with its contents inline
      when it is small. */
  function RetrieveFile(info: FileInfo, tmp: string, read: string -> seq<bv8>, hashOf: seq<bv8> -> Sha, intended: bool): (r: Result<FileInfo>)
    ensures r == Err(InvalidFileName) <== RetrieveChecked(info, intended) && NameRejected(info.name, intended)
    ensures r.Err? <==> || (RetrieveChecked(info, intended) && NameRejected(info.name, intended))
                        || (&& |read(RetrievePath(info, tmp, intended))| <= ChunkSize
                            && info.contents.Some? && info.contents.value != [])
    ensures r.Ok? ==> r.value.name == info.name && r.value.ftype == info.ftype && r.value.executable == info.executable
                      && r.value.hash == hashOf(read(RetrievePath(info, tmp, intended)))
    ensures r.Ok? ==> r.value.contents == if |read(RetrievePath(info, tmp, intended))| <= ChunkSize then Some(read(RetrievePath(info, tmp, intended))) else info.contents
  {
    if RetrieveChecked(info, intended) && NameRejected(info.name, intended) then Err(InvalidFileName)
    else
      var data := read(RetrievePath(info, tmp, intended));
      var out := info.(hash := hashOf(data));
      if |data| <= ChunkSize then
        if info.contents.Some? && info.contents.value != [] then Err(SmallFileChunks)
        else Ok(out.(contents := Some(data)))
      else Ok(out)
  }

  /** The standard output and error the executor reads back: only their
      role is set. */
  const StdoutInfo: FileInfo := FileInfo("", Stdout, [], None, false)
  const StderrInfo: FileInfo := FileInfo("", Stderr, [], None, false)

  /** As written, the standard output of the response carries the hash of
      the standard error file, and the standard error the hash of whatever
      reading the box directory gives; as intended each stream carries
      its own file's hash. */
  lemma StreamsSwapped(tmp: string, read: string -> seq<bv8>, hashOf: seq<bv8> -> Sha)
    ensures RetrieveFile(StdoutInfo, tmp, read, hashOf, false).value.hash == hashOf(read(JoinPath(tmp, "stderr")))
    ensures RetrieveFile(StderrInfo, tmp, read, hashOf, false).value.hash == hashOf(read(JoinPath(tmp, JoinPath(BoxDir, ""))))
    ensures RetrieveFile(StdoutInfo, tmp, read, hashOf, true).value.hash == hashOf(read(JoinPath(tmp, "stdout")))
    ensures RetrieveFile(StderrInfo, tmp, read, hashOf, true).value.hash == hashOf(read(JoinPath(tmp, "stderr")))
  {
    assert FindIf("", true) == 0;
  }

  // ---------------------------------------------------------------------------
  // The steps of an execution, as functions of their inputs

  /** What `MaybeRequestFile` changes: the hashes in the store and the
      hashes asked of the caller through the file callback. */
  datatype StoreState = StoreState(stored: set<Sha>, requested: seq<Sha>)

  /** An input already stored is left alone; otherwise its inline contents
      are written, or the caller is asked for it. The callback is taken to
      fill the store before returning. */
  function MaybeRequest(s: StoreState, info: FileInfo): StoreState {
    if info.hash in s.stored then s
    else StoreState(s.stored + {info.hash}, s.requested + if info.contents.Some? then [] else [info.hash])
  }

  function RequestAll(s: StoreState, infos: seq<FileInfo>): StoreState {
    if infos == [] then s else MaybeRequest(RequestAll(s, infos[..|infos| - 1]), infos[|infos| - 1])
  }

  /** After the inputs are requested every input is stored; the caller is
      asked only for hashes that were missing, each at most once, and
      only for inputs that did not travel inline. */
  lemma RequestAllShape(s: StoreState, infos: seq<FileInfo>)
    ensures var t := RequestAll(s, infos);
            && t.stored == s.stored + HashesOf(infos)
            && |s.requested| <= |t.requested| && t.requested[..|s.requested|] == s.requested
            && (forall k :: |s.requested| <= k < |t.requested| ==>
                  t.requested[k] !in s.stored && exists i :: 0 <= i < |infos| && infos[i].hash == t.requested[k] && infos[i].contents.None?)
            && (forall k, l :: |s.requested| <= k < l < |t.requested| ==> t.requested[k] != t.requested[l])
            && (forall k :: |s.requested| <= k < |t.requested| ==> t.requested[k] in t.stored)
  {
    RequestAllGrows(s, infos);
    RequestAllAsked(s, infos);
    RequestAllOnce(s, infos);
  }

  /** The store gains the inputs' hashes; earlier requests are kept. */
  lemma {:induction false} RequestAllGrows(s: StoreState, infos: seq<FileInfo>)
    ensures var t := RequestAll(s, infos);
            && t.stored == s.stored + HashesOf(infos)
            && |s.requested| <= |t.requested| && t.requested[..|s.requested|] == s.requested
    decreases |infos|
  {
    if infos != [] {
      var init := infos[..|infos| - 1];
      RequestAllGrows(s, init);
      var p := RequestAll(s, init);
      var t := MaybeRequest(p, infos[|infos| - 1]);
      assert t.requested[..|s.requested|] == p.requested[..|s.requested|];
    }
  }

  /** Every new request is a hash that was missing, of an input without
      inline contents. */
  lemma {:induction false} RequestAllAsked(s: StoreState, infos: seq<FileInfo>)
    ensures var t := RequestAll(s, infos);
            && |s.requested| <= |t.requested|
            && (forall k :: |s.requested| <= k < |t.requested| ==>
                  t.requested[k] !in s.stored && exists i :: 0 <= i < |infos| && infos[i].hash == t.requested[k] && infos[i].contents.None?)
    decreases |infos|
  {
    if infos != [] {
      var init, info := infos[..|infos| - 1], infos[|infos| - 1];
      RequestAllAsked(s, init);
      RequestAllGrows(s, init);
      var p := RequestAll(s, init);
      var t := MaybeRequest(p, info);
      forall k | |s.requested| <= k < |t.requested|
        ensures t.requested[k] !in s.stored && exists i :: 0 <= i < |infos| && infos[i].hash == t.requested[k] && infos[i].contents.None?
      {
        if k < |p.requested| {
          assert t.requested[k] == p.requested[k];
          var i :| 0 <= i < |init| && init[i].hash == p.requested[k] && init[i].contents.None?;
          assert infos[i] == init[i];
        } else {
          assert infos[|init|] == info;
        }
      }
    }
  }

  /** New requests are distinct and each is in the store afterwards. */
  lemma {:induction false} RequestAllOnce(s: StoreState, infos: seq<FileInfo>)
    ensures var t := RequestAll(s, infos);
            && |s.requested| <= |t.requested|
            && (forall k, l :: |s.requested| <= k < l < |t.requested| ==> t.requested[k] != t.requested[l])
            && (forall k :: |s.requested| <= k < |t.requested| ==> t.requested[k] in t.stored)
    decreases |infos|
  {
    if infos != [] {
      var init, info := infos[..|infos| - 1], infos[|infos| - 1];
      RequestAllOnce(s, init);
      var p := RequestAll(s, init);
      var t := MaybeRequest(p, info);
      forall k, l | |s.requested| <= k < l < |t.requested| ensures t.requested[k] != t.requested[l] {
        assert t.requested[k] == p.requested[k];
        if l < |p.requested| {
          assert t.requested[l] == p.requested[l];
        }
      }
    }
  }

  /** `PrepareFile` over every input, stopping at the first refusal. */
  function PrepareAll(infos: seq<FileInfo>, tmp: string, intended: bool): (r: Result<seq<Placement>>)
    ensures r.Err? ==> r.error == InvalidFileName
  {
    if infos == [] then Ok([])
    else match PrepareAll(infos[..|infos| - 1], tmp, intended)
      case Err(e) => Err(e)
      case Ok(ps) =>
        match PrepareFile(infos[|infos| - 1], tmp, intended)
        case Err(e) => Err(e)
        case Ok(p) => Ok(ps + [p])
  }

  /** The inputs are refused exactly when one of them, other than a
      standard input, has a refused name; otherwise each gets its place. */
  lemma {:induction false} PrepareAllShape(infos: seq<FileInfo>, tmp: string, intended: bool)
    ensures var r := PrepareAll(infos, tmp, intended);
            && (r.Err? <==> exists i :: 0 <= i < |infos| && infos[i].ftype != Stdin && NameRejected(infos[i].name, intended))
            && (r.Ok? ==> |r.value| == |infos| && forall i :: 0 <= i < |infos| ==> Ok(r.value[i]) == PrepareFile(infos[i], tmp, intended))
    decreases |infos|
  {
    if infos != [] {
      var init, info := infos[..|infos| - 1], infos[|infos| - 1];
      PrepareAllShape(init, tmp, intended);
      InitLast(infos);
      var r := PrepareAll(infos, tmp, intended);
      if r.Err? && PrepareAll(init, tmp, intended).Err? {
        var i :| 0 <= i < |init| && init[i].ftype != Stdin && NameRejected(init[i].name, intended);
        assert infos[i] == init[i];
      }
      if r.Ok? {
        forall i | 0 <= i < |infos| ensures Ok(r.value[i]) == PrepareFile(infos[i], tmp, intended) {
          if i < |init| {
            assert infos[i] == init[i];
          }
        }
      } else {
        if PrepareAll(init, tmp, intended).Ok? {
          assert infos[|init|] == info;
        }
      }
    }
  }

  /** `RetrieveFile` over some files, in order, stopping at the first
      error. */
  function RetrieveAll(infos: seq<FileInfo>, tmp: string, read: string -> seq<bv8>, hashOf: seq<bv8> -> Sha, intended: bool): Result<seq<FileInfo>> {
    if infos == [] then Ok([])
    else match RetrieveAll(infos[..|infos| - 1], tmp, read, hashOf, intended)
      case Err(e) => Err(e)
      case Ok(outs) =>
        match RetrieveFile(infos[|infos| - 1], tmp, read, hashOf, intended)
        case Err(e) => Err(e)
        case Ok(o) => Ok(outs + [o])
  }

  /** The hash `RetrieveFile` copies into the store: none for a refused
      name; otherwise the file is copied before the small-file check, so
      even that failure leaves it stored. */
  function Copied(info: FileInfo, tmp: string, read: string -> seq<bv8>, hashOf: seq<bv8> -> Sha, intended: bool): (r: set<Sha>)
    ensures RetrieveFile(info, tmp, read, hashOf, intended).Ok? ==> r == {RetrieveFile(info, tmp, read, hashOf, intended).value.hash}
    ensures RetrieveFile(info, tmp, read, hashOf, intended) == Err(SmallFileChunks) ==> |r| == 1
    ensures RetrieveFile(info, tmp, read, hashOf, intended) == Err(InvalidFileName) ==> r == {}
  {
    if RetrieveChecked(info, intended) && NameRejected(info.name, intended) then {}
    else {hashOf(read(RetrievePath(info, tmp, intended)))}
  }

  /** What the read-back loop copies into the store: the files up to the
      first failure, that one included. */
  function CopiedAll(infos: seq<FileInfo>, tmp: string, read: string -> seq<bv8>, hashOf: seq<bv8> -> Sha, intended: bool): set<Sha> {
    if infos == [] then {}
    else if RetrieveAll(infos[..|infos| - 1], tmp, read, hashOf, intended).Err? then
      CopiedAll(infos[..|infos| - 1], tmp, read, hashOf, intended)
    else CopiedAll(infos[..|infos| - 1], tmp, read, hashOf, intended) + Copied(infos[|infos| - 1], tmp, read, hashOf, intended)
  }

  /** Reading back succeeds exactly when every file does, and then the
      response lists one file per file asked for, in order. */
  lemma {:induction false} RetrieveAllShape(infos: seq<FileInfo>, tmp: string, read: string -> seq<bv8>, hashOf: seq<bv8> -> Sha, intended: bool)
    ensures var r := RetrieveAll(infos, tmp, read, hashOf, intended);
            && (r.Ok? <==> forall i :: 0 <= i < |infos| ==> RetrieveFile(infos[i], tmp, read, hashOf, intended).Ok?)
            && (r.Ok? ==> |r.value| == |infos| && forall i :: 0 <= i < |infos| ==> Ok(r.value[i]) == RetrieveFile(infos[i], tmp, read, hashOf, intended))
    decreases |infos|
  {
    if infos != [] {
      var init, info := infos[..|infos| - 1], infos[|infos| - 1];
      RetrieveAllShape(init, tmp, read, hashOf, intended);
      InitLast(infos);
      var r := RetrieveAll(infos, tmp, read, hashOf, intended);
      forall i | 0 <= i < |init| ensures infos[i] == init[i] {
      }
      if r.Ok? {
        forall i | 0 <= i < |infos| ensures Ok(r.value[i]) == RetrieveFile(infos[i], tmp, read, hashOf, intended) {
          if i < |init| {
            assert infos[i] == init[i];
          }
        }
      } else if RetrieveAll(init, tmp, read, hashOf, intended).Err? {
        var i :| 0 <= i < |init| && RetrieveFile(init[i], tmp, read, hashOf, intended).Err?;
        assert infos[i] == init[i];
      } else {
        assert infos[|init|] == info;
      }
    }
  }

  /** The status the executor reports: a run ended by a signal is `SIGNAL`,
      any other run `SUCCESS`, whatever its exit code. */
  function StatusOf(signal: int): (r: Status)
    ensures r == Status.Success <==> signal == 0
    ensures r == Status.Success || r == Status.Signal
  {
    if signal == 0 then Status.Success else Status.Signal
  }

  /** What the sandbox did: it ran the program, ending with an exit code
      and a signal, or it failed with a message. */
  datatype SandboxRun = Ran(statusCode: int, signal: int) | SandboxError(message: string)

  /** Whether the slot counter refuses a new guard. */
  predicate Busy(exclusive: bool, cur: int, max: int) {
    if exclusive then cur != 0 else cur == max
  }

  /** The outcome of `Execute`, given the sandbox's run, the files it left
      and the slot count: FIFOs are refused; a refused input name, a busy
      worker, a sandbox failure or a refused output name raises; otherwise
      the response carries the exit code, the signal, the status from the
      signal and the files read back. */
  function ExecuteSpec(request: Request, tmp: string, sandbox: SandboxRun, read: string -> seq<bv8>, hashOf: seq<bv8> -> Sha,
                       intended: bool, cur: int, max: int): ExecutorResult
  {
    if request.fifos != [] then Failed(LogicError(FifosNotImplemented))
    else if PrepareAll(request.inputs, tmp, intended).Err? then Failed(RuntimeError(InvalidFileName))
    else RunSpec(request, tmp, sandbox, read, hashOf, intended, cur, max)
  }

  /** The outcome once the inputs are placed: a busy worker, a sandbox
      failure or a refused output name raises; otherwise the response. */
  function RunSpec(request: Request, tmp: string, sandbox: SandboxRun, read: string -> seq<bv8>, hashOf: seq<bv8> -> Sha,
                   intended: bool, cur: int, max: int): ExecutorResult
  {
    if Busy(request.exclusive, cur, max) then
      Failed(TooManyExecutions(if request.exclusive then ExclusiveBusy else SharedBusy))
    else if sandbox.SandboxError? then Failed(RuntimeError(sandbox.message))
    else match RetrieveAll([StdoutInfo, StderrInfo] + request.outputs, tmp, read, hashOf, intended)
      case Err(e) => Failed(RuntimeError(e))
      case Ok(outs) => Replied(Response(StatusOf(sandbox.signal), sandbox.statusCode, sandbox.signal, "", outs))
  }

  /** A response is given only for a request without FIFOs whose input
      names all pass, run by a sandbox that did not fail, on a worker with
      a free slot. It reports SUCCESS exactly when no signal ended the
      run, and lists the standard output, the standard error and then
      every requested output, in order, each with its hash. */
  lemma ExecuteReplied(request: Request, tmp: string, sandbox: SandboxRun, read: string -> seq<bv8>, hashOf: seq<bv8> -> Sha,
                       intended: bool, cur: int, max: int)
    requires ExecuteSpec(request, tmp, sandbox, read, hashOf, intended, cur, max).Replied?
    ensures var r := ExecuteSpec(request, tmp, sandbox, read, hashOf, intended, cur, max).response;
            && request.fifos == [] && sandbox.Ran? && !Busy(request.exclusive, cur, max)
            && (forall i :: 0 <= i < |request.inputs| && request.inputs[i].ftype != Stdin ==> !NameRejected(request.inputs[i].name, intended))
            && (r.status == Status.Success <==> sandbox.signal == 0) && r.statusCode == sandbox.statusCode
            && |r.outputs| == 2 + |request.outputs|
            && r.outputs[0].ftype == Stdout && r.outputs[1].ftype == Stderr
            && (forall i :: 0 <= i < |request.outputs| ==>
                  r.outputs[2 + i].name == request.outputs[i].name
                  && r.outputs[2 + i].hash == hashOf(read(RetrievePath(request.outputs[i], tmp, intended))))
  {
    var infos := [StdoutInfo, StderrInfo] + request.outputs;
    PrepareAllShape(request.inputs, tmp, intended);
    RetrieveAllShape(infos, tmp, read, hashOf, intended);
    assert infos[0] == StdoutInfo && infos[1] == StderrInfo;
    forall i | 0 <= i < |request.outputs| ensures infos[2 + i] == request.outputs[i] {
    }
  }

  /** A request is refused for its input names exactly when one of them,
      other than a standard input, does not pass the check. */
  lemma ExecuteRefusesNames(request: Request, tmp: string, sandbox: SandboxRun, read: string -> seq<bv8>, hashOf: seq<bv8> -> Sha,
                            intended: bool, cur: int, max: int)
    requires request.fifos == []
    requires exists i :: 0 <= i < |request.inputs| && request.inputs[i].ftype != Stdin && NameRejected(request.inputs[i].name, intended)
    ensures ExecuteSpec(request, tmp, sandbox, read, hashOf, intended, cur, max) == Failed(RuntimeError(InvalidFileName))
  {
    PrepareAllShape(request.inputs, tmp, intended);
  }

  // ---------------------------------------------------------------------------
  // The executor

  class Executor {
    /** The file store, as the set of hashes in it. */
    var stored: set<Sha>
    /** The hashes asked of callers so far. */
    var requested: seq<Sha>
    /** The process-wide slot counter. */
    const slots: Slots

    constructor(stored: set<Sha>, slots: Slots)
      ensures this.stored == stored && requested == [] && this.slots == slots
    {
      this.stored := stored;
      requested := [];
      this.slots := slots;
    }

    method MaybeRequestFile(info: FileInfo)
      modifies this`stored, this`requested
      ensures StoreState(stored, requested) == MaybeRequest(StoreState(old(stored), old(requested)), info)
    {
      if info.hash in stored {
        return;
      }
      stored := stored + {info.hash};
      if info.contents.None? {
        requested := requested + [info.hash];
      }
    }

    method RequestFiles(infos: seq<FileInfo>)
      modifies this`stored, this`requested
      ensures StoreState(stored, requested) == RequestAll(StoreState(old(stored), old(requested)), infos)
    {
      ghost var s0 := StoreState(stored, requested);
      for i := 0 to |infos|
        invariant StoreState(stored, requested) == RequestAll(s0, infos[..i])
      {
        PrefixOfPrefix(infos, i);
        MaybeRequestFile(infos[i]);
      }
      PrefixSuffix(infos, 0);
    }

    /** The placement loop of `Execute`. */
    method PrepareFiles(infos: seq<FileInfo>, tmp: string, intended: bool) returns (r: Result<seq<Placement>>)
      ensures r == PrepareAll(infos, tmp, intended)
    {
      var placed: seq<Placement> := [];
      for i := 0 to |infos|
        invariant PrepareAll(infos[..i], tmp, intended) == Ok(placed)
      {
        PrefixOfPrefix(infos, i);
        var p := PrepareFile(infos[i], tmp, intended);
        if p.Err? {
          PrepareAllStops(infos[..i + 1], infos[i + 1..], tmp, intended);
          PrefixSuffix(infos, i + 1);
          return Err(p.error);
        }
        placed := placed + [p.value];
      }
      PrefixSuffix(infos, 0);
      r := Ok(placed);
    }

    /** The read-back loop of `Execute`: each file read is copied into the
        store, the one that fails the small-file check included. */
    method RetrieveFiles(infos: seq<FileInfo>, tmp: string, read: string -> seq<bv8>, hashOf: seq<bv8> -> Sha, intended: bool)
      returns (r: Result<seq<FileInfo>>)
      modifies this`stored
      ensures r == RetrieveAll(infos, tmp, read, hashOf, intended)
      ensures stored == old(stored) + CopiedAll(infos, tmp, read, hashOf, intended)
      ensures r.Ok? ==> stored == old(stored) + HashesOf(r.value)
    {
      var outs: seq<FileInfo> := [];
      for i := 0 to |infos|
        invariant RetrieveAll(infos[..i], tmp, read, hashOf, intended) == Ok(outs)
        invariant CopiedAll(infos[..i], tmp, read, hashOf, intended) == HashesOf(outs)
        invariant stored == old(stored) + HashesOf(outs)
      {
        var o, copied := RetrieveOne(infos, i, outs, tmp, read, hashOf, intended);
        if o.Err? {
          stored := stored + copied;
          return Err(o.error);
        }
        stored := stored + copied;
        outs := outs + [o.value];
      }
      PrefixSuffix(infos, 0);
      r := Ok(outs);
    }

    /** `Execute`, proved against ExecuteSpec; the store ends up holding
        every input and every file read back. */
    method Execute(request: Request, tmp: string, sandbox: SandboxRun, read: string -> seq<bv8>, hashOf: seq<bv8> -> Sha, intended: bool)
      returns (result: ExecutorResult)
      requires slots.Valid()
      modifies this`stored, this`requested, slots
      ensures slots.Valid() && slots.held == old(slots.held) && slots.cur == old(slots.cur)
      ensures result == ExecuteSpec(request, tmp, sandbox, read, hashOf, intended, old(slots.cur), slots.max)
      ensures request.fifos != [] ==> stored == old(stored) && requested == old(requested)
      ensures request.fifos == [] ==>
                && requested == RequestAll(StoreState(old(stored), old(requested)), request.inputs).requested
                && RequestAll(StoreState(old(stored), old(requested)), request.inputs).stored <= stored
      ensures result.Replied? ==>
                stored == RequestAll(StoreState(old(stored), old(requested)), request.inputs).stored + HashesOf(result.response.outputs)
    {
      if request.fifos != [] {
        return Failed(LogicError(FifosNotImplemented));
      }
      RequestFiles(request.inputs);
      var placed := PrepareFiles(request.inputs, tmp, intended);
      if placed.Err? {
        return Failed(RuntimeError(placed.error));
      }
      var failed := ActualExecution(request.exclusive, sandbox);
      if failed.Some? {
        return Failed(failed.value);
      }
      var outs := RetrieveFiles([StdoutInfo, StderrInfo] + request.outputs, tmp, read, hashOf, intended);
      if outs.Err? {
        return Failed(RuntimeError(outs.error));
      }
      result := Replied(Response(StatusOf(sandbox.signal), sandbox.statusCode, sandbox.signal, "", outs.value));
    }

    /** The block of `Execute` that runs the sandbox: a slot guard is
        taken, or the worker is busy, and released at the end of the block
        whether the sandbox succeeded or failed. */
    method ActualExecution(exclusive: bool, sandbox: SandboxRun) returns (error: Option<Thrown>)
      requires slots.Valid()
      modifies slots
      ensures slots.Valid() && slots.held == old(slots.held) && slots.cur == old(slots.cur)
      ensures Busy(exclusive, old(slots.cur), slots.max) ==> error == Some(TooManyExecutions(if exclusive then ExclusiveBusy else SharedBusy))
      ensures !Busy(exclusive, old(slots.cur), slots.max) && sandbox.SandboxError? ==> error == Some(RuntimeError(sandbox.message))
      ensures !Busy(exclusive, old(slots.cur), slots.max) && sandbox.Ran? ==> error.None?
    {
      error := slots.Acquire(exclusive);
      if error.Some? {
        return;
      }
      slots.Release(exclusive);
      AddRemove(old(slots.held), exclusive);
      if sandbox.SandboxError? {
        error := Some(RuntimeError(sandbox.message));
      }
    }
  }

  /** Releasing a guard just acquired leaves the guards alive as they were. */
  lemma AddRemove(m: multiset<bool>, x: bool)
    ensures (m + multiset{x}) - multiset{x} == m
  {
  }

  lemma {:induction false} PrepareAllStops(infos: seq<FileInfo>, rest: seq<FileInfo>, tmp: string, intended: bool)
    requires PrepareAll(infos, tmp, intended).Err?
    ensures PrepareAll(infos + rest, tmp, intended) == PrepareAll(infos, tmp, intended)
    decreases |rest|
  {
    if rest == [] {
      assert infos + rest == infos;
    } else {
      PrepareAllStops(infos, rest[..|rest| - 1], tmp, intended);
      assert (infos + rest)[..|infos + rest| - 1] == infos + rest[..|rest| - 1];
    }
  }

  /** One iteration of the read-back loop: a success extends the prefix and
      its copied hashes, a failure is the whole loop's result, with the
      failing file's copy added. */
  lemma RetrieveStep(infos: seq<FileInfo>, i: int, outs: seq<FileInfo>, tmp: string, read: string -> seq<bv8>,
                     hashOf: seq<bv8> -> Sha, intended: bool)
    requires 0 <= i < |infos|
    requires RetrieveAll(infos[..i], tmp, read, hashOf, intended) == Ok(outs)
    requires CopiedAll(infos[..i], tmp, read, hashOf, intended) == HashesOf(outs)
    ensures var o := RetrieveFile(infos[i], tmp, read, hashOf, intended);
            var c := Copied(infos[i], tmp, read, hashOf, intended);
            && (o.Ok? ==> && RetrieveAll(infos[..i + 1], tmp, read, hashOf, intended) == Ok(outs + [o.value])
                          && CopiedAll(infos[..i + 1], tmp, read, hashOf, intended) == HashesOf(outs + [o.value])
                          && c == {o.value.hash})
            && (o.Err? ==> && RetrieveAll(infos, tmp, read, hashOf, intended) == Err(o.error)
                           && CopiedAll(infos, tmp, read, hashOf, intended) == HashesOf(outs) + c)
  {
    PrefixOfPrefix(infos, i);
    var o := RetrieveFile(infos[i], tmp, read, hashOf, intended);
    if o.Ok? {
      SnocPrefix(outs, o.value);
    } else {
      RetrieveAllStops(infos[..i + 1], infos[i + 1..], tmp, read, hashOf, intended);
      PrefixSuffix(infos, i + 1);
    }
  }

  /** The read-back of file `i`, as one loop iteration sees it: the
      result and the hashes copied. */
  method RetrieveOne(infos: seq<FileInfo>, i: int, outs: seq<FileInfo>, tmp: string, read: string -> seq<bv8>,
                     hashOf: seq<bv8> -> Sha, intended: bool) returns (o: Result<FileInfo>, c: set<Sha>)
    requires 0 <= i < |infos|
    requires RetrieveAll(infos[..i], tmp, read, hashOf, intended) == Ok(outs)
    requires CopiedAll(infos[..i], tmp, read, hashOf, intended) == HashesOf(outs)
    ensures o.Ok? ==> && RetrieveAll(infos[..i + 1], tmp, read, hashOf, intended) == Ok(outs + [o.value])
                      && CopiedAll(infos[..i + 1], tmp, read, hashOf, intended) == HashesOf(outs + [o.value])
                      && c == {o.value.hash}
    ensures o.Err? ==> && RetrieveAll(infos, tmp, read, hashOf, intended) == Err(o.error)
                       && CopiedAll(infos, tmp, read, hashOf, intended) == HashesOf(outs) + c
  {
    o := RetrieveFile(infos[i], tmp, read, hashOf, intended);
    c := Copied(infos[i], tmp, read, hashOf, intended);
    RetrieveStep(infos, i, outs, tmp, read, hashOf, intended);
  }

  lemma {:induction false} RetrieveAllStops(infos: seq<FileInfo>, rest: seq<FileInfo>, tmp: string, read: string -> seq<bv8>, hashOf: seq<bv8> -> Sha, intended: bool)
    requires RetrieveAll(infos, tmp, read, hashOf, intended).Err?
    ensures RetrieveAll(infos + rest, tmp, read, hashOf, intended) == RetrieveAll(infos, tmp, read, hashOf, intended)
    ensures CopiedAll(infos + rest, tmp, read, hashOf, intended) == CopiedAll(infos, tmp, read, hashOf, intended)
    decreases |rest|
  {
    if rest == [] {
      assert infos + rest == infos;
    } else {
      RetrieveAllStops(infos, rest[..|rest| - 1], tmp, read, hashOf, intended);
      assert (infos + rest)[..|infos + rest| - 1] == infos + rest[..|rest| - 1];
    }
  }
}

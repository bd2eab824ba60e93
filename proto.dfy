/** The messages the execution core exchanges with an executor: a request to
    run a program over some files, and the response describing how it ended
    and which files it produced. Files are named by the SHA-256 of their
    contents. */
module Proto {
  import opened Common

  /** A SHA-256 digest. */
  type Sha = seq<bv8>

  /** The role of a file in a request or a response. */
  datatype FileType = Normal | Stdin | Stdout | Stderr

  /** One file of a request or a response: its name in the sandbox, its
      role, its hash, its contents when small enough to travel inline, and
      whether it must be executable. */
  datatype FileInfo = FileInfo(name: string, ftype: FileType, hash: Sha, contents: Option<seq<bv8>>, executable: bool)

  /** How an execution ended, as the executor reports it. */
  datatype Status = Success | Signal | ReturnCode | TimeLimit | WallLimit | MemoryLimit | MissingFiles | InternalError | InvalidRequest | NotExecutable

  /** The resource limits of a request; they are copied, never inspected. */
  datatype Limits = Limits(cpuTime: real, wallTime: real, memory: int, processes: int, nfiles: int, fsize: int, mlock: int, stack: int)

  datatype Request = Request(
    executable: string,
    keepSandbox: bool,
    args: seq<string>,
    inputs: seq<FileInfo>,
    outputs: seq<FileInfo>,
    fifos: seq<string>,
    limits: Limits,
    extraTime: real,
    exclusive: bool)

  datatype Response = Response(
    status: Status,
    statusCode: int,
    signal: int,
    errorMessage: string,
    outputs: seq<FileInfo>)

  /** A response as a freshly constructed message: every field at its
      default. */
  const EmptyResponse: Response := Response(Status.Success, 0, 0, "", [])

  /** An output of a request: only its name is set. */
  function OutputRequest(name: string): FileInfo {
    FileInfo(name, Normal, [], None, false)
  }

  /** The exceptions the core raises. */
  datatype Thrown = RuntimeError(what: string) | LogicError(what: string) | ExecutionFailure | TooManyExecutions(what: string)

  /** How a call to an executor ends: with its response, or with the
      exception it raises. */
  datatype ExecutorResult = Replied(response: Response) | Failed(ex: Thrown)

  /** The hashes of some files. */
  function HashesOf(infos: seq<FileInfo>): (r: set<Sha>)
    ensures forall h :: h in r <==> exists i :: 0 <= i < |infos| && infos[i].hash == h
  {
    if infos == [] then {} else HashesOf(infos[..|infos| - 1]) + {infos[|infos| - 1].hash}
  }
}

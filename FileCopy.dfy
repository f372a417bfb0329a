/**
 * Argument validation and result aggregation of the two batch copy operations of the file
 * copy tool: host to container and container to host.
 *
 * Docker and the file system are oracle inputs: the container lookup (its error text, or
 * success), and for the i-th file pair the outcome of the transfer — for host to
 * container whether `put_archive` accepted the archive, refused it, or something raised
 * along the way (missing file, not a regular file, archive or API error); for container
 * to host whether the file was extracted or something raised.
 */
module FileCopy {
  import opened Wrappers

  datatype PutOutcome = PutAccepted | PutRefused | PutRaised(error: string)

  datatype GetOutcome = Extracted | GetRaised(error: string)

  /** A per-file `status`; a failed entry always carries its `error`. */
  datatype FileStatus = Pending | Success | Failed(error: string)

  datatype FileResult = FileResult(source: string, destination: string, status: FileStatus)

  /** The returned dictionary: an `error` status with its message, the `success` answer to
      an empty batch, or the `completed` summary. */
  datatype CopyReport =
    | Rejected(message: string)
    | NothingToCopy
    | Completed(successCount: nat, failCount: nat, results: seq<FileResult>)

  const LengthMismatch := "源文件路径列表和目标路径列表长度必须相同"
  const NothingToCopyMessage := "没有文件需要复制"
  const PutRefusedError := "Docker API返回失败"

  function ContainerError(reason: string): string
  {
    "获取容器失败: " + reason
  }

  function Status(r: CopyReport): string
  {
    match r
    case Rejected(_) => "error"
    case NothingToCopy => "success"
    case Completed(_, _, _) => "completed"
  }

  // ---------------------------------------------------------------- counting

  function Successes(rs: seq<FileResult>): (n: nat)
    ensures n <= |rs|
  {
    if rs == [] then 0
    else Successes(rs[..|rs| - 1]) + (if rs[|rs| - 1].status.Success? then 1 else 0)
  }

  function Failures(rs: seq<FileResult>): (n: nat)
    ensures n <= |rs|
  {
    if rs == [] then 0
    else Failures(rs[..|rs| - 1]) + (if rs[|rs| - 1].status.Failed? then 1 else 0)
  }

  predicate Settled(rs: seq<FileResult>)
  {
    forall i :: 0 <= i < |rs| ==> !rs[i].status.Pending?
  }

  /** When no entry is left pending, every entry is counted exactly once. */
  lemma {:induction false} CountsCoverResults(rs: seq<FileResult>)
    requires Settled(rs)
    ensures Successes(rs) + Failures(rs) == |rs|
  {
    if rs != [] {
      CountsCoverResults(rs[..|rs| - 1]);
    }
  }

  lemma CountsSnoc(rs: seq<FileResult>, r: FileResult)
    ensures Successes(rs + [r]) == Successes(rs) + (if r.status.Success? then 1 else 0)
    ensures Failures(rs + [r]) == Failures(rs) + (if r.status.Failed? then 1 else 0)
  {
    assert (rs + [r])[..|rs|] == rs;
  }

  // ---------------------------------------------------------------- host to container

  function HostResult(source: string, destination: string, o: PutOutcome): FileResult
  {
    FileResult(source, destination,
      match o
      case PutAccepted => Success
      case PutRefused => Failed(PutRefusedError)
      case PutRaised(e) => Failed(e))
  }

  /** `copy_files_from_host_to_container`; `lookupError` is the lookup's error, None when
      the container was found. */
  function HostToContainer(hostPaths: seq<string>, destPaths: seq<string>, lookupError: Option<string>,
                           put: nat -> PutOutcome): CopyReport
  {
    if |hostPaths| != |destPaths| then Rejected(LengthMismatch)
    else if hostPaths == [] then NothingToCopy
    else if lookupError.Some? then Rejected(ContainerError(lookupError.value))
    else
      var rs := seq(|hostPaths|, i requires 0 <= i < |hostPaths| => HostResult(hostPaths[i], destPaths[i], put(i)));
      Completed(Successes(rs), Failures(rs), rs)
  }

  /** Validation comes first: unequal lists are refused and an empty batch succeeds, before
      any container lookup or transfer. */
  lemma HostToContainerValidation(hostPaths: seq<string>, destPaths: seq<string>, lookupError: Option<string>,
                                  put: nat -> PutOutcome)
    ensures |hostPaths| != |destPaths| ==> HostToContainer(hostPaths, destPaths, lookupError, put) == Rejected(LengthMismatch)
    ensures hostPaths == [] && destPaths == [] ==> HostToContainer(hostPaths, destPaths, lookupError, put) == NothingToCopy
    ensures |hostPaths| == |destPaths| && hostPaths != [] && lookupError.Some?
            ==> HostToContainer(hostPaths, destPaths, lookupError, put) == Rejected(ContainerError(lookupError.value))
  {
  }

  /** A completed batch has one settled entry per pair, in order, counted once each; an
      entry succeeds exactly when `put_archive` accepted its archive. */
  lemma HostToContainerCompleted(hostPaths: seq<string>, destPaths: seq<string>, put: nat -> PutOutcome)
    requires |hostPaths| == |destPaths| && hostPaths != []
    ensures var r := HostToContainer(hostPaths, destPaths, None, put);
      && r.Completed? && Status(r) == "completed"
      && |r.results| == |hostPaths|
      && r.successCount + r.failCount == |r.results|
      && forall i :: 0 <= i < |hostPaths| ==>
           && r.results[i].source == hostPaths[i]
           && r.results[i].destination == destPaths[i]
           && !r.results[i].status.Pending?
           && (r.results[i].status.Success? <==> put(i) == PutAccepted)
  {
    var r := HostToContainer(hostPaths, destPaths, None, put);
    forall i | 0 <= i < |hostPaths|
      ensures r.results[i] == HostResult(hostPaths[i], destPaths[i], put(i))
      ensures !r.results[i].status.Pending?
    {
    }
    CountsCoverResults(r.results);
  }

  method CopyFilesFromHostToContainer(hostPaths: seq<string>, destPaths: seq<string>, lookupError: Option<string>,
                                      put: nat -> PutOutcome) returns (report: CopyReport)
    ensures report == HostToContainer(hostPaths, destPaths, lookupError, put)
  {
    if |hostPaths| != |destPaths| {
      return Rejected(LengthMismatch);
    }
    if hostPaths == [] {
      return NothingToCopy;
    }
    if lookupError.Some? {
      return Rejected(ContainerError(lookupError.value));
    }
    ghost var expected := HostToContainer(hostPaths, destPaths, lookupError, put).results;
    var results: seq<FileResult> := [];
    var successCount, failCount := 0, 0;
    var i := 0;
    while i < |hostPaths|
      invariant 0 <= i <= |hostPaths|
      invariant |results| == i
      invariant forall k :: 0 <= k < i ==> results[k] == HostResult(hostPaths[k], destPaths[k], put(k))
      invariant successCount == Successes(results) && failCount == Failures(results)
    {
      var entry := FileResult(hostPaths[i], destPaths[i], Pending);
      match put(i) {
        case PutAccepted =>
          entry := entry.(status := Success);
          successCount := successCount + 1;
        case PutRefused =>
          entry := entry.(status := Failed(PutRefusedError));
          failCount := failCount + 1;
        case PutRaised(e) =>
          entry := entry.(status := Failed(e));
          failCount := failCount + 1;
      }
      CountsSnoc(results, entry);
      results := results + [entry];
      i := i + 1;
    }
    assert results == expected;
    report := Completed(successCount, failCount, results);
  }

  // ---------------------------------------------------------------- container to host

  function HostFileResult(source: string, destination: string, o: GetOutcome): FileResult
  {
    FileResult(source, destination,
      match o
      case Extracted => Success
      case GetRaised(e) => Failed(e))
  }

  /** `copy_files_from_container_to_host`. */
  function ContainerToHost(containerPaths: seq<string>, destPaths: seq<string>, lookupError: Option<string>,
                           get: nat -> GetOutcome): CopyReport
  {
    if |containerPaths| != |destPaths| then Rejected(LengthMismatch)
    else if containerPaths == [] then NothingToCopy
    else if lookupError.Some? then Rejected(ContainerError(lookupError.value))
    else
      var rs := seq(|containerPaths|, i requires 0 <= i < |containerPaths| => HostFileResult(containerPaths[i], destPaths[i], get(i)));
      Completed(Successes(rs), Failures(rs), rs)
  }

  lemma ContainerToHostValidation(containerPaths: seq<string>, destPaths: seq<string>, lookupError: Option<string>,
                                  get: nat -> GetOutcome)
    ensures |containerPaths| != |destPaths| ==> ContainerToHost(containerPaths, destPaths, lookupError, get) == Rejected(LengthMismatch)
    ensures containerPaths == [] && destPaths == [] ==> ContainerToHost(containerPaths, destPaths, lookupError, get) == NothingToCopy
    ensures |containerPaths| == |destPaths| && containerPaths != [] && lookupError.Some?
            ==> ContainerToHost(containerPaths, destPaths, lookupError, get) == Rejected(ContainerError(lookupError.value))
  {
  }

  lemma ContainerToHostCompleted(containerPaths: seq<string>, destPaths: seq<string>, get: nat -> GetOutcome)
    requires |containerPaths| == |destPaths| && containerPaths != []
    ensures var r := ContainerToHost(containerPaths, destPaths, None, get);
      && r.Completed? && Status(r) == "completed"
      && |r.results| == |containerPaths|
      && r.successCount + r.failCount == |r.results|
      && forall i :: 0 <= i < |containerPaths| ==>
           && r.results[i].source == containerPaths[i]
           && r.results[i].destination == destPaths[i]
           && !r.results[i].status.Pending?
           && (r.results[i].status.Success? <==> get(i) == Extracted)
  {
    var r := ContainerToHost(containerPaths, destPaths, None, get);
    forall i | 0 <= i < |containerPaths|
      ensures r.results[i] == HostFileResult(containerPaths[i], destPaths[i], get(i))
      ensures !r.results[i].status.Pending?
    {
    }
    CountsCoverResults(r.results);
  }

  method CopyFilesFromContainerToHost(containerPaths: seq<string>, destPaths: seq<string>, lookupError: Option<string>,
                                      get: nat -> GetOutcome) returns (report: CopyReport)
    ensures report == ContainerToHost(containerPaths, destPaths, lookupError, get)
  {
    if |containerPaths| != |destPaths| {
      return Rejected(LengthMismatch);
    }
    if containerPaths == [] {
      return NothingToCopy;
    }
    if lookupError.Some? {
      return Rejected(ContainerError(lookupError.value));
    }
    ghost var expected := ContainerToHost(containerPaths, destPaths, lookupError, get).results;
    var results: seq<FileResult> := [];
    var successCount, failCount := 0, 0;
    var i := 0;
    while i < |containerPaths|
      invariant 0 <= i <= |containerPaths|
      invariant |results| == i
      invariant forall k :: 0 <= k < i ==> results[k] == HostFileResult(containerPaths[k], destPaths[k], get(k))
      invariant successCount == Successes(results) && failCount == Failures(results)
    {
      var entry := FileResult(containerPaths[i], destPaths[i], Pending);
      match get(i) {
        case Extracted =>
          entry := entry.(status := Success);
          successCount := successCount + 1;
        case GetRaised(e) =>
          entry := entry.(status := Failed(e));
          failCount := failCount + 1;
      }
      CountsSnoc(results, entry);
      results := results + [entry];
      i := i + 1;
    }
    assert results == expected;
    report := Completed(successCount, failCount, results);
  }
}

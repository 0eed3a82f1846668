/** The tunnel of the current client (BrowserStackLocal/BrowserStackTunnel.cs):
    it keeps the binary path and its place in the fallback chain, builds the
    `-d <start|stop>` command line, launches the binary once per control
    invocation and rejects any status line whose state is not "connected". */
module Tunnel {
  import opened Wrappers
  import opened Text
  import opened Paths

  datatype LocalState = Idle | Connecting | Connected | Error | Disconnected

  /** The exceptions a tunnel call can throw. */
  datatype TunnelError =
    | IndexOutOfRange   // basePaths[++basePathsIndex] past the last candidate
    | PathsExhausted    // `fallbackPaths` past the last candidate
    | DownloadFailed    // the binary is missing and could not be fetched
    | LaunchFailed      // Process.Start threw
    | ErrorOutput(processType: string)  // the handler rejected a line of the run
    | NoAssociatedProcess  // Process.Kill on a Process object already closed

  /** One line the binary writes, as the handler sees it after `JObject.Parse`:
      no data (end of stream), text that does not parse, or a status record
      with or without a `state` field. */
  datatype OutputLine = NoData | Malformed | Status(state: Option<string>)

  /** What the machine does during one `Run`: whether the binary is present
      (already, or after the download), whether `Process.Start` succeeds,
      whether the log file exists, the lines the binary prints, and whether
      the `Exited` handler has released the process by the time `Run` returns. */
  datatype Launch = Launch(provisioned: bool, starts: bool, logExists: bool,
                           lines: seq<OutputLine>, exitObserved: bool)

  /** The output handler throws on this line: it does not parse, or it has a
      `state` field whose lower-cased text is not "connected". */
  predicate Rejects(line: OutputLine) {
    match line
    case NoData => false
    case Malformed => true
    case Status(state) => state.Some? && ToLower(state.value) != "connected"
  }

  /** The handler lets every line of the run through. */
  predicate Accepted(lines: seq<OutputLine>) {
    lines == [] || (!Rejects(lines[0]) && Accepted(lines[1..]))
  }

  /** A run's output is accepted exactly when no line of it is rejected. */
  lemma {:induction false} AcceptedMeansNoneRejected(lines: seq<OutputLine>)
    ensures Accepted(lines) <==> forall i :: 0 <= i < |lines| ==> !Rejects(lines[i])
  {
    if lines != [] {
      AcceptedMeansNoneRejected(lines[1..]);
      assert forall i :: 1 <= i < |lines| ==> lines[i] == lines[1..][i - 1];
    }
  }

  /** How one `Run` ends, as a function of what the machine does. */
  function RunOutcome(launch: Launch, processType: string): Outcome<TunnelError> {
    if !launch.provisioned then Fail(DownloadFailed)
    else if !launch.starts then Fail(LaunchFailed)
    else if !Accepted(launch.lines) then Fail(ErrorOutput(processType))
    else Pass
  }

  /** Whether a process is tracked after one `Run`: a failed download leaves
      the field alone; otherwise a new process is assigned, and it is released
      again only once the `Exited` handler has run. */
  function TrackedAfter(launch: Launch, before: bool): bool {
    if !launch.provisioned then before else !(launch.starts && launch.exitObserved)
  }

  /** The words of the command line before the free-form arguments. */
  function CommandTokens(processType: string, accessKey: string, folder: Option<string>): seq<string> {
    ["-d", processType] + if IsNullOrBlank(folder) then [accessKey] else ["-f", accessKey, folder.value]
  }

  /** The argument line `Run` hands to the binary: the subcommand, then either
      the folder-testing prefix or the bare access key, then the arguments. */
  function ArgumentLine(processType: string, accessKey: string, folder: Option<string>,
                        binaryArguments: string): string
  {
    var arguments := "-d " + processType + " ";
    if !IsNullOrBlank(folder) then arguments + "-f " + accessKey + " " + folder.value + " " + binaryArguments
    else arguments + accessKey + " " + binaryArguments
  }

  /** The argument line is the command's words joined by single spaces,
      followed by the free-form arguments. */
  lemma ArgumentLineWords(processType: string, accessKey: string, folder: Option<string>,
                          binaryArguments: string)
    ensures ArgumentLine(processType, accessKey, folder, binaryArguments)
            == Unwords(CommandTokens(processType, accessKey, folder)) + " " + binaryArguments
  {
    if !IsNullOrBlank(folder) {
      FolderWords(processType, accessKey, folder.value);
    } else {
      BareWords(processType, accessKey);
    }
  }

  lemma FolderWords(processType: string, accessKey: string, folder: string)
    ensures Unwords(["-d", processType, "-f", accessKey, folder])
            == "-d " + processType + " " + "-f " + accessKey + " " + folder
  {
    var tokens := ["-d", processType, "-f", accessKey, folder];
    assert tokens[1..][1..] == tokens[2..] && tokens[2..][1..] == tokens[3..];
    assert tokens[3..][1..] == tokens[4..] == [folder];
    assert Unwords(tokens[3..]) == accessKey + " " + folder;
    assert Unwords(tokens[2..]) == "-f " + accessKey + " " + folder;
    assert Unwords(tokens[1..]) == processType + " " + "-f " + accessKey + " " + folder;
  }

  lemma BareWords(processType: string, accessKey: string)
    ensures Unwords(["-d", processType, accessKey]) == "-d " + processType + " " + accessKey
  {
    var tokens := ["-d", processType, accessKey];
    assert tokens[1..][1..] == tokens[2..] == [accessKey];
    assert Unwords(tokens[1..]) == processType + " " + accessKey;
  }

  /** `Run` empties the log file only for a subcommand whose lower-cased name
      contains "start", and only when the file exists. */
  predicate ShouldTruncateLog(processType: string, logExists: bool) {
    Occurs(ToLower(processType), "start") && logExists
  }

  /** The five letters of `s` from position `i` spell "start" in some mix of cases. */
  predicate SpellsStartAt(s: string, i: int) {
    0 <= i <= |s| - 5 && ToLower(s[i..i + 5]) == "start"
  }

  /** The log is truncated exactly when it exists and "start" occurs in the
      process type in some mix of cases. */
  lemma TruncateWhenStartOccurs(processType: string, logExists: bool)
    ensures ShouldTruncateLog(processType, logExists) <==> logExists && exists i :: SpellsStartAt(processType, i)
  {
    var lowered := ToLower(processType);
    if Occurs(lowered, "start") {
      var i :| 0 <= i <= |lowered| - 5 && OccursAt(lowered, "start", i);
      ToLowerSlice(processType, i, i + 5);
      assert SpellsStartAt(processType, i);
    }
    if exists i :: SpellsStartAt(processType, i) {
      var i :| SpellsStartAt(processType, i);
      ToLowerSlice(processType, i, i + 5);
      assert OccursAt(lowered, "start", i);
    }
  }

  /** Of the two subcommands the client runs, only `start` truncates the log. */
  lemma TruncateOnStartOnly(logExists: bool)
    ensures ShouldTruncateLog("start", logExists) <==> logExists
    ensures !ShouldTruncateLog("stop", logExists)
  {
    assert OccursAt(ToLower("start"), "start", 0);
  }

  /** The output handler applied to every line in order: the run survives
      exactly when no line is rejected. */
  method ScanOutput(lines: seq<OutputLine>) returns (ok: bool)
    ensures ok <==> forall i :: 0 <= i < |lines| ==> !Rejects(lines[i])
  {
    ok := true;
    var i := 0;
    while i < |lines|
      invariant 0 <= i <= |lines|
      invariant ok <==> forall j :: 0 <= j < i ==> !Rejects(lines[j])
    {
      if Rejects(lines[i]) {
        ok := false;
      }
      i := i + 1;
    }
  }

  class BrowserStackTunnel {
    const basePaths: BasePaths
    var basePathsIndex: int
    var binaryAbsolute: string
    var binaryArguments: string
    var localState: LocalState
    /** `process != null` */
    var processTracked: bool

    /** The index never drops below "unset", and no code path of this class
        assigns Connecting or Connected to the state. */
    ghost predicate Valid()
      reads this
    {
      -1 <= basePathsIndex && (localState == Idle || localState == Disconnected)
    }

    constructor(basePaths: BasePaths)
      ensures Valid() && this.basePaths == basePaths
      ensures basePathsIndex == -1 && binaryAbsolute == "" && binaryArguments == ""
      ensures localState == Idle && !processTracked
    {
      this.basePaths := basePaths;
      basePathsIndex := -1;
      binaryAbsolute := "";
      binaryArguments := "";
      localState := Idle;
      processTracked := false;
    }

    /** A null or blank path moves to the next candidate (throwing once the
        index runs past the last one); any other path is kept verbatim and
        the index is left alone. */
    method AddBinaryPath(path: Option<string>) returns (r: Outcome<TunnelError>)
      requires Valid()
      modifies this`basePathsIndex, this`binaryAbsolute
      ensures Valid()
      ensures IsNullOrBlank(path) ==> basePathsIndex == old(basePathsIndex) + 1
      ensures IsNullOrBlank(path) && basePathsIndex < CandidateCount ==>
                r == Pass && binaryAbsolute == Candidate(basePaths, basePathsIndex)
      ensures IsNullOrBlank(path) && basePathsIndex >= CandidateCount ==>
                r == Fail(IndexOutOfRange) && binaryAbsolute == old(binaryAbsolute)
      ensures !IsNullOrBlank(path) ==>
                r == Pass && binaryAbsolute == path.value && basePathsIndex == old(basePathsIndex)
    {
      var path' := "";
      if IsNullOrBlank(path) {
        basePathsIndex := basePathsIndex + 1;
        if basePathsIndex >= CandidateCount {
          return Fail(IndexOutOfRange);
        }
        path' := Candidate(basePaths, basePathsIndex);
      } else {
        path' := path.value;
      }
      binaryAbsolute := path';
      r := Pass;
    }

    /** A null argument string is stored as the empty one. */
    method AddBinaryArguments(arguments: Option<string>)
      modifies this`binaryArguments
      ensures binaryArguments == if arguments.None? then "" else arguments.value
    {
      var arguments' := if arguments.None? then "" else arguments.value;
      binaryArguments := arguments';
    }

    /** Throws once the last candidate has been reached; otherwise advances
        the index by one and points the binary path at that candidate. */
    method FallbackPaths() returns (r: Outcome<TunnelError>)
      requires Valid()
      modifies this`basePathsIndex, this`binaryAbsolute
      ensures Valid()
      ensures r.Pass? <==> FallbackStep(old(basePathsIndex)).Some?
      ensures r.Pass? ==> basePathsIndex == FallbackStep(old(basePathsIndex)).value
                          && 0 <= basePathsIndex < CandidateCount
                          && binaryAbsolute == Candidate(basePaths, basePathsIndex)
      ensures r.Fail? ==> r.error == PathsExhausted && basePathsIndex == old(basePathsIndex)
                          && binaryAbsolute == old(binaryAbsolute)
    {
      if basePathsIndex >= CandidateCount - 1 {
        return Fail(PathsExhausted);
      }
      basePathsIndex := basePathsIndex + 1;
      binaryAbsolute := Candidate(basePaths, basePathsIndex);
      r := Pass;
    }

    /** One control invocation of the binary. Returns the command line it is
        launched with and whether the log file was emptied first. */
    method Run(accessKey: string, folder: Option<string>, logFilePath: string, processType: string,
               launch: Launch) returns (r: Outcome<TunnelError>, arguments: string, truncated: bool)
      requires Valid()
      modifies this`processTracked
      ensures Valid()
      ensures arguments == ArgumentLine(processType, accessKey, folder, binaryArguments)
      ensures truncated <==> launch.provisioned && ShouldTruncateLog(processType, launch.logExists)
      ensures r == RunOutcome(launch, processType)
      ensures processTracked == TrackedAfter(launch, old(processTracked))
    {
      arguments := ArgumentLine(processType, accessKey, folder, binaryArguments);
      truncated := false;
      if !launch.provisioned {
        return Fail(DownloadFailed), arguments, truncated;
      }
      // process.Close() releases the old process's resources but keeps the reference
      truncated := ShouldTruncateLog(processType, launch.logExists);
      r := RunProcess(processType, launch);
    }

    method RunProcess(processType: string, launch: Launch) returns (r: Outcome<TunnelError>)
      requires Valid() && launch.provisioned
      modifies this`processTracked
      ensures Valid()
      ensures r == RunOutcome(launch, processType)
      ensures processTracked == TrackedAfter(launch, old(processTracked))
    {
      processTracked := true;
      if !launch.starts {
        return Fail(LaunchFailed);
      }
      // TunnelStateChanged(Idle, Connecting) has an empty body
      var ok := ScanOutput(launch.lines);
      AcceptedMeansNoneRejected(launch.lines);
      if launch.exitObserved {
        processTracked := false;
      }
      r := if ok then Pass else Fail(ErrorOutput(processType));
    }

    predicate IsConnected()
      reads this
    {
      localState == Connected
    }

    /** `Kill` as written: `Process.Close()` dissociates the object from its
        process, so the `Process.Kill()` right after it throws and neither the
        reference nor the state is updated. Nothing else runs `Kill`; the
        model uses the intended version below. */
    method KillAsWritten() returns (r: Outcome<TunnelError>)
      requires Valid()
      ensures processTracked ==> r == Fail(NoAssociatedProcess)
      ensures !processTracked ==> r == Pass
    {
      if processTracked {
        // Close releases the handle and forgets the process id; Kill then throws
        return Fail(NoAssociatedProcess);
      }
      r := Pass;
    }

    /** With a tracked process: release it and record Disconnected. Without
        one: nothing happens. */
    method Kill()
      requires Valid()
      modifies this`processTracked, this`localState
      ensures Valid()
      ensures old(processTracked) ==> !processTracked && localState == Disconnected
      ensures !old(processTracked) ==> !processTracked && localState == old(localState)
    {
      if processTracked {
        processTracked := false;
        localState := Disconnected;
      }
    }
  }
}

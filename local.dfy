/** The public surface of the current client (BrowserStackLocal/Local.cs):
    options are translated into fields and a flag string, the access key and
    the log path are resolved, and the tunnel is run, falling back through the
    candidate binary directories while launches fail. */
module LocalClient {
  import opened Wrappers
  import opened Text
  import opened Tables
  import opened Paths
  import opened Tunnel

  const ValueCommands: Table := [
    ("localIdentifier", "-localIdentifier"), ("hosts", ""), ("proxyHost", "-proxyHost"),
    ("proxyPort", "-proxyPort"), ("proxyUser", "-proxyUser"), ("proxyPass", "-proxyPass")]

  const BooleanCommands: Table := [
    ("v", "-vvv"), ("force", "-force"), ("forcelocal", "-forcelocal"),
    ("forceproxy", "-forceproxy"), ("onlyAutomate", "-onlyAutomate")]

  /** The keys that set a field (or, for "verbose", do nothing) instead of adding flags. */
  const FieldKeys := {"key", "f", "binarypath", "logfile", "verbose"}

  /** The option-derived fields of a `Local`. */
  datatype Settings = Settings(accessKey: Option<string>, folder: string, customBinaryPath: string,
                               customLogPath: string, argumentString: string)

  /** What `addArgs` appends for a trimmed key outside `FieldKeys`: a value
      command adds its flag and the value; a boolean command set to "true"
      adds its flag; anything else passes through as `-key` or `-key value`. */
  function FlagText(key: string, value: string): string {
    match Lookup(ValueCommands, key)
    case Some(flag) => flag + " " + value + " "
    case None =>
      var boolean := Lookup(BooleanCommands, key);
      if boolean.Some? && IsTrue(value) then boolean.value + " "
      else if IsTrue(value) then "-" + key + " "
      else "-" + key + " " + value + " "
  }

  /** `addArgs(key, value)` on the option-derived fields. */
  function AddArg(st: Settings, key: string, value: string): (r: Settings)
    ensures st.argumentString <= r.argumentString
    ensures Trim(key) in FieldKeys ==> r.argumentString == st.argumentString
    ensures Trim(key) !in FieldKeys ==> r == st.(argumentString := st.argumentString + FlagText(Trim(key), value))
  {
    var key := Trim(key);
    if key == "key" then st.(accessKey := Some(value))
    else if key == "f" then st.(folder := value)
    else if key == "binarypath" then st.(customBinaryPath := value)
    else if key == "logfile" then st.(customLogPath := value)
    else if key == "verbose" then st
    else st.(argumentString := st.argumentString + FlagText(key, value))
  }

  /** The `foreach` over the options in `start`. */
  function AddAll(st: Settings, options: seq<(string, string)>): Settings
    decreases |options|
  {
    if options == [] then st
    else
      var last := options[|options| - 1];
      AddArg(AddAll(st, options[..|options| - 1]), last.0, last.1)
  }

  /** Translating a whole option list only ever appends to the flag string. */
  lemma {:induction false} AddAllOnlyAppends(st: Settings, options: seq<(string, string)>)
    ensures st.argumentString <= AddAll(st, options).argumentString
    decreases |options|
  {
    if options != [] {
      AddAllOnlyAppends(st, options[..|options| - 1]);
    }
  }

  /** After trimming, the four field keys set exactly their own field and
      "verbose" changes nothing; none of them touches the flag string. */
  lemma FieldKeysSetTheirField(st: Settings, key: string, value: string)
    ensures Trim(key) == "key" ==> AddArg(st, key, value) == st.(accessKey := Some(value))
    ensures Trim(key) == "f" ==> AddArg(st, key, value) == st.(folder := value)
    ensures Trim(key) == "binarypath" ==> AddArg(st, key, value) == st.(customBinaryPath := value)
    ensures Trim(key) == "logfile" ==> AddArg(st, key, value) == st.(customLogPath := value)
    ensures Trim(key) == "verbose" ==> AddArg(st, key, value) == st
  {
  }

  /** A value command appends its flag, a space, the value and a space. */
  lemma ValueCommandAppends(st: Settings, key: string, value: string)
    requires Lookup(ValueCommands, Trim(key)).Some?
    ensures AddArg(st, key, value).argumentString ==
              st.argumentString + Lookup(ValueCommands, Trim(key)).value + " " + value + " "
  {
    TableKeysAreNotFieldKeys(Trim(key));
  }

  /** A boolean command whose value is "true" (trimmed, any case) appends its
      flag and a space; any other value falls through to the passthrough and
      appends `-key value`. */
  lemma BooleanCommandAppends(st: Settings, key: string, value: string)
    requires Lookup(ValueCommands, Trim(key)).None? && Lookup(BooleanCommands, Trim(key)).Some?
    ensures AddArg(st, key, value).argumentString ==
              st.argumentString + if IsTrue(value) then Lookup(BooleanCommands, Trim(key)).value + " "
                                  else "-" + Trim(key) + " " + value + " "
  {
    TableKeysAreNotFieldKeys(Trim(key));
  }

  /** No key of either table sets a field, so table keys always reach the tables. */
  lemma TableKeysAreNotFieldKeys(key: string)
    ensures key in FieldKeys ==> Lookup(ValueCommands, key).None? && Lookup(BooleanCommands, key).None?
  {
    if key in FieldKeys {
      TablesAvoidFieldKeys();
      LookupAbsent(ValueCommands, key);
      LookupAbsent(BooleanCommands, key);
    }
  }

  lemma TablesAvoidFieldKeys()
    ensures forall i :: 0 <= i < |ValueCommands| ==> ValueCommands[i].0 !in FieldKeys
    ensures forall i :: 0 <= i < |BooleanCommands| ==> BooleanCommands[i].0 !in FieldKeys
  {
  }

  /** Keys in neither table pass through: `-key` for "true", `-key value` otherwise. */
  lemma PassthroughAppends(st: Settings, key: string, value: string)
    requires Trim(key) !in FieldKeys
    requires Lookup(ValueCommands, Trim(key)).None? && Lookup(BooleanCommands, Trim(key)).None?
    ensures AddArg(st, key, value).argumentString ==
              st.argumentString + if IsTrue(value) then "-" + Trim(key) + " " else "-" + Trim(key) + " " + value + " "
  {
  }

  /** The flags of the tables: "hosts" has an empty flag and "v" stands for
      `-vvv`. */
  lemma TableExamples()
    ensures Lookup(ValueCommands, "hosts") == Some("")
    ensures Lookup(ValueCommands, "v") == None && Lookup(BooleanCommands, "v") == Some("-vvv")
  {
  }

  /** The access key `start` runs with: the option's when it is not blank,
      otherwise the environment's, as it is (the whitespace-stripped copy is
      discarded). None or blank means `start` throws. */
  function ResolvedKey(fromOptions: Option<string>, env: Option<string>): (r: Option<string>)
    ensures !IsNullOrBlank(r) <==> !IsNullOrBlank(fromOptions) || !IsNullOrBlank(env)
    ensures !IsNullOrBlank(fromOptions) ==> r == fromOptions
    ensures IsNullOrBlank(fromOptions) ==> r == env
  {
    if IsNullOrBlank(fromOptions) then env else fromOptions
  }

  /** The log path: the option's unless blank, else `local.log` in the working directory. */
  function LogPath(custom: string, basePaths: BasePaths): string {
    if IsBlank(custom) then Combine(basePaths[1], "local.log") else custom
  }

  function LogFileFlag(path: string): string {
    "-logFile \"" + path + "\" "
  }

  /** The fields once `start` has resolved the key and the log path. */
  function Prepared(st: Settings, env: Option<string>, basePaths: BasePaths): (r: Settings)
    ensures r.folder == st.folder && r.customBinaryPath == st.customBinaryPath
    ensures r.argumentString == st.argumentString + "-logFile \"" + r.customLogPath + "\" "
    ensures r.customLogPath != ""
  {
    var log := LogPath(st.customLogPath, basePaths);
    st.(accessKey := ResolvedKey(st.accessKey, env), customLogPath := log,
        argumentString := st.argumentString + LogFileFlag(log))
  }

  /** The options "key" and "f" reach the command line of every `start`
      run: after translation and resolution the key and the folder are the
      given ones, and the line's words are `-d start -f key folder`. */
  lemma KeyAndFolderReachStartLine(st: Settings, key: string, folder: string, env: Option<string>,
                                   basePaths: BasePaths, flags: string)
    requires !IsBlank(key) && !IsBlank(folder)
    ensures var r := Prepared(AddAll(st, [("key", key), ("f", folder)]), env, basePaths);
      && r.accessKey == Some(key) && r.folder == folder
      && ArgumentLine("start", r.accessKey.value, Some(r.folder), flags)
         == Unwords(["-d", "start", "-f", key, folder]) + " " + flags
  {
    var options := [("key", key), ("f", folder)];
    TrimPlain("key");
    TrimPlain("f");
    assert options[..1] == [("key", key)] && options[..1][..0] == [];
    FieldKeysSetTheirField(st, "key", key);
    var st1 := AddAll(st, options[..1]);
    FieldKeysSetTheirField(st1, "f", folder);
    ArgumentLineWords("start", key, Some(folder), flags);
  }

  /** The folder-testing run of the client's tests: key "dummyKey" and
      folder "dummyFolderPath" give the words `-d start -f dummyKey dummyFolderPath`. */
  lemma DummyFolderStartLine(st: Settings, env: Option<string>, basePaths: BasePaths, flags: string)
    ensures var r := Prepared(AddAll(st, [("key", "dummyKey"), ("f", "dummyFolderPath")]), env, basePaths);
      ArgumentLine("start", r.accessKey.value, Some(r.folder), flags)
      == Unwords(["-d", "start", "-f", "dummyKey", "dummyFolderPath"]) + " " + flags
  {
    assert !IsWhiteSpace("dummyKey"[0]) && !IsWhiteSpace("dummyFolderPath"[0]);
    KeyAndFolderReachStartLine(st, "dummyKey", "dummyFolderPath", env, basePaths, flags);
  }

  /** The index `addBinaryPath` leaves after `start` has reset it: candidate 0
      for a blank path, still unset for an explicit one. */
  function StartIndex(customBinaryPath: string): int {
    if IsBlank(customBinaryPath) then 0 else -1
  }

  function StartPath(customBinaryPath: string, basePaths: BasePaths): string {
    if IsBlank(customBinaryPath) then Candidate(basePaths, 0) else customBinaryPath
  }

  /** How the retry loop of `start` ends: whether a run succeeded, how many
      runs there were, and where the fallback index stands. */
  datatype RetryResult = RetryResult(succeeded: bool, runs: nat, finalIndex: int)

  /** The retry loop from fallback index `index` at run number `attempt`:
      a successful run ends it; a failed one is followed by one
      `fallbackPaths`, which ends it by throwing at the last candidate. */
  function Retry(index: int, attempt: nat, launch: nat -> Launch): RetryResult
    requires -1 <= index
    decreases CandidateCount - index
  {
    if StartSucceeds(launch(attempt)) then RetryResult(true, attempt + 1, index)
    else if index >= CandidateCount - 1 then RetryResult(false, attempt + 1, index)
    else Retry(index + 1, attempt + 1, launch)
  }

  /** The retry loop fails exactly when every run it can make fails. A
      success ends it at the first successful run, each earlier run having
      been followed by one successful fallback; a failure comes after one run
      per remaining candidate, with the index at the last candidate. */
  lemma {:induction false} RetryShape(index: int, attempt: nat, launch: nat -> Launch)
    requires -1 <= index <= CandidateCount - 1
    ensures var s := Retry(index, attempt, launch);
      && (!s.succeeded <==> forall k: nat :: attempt <= k < attempt + CandidateCount - index ==> !StartSucceeds(launch(k)))
      && attempt < s.runs <= attempt + CandidateCount - index
      && s.finalIndex == index + (s.runs - 1 - attempt)
      && (s.succeeded ==> StartSucceeds(launch(s.runs - 1))
                          && forall k: nat :: attempt <= k < s.runs - 1 ==> !StartSucceeds(launch(k)))
      && (!s.succeeded ==> s.finalIndex == CandidateCount - 1 && s.runs == attempt + CandidateCount - index)
    decreases CandidateCount - index
  {
    if !StartSucceeds(launch(attempt)) && index < CandidateCount - 1 {
      RetryShape(index + 1, attempt + 1, launch);
    }
  }

  /** A `start` run with this launch succeeds. */
  predicate StartSucceeds(launch: Launch) {
    RunOutcome(launch, "start").Pass?
  }

  /** `n` copies of `x`: the command lines of `n` runs that all launch the same way. */
  function Repeat<T>(x: T, n: nat): seq<T> {
    if n == 0 then [] else Repeat(x, n - 1) + [x]
  }

  /** Whether a process is tracked after the first `n` runs. */
  function TrackedAfterRuns(launch: nat -> Launch, n: nat, before: bool): bool {
    if n == 0 then before else TrackedAfter(launch(n - 1), TrackedAfterRuns(launch, n - 1, before))
  }

  datatype StartError = MissingAccessKey | TunnelFailure(error: TunnelError)

  class Local {
    var folder: string
    var accessKey: Option<string>
    var customLogPath: string
    var argumentString: string
    var customBinaryPath: string
    const tunnel: BrowserStackTunnel

    ghost predicate Valid()
      reads this, tunnel
    {
      tunnel.Valid()
    }

    function CurrentSettings(): Settings
      reads this
    {
      Settings(accessKey, folder, customBinaryPath, customLogPath, argumentString)
    }

    constructor(basePaths: BasePaths)
      ensures Valid() && fresh(tunnel)
      ensures CurrentSettings() == Settings(Some(""), "", "", "", "")
      ensures tunnel.basePaths == basePaths && tunnel.basePathsIndex == -1
      ensures tunnel.binaryAbsolute == "" && tunnel.binaryArguments == ""
      ensures tunnel.localState == Idle && !tunnel.processTracked
    {
      folder, accessKey, customLogPath, argumentString, customBinaryPath := "", Some(""), "", "", "";
      tunnel := new BrowserStackTunnel(basePaths);
    }

    method AddArgs(key: string, value: string)
      modifies this
      ensures CurrentSettings() == AddArg(old(CurrentSettings()), key, value)
    {
      var key := Trim(key);
      if key == "key" {
        accessKey := Some(value);
      } else if key == "f" {
        folder := value;
      } else if key == "binarypath" {
        customBinaryPath := value;
      } else if key == "logfile" {
        customLogPath := value;
      } else if key == "verbose" {
      } else {
        AppendFlags(key, value);
      }
    }

    /** The table lookups and passthrough of `addArgs`, for a trimmed key
        outside `FieldKeys`. */
    method AppendFlags(key: string, value: string)
      modifies this`argumentString
      ensures argumentString == old(argumentString) + FlagText(key, value)
    {
      var result := Find(ValueCommands, key);
      if result.Some? {
        argumentString := argumentString + (result.value + " " + value + " ");
        return;
      }
      result := Find(BooleanCommands, key);
      if result.Some? {
        if IsTrue(value) {
          argumentString := argumentString + (result.value + " ");
          return;
        }
      }
      if IsTrue(value) {
        argumentString := argumentString + ("-" + key + " ");
      } else {
        argumentString := argumentString + ("-" + key + " " + value + " ");
      }
    }

    /** Translates the options, resolves the key (throwing before any run
        when there is none) and the log path, then runs the tunnel, calling
        `fallbackPaths` after each failed run until a run succeeds or the
        fallback throws. `runs` counts the calls to `Run`. */
    method Start(options: seq<(string, string)>, env: Option<string>, launch: nat -> Launch)
      returns (r: Outcome<StartError>, runs: nat, ghost launched: seq<string>)
      requires Valid()
      modifies this, tunnel
      ensures Valid()
      ensures tunnel.binaryArguments == old(tunnel.binaryArguments) || tunnel.binaryArguments == argumentString
      ensures tunnel.localState == old(tunnel.localState)
      ensures var st := AddAll(old(CurrentSettings()), options);
        IsNullOrBlank(ResolvedKey(st.accessKey, env)) ==>
          && r == Fail(MissingAccessKey) && runs == 0 && launched == []
          && CurrentSettings() == st.(accessKey := env)
          && tunnel.basePathsIndex == -1
          && tunnel.binaryAbsolute == old(tunnel.binaryAbsolute)
          && tunnel.binaryArguments == old(tunnel.binaryArguments)
          && tunnel.processTracked == old(tunnel.processTracked)
      ensures var st := AddAll(old(CurrentSettings()), options);
        !IsNullOrBlank(ResolvedKey(st.accessKey, env)) ==>
          var s := Retry(StartIndex(st.customBinaryPath), 0, launch);
          && CurrentSettings() == Prepared(st, env, tunnel.basePaths)
          && tunnel.binaryArguments == argumentString
          && r == (if s.succeeded then Pass else Fail(TunnelFailure(PathsExhausted)))
          && runs == s.runs
          && launched == Repeat(ArgumentLine("start", accessKey.value, Some(folder), tunnel.binaryArguments), runs)
          && tunnel.basePathsIndex == s.finalIndex
          && tunnel.binaryAbsolute == (if s.finalIndex == StartIndex(st.customBinaryPath)
                                       then StartPath(st.customBinaryPath, tunnel.basePaths)
                                       else Candidate(tunnel.basePaths, s.finalIndex))
          && tunnel.processTracked == TrackedAfterRuns(launch, runs, old(tunnel.processTracked))
    {
      tunnel.basePathsIndex := -1;
      TranslateOptions(options);
      var missing := ResolveKeyAndLog(env);
      if missing {
        return Fail(MissingAccessKey), 0, [];
      }
      var added := tunnel.AddBinaryPath(Some(customBinaryPath));
      tunnel.AddBinaryArguments(Some(argumentString));
      r, runs, launched := RetryLoop(launch);
    }

    /** The `foreach` of `start`: each option goes through `addArgs` in order. */
    method TranslateOptions(options: seq<(string, string)>)
      modifies this
      ensures CurrentSettings() == AddAll(old(CurrentSettings()), options)
    {
      var i := 0;
      while i < |options|
        invariant 0 <= i <= |options|
        invariant CurrentSettings() == AddAll(old(CurrentSettings()), options[..i])
      {
        assert options[..i + 1][..i] == options[..i];
        AddArgs(options[i].0, options[i].1);
        i := i + 1;
      }
      assert options[..i] == options;
    }

    /** The access-key check, the default log path and the `-logFile` flag
        of `start`. `missing` means `start` throws here. */
    method ResolveKeyAndLog(env: Option<string>) returns (missing: bool)
      modifies this`accessKey, this`customLogPath, this`argumentString
      ensures missing <==> IsNullOrBlank(ResolvedKey(old(accessKey), env))
      ensures missing ==> CurrentSettings() == old(CurrentSettings()).(accessKey := env)
      ensures !missing ==> CurrentSettings() == Prepared(old(CurrentSettings()), env, tunnel.basePaths)
    {
      if IsNullOrBlank(accessKey) {
        accessKey := env;
        if IsNullOrBlank(accessKey) {
          return true;
        }
        // the whitespace-stripped copy of the key is computed and discarded
      }
      if IsBlank(customLogPath) {
        customLogPath := Combine(tunnel.basePaths[1], "local.log");
      }
      argumentString := argumentString + "-logFile \"" + customLogPath + "\" ";
      missing := false;
    }

    /** What the retry loop keeps between passes, for a loop that started at
        `index0` with `path0` and `tracked0` and has made `runs` runs, each
        with the command line `line`. */
    ghost predicate Progress(launch: nat -> Launch, index0: int, path0: string, tracked0: bool, line: string,
                             runs: nat, passed: bool, exhausted: bool, launched: seq<string>)
      reads this, tunnel
    {
      && -1 <= index0 <= tunnel.basePathsIndex < CandidateCount
      && tunnel.Valid()
      && (!passed && !exhausted ==> Retry(tunnel.basePathsIndex, runs, launch) == Retry(index0, 0, launch))
      && (passed || exhausted ==> Retry(index0, 0, launch) == RetryResult(passed, runs, tunnel.basePathsIndex))
      && (tunnel.basePathsIndex == index0 ==> tunnel.binaryAbsolute == path0)
      && (tunnel.basePathsIndex != index0 ==> tunnel.binaryAbsolute == Candidate(tunnel.basePaths, tunnel.basePathsIndex))
      && tunnel.processTracked == TrackedAfterRuns(launch, runs, tracked0)
      && launched == Repeat(line, runs)
    }

    /** The `while (true)` of `start`: run, and after each failed run fall
        back to the next candidate, until a run succeeds or the fallback
        throws. */
    method RetryLoop(launch: nat -> Launch) returns (r: Outcome<StartError>, runs: nat, ghost launched: seq<string>)
      requires Valid() && !IsNullOrBlank(accessKey) && tunnel.basePathsIndex < CandidateCount
      modifies tunnel`basePathsIndex, tunnel`binaryAbsolute, tunnel`processTracked
      ensures Valid()
      ensures var s := Retry(old(tunnel.basePathsIndex), 0, launch);
        && r == (if s.succeeded then Pass else Fail(TunnelFailure(PathsExhausted)))
        && runs == s.runs
        && launched == Repeat(ArgumentLine("start", accessKey.value, Some(folder), tunnel.binaryArguments), runs)
        && tunnel.basePathsIndex == s.finalIndex
        && tunnel.binaryAbsolute == (if s.finalIndex == old(tunnel.basePathsIndex) then old(tunnel.binaryAbsolute)
                                     else Candidate(tunnel.basePaths, s.finalIndex))
        && tunnel.processTracked == TrackedAfterRuns(launch, runs, old(tunnel.processTracked))
    {
      ghost var index0, path0, tracked0 := tunnel.basePathsIndex, tunnel.binaryAbsolute, tunnel.processTracked;
      ghost var key, dir, flags := accessKey.value, folder, tunnel.binaryArguments;
      ghost var line := ArgumentLine("start", key, Some(dir), flags);
      runs, launched := 0, [];
      var passed, exhausted := false, false;
      while !passed && !exhausted
        invariant Progress(launch, index0, path0, tracked0, line, runs, passed, exhausted, launched)
        decreases !passed && !exhausted, CandidateCount - tunnel.basePathsIndex
      {
        passed, exhausted, launched := Attempt(launch, runs, index0, path0, tracked0, key, dir, flags, line, launched);
        runs := runs + 1;
      }
      r := if passed then Pass else Fail(TunnelFailure(PathsExhausted));
    }

    /** One pass of the loop body: a `start` run, and after a failed one a
        `fallbackPaths`, which may throw. The run's command line is appended
        to `launched`. */
    method Attempt(launch: nat -> Launch, run: nat, ghost index0: int, ghost path0: string, ghost tracked0: bool,
                   ghost key: string, ghost dir: string, ghost flags: string, ghost line: string,
                   ghost launched: seq<string>)
      returns (passed: bool, exhausted: bool, ghost launchedAfter: seq<string>)
      requires !IsNullOrBlank(accessKey)
      requires accessKey.value == key && folder == dir && tunnel.binaryArguments == flags
      requires line == ArgumentLine("start", key, Some(dir), flags)
      requires Progress(launch, index0, path0, tracked0, line, run, false, false, launched)
      modifies tunnel`basePathsIndex, tunnel`binaryAbsolute, tunnel`processTracked
      ensures Progress(launch, index0, path0, tracked0, line, run + 1, passed, exhausted, launchedAfter)
      ensures launchedAfter == launched + [line]
      ensures passed == StartSucceeds(launch(run))
      ensures passed ==> !exhausted
      ensures !passed ==> (exhausted <==> FallbackStep(old(tunnel.basePathsIndex)).None?)
      ensures !passed && !exhausted ==> tunnel.basePathsIndex == old(tunnel.basePathsIndex) + 1
    {
      var result, arguments, _ := tunnel.Run(accessKey.value, Some(folder), customLogPath, "start", launch(run));
      launchedAfter := launched + [arguments];
      passed, exhausted := result.Pass?, false;
      if !passed {
        var fallback := tunnel.FallbackPaths();
        exhausted := fallback.Fail?;
      }
    }

    /** Runs the `stop` subcommand and then kills the tunnel; a failing run
        propagates and the kill is skipped. */
    method Stop(launch: Launch) returns (r: Outcome<TunnelError>, arguments: string)
      requires Valid()
      modifies tunnel`processTracked, tunnel`localState
      ensures Valid()
      ensures arguments == ArgumentLine("stop", OrEmpty(accessKey), Some(folder), tunnel.binaryArguments)
      ensures r == RunOutcome(launch, "stop")
      ensures r.Fail? ==> tunnel.localState == old(tunnel.localState)
                          && tunnel.processTracked == TrackedAfter(launch, old(tunnel.processTracked))
      ensures r.Pass? ==> !tunnel.processTracked
                          && tunnel.localState == if TrackedAfter(launch, old(tunnel.processTracked))
                                                  then Disconnected else old(tunnel.localState)
      ensures tunnel.basePathsIndex == old(tunnel.basePathsIndex)
      ensures tunnel.binaryAbsolute == old(tunnel.binaryAbsolute)
      ensures tunnel.binaryArguments == old(tunnel.binaryArguments)
    {
      var result, line, _ := tunnel.Run(OrEmpty(accessKey), Some(folder), customLogPath, "stop", launch);
      arguments := line;
      if result.Fail? {
        return result, arguments;
      }
      tunnel.Kill();
      r := Pass;
    }

    /** `tunnel.IsConnected()`; since nothing in the client ever records
        Connected, it never holds. */
    method IsRunning() returns (running: bool)
      requires Valid()
      ensures running <==> tunnel.IsConnected()
      ensures !running
    {
      running := tunnel.IsConnected();
    }
  }
}

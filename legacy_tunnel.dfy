/** The tunnel of the older client (`BrowserStack` namespace): the binary
    path chosen at construction, the fallback chain, the argument line and
    its redacted log form, the line handler that watches the binary's output
    for two markers, and `Kill`. */
module LegacyTunnel {
  import opened Wrappers
  import opened Text
  import opened Paths
  import Tunnel

  datatype LocalState = Idle | Connecting | Connected | Error | Disconnected

  /** The exceptions the modelled operations can throw. */
  datatype TunnelError =
    | PathsExhausted    // `fallbackPaths` past the last candidate
    | DownloadFailed    // the binary is missing and could not be fetched
    | EmptyAccessKey    // `String.Replace` with an empty pattern
    | LaunchFailed      // `Process.Start` or `Job.AddProcess` threw

  /** The words the binary prints once the tunnel is up. */
  const ConnectedMarker := "Press Ctrl-C to exit"
  /** The words that start an error report; whitespace must follow them. */
  const ErrorMarker := "*** Error:"
  /** What the access key is replaced with in the logged argument line. */
  const KeyPlaceholder := "<access_key>"

  /** The argument line: the folder-testing prefix when a folder is given,
      otherwise the bare access key, then the free-form arguments. */
  function ArgumentLine(accessKey: string, folder: Option<string>, binaryArguments: string): string {
    if !IsNullOrBlank(folder) then "-f " + accessKey + " " + folder.value + " " + binaryArguments
    else accessKey + " " + binaryArguments
  }

  /** The current client's argument line is the older one behind a
      `-d <subcommand>` prefix. */
  lemma ArgumentLineVersions(processType: string, accessKey: string, folder: Option<string>,
                             binaryArguments: string)
    ensures Tunnel.ArgumentLine(processType, accessKey, folder, binaryArguments)
            == "-d " + processType + " " + ArgumentLine(accessKey, folder, binaryArguments)
  {
    var prefix := "-d " + processType + " ";
    if !IsNullOrBlank(folder) {
      assert prefix + "-f " + accessKey + " " + folder.value + " " + binaryArguments
          == prefix + ("-f " + accessKey + " " + folder.value + " " + binaryArguments);
    } else {
      assert prefix + accessKey + " " + binaryArguments == prefix + (accessKey + " " + binaryArguments);
    }
  }

  /** The argument line as it is logged: every occurrence of the key, left
      to right, replaced by the placeholder. */
  function Redact(arguments: string, accessKey: string): string
    requires |accessKey| > 0
  {
    ReplaceAll(arguments, accessKey, KeyPlaceholder)
  }

  /** A line that starts with the key logs the placeholder in its place. */
  lemma {:induction false} RedactLeadingKey(accessKey: string, rest: string)
    requires |accessKey| > 0
    ensures Redact(accessKey + rest, accessKey) == KeyPlaceholder + Redact(rest, accessKey)
  {
    var s := accessKey + rest;
    assert s[..|accessKey|] == accessKey;
    assert s[|accessKey|..] == rest;
  }

  /** The line the older client launches without a folder is the key twice
      (once from the tunnel, once at the head of the arguments `start`
      builds) and then the flags; both copies of a key without white space
      are logged as the placeholder, and flags without the key verbatim. */
  lemma RedactBareLine(accessKey: string, flags: string)
    requires |accessKey| > 0 && IsWord(accessKey)
    ensures Redact(ArgumentLine(accessKey, None, accessKey + " " + flags), accessKey)
            == KeyPlaceholder + " " + KeyPlaceholder + " " + Redact(flags, accessKey)
    ensures !Occurs(flags, accessKey) ==>
              Redact(ArgumentLine(accessKey, None, accessKey + " " + flags), accessKey)
              == KeyPlaceholder + " " + KeyPlaceholder + " " + flags
  {
    var k, p, rest := accessKey, KeyPlaceholder, Redact(flags, accessKey);
    calc {
      Redact(ArgumentLine(k, None, k + " " + flags), k);
      { assert ArgumentLine(k, None, k + " " + flags) == k + (" " + (k + (" " + flags))); }
      Redact(k + (" " + (k + (" " + flags))), k);
      { RedactLeadingKey(k, " " + (k + (" " + flags))); }
      p + Redact(" " + (k + (" " + flags)), k);
      { ReplaceSkipsSpace(k + (" " + flags), k, p); }
      p + (" " + Redact(k + (" " + flags), k));
      { RedactLeadingKey(k, " " + flags); }
      p + (" " + (p + Redact(" " + flags, k)));
      { ReplaceSkipsSpace(flags, k, p); }
      p + (" " + (p + (" " + rest)));
      p + " " + p + " " + rest;
    }
    if !Occurs(flags, accessKey) {
      ReplaceAbsent(flags, accessKey, KeyPlaceholder);
    }
  }

  /** With a folder the line is `-f key folder key flags`; when neither `-f`
      nor the folder contains the key, both copies of the key are logged as
      the placeholder and the rest is kept. */
  lemma RedactFolderLine(accessKey: string, folder: string, flags: string)
    requires |accessKey| > 0 && IsWord(accessKey) && !Occurs("-f", accessKey)
    requires !IsBlank(folder) && !Occurs(folder, accessKey)
    ensures Redact(ArgumentLine(accessKey, Some(folder), accessKey + " " + flags), accessKey)
            == "-f " + KeyPlaceholder + " " + folder + " " + KeyPlaceholder + " " + Redact(flags, accessKey)
  {
    var k, p, rest := accessKey, KeyPlaceholder, Redact(flags, accessKey);
    var second := k + (" " + flags);
    calc {
      Redact(ArgumentLine(k, Some(folder), k + " " + flags), k);
      { assert ArgumentLine(k, Some(folder), k + " " + flags)
            == "-f" + " " + (k + (" " + (folder + " " + second))); }
      Redact("-f" + " " + (k + (" " + (folder + " " + second))), k);
      { ReplaceSkipsWord("-f", k + (" " + (folder + " " + second)), k, p); }
      "-f" + " " + Redact(k + (" " + (folder + " " + second)), k);
      { RedactLeadingKey(k, " " + (folder + " " + second)); }
      "-f" + " " + (p + Redact(" " + (folder + " " + second), k));
      { ReplaceSkipsSpace(folder + " " + second, k, p); }
      "-f" + " " + (p + (" " + Redact(folder + " " + second, k)));
      { ReplaceSkipsWord(folder, second, k, p); }
      "-f" + " " + (p + (" " + (folder + " " + Redact(second, k))));
      { RedactLeadingKey(k, " " + flags); }
      "-f" + " " + (p + (" " + (folder + " " + (p + Redact(" " + flags, k)))));
      { ReplaceSkipsSpace(flags, k, p); }
      "-f" + " " + (p + (" " + (folder + " " + (p + (" " + rest)))));
      "-f " + p + " " + folder + " " + p + " " + rest;
    }
  }

  /** `\s*\*\*\* Error:\s+(.*).*`: the error marker followed by at least one
      whitespace character, anywhere in the line. */
  predicate ErrorReported(line: string) {
    exists i | 0 <= i && i + |ErrorMarker| < |line| ::
      OccursAt(line, ErrorMarker, i) && IsWhiteSpace(line[i + |ErrorMarker|])
  }

  /** The matcher registered for `target`; only Connected and Error have one. */
  predicate Matches(target: LocalState, line: string) {
    match target
    case Connected => Occurs(line, ConnectedMarker)
    case Error => ErrorReported(line)
    case _ => false
  }

  /** The matchers in the order the handler tries them. */
  const Matchers: seq<LocalState> := [Connected, Error]

  /** The first of `matchers` whose pattern the line matches. */
  function FirstMatch(matchers: seq<LocalState>, line: string): Option<LocalState> {
    if matchers == [] then None
    else if Matches(matchers[0], line) then Some(matchers[0])
    else FirstMatch(matchers[1..], line)
  }

  function Classify(line: string): Option<LocalState> {
    FirstMatch(Matchers, line)
  }

  /** Connected is tried first: a line carrying both markers reports
      Connected, and Error only wins when the connected marker is absent. */
  lemma {:induction false} ClassifyOrder(line: string)
    ensures Classify(line) == if Occurs(line, ConnectedMarker) then Some(Connected)
                              else if ErrorReported(line) then Some(Error)
                              else None
  {
    assert Matchers[1..] == [Error] && [Error][1..] == [];
    assert FirstMatch([Error], line) == if ErrorReported(line) then Some(Error) else FirstMatch([], line);
  }

  /** `TunnelStateChanged` sets `connectingEvent` for every target state
      except Connecting. */
  predicate Signals(state: LocalState) {
    state != Connecting
  }

  /** What the line handler keeps: the state, the `output` buffer and
      whether `connectingEvent` is set. */
  datatype Monitor = Monitor(state: LocalState, output: string, signalled: bool)

  /** One call of the line handler. A null line is ignored; any other line
      is appended to the buffer, and the first matcher it satisfies sets the
      state (reporting the transition if the state changes) and clears the
      buffer. */
  function Step(m: Monitor, data: Option<string>): Monitor {
    if data.None? then m
    else match Classify(data.value)
      case None => m.(output := m.output + data.value)
      case Some(target) => Monitor(target, "", m.signalled || (m.state != target && Signals(target)))
  }

  /** The handler applied to lines in the order they arrive. */
  function Feed(m: Monitor, lines: seq<Option<string>>): Monitor {
    if lines == [] then m else Step(Feed(m, lines[..|lines| - 1]), lines[|lines| - 1])
  }

  /** The line is present and some matcher accepts it. */
  predicate Matched(data: Option<string>) {
    data.Some? && Classify(data.value).Some?
  }

  /** The present lines, concatenated. */
  function Joined(lines: seq<Option<string>>): string {
    if lines == [] then "" else Joined(lines[..|lines| - 1]) + OrEmpty(lines[|lines| - 1])
  }

  /** Lines that match nothing leave the state and the event alone and only
      grow the buffer. */
  lemma {:induction false} FeedUnmatched(m: Monitor, lines: seq<Option<string>>)
    requires forall i :: 0 <= i < |lines| ==> !Matched(lines[i])
    ensures Feed(m, lines) == m.(output := m.output + Joined(lines))
  {
    if lines != [] {
      var init := lines[..|lines| - 1];
      FeedUnmatched(m, init);
      assert !Matched(lines[|lines| - 1]);
    }
  }

  /** After the last matching line, the state is what that line reported
      and the buffer holds exactly the lines received since. */
  lemma {:induction false} FeedAfterMatch(m: Monitor, lines: seq<Option<string>>, k: int)
    requires 0 <= k < |lines| && Matched(lines[k])
    requires forall i :: k < i < |lines| ==> !Matched(lines[i])
    ensures Feed(m, lines).state == Classify(lines[k].value).value
    ensures Feed(m, lines).output == Joined(lines[k + 1..])
  {
    var init := lines[..|lines| - 1];
    if k == |lines| - 1 {
      assert lines[k + 1..] == [];
    } else {
      FeedAfterMatch(m, init, k);
      assert init[k + 1..] == lines[k + 1..|lines| - 1];
      assert lines[k + 1..][..|lines[k + 1..]| - 1] == init[k + 1..];
    }
  }

  /** Starting from a state no matcher reports, `connectingEvent` ends up
      set exactly when it already was or some line matched. */
  lemma {:induction false} FeedSignals(m: Monitor, lines: seq<Option<string>>)
    requires m.state != Connected && m.state != Error
    ensures Feed(m, lines).signalled <==> m.signalled || exists i :: 0 <= i < |lines| && Matched(lines[i])
  {
    if lines != [] {
      var init := lines[..|lines| - 1];
      FeedSignals(m, init);
      if exists i :: 0 <= i < |init| && Matched(init[i]) {
        var i :| 0 <= i < |init| && Matched(init[i]);
        assert Matched(lines[i]);
      } else {
        FeedUnmatched(m, init);
        if Matched(lines[|lines| - 1]) {
          ClassifyOrder(lines[|lines| - 1].value);
        }
        forall i | 0 <= i < |lines| - 1 ensures !Matched(lines[i]) {
          assert lines[i] == init[i];
        }
      }
    }
  }

  class BrowserStackTunnel {
    const basePaths: BasePaths
    var basePathsIndex: int
    var binaryAbsolute: string
    var binaryArguments: string
    var output: string
    var localState: LocalState
    /** `connectingEvent` is set */
    var signalled: bool
    /** `process != null` */
    var processTracked: bool

    /** The index stays within the candidates, and whenever it points at one
        the binary path is that candidate. */
    ghost predicate Valid()
      reads this
    {
      && -1 <= basePathsIndex < CandidateCount
      && (0 <= basePathsIndex ==> binaryAbsolute == Candidate(basePaths, basePathsIndex))
    }

    function Snapshot(): Monitor
      reads this
    {
      Monitor(localState, output, signalled)
    }

    /** A null or blank path selects the first candidate (index 0); any other
        path is kept with the index left at -1. Null arguments become "". */
    constructor(basePaths: BasePaths, binaryAbsolute: Option<string>, binaryArguments: Option<string>)
      ensures Valid() && this.basePaths == basePaths
      ensures IsNullOrBlank(binaryAbsolute) ==>
                basePathsIndex == 0 && this.binaryAbsolute == Candidate(basePaths, 0)
      ensures !IsNullOrBlank(binaryAbsolute) ==>
                basePathsIndex == -1 && this.binaryAbsolute == binaryAbsolute.value
      ensures this.binaryArguments == OrEmpty(binaryArguments)
      ensures Snapshot() == Monitor(Idle, "", false) && !processTracked
    {
      this.basePaths := basePaths;
      var index := -1;
      var path := "";
      if IsNullOrBlank(binaryAbsolute) {
        index := index + 1;
        path := Candidate(basePaths, index);
      } else {
        path := binaryAbsolute.value;
      }
      basePathsIndex := index;
      this.binaryAbsolute := path;
      var arguments := if binaryArguments.None? then "" else binaryArguments.value;
      localState := Idle;
      output := "";
      this.binaryArguments := arguments;
      signalled := false;
      processTracked := false;
    }

    /** Throws once the last candidate has been reached; otherwise advances
        the index by one and points the binary path at that candidate. */
    method FallbackPaths() returns (r: Outcome<TunnelError>)
      requires Valid()
      modifies this`basePathsIndex, this`binaryAbsolute
      ensures Valid()
      ensures r.Pass? <==> FallbackStep(old(basePathsIndex)).Some?
      ensures r.Pass? ==> basePathsIndex == FallbackStep(old(basePathsIndex)).value
                          && binaryAbsolute == Candidate(basePaths, basePathsIndex)
      ensures r.Fail? ==> r.error == PathsExhausted && basePathsIndex == old(basePathsIndex)
                          && binaryAbsolute == old(binaryAbsolute)
    {
      if basePathsIndex >= CandidateCount - 1 {
        return Fail(PathsExhausted);
      }
      basePathsIndex := basePathsIndex + 1;
      binaryAbsolute := Candidate(basePaths, basePathsIndex);
      r := Pass;
    }

    /** Reports a transition; sets `connectingEvent` unless the new state is
        Connecting. */
    method TunnelStateChanged(prevState: LocalState, state: LocalState)
      modifies this`signalled
      ensures signalled == (old(signalled) || Signals(state))
    {
      if state != Connecting {
        signalled := true;
      }
    }

    /** The output handler: one line from the binary's standard output or
        error stream. */
    method HandleLine(data: Option<string>)
      modifies this`output, this`localState, this`signalled
      ensures Snapshot() == Step(old(Snapshot()), data)
    {
      if data.None? {
        return;
      }
      var line := data.value;
      output := output + line;
      var i := 0;
      while i < |Matchers|
        invariant 0 <= i <= |Matchers|
        invariant FirstMatch(Matchers[i..], line) == Classify(line)
        invariant Snapshot() == old(Snapshot()).(output := old(output) + line)
      {
        var target := Matchers[i];
        if Matches(target, line) {
          if localState != target {
            TunnelStateChanged(localState, target);
          }
          localState := target;
          output := "";
          break;
        }
        assert Matchers[i..][1..] == Matchers[i + 1..];
        i := i + 1;
      }
    }

    /** `Run` up to the wait on `connectingEvent`. The binary is provisioned
        or the download throws; logging the redacted line throws for an
        empty key; then a new process is tracked, and starting it or adding
        it to the job may throw (`starts`). Otherwise the Idle to Connecting
        transition is reported and the handler sees `lines` in order.
        `released` says whether the wait returns, consuming the event. */
    method Run(accessKey: string, folder: Option<string>, provisioned: bool, starts: bool,
               lines: seq<Option<string>>)
      returns (r: Outcome<TunnelError>, arguments: string, logged: string, released: bool)
      requires Valid()
      modifies this`processTracked, this`output, this`localState, this`signalled
      ensures Valid()
      ensures arguments == ArgumentLine(accessKey, folder, binaryArguments)
      ensures r == if !provisioned then Fail(DownloadFailed)
                   else if accessKey == [] then Fail(EmptyAccessKey)
                   else if !starts then Fail(LaunchFailed)
                   else Pass
      ensures r.Fail? ==> Snapshot() == old(Snapshot()) && !released
      ensures !provisioned || accessKey == [] ==> processTracked == old(processTracked) && logged == []
      ensures provisioned && accessKey != [] ==> logged == Redact(arguments, accessKey) && processTracked
      ensures r.Pass? ==> var m := Feed(old(Snapshot()), lines);
                          && localState == m.state && output == m.output
                          && released == m.signalled && !signalled
    {
      arguments := ArgumentLine(accessKey, folder, binaryArguments);
      logged, released := [], false;
      if !provisioned {
        return Fail(DownloadFailed), arguments, logged, released;
      }
      if accessKey == [] {
        return Fail(EmptyAccessKey), arguments, logged, released;
      }
      logged := Redact(arguments, accessKey);
      processTracked := true;
      if !starts {
        return Fail(LaunchFailed), arguments, logged, released;
      }
      TunnelStateChanged(Idle, Connecting);
      var i := 0;
      while i < |lines|
        invariant 0 <= i <= |lines|
        invariant Snapshot() == Feed(old(Snapshot()), lines[..i]) && processTracked
      {
        assert lines[..i + 1][..i] == lines[..i];
        HandleLine(lines[i]);
        i := i + 1;
      }
      assert lines[..i] == lines;
      // connectingEvent.WaitOne() returns once the event is set and resets it
      released := signalled;
      signalled := false;
      r := Pass;
    }

    predicate IsConnected()
      reads this
    {
      localState == Connected
    }

    /** Terminating the process throws when none is tracked or it cannot be
        killed (`killFails`); the error is swallowed, and in every case the
        transition is reported if needed and the state becomes Disconnected. */
    method Kill(killFails: bool)
      modifies this`processTracked, this`localState, this`signalled
      ensures localState == Disconnected && output == old(output)
      ensures signalled == (old(signalled) || old(localState) != Disconnected)
      ensures processTracked == (old(processTracked) && killFails)
    {
      if processTracked && !killFails {
        processTracked := false;
      }
      if localState != Disconnected {
        TunnelStateChanged(localState, Disconnected);
      }
      localState := Disconnected;
    }
  }
}

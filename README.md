# BrowserStack Local client for .NET, modelled in Dafny

The library starts and stops the BrowserStack Local tunnel binary from .NET
code. A `Local` object turns a list of key/value options into fields (access
key, folder, binary path, log file) and a flag string. It then hands these to a
`BrowserStackTunnel`. The tunnel looks for the binary in three base directories
(the user profile's `.browserstack`, the working directory, the temp directory),
builds the binary's argument line, and watches its output.

The repository holds two versions of this core, and they behave differently.
This project models each on its own terms:

- **Current version** (`BrowserStackLocal/BrowserStackLocal`). Option keys are
  case-sensitive and unknown keys pass through as `-key value`. `start` checks
  the access key, defaults the log file and appends `-logFile`. It then runs the
  binary's `start` subcommand and falls back through the candidate directories
  while runs fail. The tunnel prefixes the argument line with `-d <subcommand>`.
  Its output handler throws on any status line whose `state` is not
  `connected`. That exception is raised on the thread that reads the output,
  not inside `Run`, so `start`'s `catch` never sees it. The model counts such a
  line as a failure of that run instead (see "Left out").
  Modules `Tunnel` and `LocalClient`.
- **Older version** (`BrowserStack/BrowserStack`). Option keys are trimmed and
  lower-cased, and unknown keys are dropped. `start` defaults the binary path to
  the working directory and creates the tunnel with the key in front of the
  flags. The tunnel matches output lines against two markers, keeps a buffer of
  unmatched output, signals a waiting `Run` on each reported state change, and
  logs the argument line with the key redacted. Modules `LegacyTunnel` and
  `LegacyLocal`.

Shared modules:
- `Wrappers` holds `Option` and `Outcome`. An `Outcome` failure stands for a
  thrown exception.
- `Text` holds the .NET string operations used: `Char.IsWhiteSpace`, `Trim`,
  `ToLower`, `Contains`, `Replace` and `Path.Combine`.
- `Paths` holds the candidate list and the fallback chain.
- `Tables` holds the option tables and their `List.Find` lookup.

Classes keep the source's fields and update them in place. The pure parts are
functions:
- option translation: `AddArg`/`AddAll`;
- the argument line;
- the retry loop: `Retry`;
- the output handler: `Step`/`Feed`.

Every method is proved against the pure part. Three things are parameters of
the methods that need them:
- the operating system: whether the binary is there or could be downloaded, whether the
  process starts, the lines it prints, whether its exit is observed, and
  whether terminating it throws;
- the environment variable `BROWSERSTACK_ACCESS_KEY`;
- the working directory.

Some behaviours of the code that are easy to miss:
- `stop` (BrowserStackLocal/Local.cs:147-151) has no `catch`. If the `stop` run
  throws, `Kill` is not reached. `Kill` changes nothing when no process is tracked.
- In the current version the argument line contains the access key once:
  either `-f key folder` or the bare key. In the older version `start` puts the
  key in front of the flag string as well, so the tunnel's line carries it twice
  (`key key flags`, or `-f key folder key flags`).
- In the current version, a boolean option whose value is not `"true"` is not
  dropped. It falls through to the passthrough and appends `-key value `. The key
  `verbose` is ignored rather than mapped to `-v`.
- The `-logFile` path is quoted.
- No stop-confirmation message is recognised in the current handler. Only the
  `state` field is checked.
- The first base directory is `.browserstack` under the user profile.

## Model

| member | source | states |
|---|---|---|
| LocalClient.AddArg | BrowserStackLocal/BrowserStackLocal/Local.cs:41-94 | the old flag string is always a prefix of the new one; a trimmed key among `key`, `f`, `binarypath`, `logfile`, `verbose` leaves it unchanged; any other key changes nothing but the flag string, which gains exactly the key's flag text |
| LocalClient.FieldKeysSetTheirField | BrowserStackLocal/BrowserStackLocal/Local.cs:44-65 | after trimming, `key`, `f`, `binarypath`, `logfile` set exactly their own field and nothing else; `verbose` changes nothing |
| LocalClient.ValueCommandAppends | BrowserStackLocal/BrowserStackLocal/Local.cs:68-73 | a value-command key appends its flag, a space, the value and a space |
| LocalClient.BooleanCommandAppends | BrowserStackLocal/BrowserStackLocal/Local.cs:75-92 | a boolean-command key appends its flag and a space when the value trims and lower-cases to "true", and otherwise falls through to `-key value ` |
| LocalClient.PassthroughAppends | BrowserStackLocal/BrowserStackLocal/Local.cs:85-92 | a key in neither table appends `-key ` for a "true" value and `-key value ` for any other |
| LocalClient.TableKeysAreNotFieldKeys | BrowserStackLocal/BrowserStackLocal/Local.cs:18-65 | no key that sets a field is in either table, so every table key reaches the lookups |
| LocalClient.TableExamples | BrowserStackLocal/BrowserStackLocal/Local.cs:18-33 | `hosts` has the empty flag, `v` is the boolean flag `-vvv` and no value command |
| Text.TrueValues | BrowserStackLocal/BrowserStackLocal/Local.cs:78-85 | any value that lower-cases to "true" counts as "true" whatever white space pads it |
| LocalClient.AddAllOnlyAppends | BrowserStackLocal/BrowserStackLocal/Local.cs:103-108 | translating any list of options only ever appends to the flag string |
| LocalClient.ResolvedKey | BrowserStackLocal/BrowserStackLocal/Local.cs:110-119 | the key is usable exactly when the option's or the environment's is; a usable option key wins, otherwise the environment's is taken verbatim |
| LocalClient.Prepared | BrowserStackLocal/BrowserStackLocal/Local.cs:121-126 | after key and log resolution the flag string ends with `-logFile "<path>" ` for a non-empty path, and folder and binary path are untouched |
| LocalClient.RetryShape | BrowserStackLocal/BrowserStackLocal/Local.cs:128-143 | the retry loop fails exactly when every run it can make fails; it makes at most one run per remaining candidate, stops at the first success, and on failure stands at the last candidate after one run per candidate |
| LocalClient.Local.constructor | BrowserStackLocal/BrowserStackLocal/Local.cs:96-99 | all fields start empty and a fresh tunnel is created |
| LocalClient.Local.AddArgs | BrowserStackLocal/BrowserStackLocal/Local.cs:41-94 | the fields after the call are `AddArg` of the fields before |
| LocalClient.Local.AppendFlags | BrowserStackLocal/BrowserStackLocal/Local.cs:66-93 | the table lookups and passthrough append exactly the key's flag text |
| LocalClient.Local.TranslateOptions | BrowserStackLocal/BrowserStackLocal/Local.cs:103-108 | the options are applied in order, giving `AddAll` of the fields |
| LocalClient.Local.ResolveKeyAndLog | BrowserStackLocal/BrowserStackLocal/Local.cs:110-126 | it reports a missing key exactly when neither source has one, and otherwise leaves the fields `Prepared` |
| LocalClient.Local.RetryLoop | BrowserStackLocal/BrowserStackLocal/Local.cs:128-143 | the outcome, the number of runs, the final index, the binary path and the tracked process are those of `Retry` on the run outcomes; exhaustion fails with the fallback's error; every run is launched with the same `start` line built from the key, the folder and the tunnel's arguments |
| LocalClient.Local.Attempt | BrowserStackLocal/BrowserStackLocal/Local.cs:129-142 | one pass passes exactly when that run of `start` succeeds and appends that run's `start` line; after a failed run the fallback ends the loop exactly at the last candidate and otherwise selects the next candidate; either way the remaining `Retry` advances by exactly one step |
| LocalClient.Local.Start | BrowserStackLocal/BrowserStackLocal/Local.cs:100-145 | with no usable key it throws before any run and touches no tunnel state except resetting the index; otherwise the fields are prepared, the tunnel gets the flag string, path, index, runs and outcome follow `Retry` from candidate 0 (blank path) or the explicit path, and each run's line is `-d start`, then `-f key folder` or the key, then the flag string |
| LocalClient.KeyAndFolderReachStartLine | BrowserStackLocal/BrowserStackLocal/Local.cs:46-53 | the options `key` and `f` (non-blank) end up as the resolved key and the folder, and the `start` line's words are `-d start -f key folder` |
| LocalClient.DummyFolderStartLine | BrowserStackLocal/BrowserStackLocal/Local.cs:46-53 | key `dummyKey` and folder `dummyFolderPath` give the `start` line `-d start -f dummyKey dummyFolderPath` followed by the flags |
| LocalClient.Local.Stop | BrowserStackLocal/BrowserStackLocal/Local.cs:147-151 | it runs the `stop` subcommand with the line built from the key (empty when null), the folder and the tunnel's arguments; a failure propagates without `Kill`; after success `Kill` leaves no tracked process and sets Disconnected if one was tracked; path, index and arguments never change |
| LocalClient.Local.IsRunning | BrowserStackLocal/BrowserStackLocal/Local.cs:35-39 | it answers `IsConnected`, which never holds because no code path records Connected |
| Tunnel.ArgumentLineWords | BrowserStackLocal/BrowserStackLocal/BrowserStackTunnel.cs:93-101 | the argument line is `-d`, the subcommand, then `-f key folder` (non-blank folder) or the key, joined by single spaces, then a space and the binary arguments |
| Tunnel.TruncateWhenStartOccurs | BrowserStackLocal/BrowserStackLocal/BrowserStackTunnel.cs:112-115 | the log is truncated exactly when it exists and the process type contains `start` in some mix of cases (`SpellsStartAt` some position) |
| Tunnel.TruncateOnStartOnly | BrowserStackLocal/BrowserStackLocal/BrowserStackTunnel.cs:112-115 | of the two subcommands, `start` truncates exactly when the log exists and `stop` never does |
| Tunnel.ScanOutput | BrowserStackLocal/BrowserStackLocal/BrowserStackTunnel.cs:136-146 | a run's output is accepted exactly when no line is unparsable or carries a `state` other than `connected` |
| Tunnel.AcceptedMeansNoneRejected | BrowserStackLocal/BrowserStackLocal/BrowserStackTunnel.cs:136-146 | the output is accepted line by line exactly when no line at all is rejected |
| Tunnel.BrowserStackTunnel.constructor | BrowserStackLocal/BrowserStackLocal/BrowserStackTunnel.cs:53-57 | state Idle, index -1, no process |
| Tunnel.BrowserStackTunnel.AddBinaryPath | BrowserStackLocal/BrowserStackLocal/BrowserStackTunnel.cs:35-42 | a null or blank path pre-increments the index and selects that candidate, throwing past the last one; any other path is stored verbatim with the index untouched |
| Tunnel.BrowserStackTunnel.AddBinaryArguments | BrowserStackLocal/BrowserStackLocal/BrowserStackTunnel.cs:44-51 | null is stored as "" and anything else verbatim |
| Tunnel.BrowserStackTunnel.FallbackPaths | BrowserStackLocal/BrowserStackLocal/BrowserStackTunnel.cs:59-67 | it throws exactly at index 2 or more, changing nothing; otherwise it moves the index up by one and selects that candidate |
| Tunnel.BrowserStackTunnel.Run | BrowserStackLocal/BrowserStackLocal/BrowserStackTunnel.cs:91-117 | the argument line, the truncation decision, the outcome (download, launch, rejected output) and the tracked process are those of the launch |
| Tunnel.BrowserStackTunnel.RunProcess | BrowserStackLocal/BrowserStackLocal/BrowserStackTunnel.cs:119-164 | the process is tracked from launch until its exit is observed; the run fails when the launch throws or, as the model reads the handler's exception, when a line is rejected |
| Tunnel.BrowserStackTunnel.KillAsWritten | BrowserStackLocal/BrowserStackLocal/BrowserStackTunnel.cs:173-182 | as written, killing a tracked process throws and changes nothing (see Findings) |
| Tunnel.BrowserStackTunnel.Kill | BrowserStackLocal/BrowserStackLocal/BrowserStackTunnel.cs:173-182 | with a tracked process: releases it and sets Disconnected; without one: changes nothing |
| Paths.FallbackStep | BrowserStackLocal/BrowserStackLocal/BrowserStackTunnel.cs:59-67 | one fallback succeeds exactly below the last index and then moves up by one |
| Paths.FallbackChain | BrowserStackLocal/BrowserStackLocal/BrowserStackTunnel.cs:59-67 | from index i, n fallbacks succeed exactly when n is at most 2 - i, and land on i + n |
| Paths.ExplicitPathChain | BrowserStack/BrowserStack/BrowserStackTunnel.cs:62-70 | after an explicit path the fallbacks visit 0, 1, 2 and then throw; after the default path they visit 1, 2 and then throw |
| Tables.LookupFirst | BrowserStackLocal/BrowserStackLocal/Local.cs:68-69 | a lookup misses exactly when no pair has the key, and a hit is the flag of the first pair that does |
| Tables.LookupAbsent | BrowserStackLocal/BrowserStackLocal/Local.cs:68-69 | a key that no pair has misses |
| Tables.Find | BrowserStackLocal/BrowserStackLocal/Local.cs:75-76 | the front-to-back scan returns the lookup's answer |
| Text.IsBlank | BrowserStackLocal/BrowserStackLocal/Local.cs:121 | a string trims to nothing exactly when every character is white space |
| Text.Combine | BrowserStackLocal/BrowserStackLocal/BrowserStackTunnel.cs:39 | the combined path ends with the name and starts with the directory |
| Text.ReplaceAbsent | BrowserStack/BrowserStack/BrowserStackTunnel.cs:158 | replacing a pattern that does not occur leaves the string unchanged |
| LegacyTunnel.ArgumentLineVersions | BrowserStack/BrowserStack/BrowserStackTunnel.cs:137-145 | the older argument line (`-f key folder args` or `key args`) is the current one without its `-d <subcommand> ` prefix |
| LegacyTunnel.RedactLeadingKey | BrowserStack/BrowserStack/BrowserStackTunnel.cs:158 | a line starting with the key is logged with `<access_key>` in its place |
| LegacyTunnel.RedactBareLine | BrowserStack/BrowserStack/BrowserStackTunnel.cs:136-158 | for the line `start` produces (no folder, arguments `key flags`), the logged line is `<access_key> <access_key> ` followed by the redacted flags, or by the flags themselves when they do not contain the key |
| LegacyTunnel.RedactFolderLine | BrowserStack/BrowserStack/BrowserStackTunnel.cs:136-158 | with a folder and arguments `key flags`, the logged line is `-f <access_key> folder <access_key> ` followed by the redacted flags |
| LegacyTunnel.ClassifyOrder | BrowserStack/BrowserStack/BrowserStackTunnel.cs:39-42 | a line reports Connected when it contains "Press Ctrl-C to exit"; otherwise it reports Error when "*** Error:" is followed by white space; otherwise it reports nothing |
| LegacyTunnel.FeedUnmatched | BrowserStack/BrowserStack/BrowserStackTunnel.cs:176-194 | lines that match neither marker keep state and event and only append to the buffer |
| LegacyTunnel.FeedAfterMatch | BrowserStack/BrowserStack/BrowserStackTunnel.cs:181-194 | after the last matching line the state is the one it reported and the buffer holds exactly the later lines |
| LegacyTunnel.FeedSignals | BrowserStack/BrowserStack/BrowserStackTunnel.cs:186-187 | from a state no marker reports, the connecting event ends up set exactly when it was set or some line matched |
| LegacyTunnel.BrowserStackTunnel.constructor | BrowserStack/BrowserStack/BrowserStackTunnel.cs:44-60 | a blank path selects candidate 0 with index 0; an explicit path is kept with index -1; null arguments become ""; state Idle, empty buffer, event not set |
| LegacyTunnel.BrowserStackTunnel.FallbackPaths | BrowserStack/BrowserStack/BrowserStackTunnel.cs:62-70 | it throws exactly at index 2 or more, changing nothing; otherwise it moves the index up by one and selects that candidate |
| LegacyTunnel.BrowserStackTunnel.TunnelStateChanged | BrowserStack/BrowserStack/BrowserStackTunnel.cs:221-228 | the event is set for every target state except Connecting |
| LegacyTunnel.BrowserStackTunnel.HandleLine | BrowserStack/BrowserStack/BrowserStackTunnel.cs:174-196 | state, buffer and event after one line are `Step` of those before |
| LegacyTunnel.BrowserStackTunnel.Run | BrowserStack/BrowserStack/BrowserStackTunnel.cs:135-219 | the argument line; failure when the binary is unavailable or the key is empty, with no state changed; otherwise the logged line is the redacted one and a process is tracked; a launch that throws fails, leaving only the new process object tracked; after a launch the handler state is `Feed` of the lines, and the wait returns exactly when the event was set, consuming it |
| LegacyTunnel.BrowserStackTunnel.Kill | BrowserStack/BrowserStack/BrowserStackTunnel.cs:235-256 | the state always ends Disconnected, with the event set if the state changed; the process is released unless terminating it throws |
| LegacyLocal.NormalizedKeyIdempotent | BrowserStack/BrowserStack/Local.cs:56 | a trimmed, lower-cased key is its own normal form |
| LegacyLocal.CaseInsensitiveKeys | BrowserStack/BrowserStack/Local.cs:56 | an option given under any case and padding of its name has the same effect as its normal form |
| LegacyLocal.AddArg | BrowserStack/BrowserStack/Local.cs:53-81 | the old flag string is always a prefix of the new one |
| LegacyLocal.KeyAndPathSetTheirField | BrowserStack/BrowserStack/Local.cs:58-65 | `key` sets the access key and `path` the binary path, with nothing else changed |
| LegacyLocal.ValueCommandAppends | BrowserStack/BrowserStack/Local.cs:67-71 | a value-command key appends its flag, a space, the value and a space, and nothing else changes |
| LegacyLocal.BooleanCommandAppends | BrowserStack/BrowserStack/Local.cs:73-80 | a boolean-command key appends its flag and a space for a "true" value and nothing otherwise |
| LegacyLocal.UnknownKeysDropped | BrowserStack/BrowserStack/Local.cs:53-81 | any other key changes nothing at all |
| LegacyLocal.TableKeysAreNotFieldKeys | BrowserStack/BrowserStack/Local.cs:19-32 | `key` and `path` are in neither table, so they only ever set their field |
| LegacyLocal.TablesDisjoint | BrowserStack/BrowserStack/Local.cs:19-32 | the two tables share no key, so at most one of the two lookups hits |
| LegacyLocal.AddAllOnlyAppends | BrowserStack/BrowserStack/Local.cs:90-95 | translating any list of options only ever appends to the flag string |
| LegacyLocal.DefaultPath | BrowserStack/BrowserStack/Local.cs:97-100 | the binary path is always set, and a non-blank option path is kept |
| LegacyLocal.ResolvedKey | BrowserStack/BrowserStack/Local.cs:102-106 | the key is missing exactly when the option's is blank and the environment's is null; a non-blank option key wins |
| LegacyLocal.Local.constructor | BrowserStack/BrowserStack/Local.cs:10-14 | empty key and flags, no binary path, no tunnel |
| LegacyLocal.Local.AddArgs | BrowserStack/BrowserStack/Local.cs:53-81 | the fields after the call are `AddArg` of the fields before |
| LegacyLocal.Local.AppendFlags | BrowserStack/BrowserStack/Local.cs:67-80 | both table lookups together append exactly the key's flag text |
| LegacyLocal.Local.VerboseMode | BrowserStack/BrowserStack/Local.cs:83-86 | verbose logging is switched on |
| LegacyLocal.Local.TranslateOptions | BrowserStack/BrowserStack/Local.cs:90-95 | the options are applied in order, giving `AddAll` of the fields |
| LegacyLocal.Local.Start | BrowserStack/BrowserStack/Local.cs:88-107 | the fields are the translated options with the default binary path and the resolved key; it throws exactly when the key resolves to null, leaving the tunnel alone; otherwise a fresh Idle tunnel gets the key, a space and the flags as arguments, and candidate 0 or the given path |
| LegacyLocal.Local.Stop | BrowserStack/BrowserStack/Local.cs:115-121 | without a tunnel nothing happens; with one it is killed (Disconnected, event set on a change, process released unless terminating throws) and its buffer, index, path and arguments are unchanged |
| LegacyLocal.Local.IsRunning | BrowserStack/BrowserStack/Local.cs:42-46 | false without a tunnel, otherwise whether the tunnel is Connected |

## Findings

| source | as written | input that shows it | evidently intended | confidence | as-written member | corrected member |
|---|---|---|---|---|---|---|
| BrowserStackLocal/BrowserStackLocal/BrowserStackTunnel.cs:177-178 | `Kill` calls `Process.Close()` and then `Process.Kill()` on the same object. After `Close` the object has no associated process, so `Kill` throws `InvalidOperationException`. The reference is not dropped and the state is not set to Disconnected. | a `start` whose last run fails in `Process.Start` (the binary cannot be executed): `process` stays assigned, `fallbackPaths` throws, and a later `Dispose()` calls `Kill` | terminate the process, drop the reference and record Disconnected | medium (.NET `Process` semantics); not executed | Tunnel.BrowserStackTunnel.KillAsWritten | Tunnel.BrowserStackTunnel.Kill |

## Left out

- Downloading the binary (HTTP, zip extraction, ACL changes, file deletion) in both tunnels is left out. One flag, `provisioned`, says whether the binary exists or its download succeeded.
- Processes are left out: spawning, redirected streams, `Job`, `AppDomain.ProcessExit`, `WaitForExit` and the OS-level `Exited` callbacks. In the current tunnel, a parameter says whether the exit is observed. In the older tunnel, the `Exited` callback that calls `Kill` is not modelled. `Kill` is modelled on its own.
- Concurrency is left out. Lines from standard output and standard error are handled one at a time, in one given order.
- Tunnel.BrowserStackTunnel.RunProcess: counts a rejected output line as a failure of that run, so the retry loop falls back. In the code the handler's exception is thrown on the output reader thread, outside `Run`; it never reaches `start`'s `catch`, and the run itself ends only when the process exits.
- JSON parsing is left out. The current handler sees an already parsed line: no data, unparsable text, or a record with an optional `state` string.
- The regex engine is left out. The two older matchers are substring predicates. `\s` is taken to be `Char.IsWhiteSpace`. The matchers are tried in insertion order, Connected first.
- `ToLower` covers the ASCII letters only; culture-specific lower-casing of other letters is not modelled.
- Logging, `Console.WriteLine` and the older client's state-change callback are not modelled. The redacted argument line is returned instead of logged.
- The base directories come from the environment. They are opaque strings given to the constructors.
- Option keys and values are non-null strings, because the model's strings cannot be null. In the source a null key throws in `Trim`. A null value is stored as it is by the field keys (`key`, `f`, `binarypath`, `logfile` in the current version; `key`, `path` in the older one) and adds nothing in a value command's flag text. Only a boolean or passthrough key hands a null value to `Trim`, which throws.
- `Dispose` in both tunnels just calls `Kill`; it is not modelled.
- The older `start` calls `logVerbose()` and `Run(callback)`, which that version's tunnel does not define. The model's `Start` ends once the tunnel is created. `VerboseMode` only sets its flag.
- The current `start` writes the tunnel's private `basePathsIndex`. The model takes this as a reset of the index to -1.
- The current tunnel's `logFilePath` field, its `logfileWatcher` and its unused `output` buffer are not modelled.
- LocalClient.Local.Stop: relies on the corrected `Kill`. As written, `Kill` throws `InvalidOperationException` whenever it is reached with a process still tracked (see Findings).
- LegacyTunnel.RedactBareLine: stated only for a non-empty key without white space; LegacyTunnel.RedactFolderLine also requires that the key does not occur in `-f` or in the folder. For other keys the replacement can match across word boundaries and the logged line is not of this shape.
- Tunnel.BrowserStackTunnel.Kill: models the evidently intended release rather than the throwing code (see Findings). `KillAsWritten` models the code as written.
- `Util.cs` (a shell helper), the example programs and the tests are not part of this model. No file in this snapshot chooses a binary per operating system.

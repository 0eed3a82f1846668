/** The public surface of the older client (BrowserStack/Local.cs): options
    are matched case-insensitively against two tables (unknown keys are
    dropped), the binary path and the access key get their defaults, and a
    tunnel is created with the key in front of the flag string. */
module LegacyLocal {
  import opened Wrappers
  import opened Text
  import opened Tables
  import opened Paths
  import opened LegacyTunnel

  const ValueCommands: Table := [
    ("localidentifier", "-localIdentifier"), ("hosts", ""), ("proxyhost", "-proxyHost"),
    ("proxyport", "-proxyPort"), ("proxyuser", "-proxyUser"), ("proxypass", "-proxyPass")]

  const BooleanCommands: Table := [
    ("verbose", "-v"), ("forcelocal", "-forcelocal"), ("onlyautomate", "-onlyAutomate")]

  /** `key.Trim().ToLower()`: the form every option name is compared in. */
  function NormalizedKey(key: string): string {
    ToLower(Trim(key))
  }

  /** Lower-casing never turns a character into whitespace or back. */
  lemma LowerCharWhiteSpace(c: char)
    ensures IsWhiteSpace(LowerChar(c)) == IsWhiteSpace(c)
  {
  }

  /** A normalised key is its own normal form, so matching is insensitive to
      case and surrounding whitespace and normalising twice changes nothing. */
  lemma NormalizedKeyIdempotent(key: string)
    ensures NormalizedKey(NormalizedKey(key)) == NormalizedKey(key)
  {
    var t := Trim(key);
    TrimStartSpec(key);
    TrimEndSpec(TrimStart(key));
    var u := ToLower(t);
    if u != [] {
      LowerCharWhiteSpace(t[0]);
      LowerCharWhiteSpace(t[|t| - 1]);
      TrimPlain(u);
    }
    assert ToLower(u) == u;
  }

  /** The option-derived fields of a `Local`. */
  datatype Settings = Settings(accessKey: Option<string>, binaryPath: Option<string>, argumentString: string)

  /** What `addArgs` appends for a normalised key: a value command adds its
      flag and the value, a boolean command set to "true" adds its flag, and
      anything else adds nothing. The two lookups are independent. */
  function FlagText(key: string, value: string): string {
    var valueFlag := Lookup(ValueCommands, key);
    var booleanFlag := Lookup(BooleanCommands, key);
    (if valueFlag.Some? then valueFlag.value + " " + value + " " else "")
    + (if booleanFlag.Some? && IsTrue(value) then booleanFlag.value + " " else "")
  }

  /** `addArgs(key, value)` on the option-derived fields. */
  function AddArg(st: Settings, key: string, value: string): (r: Settings)
    ensures st.argumentString <= r.argumentString
  {
    var key := NormalizedKey(key);
    st.(accessKey := if key == "key" then Some(value) else st.accessKey,
        binaryPath := if key == "path" then Some(value) else st.binaryPath,
        argumentString := st.argumentString + FlagText(key, value))
  }

  /** Option names match whatever their case and padding. */
  lemma CaseInsensitiveKeys(st: Settings, key: string, value: string)
    ensures AddArg(st, NormalizedKey(key), value) == AddArg(st, key, value)
  {
    NormalizedKeyIdempotent(key);
  }

  /** "key" sets the access key and "path" the binary path; neither is in a
      table, so the flag string is left alone. */
  lemma KeyAndPathSetTheirField(st: Settings, key: string, value: string)
    ensures NormalizedKey(key) == "key" ==> AddArg(st, key, value) == st.(accessKey := Some(value))
    ensures NormalizedKey(key) == "path" ==> AddArg(st, key, value) == st.(binaryPath := Some(value))
  {
    TableKeysAreNotFieldKeys(NormalizedKey(key));
    assert st.argumentString + "" == st.argumentString;
  }

  /** A value command appends its flag, a space, the value and a space. */
  lemma ValueCommandAppends(st: Settings, key: string, value: string)
    requires Lookup(ValueCommands, NormalizedKey(key)).Some?
    ensures AddArg(st, key, value) == st.(argumentString := st.argumentString
                                            + Lookup(ValueCommands, NormalizedKey(key)).value + " " + value + " ")
  {
    TableKeysAreNotFieldKeys(NormalizedKey(key));
    TablesDisjoint(NormalizedKey(key));
  }

  /** A boolean command appends its flag and a space when the value is "true"
      (trimmed, any case), and nothing otherwise. */
  lemma BooleanCommandAppends(st: Settings, key: string, value: string)
    requires Lookup(BooleanCommands, NormalizedKey(key)).Some?
    ensures AddArg(st, key, value) == st.(argumentString := st.argumentString
      + if IsTrue(value) then Lookup(BooleanCommands, NormalizedKey(key)).value + " " else "")
  {
    TableKeysAreNotFieldKeys(NormalizedKey(key));
    TablesDisjoint(NormalizedKey(key));
  }

  /** A key in neither table, other than "key" and "path", changes nothing. */
  lemma UnknownKeysDropped(st: Settings, key: string, value: string)
    requires NormalizedKey(key) != "key" && NormalizedKey(key) != "path"
    requires Lookup(ValueCommands, NormalizedKey(key)).None? && Lookup(BooleanCommands, NormalizedKey(key)).None?
    ensures AddArg(st, key, value) == st
  {
    assert st.argumentString + "" == st.argumentString;
  }

  /** Neither table has "key" or "path", so those two only ever set a field. */
  lemma TableKeysAreNotFieldKeys(key: string)
    ensures key == "key" || key == "path" ==> Lookup(ValueCommands, key).None? && Lookup(BooleanCommands, key).None?
  {
    if key == "key" || key == "path" {
      TablesAvoidFieldKeys();
      LookupAbsent(ValueCommands, key);
      LookupAbsent(BooleanCommands, key);
    }
  }

  lemma TablesAvoidFieldKeys()
    ensures forall i :: 0 <= i < |ValueCommands| ==> ValueCommands[i].0 != "key" && ValueCommands[i].0 != "path"
    ensures forall i :: 0 <= i < |BooleanCommands| ==> BooleanCommands[i].0 != "key" && BooleanCommands[i].0 != "path"
  {
  }

  /** The two tables share no key, so at most one of the lookups hits. */
  lemma TablesDisjoint(key: string)
    ensures Lookup(ValueCommands, key).None? || Lookup(BooleanCommands, key).None?
  {
    LookupFirst(ValueCommands, key);
    if Lookup(ValueCommands, key).Some? {
      var i :| 0 <= i < |ValueCommands| && ValueCommands[i].0 == key;
      BooleanKeysDiffer(i);
      LookupAbsent(BooleanCommands, key);
    }
  }

  lemma BooleanKeysDiffer(i: int)
    requires 0 <= i < |ValueCommands|
    ensures forall j :: 0 <= j < |BooleanCommands| ==> BooleanCommands[j].0 != ValueCommands[i].0
  {
  }

  /** The `foreach` over the options in `start`. */
  function AddAll(st: Settings, options: seq<(string, string)>): Settings
    decreases |options|
  {
    if options == [] then st
    else
      var last := options[|options| - 1];
      AddArg(AddAll(st, options[..|options| - 1]), last.0, last.1)
  }

  /** Translating a whole option list only ever appends to the flag string. */
  lemma {:induction false} AddAllOnlyAppends(st: Settings, options: seq<(string, string)>)
    ensures st.argumentString <= AddAll(st, options).argumentString
    decreases |options|
  {
    if options != [] {
      AddAllOnlyAppends(st, options[..|options| - 1]);
    }
  }

  /** The binary path `start` hands to the tunnel: the option's unless it is
      null or blank, otherwise the working directory. */
  function DefaultPath(binaryPath: Option<string>, cwd: string): (r: Option<string>)
    ensures r.Some?
    ensures !IsNullOrBlank(binaryPath) ==> r == binaryPath
  {
    if IsNullOrBlank(binaryPath) then Some(cwd) else binaryPath
  }

  /** The access key after `start`'s check: the option's unless it is null
      or blank, otherwise the environment's as it is (possibly blank). None
      means `start` throws, since stripping the whitespace of a null key
      raises. */
  function ResolvedKey(fromOptions: Option<string>, env: Option<string>): (r: Option<string>)
    ensures r.None? <==> IsNullOrBlank(fromOptions) && env.None?
    ensures !IsNullOrBlank(fromOptions) ==> r == fromOptions
  {
    if IsNullOrBlank(fromOptions) then env else fromOptions
  }

  datatype StartError = NullAccessKey

  class Local {
    var accessKey: Option<string>
    var logVerbose: bool
    var binaryPath: Option<string>
    var argumentString: string
    var tunnel: BrowserStackTunnel?
    /** `BrowserStackTunnel.basePaths` */
    const basePaths: BasePaths

    ghost predicate Valid()
      reads this, tunnel
    {
      tunnel != null ==> tunnel.Valid()
    }

    function CurrentSettings(): Settings
      reads this
    {
      Settings(accessKey, binaryPath, argumentString)
    }

    constructor(basePaths: BasePaths)
      ensures Valid() && this.basePaths == basePaths
      ensures CurrentSettings() == Settings(Some(""), None, "") && !logVerbose && tunnel == null
    {
      accessKey, logVerbose, binaryPath, argumentString := Some(""), false, None, "";
      tunnel := null;
      this.basePaths := basePaths;
    }

    method AddArgs(key: string, value: string)
      modifies this`accessKey, this`binaryPath, this`argumentString
      ensures CurrentSettings() == AddArg(old(CurrentSettings()), key, value)
    {
      var key := NormalizedKey(key);
      if key == "key" {
        accessKey := Some(value);
      }
      if key == "path" {
        binaryPath := Some(value);
      }
      AppendFlags(key, value);
    }

    /** The two table lookups of `addArgs`, for a normalised key. */
    method AppendFlags(key: string, value: string)
      modifies this`argumentString
      ensures argumentString == old(argumentString) + FlagText(key, value)
    {
      var result := Find(ValueCommands, key);
      if result.Some? {
        argumentString := argumentString + (result.value + " " + value + " ");
      }
      result := Find(BooleanCommands, key);
      if result.Some? {
        if IsTrue(value) {
          argumentString := argumentString + (result.value + " ");
        }
      }
    }

    method VerboseMode()
      modifies this`logVerbose
      ensures logVerbose
    {
      logVerbose := true;
    }

    /** The `foreach` of `start`: each option goes through `addArgs` in order. */
    method TranslateOptions(options: seq<(string, string)>)
      modifies this`accessKey, this`binaryPath, this`argumentString
      ensures CurrentSettings() == AddAll(old(CurrentSettings()), options)
    {
      var i := 0;
      while i < |options|
        invariant 0 <= i <= |options|
        invariant CurrentSettings() == AddAll(old(CurrentSettings()), options[..i])
      {
        assert options[..i + 1][..i] == options[..i];
        AddArgs(options[i].0, options[i].1);
        i := i + 1;
      }
      assert options[..i] == options;
    }

    /** Translates the options, defaults the binary path to the working
        directory `cwd` and a null or blank key to the environment's `env`
        (throwing when that is null), and creates the tunnel with the key in
        front of the flag string. */
    method Start(options: seq<(string, string)>, cwd: string, env: Option<string>)
      returns (r: Outcome<StartError>)
      requires Valid()
      modifies this`accessKey, this`binaryPath, this`argumentString, this`tunnel
      ensures Valid()
      ensures var st := AddAll(old(CurrentSettings()), options);
        && binaryPath == DefaultPath(st.binaryPath, cwd)
        && accessKey == ResolvedKey(st.accessKey, env)
        && argumentString == st.argumentString
        && (r.Fail? <==> accessKey.None?)
      ensures r.Fail? ==> tunnel == old(tunnel)
      ensures r.Pass? ==> && tunnel != null && fresh(tunnel) && tunnel.basePaths == basePaths
                          && tunnel.binaryArguments == accessKey.value + " " + argumentString
                          && tunnel.Snapshot() == Monitor(Idle, "", false) && !tunnel.processTracked
                          && (IsNullOrBlank(binaryPath) ==>
                                tunnel.basePathsIndex == 0 && tunnel.binaryAbsolute == Candidate(basePaths, 0))
                          && (!IsNullOrBlank(binaryPath) ==>
                                tunnel.basePathsIndex == -1 && tunnel.binaryAbsolute == binaryPath.value)
    {
      TranslateOptions(options);
      if IsNullOrBlank(binaryPath) {
        binaryPath := Some(cwd);
      }
      if IsNullOrBlank(accessKey) {
        accessKey := env;
        if accessKey.None? {
          return Fail(NullAccessKey);
        }
        // the whitespace-stripped copy of the key is computed and discarded
      }
      tunnel := new BrowserStackTunnel(basePaths, binaryPath, Some(accessKey.value + " " + argumentString));
      r := Pass;
    }

    /** Kills the tunnel if one was created; otherwise does nothing. */
    method Stop(killFails: bool)
      requires Valid()
      modifies tunnel
      ensures Valid()
      ensures tunnel != null ==> && tunnel.localState == Disconnected
                                 && tunnel.processTracked == (old(tunnel.processTracked) && killFails)
                                 && tunnel.signalled == (old(tunnel.signalled) || old(tunnel.localState) != Disconnected)
      ensures tunnel != null ==> unchanged(tunnel`output, tunnel`basePathsIndex, tunnel`binaryAbsolute,
                                           tunnel`binaryArguments)
    {
      if tunnel != null {
        tunnel.Kill(killFails);
      }
    }

    /** False without a tunnel; otherwise whether it is connected. */
    method IsRunning() returns (running: bool)
      ensures running <==> tunnel != null && tunnel.IsConnected()
    {
      if tunnel == null {
        return false;
      }
      running := tunnel.localState == Connected;
    }
  }
}

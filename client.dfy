/**
 * The Rocket Pool command-line client: its settings, its custom-nonce
 * counter, and the shell commands it assembles (the `docker-compose`
 * invocation with its environment and `-f` flags, the gas and nonce options,
 * the version query, the log and stats commands). Loading the configuration,
 * `homedir.Expand`, `os.ExpandEnv`, the SSH connection and running a command
 * are inputs: a loaded configuration, an `Expander`, an `ExpandEnv` function,
 * a connection outcome and a `Runner`.
 */
module RocketPoolClient {
  import opened Results
  import opened Text
  import opened Decimal
  import opened Quoting
  import opened ClientConfig
  import opened Seqs

  const ComposeFile := "docker-compose.yml"
  const APIContainerSuffix := "_api"
  const APIBinPath := "/go/bin/rocketpool"

  /** `customNonce` is a Go `uint64`. */
  const NonceModulus: nat := 0x1_0000_0000_0000_0000

  /** An established SSH connection to the node machine; its protocol is not modelled. */
  datatype SshSession = SshSession(address: string, user: string)

  datatype ClientError =
    | SshUserMissing
    | SshKeyMissing
    | SshSetupFailed(reason: string)
    | DaemonPathSet
    | ConfigLoadFailed(reason: string)
    | NoEth1Client
    | NoEth2Client
    | IncompatibleClients(eth2Name: string, eth1Name: string)
    | PathExpansionFailed(reason: string)
    | ProjectNameUnset
    | CommandFailed(reason: string)
    | VersionUnparsable(output: string)
    | VersionInvalid(output: string, reason: string)

  /** `homedir.Expand`: a path with `~` expanded, or an error. */
  type Expander = string -> Result<string, string>

  /** Runs a shell command (locally or over SSH) and gives its standard output, or an error. */
  type Runner = string -> Result<string, string>

  /** What `service start`, `pause`, `stop` and `status` pass to `docker-compose`. */
  datatype ServiceAction = Start | Pause | Stop | Status

  function ServiceArgs(action: ServiceAction): string {
    match action
    case Start => "up -d"
    case Pause => "stop"
    case Stop => "down -v"
    case Status => "ps"
  }

  // ---------------------------------------------------------------------------
  // Creating a client

  /**
   * `NewClient`: with a host address, the SSH user and key path must be given
   * (the user is checked first) and the SSH setup (`ssh`) must succeed; the
   * config and daemon paths go through `expandEnv`.
   */
  method NewClient(configPath: string, daemonPath: string, hostAddress: string, user: string,
                   keyPath: string, gasPrice: string, gasLimit: string, customNonce: nat,
                   expandEnv: string -> string, ssh: Result<SshSession, string>)
    returns (r: Result<Client, ClientError>)
    requires customNonce < NonceModulus
    ensures hostAddress != "" && user == "" ==> r == Failure(SshUserMissing)
    ensures hostAddress != "" && user != "" && keyPath == "" ==> r == Failure(SshKeyMissing)
    ensures hostAddress != "" && user != "" && keyPath != "" && ssh.Failure?
            ==> r == Failure(SshSetupFailed(ssh.error))
    ensures r.Success? <==> hostAddress == "" || (user != "" && keyPath != "" && ssh.Success?)
    ensures r.Success? ==> && fresh(r.value) && r.value.Valid()
                           && r.value.configPath == expandEnv(configPath)
                           && r.value.daemonPath == expandEnv(daemonPath)
                           && r.value.gasPrice == gasPrice && r.value.gasLimit == gasLimit
                           && r.value.customNonce == customNonce
                           && r.value.remote == (if hostAddress == "" then None else Some(ssh.value))
  {
    var remote: Option<SshSession> := None;
    if hostAddress != "" {
      if user == "" {
        return Failure(SshUserMissing);
      }
      if keyPath == "" {
        return Failure(SshKeyMissing);
      }
      if ssh.Failure? {
        return Failure(SshSetupFailed(ssh.error));
      }
      remote := Some(ssh.value);
    }
    var c := new Client(expandEnv(configPath), expandEnv(daemonPath), gasPrice, gasLimit, customNonce, remote);
    return Success(c);
  }

  // ---------------------------------------------------------------------------
  // docker-compose command pieces

  /** The paths of the given compose files after expansion, or the first expansion error. */
  function ExpandFiles(home: Expander, files: seq<string>): (r: Result<seq<string>, string>)
    ensures r.Success? <==> forall i :: 0 <= i < |files| ==> home(files[i]).Success?
    ensures r.Success? ==> |r.value| == |files|
                           && forall i :: 0 <= i < |files| ==> r.value[i] == home(files[i]).value
    ensures r.Failure? ==> exists i :: && 0 <= i < |files| && home(files[i]) == Failure(r.error)
                                        && forall j :: 0 <= j < i ==> home(files[j]).Success?
  {
    if files == [] then Success([])
    else
      match home(files[0])
      case Failure(e) => Failure(e)
      case Success(first) =>
        match ExpandFiles(home, files[1..])
        case Failure(e) =>
          assert forall i :: 1 <= i < |files| ==> files[i] == files[1..][i - 1];
          Failure(e)
        case Success(rest) =>
          assert forall i :: 1 <= i < |files| ==> files[i] == files[1..][i - 1];
          Success([first] + rest)
  }

  /** The first file that fails to expand decides the error. */
  lemma {:induction false} ExpandFilesFirstFailure(home: Expander, files: seq<string>, k: nat)
    requires k < |files| && home(files[k]).Failure?
    requires forall j :: 0 <= j < k ==> home(files[j]).Success?
    ensures ExpandFiles(home, files) == Failure(home(files[k]).error)
  {
    if k > 0 {
      assert home(files[0]).Success?;
      assert forall j :: 0 <= j < k - 1 ==> files[1..][j] == files[j + 1];
      ExpandFilesFirstFailure(home, files[1..], k - 1);
    }
  }

  /**
   * The flag for the base compose file, written with `"%s"` rather than `%q`:
   * it is the `%q` flag of the same path exactly when the directory needs no
   * escaping.
   */
  function BaseComposeFlag(dir: string): (f: string)
    ensures f == FileFlag(dir + "/" + ComposeFile) <==> Plain(dir)
  {
    var path := dir + "/" + ComposeFile;
    ComposeFilePlain();
    PlainAppend(dir, "/" + ComposeFile);
    QuotePlain(path);
    AppendAssoc3("-f ", "\"" + path, "\"");
    AppendAssoc3("-f ", "\"", path);
    PrefixDrop("-f ", "\"" + path + "\"");
    PrefixDrop("-f ", Quote(path));
    "-f " + ("\"" + path + "\"")
  }

  lemma ComposeFilePlain()
    ensures Plain("/" + ComposeFile)
  {
  }

  function FileFlag(path: string): string {
    "-f " + Quote(path)
  }

  function FileFlags(paths: seq<string>): (flags: seq<string>)
    ensures |flags| == |paths|
    ensures forall i :: 0 <= i < |paths| ==> flags[i] == FileFlag(paths[i])
  {
    if paths == [] then [] else [FileFlag(paths[0])] + FileFlags(paths[1..])
  }

  /** The assembled shell command: environment, `docker-compose`, project directory, files, arguments. */
  function CommandLine(env: seq<string>, dir: string, flags: seq<string>, args: string): (r: string)
    ensures var head := Join(env, " ") + " docker-compose --project-directory ";
            head <= r && ParseQuoted(r[|head|..]) == Some((dir, " " + Join(flags, " ") + " " + args))
  {
    var head := Join(env, " ") + " docker-compose --project-directory ";
    var rest := " " + Join(flags, " ") + " " + args;
    QuoteRoundTrip(dir, rest);
    head + (Quote(dir) + rest)
  }

  /** The compatibility check: a scan of the `;`-separated ID list that stops at the first match. */
  method CheckCompatibility(eth1: ClientOption, eth2: ClientOption) returns (isCompatible: bool)
    ensures isCompatible == Compatible(eth1, eth2)
  {
    isCompatible := false;
    if eth1.compatibleEth2Clients == "" {
      isCompatible := true;
    } else {
      var ids := Split(eth1.compatibleEth2Clients, ';');
      var i := 0;
      while i < |ids|
        invariant 0 <= i <= |ids|
        invariant !isCompatible && eth2.id !in ids[..i]
      {
        if ids[i] == eth2.id {
          isCompatible := true;
          break;
        }
        assert ids[..i + 1] == ids[..i] + [ids[i]];
        i := i + 1;
      }
      assert !isCompatible ==> ids[..i] == ids;
    }
  }

  /** One loop over a chain's user parameters: append each assignment and record its name. */
  method AppendUserParams(env0: seq<string>, set0: map<string, bool>, ps: seq<UserParam>)
    returns (env: seq<string>, paramsSet: map<string, bool>)
    ensures env == env0 + UserEnv(ps)
    ensures paramsSet.Keys == set0.Keys + UserNames(ps)
  {
    env, paramsSet := env0, set0;
    for i := 0 to |ps|
      invariant env == env0 + UserEnv(ps[..i])
      invariant paramsSet.Keys == set0.Keys + UserNames(ps[..i])
    {
      UserPrefixStep(env0, env, set0.Keys, paramsSet.Keys, ps, i);
      env := env + [Assignment(ps[i].env, ps[i].value)];
      paramsSet := paramsSet[ps[i].env := true];
    }
    assert ps[..|ps|] == ps;
  }

  /** One loop over a client's parameters: append each default not already set and not empty. */
  method AppendDefaults(env0: seq<string>, paramsSet: map<string, bool>, ps: seq<ClientParam>)
    returns (env: seq<string>)
    ensures env == env0 + DefaultEnv(ps, paramsSet.Keys)
  {
    env := env0;
    for i := 0 to |ps|
      invariant env == env0 + DefaultEnv(ps[..i], paramsSet.Keys)
    {
      assert ps[..i + 1][..i] == ps[..i];
      if ps[i].env in paramsSet {
        continue;
      }
      if ps[i].defaultValue == "" {
        continue;
      }
      env := env + [Assignment(ps[i].env, ps[i].defaultValue)];
    }
    assert ps[..|ps|] == ps;
  }

  /**
   * The environment assembly: the fixed variables, the user's Eth 1.0 and
   * Eth 2.0 parameters (recording each name in `paramsSet`), then the selected
   * clients' defaults for names not in `paramsSet`.
   */
  method BuildEnv(cfg: RocketPoolConfig, eth1: ClientOption, eth2: ClientOption) returns (env: seq<string>)
    ensures env == ComposeEnv(cfg, eth1, eth2)
  {
    var paramsSet: map<string, bool> := map[];
    env := FixedEnv(cfg, eth1, eth2);
    env, paramsSet := AppendUserParams(env, paramsSet, cfg.eth1.userParams);
    env, paramsSet := AppendUserParams(env, paramsSet, cfg.eth2.userParams);
    assert paramsSet.Keys == UserNames(cfg.eth1.userParams) + UserNames(cfg.eth2.userParams);
    env := AppendDefaults(env, paramsSet, eth1.params);
    env := AppendDefaults(env, paramsSet, eth2.params);
  }

  /** Flags filled for every file are the flags of the expanded files. */
  lemma {:induction false} ExpandedFileFlags(home: Expander, files: seq<string>, tail: seq<string>)
    requires |tail| == |files|
    requires forall j :: 0 <= j < |files| ==> home(files[j]).Success? && tail[j] == FileFlag(home(files[j]).value)
    ensures ExpandFiles(home, files).Success?
    ensures FileFlags(ExpandFiles(home, files).value) == tail
  {
    if files != [] {
      var rest, tailRest := files[1..], tail[1..];
      forall j | 0 <= j < |rest|
        ensures home(rest[j]).Success? && tailRest[j] == FileFlag(home(rest[j]).value)
      {
        assert rest[j] == files[j + 1] && tailRest[j] == tail[j + 1];
      }
      ExpandedFileFlags(home, rest, tailRest);
      var first := home(files[0]).value;
      var values := ExpandFiles(home, rest).value;
      assert ExpandFiles(home, files) == Success([first] + values);
      ConsRest(first, values);
      assert FileFlags([first] + values) == [FileFlag(first)] + FileFlags(values);
      FirstAndRest(tail);
    }
  }

  /** A flag slice filled for every file is the base flag followed by the flags of the expanded files. */
  lemma FileFlagsComplete(dir: string, home: Expander, files: seq<string>, flags: seq<string>)
    requires |flags| == |files| + 1 && flags[0] == BaseComposeFlag(dir)
    requires forall j :: 0 <= j < |files| ==> home(files[j]).Success? && flags[j + 1] == FileFlag(home(files[j]).value)
    ensures ExpandFiles(home, files).Success?
    ensures flags == [BaseComposeFlag(dir)] + FileFlags(ExpandFiles(home, files).value)
  {
    var tail := flags[1..];
    assert ExpandFiles(home, files).Success? && FileFlags(ExpandFiles(home, files).value) == tail by {
      forall j | 0 <= j < |files|
        ensures home(files[j]).Success? && tail[j] == FileFlag(home(files[j]).value)
      {
        assert tail[j] == flags[j + 1];
      }
      ExpandedFileFlags(home, files, tail);
    }
    FirstAndRest(flags);
  }

  /**
   * The `-f` flags, filled by index into a slice one longer than `files`:
   * slot 0 names the base compose file in `dir`, slot i+1 the i-th given file
   * after expansion; the first file that fails to expand ends the build.
   */
  method BuildFileFlags(dir: string, home: Expander, files: seq<string>) returns (r: Result<seq<string>, string>)
    ensures r.Success? <==> ExpandFiles(home, files).Success?
    ensures r.Failure? ==> r.error == ExpandFiles(home, files).error
    ensures r.Success? ==> && |r.value| == |files| + 1
                           && r.value[0] == BaseComposeFlag(dir)
                           && forall i :: 0 <= i < |files| ==> r.value[i + 1] == FileFlag(home(files[i]).value)
    ensures r.Success? ==> r.value == [BaseComposeFlag(dir)] + FileFlags(ExpandFiles(home, files).value)
  {
    var flags := new string[|files| + 1];
    flags[0] := BaseComposeFlag(dir);
    for fi := 0 to |files|
      invariant flags[0] == BaseComposeFlag(dir)
      invariant forall j :: 0 <= j < fi ==> home(files[j]).Success? && flags[j + 1] == FileFlag(home(files[j]).value)
    {
      var expanded := home(files[fi]);
      if expanded.Failure? {
        ExpandFilesFirstFailure(home, files, fi);
        return Failure(expanded.error);
      }
      flags[fi + 1] := FileFlag(expanded.value);
    }
    r := Success(flags[..]);
    FileFlagsComplete(dir, home, files, r.value);
  }

  // ---------------------------------------------------------------------------
  // The version query

  /** `getAPIContainerName`: the project name with `_api` appended; the name must be set. */
  function ApiContainerName(cfg: Result<RocketPoolConfig, string>): (r: Result<string, ClientError>)
    ensures cfg.Failure? ==> r == Failure(ConfigLoadFailed(cfg.error))
    ensures cfg.Success? && cfg.value.smartnode.projectName == "" ==> r == Failure(ProjectNameUnset)
    ensures r.Success? <==> cfg.Success? && cfg.value.smartnode.projectName != ""
    ensures r.Success? ==> var n := |r.value| - |APIContainerSuffix|;
                           && n > 0
                           && r.value[..n] == cfg.value.smartnode.projectName
                           && r.value[n..] == APIContainerSuffix
  {
    match cfg
    case Failure(e) => Failure(ConfigLoadFailed(e))
    case Success(c) =>
      if c.smartnode.projectName == "" then Failure(ProjectNameUnset)
      else Success(c.smartnode.projectName + APIContainerSuffix)
  }

  // ---------------------------------------------------------------------------
  // The client

  class Client {
    var configPath: string
    var daemonPath: string
    var gasPrice: string
    var gasLimit: string
    var customNonce: nat
    var remote: Option<SshSession>

    /** The nonce fits its `uint64`. */
    ghost predicate Valid()
      reads this
    {
      customNonce < NonceModulus
    }

    constructor (configPath: string, daemonPath: string, gasPrice: string, gasLimit: string,
                 customNonce: nat, remote: Option<SshSession>)
      requires customNonce < NonceModulus
      ensures Valid()
      ensures && this.configPath == configPath && this.daemonPath == daemonPath
              && this.gasPrice == gasPrice && this.gasLimit == gasLimit
              && this.customNonce == customNonce && this.remote == remote
    {
      this.configPath := configPath;
      this.daemonPath := daemonPath;
      this.gasPrice := gasPrice;
      this.gasLimit := gasLimit;
      this.customNonce := customNonce;
      this.remote := remote;
    }

    /** Moves to the next nonce, wrapping around like a `uint64`; nothing else changes. */
    method IncrementCustomNonce()
      requires Valid()
      modifies this`customNonce
      ensures Valid()
      ensures customNonce == (old(customNonce) + 1) % NonceModulus
      ensures old(customNonce) + 1 < NonceModulus ==> customNonce == old(customNonce) + 1
      ensures && configPath == old(configPath) && daemonPath == old(daemonPath)
              && gasPrice == old(gasPrice) && gasLimit == old(gasLimit) && remote == old(remote)
    {
      customNonce := (customNonce + 1) % NonceModulus;
    }

    /** `getCustomNonce`: no option for nonce 0, else `--nonce ` and the nonce in decimal. */
    function CustomNonceFlag(): (flag: string)
      reads this
      ensures flag == "" <==> customNonce == 0
      ensures customNonce != 0 ==> && |flag| > 8 && flag[..8] == "--nonce "
                                   && AllDigits(flag[8..]) && Value(flag[8..]) == customNonce
    {
      if customNonce == 0 then ""
      else
        var flag := "--nonce " + Format(customNonce);
        assert flag[8..] == Format(customNonce);
        flag
    }

    /**
     * `getGasOpts`: a `--gasPrice` option when a gas price is set, then a
     * `--gasLimit` option when a gas limit is set; reading the result back as
     * options gives exactly those, in that order.
     */
    method GasOpts() returns (opts: string)
      ensures opts == RenderOptions(GasFlags(gasPrice, gasLimit))
      ensures ParseOptions(opts) == Some(GasFlags(gasPrice, gasLimit))
      ensures opts == "" <==> gasPrice == "" && gasLimit == ""
    {
      opts := "";
      if gasPrice != "" {
        opts := opts + RenderOption("gasPrice", gasPrice);
      }
      ghost var price := opts;
      assert price == if gasPrice != "" then RenderOption("gasPrice", gasPrice) else "";
      if gasLimit != "" {
        opts := opts + RenderOption("gasLimit", gasLimit);
      }
      assert opts == price + if gasLimit != "" then RenderOption("gasLimit", gasLimit) else "";
      GasFlagsRender(gasPrice, gasLimit);
      GasFlagsReadBack(gasPrice, gasLimit);
    }

    /** The whole `compose` operation as a function of the client's paths and its inputs. */
    function ComposeSpec(cfg: Result<RocketPoolConfig, string>, home: Expander, files: seq<string>, args: string)
      : (r: Result<string, ClientError>)
      reads this
      ensures daemonPath != "" ==> r == Failure(DaemonPathSet)
      ensures daemonPath == "" && cfg.Failure? ==> r == Failure(ConfigLoadFailed(cfg.error))
      ensures daemonPath == "" && cfg.Success? && cfg.value.eth1.selected.None? ==> r == Failure(NoEth1Client)
      ensures daemonPath == "" && cfg.Success? && cfg.value.eth1.selected.Some? && cfg.value.eth2.selected.None? ==>
                r == Failure(NoEth2Client)
      ensures daemonPath == "" && cfg.Success? && cfg.value.eth1.selected.Some? && cfg.value.eth2.selected.Some?
              && !Compatible(cfg.value.eth1.selected.value, cfg.value.eth2.selected.value) ==>
                r == Failure(IncompatibleClients(cfg.value.eth2.selected.value.name, cfg.value.eth1.selected.value.name))
      ensures r.Success? ==> && cfg.Success?
                             && cfg.value.eth1.selected.Some? && cfg.value.eth2.selected.Some?
                             && Compatible(cfg.value.eth1.selected.value, cfg.value.eth2.selected.value)
                             && home(configPath).Success? && ExpandFiles(home, files).Success?
      ensures r.Success? ==> var head := Join(ComposeEnv(cfg.value, cfg.value.eth1.selected.value, cfg.value.eth2.selected.value), " ")
                                         + " docker-compose --project-directory ";
                             && head <= r.value
                             && ParseQuoted(r.value[|head|..]).Some?
                             && ParseQuoted(r.value[|head|..]).value.0 == home(configPath).value
    {
      if daemonPath != "" then Failure(DaemonPathSet)
      else
        match cfg
        case Failure(e) => Failure(ConfigLoadFailed(e))
        case Success(c) =>
          if c.eth1.selected.None? then Failure(NoEth1Client)
          else if c.eth2.selected.None? then Failure(NoEth2Client)
          else
            var eth1, eth2 := c.eth1.selected.value, c.eth2.selected.value;
            if !Compatible(eth1, eth2) then Failure(IncompatibleClients(eth2.name, eth1.name))
            else
              match home(configPath)
              case Failure(e) => Failure(PathExpansionFailed(e))
              case Success(dir) =>
                match ExpandFiles(home, files)
                case Failure(e) => Failure(PathExpansionFailed(e))
                case Success(paths) =>
                  Success(CommandLine(ComposeEnv(c, eth1, eth2), dir, [BaseComposeFlag(dir)] + FileFlags(paths), args))
    }

    /**
     * `compose`: refuses in daemon mode, then needs a loaded configuration, an
     * Eth 1.0 client, an Eth 2.0 client and their compatibility, in that order,
     * before assembling the command.
     */
    method Compose(cfg: Result<RocketPoolConfig, string>, home: Expander, files: seq<string>, args: string)
      returns (r: Result<string, ClientError>)
      ensures r == ComposeSpec(cfg, home, files, args)
      ensures daemonPath != "" ==> r == Failure(DaemonPathSet)
      ensures daemonPath == "" && cfg.Failure? ==> r == Failure(ConfigLoadFailed(cfg.error))
      ensures daemonPath == "" && cfg.Success? && cfg.value.eth1.selected.None? ==> r == Failure(NoEth1Client)
      ensures daemonPath == "" && cfg.Success? && cfg.value.eth1.selected.Some? && cfg.value.eth2.selected.None? ==>
                r == Failure(NoEth2Client)
      ensures daemonPath == "" && cfg.Success? && cfg.value.eth1.selected.Some? && cfg.value.eth2.selected.Some?
              && !Compatible(cfg.value.eth1.selected.value, cfg.value.eth2.selected.value) ==>
                r == Failure(IncompatibleClients(cfg.value.eth2.selected.value.name, cfg.value.eth1.selected.value.name))
      ensures r.Success? ==> && daemonPath == "" && cfg.Success?
                             && cfg.value.eth1.selected.Some? && cfg.value.eth2.selected.Some?
                             && Compatible(cfg.value.eth1.selected.value, cfg.value.eth2.selected.value)
                             && home(configPath).Success? && ExpandFiles(home, files).Success?
    {
      if daemonPath != "" {
        return Failure(DaemonPathSet);
      }
      if cfg.Failure? {
        return Failure(ConfigLoadFailed(cfg.error));
      }
      var c := cfg.value;
      if c.eth1.selected.None? {
        return Failure(NoEth1Client);
      }
      if c.eth2.selected.None? {
        return Failure(NoEth2Client);
      }
      var eth1, eth2 := c.eth1.selected.value, c.eth2.selected.value;
      var isCompatible := CheckCompatibility(eth1, eth2);
      if !isCompatible {
        return Failure(IncompatibleClients(eth2.name, eth1.name));
      }
      var env := BuildEnv(c, eth1, eth2);
      var dir := home(configPath);
      if dir.Failure? {
        return Failure(PathExpansionFailed(dir.error));
      }
      var flags := BuildFileFlags(dir.value, home, files);
      if flags.Failure? {
        return Failure(PathExpansionFailed(flags.error));
      }
      return Success(CommandLine(env, dir.value, flags.value, args));
    }

    /** `StartService`, `PauseService`, `StopService`, `PrintServiceStatus`: compose with fixed arguments. */
    method ServiceCommand(action: ServiceAction, cfg: Result<RocketPoolConfig, string>, home: Expander, files: seq<string>)
      returns (r: Result<string, ClientError>)
      ensures r == ComposeSpec(cfg, home, files, ServiceArgs(action))
    {
      r := Compose(cfg, home, files, ServiceArgs(action));
    }

    /**
     * `PrintServiceLogs`: every service name quoted into a slice filled by
     * index, then `logs -f --tail <tail> <names>` through compose.
     */
    method ServiceLogsCommand(cfg: Result<RocketPoolConfig, string>, home: Expander, files: seq<string>,
                              tail: string, serviceNames: seq<string>)
      returns (r: Result<string, ClientError>)
      ensures r == ComposeSpec(cfg, home, files, LogsArgs(tail, serviceNames))
    {
      var sanitized := new string[|serviceNames|];
      for i := 0 to |serviceNames|
        invariant forall j :: 0 <= j < i ==> sanitized[j] == Quote(serviceNames[j])
      {
        sanitized[i] := Quote(serviceNames[i]);
      }
      assert sanitized[..] == QuoteAll(serviceNames);
      r := Compose(cfg, home, files, "logs -f --tail " + Quote(tail) + " " + Join(sanitized[..], " "));
    }

    /**
     * `PrintServiceStats`: runs `compose ... ps -q`, takes the container IDs on
     * the lines of its trimmed output and builds `docker stats` with them
     * separated by spaces.
     */
    method ServiceStatsCommand(cfg: Result<RocketPoolConfig, string>, home: Expander, files: seq<string>, run: Runner)
      returns (r: Result<string, ClientError>)
      ensures var ps := ComposeSpec(cfg, home, files, "ps -q");
              && (ps.Failure? ==> r == Failure(ps.error))
              && (ps.Success? && run(ps.value).Failure? ==> r == Failure(CommandFailed(run(ps.value).error)))
              && (ps.Success? && run(ps.value).Success? ==>
                    r == Success("docker stats " + ReplaceChar(TrimSpace(run(ps.value).value), '\n', " ")))
    {
      var cmd := Compose(cfg, home, files, "ps -q");
      if cmd.Failure? {
        return Failure(cmd.error);
      }
      var containers := run(cmd.value);
      if containers.Failure? {
        return Failure(CommandFailed(containers.error));
      }
      var containerIds := Split(TrimSpace(containers.value), '\n');
      JoinSplit(TrimSpace(containers.value), '\n', " ");
      return Success("docker stats " + Join(containerIds, " "));
    }

    /** The command that prints the service version: through the API container, or the daemon binary. */
    function VersionCommand(cfg: Result<RocketPoolConfig, string>): (r: Result<string, ClientError>)
      reads this
      ensures daemonPath != "" ==> r.Success? && ParseQuoted(r.value) == Some((daemonPath, " --version"))
      ensures daemonPath == "" ==> (r.Success? <==> ApiContainerName(cfg).Success?)
      ensures daemonPath == "" && r.Failure? ==> r.error == ApiContainerName(cfg).error
      ensures daemonPath == "" && r.Success? ==>
                "docker exec " <= r.value
                && ParseQuoted(r.value[12..]) == Some((ApiContainerName(cfg).value, " " + Quote(APIBinPath) + " --version"))
    {
      if daemonPath == "" then
        match ApiContainerName(cfg)
        case Failure(e) => Failure(e)
        case Success(name) =>
          var rest := " " + Quote(APIBinPath) + " --version";
          QuoteRoundTrip(name, rest);
          Success("docker exec " + (Quote(name) + rest))
      else
        QuoteRoundTrip(daemonPath, " --version");
        Success(Quote(daemonPath) + " --version")
    }

    /**
     * `GetServiceVersion`: the last whitespace-separated word of the version
     * command's output, checked and normalised by `semver`; blank output is
     * an error.
     */
    function ServiceVersion(cfg: Result<RocketPoolConfig, string>, run: Runner, semver: string -> Result<string, string>)
      : (r: Result<string, ClientError>)
      reads this
      ensures VersionCommand(cfg).Failure? ==> r == Failure(VersionCommand(cfg).error)
      ensures VersionCommand(cfg).Success? && run(VersionCommand(cfg).value).Failure?
              ==> r == Failure(CommandFailed(run(VersionCommand(cfg).value).error))
      ensures VersionCommand(cfg).Success? && run(VersionCommand(cfg).value).Success?
              && AllSpace(run(VersionCommand(cfg).value).value)
              ==> r == Failure(VersionUnparsable(run(VersionCommand(cfg).value).value))
      ensures r.Success? ==> && VersionCommand(cfg).Success? && run(VersionCommand(cfg).value).Success?
                             && var output := run(VersionCommand(cfg).value).value;
                                && LastField(output).Some?
                                && IsFinalWord(output, LastField(output).value)
                                && semver(LastField(output).value) == Success(r.value)
    {
      match VersionCommand(cfg)
      case Failure(e) => Failure(e)
      case Success(cmd) =>
        match run(cmd)
        case Failure(e) => Failure(CommandFailed(e))
        case Success(output) =>
          match LastField(output)
          case None => Failure(VersionUnparsable(output))
          case Some(word) =>
            match semver(word)
            case Failure(e) => Failure(VersionInvalid(output, e))
            case Success(v) => Success(v)
    }
  }

  /** The gas options to pass: price first when set, then limit when set. */
  function GasFlags(gasPrice: string, gasLimit: string): seq<(string, string)> {
    (if gasPrice != "" then [("gasPrice", gasPrice)] else [])
      + (if gasLimit != "" then [("gasLimit", gasLimit)] else [])
  }

  lemma GasFlagsRender(gasPrice: string, gasLimit: string)
    ensures RenderOptions(GasFlags(gasPrice, gasLimit))
         == (if gasPrice != "" then RenderOption("gasPrice", gasPrice) else "")
            + (if gasLimit != "" then RenderOption("gasLimit", gasLimit) else "")
  {
    var price: seq<(string, string)> := if gasPrice != "" then [("gasPrice", gasPrice)] else [];
    var limit: seq<(string, string)> := if gasLimit != "" then [("gasLimit", gasLimit)] else [];
    assert RenderOptions(limit) == (if gasLimit != "" then RenderOption("gasLimit", gasLimit) else "") by {
      if gasLimit != "" {
        assert limit[1..] == [];
      }
    }
    if gasPrice != "" {
      assert (price + limit)[1..] == limit;
    } else {
      assert price + limit == limit;
    }
  }

  /** The rendered gas options parse back to the gas options, and render to nothing exactly when none is set. */
  lemma GasFlagsReadBack(gasPrice: string, gasLimit: string)
    ensures ParseOptions(RenderOptions(GasFlags(gasPrice, gasLimit))) == Some(GasFlags(gasPrice, gasLimit))
    ensures RenderOptions(GasFlags(gasPrice, gasLimit)) == "" <==> gasPrice == "" && gasLimit == ""
  {
    GasFlagsRender(gasPrice, gasLimit);
    assert NoSpace("gasPrice") && NoSpace("gasLimit");
    OptionsRoundTrip(GasFlags(gasPrice, gasLimit));
  }

  /** The arguments of the logs command: the quoted tail count, then each quoted service name. */
  function LogsArgs(tail: string, serviceNames: seq<string>): string {
    "logs -f --tail " + Quote(tail) + " " + Join(QuoteAll(serviceNames), " ")
  }

  /** The logs arguments read back as the tail count and exactly the given service names, in order. */
  lemma LogsArgsReadBack(tail: string, serviceNames: seq<string>)
    ensures var a := LogsArgs(tail, serviceNames);
            var names := Join(QuoteAll(serviceNames), " ");
            && a[..15] == "logs -f --tail "
            && ParseQuoted(a[15..]) == Some((tail, " " + names))
            && ParseQuotedList(names) == Some(serviceNames)
  {
    var names := Join(QuoteAll(serviceNames), " ");
    var a := LogsArgs(tail, serviceNames);
    AppendAssoc4("logs -f --tail ", Quote(tail), " ", names);
    AppendAssoc3(Quote(tail), " ", names);
    PrefixDrop("logs -f --tail ", Quote(tail) + (" " + names));
    QuoteRoundTrip(tail, " " + names);
    QuotedListRoundTrip(serviceNames);
  }
}

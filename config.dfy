/**
 * The parts of the merged Rocket Pool configuration that the client reads to
 * build its `docker-compose` command, and the environment it derives from
 * them. The configuration package itself (parsing, merging, client
 * selection, image lookup) is not part of this model: a loaded configuration
 * is an input, with the selected clients already resolved.
 */
module ClientConfig {
  import opened Results
  import opened Text
  import opened Quoting

  /** A parameter value the user set for a chain's client (`Env`, `Value`). */
  datatype UserParam = UserParam(env: string, value: string)

  /** A parameter a client option declares, with its default (`Env`, `Default`). */
  datatype ClientParam = ClientParam(env: string, defaultValue: string)

  /** A selectable Eth 1.0 or Eth 2.0 client. */
  datatype ClientOption = ClientOption(
    id: string,
    name: string,
    image: string,
    beaconImage: string,
    validatorImage: string,
    compatibleEth2Clients: string,
    params: seq<ClientParam>)

  /** One chain's settings; `selected` is the selected client, if any. */
  datatype Chain = Chain(
    provider: string,
    wsProvider: string,
    userParams: seq<UserParam>,
    selected: Option<ClientOption>)

  datatype Smartnode = Smartnode(projectName: string, graffitiVersion: string, image: string)

  datatype RocketPoolConfig = RocketPoolConfig(smartnode: Smartnode, eth1: Chain, eth2: Chain)

  // ---------------------------------------------------------------------------
  // Client compatibility

  /**
   * The selected Eth 2.0 client may run beside the selected Eth 1.0 client:
   * the Eth 1.0 client lists no restriction, or its `;`-separated list of
   * compatible Eth 2.0 client IDs has an entry equal to the Eth 2.0 ID.
   */
  predicate Compatible(eth1: ClientOption, eth2: ClientOption) {
    eth1.compatibleEth2Clients == "" || eth2.id in Split(eth1.compatibleEth2Clients, ';')
  }

  /**
   * For a restriction written as a `;`-joined list of IDs, compatibility is
   * exactly membership in that list.
   */
  lemma CompatibleWithList(eth1: ClientOption, eth2: ClientOption, ids: seq<string>)
    requires |ids| >= 1 && forall i :: 0 <= i < |ids| ==> ';' !in ids[i]
    requires eth1.compatibleEth2Clients == Join(ids, ";")
    ensures Compatible(eth1, eth2) <==> eth1.compatibleEth2Clients == "" || eth2.id in ids
  {
    SplitJoinRoundTrip(ids, ';');
  }

  // ---------------------------------------------------------------------------
  // Environment variables

  /** One `NAME=%q` assignment. */
  function Assignment(name: string, value: string): (a: string)
    ensures name + "=" <= a
  {
    name + "=" + Quote(value)
  }

  /** The names of the twelve variables every compose command sets, in order. */
  const FixedNames: seq<string> := [
    "COMPOSE_PROJECT_NAME", "ROCKET_POOL_VERSION", "SMARTNODE_IMAGE",
    "ETH1_CLIENT", "ETH1_IMAGE", "ETH2_CLIENT", "ETH2_IMAGE",
    "VALIDATOR_CLIENT", "VALIDATOR_IMAGE",
    "ETH1_PROVIDER", "ETH1_WS_PROVIDER", "ETH2_PROVIDER"]

  /**
   * The twelve fixed assignments: one per name of `FixedNames`, in that order,
   * each assigning its variable a quoted value.
   */
  function FixedEnv(cfg: RocketPoolConfig, eth1: ClientOption, eth2: ClientOption): (env: seq<string>)
    ensures |env| == |FixedNames|
    ensures forall i :: 0 <= i < |env| ==> FixedNames[i] + "=" <= env[i]
  {
    var values := [
      cfg.smartnode.projectName, cfg.smartnode.graffitiVersion, cfg.smartnode.image,
      eth1.id, eth1.image, eth2.id, eth2.beaconImage,
      eth2.id, eth2.validatorImage,
      cfg.eth1.provider, cfg.eth1.wsProvider, cfg.eth2.provider];
    seq(|FixedNames|, i requires 0 <= i < |FixedNames| => Assignment(FixedNames[i], values[i]))
  }

  /** The user's parameters as assignments, one per parameter, in order. */
  function UserEnv(ps: seq<UserParam>): (env: seq<string>)
    ensures |env| == |ps|
    ensures forall i :: 0 <= i < |ps| ==> env[i] == Assignment(ps[i].env, ps[i].value)
  {
    if ps == [] then []
    else UserEnv(ps[..|ps| - 1]) + [Assignment(ps[|ps| - 1].env, ps[|ps| - 1].value)]
  }

  /** The variable names the user's parameters set. */
  function UserNames(ps: seq<UserParam>): set<string> {
    if ps == [] then {} else UserNames(ps[..|ps| - 1]) + {ps[|ps| - 1].env}
  }

  /** A name is recorded exactly when some user parameter sets that variable. */
  lemma {:induction false} UserNamesMembers(ps: seq<UserParam>, x: string)
    ensures x in UserNames(ps) <==> exists i :: 0 <= i < |ps| && ps[i].env == x
  {
    if ps != [] {
      var q := ps[..|ps| - 1];
      UserNamesMembers(q, x);
      if exists i :: 0 <= i < |ps| && ps[i].env == x {
        var i :| 0 <= i < |ps| && ps[i].env == x;
        if i < |q| {
          assert q[i] == ps[i];
        }
      }
      if exists i :: 0 <= i < |q| && q[i].env == x {
        var i :| 0 <= i < |q| && q[i].env == x;
        assert ps[i] == q[i];
      }
    }
  }

  /**
   * One step of the loop over user parameters: appending the next assignment
   * and recording the next name keeps the environment and the recorded names
   * those of the parameters seen so far.
   */
  lemma UserPrefixStep(env0: seq<string>, env: seq<string>, set0: set<string>, names: set<string>,
                       ps: seq<UserParam>, i: nat)
    requires i < |ps|
    requires env == env0 + UserEnv(ps[..i]) && names == set0 + UserNames(ps[..i])
    ensures env + [Assignment(ps[i].env, ps[i].value)] == env0 + UserEnv(ps[..i + 1])
    ensures names + {ps[i].env} == set0 + UserNames(ps[..i + 1])
  {
    assert ps[..i + 1][..i] == ps[..i];
  }

  /** A client parameter contributes its default: nobody set it and the default is not empty. */
  predicate SuppliesDefault(p: ClientParam, userSet: set<string>) {
    p.env !in userSet && p.defaultValue != ""
  }

  /** The defaults of a client's parameters that are still needed, in parameter order. */
  function DefaultEnv(ps: seq<ClientParam>, userSet: set<string>): seq<string> {
    if ps == [] then []
    else
      var p := ps[|ps| - 1];
      DefaultEnv(ps[..|ps| - 1], userSet)
        + (if SuppliesDefault(p, userSet) then [Assignment(p.env, p.defaultValue)] else [])
  }

  /**
   * The whole environment of a compose command: the fixed variables, the
   * user's Eth 1.0 then Eth 2.0 parameters, then the defaults of the selected
   * Eth 1.0 then Eth 2.0 client for every variable the user did not set.
   */
  function ComposeEnv(cfg: RocketPoolConfig, eth1: ClientOption, eth2: ClientOption): seq<string> {
    var userSet := UserNames(cfg.eth1.userParams) + UserNames(cfg.eth2.userParams);
    FixedEnv(cfg, eth1, eth2)
      + UserEnv(cfg.eth1.userParams) + UserEnv(cfg.eth2.userParams)
      + DefaultEnv(eth1.params, userSet) + DefaultEnv(eth2.params, userSet)
  }

  /** Every assignment among a client's defaults is supplied by one of its parameters. */
  lemma {:induction false} DefaultEnvSound(ps: seq<ClientParam>, userSet: set<string>, x: string) returns (i: nat)
    requires x in DefaultEnv(ps, userSet)
    ensures i < |ps| && SuppliesDefault(ps[i], userSet) && x == Assignment(ps[i].env, ps[i].defaultValue)
  {
    var n := |ps| - 1;
    var q := ps[..n];
    if x in DefaultEnv(q, userSet) {
      i := DefaultEnvSound(q, userSet, x);
      assert ps[i] == q[i];
    } else {
      i := n;
    }
  }

  /** Every parameter that supplies a default contributes its assignment. */
  lemma {:induction false} DefaultEnvComplete(ps: seq<ClientParam>, userSet: set<string>, i: nat)
    requires i < |ps| && SuppliesDefault(ps[i], userSet)
    ensures Assignment(ps[i].env, ps[i].defaultValue) in DefaultEnv(ps, userSet)
  {
    var n := |ps| - 1;
    var q := ps[..n];
    if i < n {
      assert q[i] == ps[i];
      DefaultEnvComplete(q, userSet, i);
    }
  }

  /**
   * An assignment is among a client's defaults exactly when some parameter of
   * the client supplies it: its variable was not set by the user and its
   * default is not empty.
   */
  lemma DefaultEnvMembers(ps: seq<ClientParam>, userSet: set<string>, x: string)
    ensures x in DefaultEnv(ps, userSet)
        <==> exists i :: 0 <= i < |ps| && SuppliesDefault(ps[i], userSet)
                           && x == Assignment(ps[i].env, ps[i].defaultValue)
  {
    if x in DefaultEnv(ps, userSet) {
      var i := DefaultEnvSound(ps, userSet, x);
    }
    if exists i :: 0 <= i < |ps| && SuppliesDefault(ps[i], userSet)
                   && x == Assignment(ps[i].env, ps[i].defaultValue) {
      var i :| 0 <= i < |ps| && SuppliesDefault(ps[i], userSet)
               && x == Assignment(ps[i].env, ps[i].defaultValue);
      DefaultEnvComplete(ps, userSet, i);
    }
  }

  /**
   * Where each part of the environment sits: the twelve fixed variables first,
   * then every Eth 1.0 user parameter, then every Eth 2.0 user parameter, and
   * only after them the defaults.
   */
  lemma ComposeEnvLayout(cfg: RocketPoolConfig, eth1: ClientOption, eth2: ClientOption)
    ensures var env := ComposeEnv(cfg, eth1, eth2);
            var p1 := cfg.eth1.userParams;
            var p2 := cfg.eth2.userParams;
            && |env| >= 12 + |p1| + |p2|
            && env[..12] == FixedEnv(cfg, eth1, eth2)
            && (forall i :: 0 <= i < |p1| ==> env[12 + i] == Assignment(p1[i].env, p1[i].value))
            && (forall i :: 0 <= i < |p2| ==> env[12 + |p1| + i] == Assignment(p2[i].env, p2[i].value))
  {
    var env := ComposeEnv(cfg, eth1, eth2);
    var userSet := UserNames(cfg.eth1.userParams) + UserNames(cfg.eth2.userParams);
    var head := FixedEnv(cfg, eth1, eth2) + UserEnv(cfg.eth1.userParams) + UserEnv(cfg.eth2.userParams);
    assert env == head + (DefaultEnv(eth1.params, userSet) + DefaultEnv(eth2.params, userSet));
    assert env[..|head|] == head;
  }
}

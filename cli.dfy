/**
 * The `rke up` command line (cmd/common.go, cmd/up.go): command-line options merged into the parsed
 * cluster configuration, the report of hosts that could not be contacted, the Docker-in-Docker
 * preparation, the choice between local, Docker-in-Docker and regular bring-up, and the API URL
 * reported after reconciliation.
 */
module Cli {
  import opened Wrappers
  import opened Steps
  import opened Strings
  import opened Hosts
  import Etcd
  import ClusterDefaults
  import LocalKubeConfig

  /** The command-line flags `rke up` reads; an absent string flag is "". */
  datatype CLIFlags = CLIFlags(
    sshAgentAuth: bool, ignoreDockerVersion: bool,
    s3: bool, s3Endpoint: string, accessKey: string, secretKey: string, bucketName: string, region: string,
    local: bool, dind: bool, init: bool, updateOnly: bool, disablePortCheck: bool, dindStorageDriver: string)

  /** The fields of the cluster configuration the command line touches; a nil pointer or map is None. */
  datatype ConfigFields = ConfigFields(
    sshAgentAuth: bool,
    ignoreDockerVersion: bool,
    backupBackend: Option<Etcd.BackupBackend>,
    kubeproxyExtraArgs: Option<map<string, string>>,
    nodes: seq<Node>)

  /** The parsed cluster configuration (RancherKubernetesEngineConfig), updated in place. */
  class RKEConfig {
    var sshAgentAuth: bool
    var ignoreDockerVersion: bool
    var backupBackend: Option<Etcd.BackupBackend>
    var kubeproxyExtraArgs: Option<map<string, string>>
    var nodes: seq<Node>

    function Fields(): ConfigFields
      reads this
    {
      ConfigFields(sshAgentAuth, ignoreDockerVersion, backupBackend, kubeproxyExtraArgs, nodes)
    }

    constructor (f: ConfigFields)
      ensures Fields() == f
    {
      sshAgentAuth := f.sshAgentAuth;
      ignoreDockerVersion := f.ignoreDockerVersion;
      backupBackend := f.backupBackend;
      kubeproxyExtraArgs := f.kubeproxyExtraArgs;
      nodes := f.nodes;
    }
  }

  // ----- setS3OptionsFromCLI, setOptionsFromCLI -----

  /** The S3 settings given on the command line, field by field. */
  function S3FromCLI(c: CLIFlags): Etcd.S3BackupBackend
  {
    Etcd.S3BackupBackend(c.accessKey, c.secretKey, c.bucketName, c.region, c.s3Endpoint)
  }

  /**
   * setS3OptionsFromCLI: each field is set only when its flag is non-empty and is otherwise left
   * "", so the result holds exactly the flags' strings.
   */
  method SetS3OptionsFromCLI(c: CLIFlags) returns (s3BackupBackend: Etcd.S3BackupBackend)
    ensures s3BackupBackend == S3FromCLI(c)
  {
    s3BackupBackend := Etcd.S3BackupBackend("", "", "", "", "");
    if |c.s3Endpoint| != 0 {
      s3BackupBackend := s3BackupBackend.(endpoint := c.s3Endpoint);
    }
    if |c.accessKey| != 0 {
      s3BackupBackend := s3BackupBackend.(accessKey := c.accessKey);
    }
    if |c.secretKey| != 0 {
      s3BackupBackend := s3BackupBackend.(secretKey := c.secretKey);
    }
    if |c.bucketName| != 0 {
      s3BackupBackend := s3BackupBackend.(bucketName := c.bucketName);
    }
    if |c.region| != 0 {
      s3BackupBackend := s3BackupBackend.(region := c.region);
    }
  }

  /** The configuration after setOptionsFromCLI. */
  function WithCLIOptions(c: CLIFlags, f: ConfigFields): ConfigFields
  {
    f.(sshAgentAuth := if c.sshAgentAuth then true else f.sshAgentAuth,
       ignoreDockerVersion := if c.ignoreDockerVersion then true else f.ignoreDockerVersion,
       backupBackend :=
         if !c.s3 then f.backupBackend
         else
           var backend := if f.backupBackend.None? then Etcd.BackupBackend("", None) else f.backupBackend.value;
           Some(backend.(s3BackupBackend := Some(S3FromCLI(c)))))
  }

  /**
   * A set flag turns its option on and an unset one leaves the file's value; with the s3 flag the
   * backup backend exists afterwards, keeps its name when it existed, and has its S3 settings
   * replaced by the command line's; without it the backend is untouched. Nodes and kube-proxy
   * arguments never change, and applying the options twice is applying them once.
   */
  lemma CLIOptionsOnlyOverride(c: CLIFlags, f: ConfigFields)
    ensures var r := WithCLIOptions(c, f);
      && r.sshAgentAuth == (c.sshAgentAuth || f.sshAgentAuth)
      && r.ignoreDockerVersion == (c.ignoreDockerVersion || f.ignoreDockerVersion)
      && (!c.s3 ==> r.backupBackend == f.backupBackend)
      && (c.s3 ==> r.backupBackend.Some? && r.backupBackend.value.s3BackupBackend == Some(S3FromCLI(c)))
      && (c.s3 && f.backupBackend.Some? ==> r.backupBackend.value.name == f.backupBackend.value.name)
      && r.nodes == f.nodes && r.kubeproxyExtraArgs == f.kubeproxyExtraArgs
      && WithCLIOptions(c, r) == r
  {
  }

  /** setOptionsFromCLI: merge the flags into the configuration; it never fails. */
  method SetOptionsFromCLI(c: CLIFlags, rkeConfig: RKEConfig) returns (err: Outcome)
    modifies rkeConfig
    ensures rkeConfig.Fields() == WithCLIOptions(c, old(rkeConfig.Fields()))
    ensures err == Pass
  {
    if c.sshAgentAuth {
      rkeConfig.sshAgentAuth := c.sshAgentAuth;
    }
    if c.ignoreDockerVersion {
      rkeConfig.ignoreDockerVersion := c.ignoreDockerVersion;
    }
    if c.s3 {
      if rkeConfig.backupBackend.None? {
        rkeConfig.backupBackend := Some(Etcd.BackupBackend("", None));
      }
      var s3BackupBackend := SetS3OptionsFromCLI(c);
      rkeConfig.backupBackend := Some(rkeConfig.backupBackend.value.(s3BackupBackend := Some(s3BackupBackend)));
    }
    return Pass;
  }

  // ----- checkAllIncluded -----

  const IncompletePrefix := "Provisioning incomplete, host(s) ["
  const IncompleteSuffix := "] skipped because they could not be contacted"

  /**
   * checkAllIncluded: nil exactly when no host is inactive; otherwise an error listing the inactive
   * hosts' addresses, in order, separated by ','.
   */
  method CheckAllIncluded(inactiveHosts: seq<Host>) returns (err: Outcome)
    ensures err.Pass? <==> inactiveHosts == []
    ensures inactiveHosts != [] ==>
      err == Fail(IncompletePrefix + Join(Addresses(inactiveHosts), ',') + IncompleteSuffix)
  {
    if |inactiveHosts| == 0 {
      return Pass;
    }
    var names: seq<string> := [];
    for i := 0 to |inactiveHosts|
      invariant names == Addresses(inactiveHosts[..i])
    {
      names := names + [inactiveHosts[i].address];
    }
    assert inactiveHosts[..|inactiveHosts|] == inactiveHosts;
    return Fail(IncompletePrefix + Join(names, ',') + IncompleteSuffix);
  }

  /**
   * The list in the error gives the inactive hosts back: split at ',' it is their addresses, in
   * order, when no address holds a ','.
   */
  lemma InactiveHostsListed(inactiveHosts: seq<Host>)
    requires inactiveHosts != []
    requires forall i | 0 <= i < |inactiveHosts| :: ',' !in inactiveHosts[i].address
    ensures Split(Join(Addresses(inactiveHosts), ','), ',') == Addresses(inactiveHosts)
  {
    SplitJoin(Addresses(inactiveHosts), ',');
  }

  // ----- getDindConfig, createDINDEnv -----

  const ConntrackMaxPerCore := "conntrack-max-per-core"

  /** kube-proxy's extra arguments after getDindConfig: created when nil, conntrack limit "0", the rest kept. */
  function WithConntrackOff(extraArgs: Option<map<string, string>>): (r: map<string, string>)
    ensures r.Keys == (if extraArgs.Some? then extraArgs.value.Keys else {}) + {ConntrackMaxPerCore}
    ensures r[ConntrackMaxPerCore] == "0"
    ensures extraArgs.Some? ==> forall k <- extraArgs.value | k != ConntrackMaxPerCore :: r[k] == extraArgs.value[k]
  {
    (if extraArgs.Some? then extraArgs.value else map[])[ConntrackMaxPerCore := "0"]
  }

  /**
   * getDindConfig over the outcomes of resolving and parsing the cluster file (the parsed
   * configuration being `rkeConfig`): each failure is wrapped and returned with no configuration
   * change and no storage driver; otherwise the command-line options are merged and kube-proxy's
   * conntrack limit is switched off. The port-check flag is returned in every case.
   */
  method GetDindConfig(c: CLIFlags, resolved: Outcome, parsed: Outcome, rkeConfig: RKEConfig)
    returns (disablePortCheck: bool, dindStorageDriver: string, err: Outcome)
    modifies rkeConfig
    ensures disablePortCheck == c.disablePortCheck
    ensures resolved.Fail? ==>
      err == Fail("Failed to resolve cluster file: " + resolved.error) && dindStorageDriver == ""
      && rkeConfig.Fields() == old(rkeConfig.Fields())
    ensures resolved.Pass? && parsed.Fail? ==>
      err == Fail("Failed to parse cluster file: " + parsed.error) && dindStorageDriver == ""
      && rkeConfig.Fields() == old(rkeConfig.Fields())
    ensures resolved.Pass? && parsed.Pass? ==>
      && err == Pass && dindStorageDriver == c.dindStorageDriver
      && rkeConfig.Fields() ==
           WithCLIOptions(c, old(rkeConfig.Fields())).(kubeproxyExtraArgs := Some(WithConntrackOff(old(rkeConfig.kubeproxyExtraArgs))))
  {
    disablePortCheck := c.disablePortCheck;
    dindStorageDriver := c.dindStorageDriver;
    if resolved.Fail? {
      return disablePortCheck, "", Fail("Failed to resolve cluster file: " + resolved.error);
    }
    if parsed.Fail? {
      return disablePortCheck, "", Fail("Failed to parse cluster file: " + parsed.error);
    }
    err := SetOptionsFromCLI(c, rkeConfig);
    if rkeConfig.kubeproxyExtraArgs.None? {
      rkeConfig.kubeproxyExtraArgs := Some(map[]);
    }
    rkeConfig.kubeproxyExtraArgs := Some(rkeConfig.kubeproxyExtraArgs.value[ConntrackMaxPerCore := "0"]);
  }

  /**
   * The Docker-in-Docker container starter (dind.StartUpDindContainer): the address of the container
   * started for a node address, or the error, given the nodes whose containers were started before.
   */
  type Starter = (seq<Node>, string) -> Result<string>

  /** A node once its container runs: an empty hostname override takes its original address, then the address moves. */
  function MoveToContainer(n: Node, containerAddress: string): Node
  {
    n.(hostnameOverride := ClusterDefaults.IfEmpty(n.hostnameOverride, n.address), address := containerAddress)
  }

  /**
   * createDINDEnv on `nodes`, after containers were started for the nodes in `started`: each
   * node in turn gets a container and moves to it; the first start failure ends the run with its
   * error and the nodes from the failing one on unchanged.
   */
  function DindEnv(start: Starter, started: seq<Node>, nodes: seq<Node>): (seq<Node>, Outcome)
    decreases |nodes|
  {
    if nodes == [] then ([], Pass)
    else
      var a := start(started, nodes[0].address);
      if a.Err? then (nodes, Fail(a.error))
      else
        var rest := DindEnv(start, started + [nodes[0]], nodes[1..]);
        ([MoveToContainer(nodes[0], a.value)] + rest.0, rest.1)
  }

  /** One step of the run: a node whose container started moves to it, and the run goes on with the next. */
  lemma DindEnvStep(start: Starter, started: seq<Node>, nodes: seq<Node>)
    requires nodes != [] && start(started, nodes[0].address).Ok?
    ensures var rest := DindEnv(start, started + [nodes[0]], nodes[1..]);
      DindEnv(start, started, nodes) ==
        ([MoveToContainer(nodes[0], start(started, nodes[0].address).value)] + rest.0, rest.1)
  {
  }

  /**
   * The run keeps the nodes' count, internal addresses, key paths and roles; a node's hostname
   * override is kept or, when empty, becomes the node's original address, so after a successful
   * run every node is still named by where it was declared.
   */
  lemma {:induction false} DindEnvKeepsNames(start: Starter, started: seq<Node>, nodes: seq<Node>)
    ensures var r := DindEnv(start, started, nodes);
      && |r.0| == |nodes|
      && (forall i | 0 <= i < |nodes| ::
            && r.0[i].internalAddress == nodes[i].internalAddress
            && r.0[i].sshKeyPath == nodes[i].sshKeyPath && r.0[i].role == nodes[i].role
            && (r.0[i].hostnameOverride == nodes[i].hostnameOverride ||
                (nodes[i].hostnameOverride == "" && r.0[i].hostnameOverride == nodes[i].address)))
      && (r.1.Pass? ==> forall i | 0 <= i < |nodes| ::
            r.0[i].hostnameOverride == ClusterDefaults.IfEmpty(nodes[i].hostnameOverride, nodes[i].address))
    decreases |nodes|
  {
    if nodes != [] && start(started, nodes[0].address).Ok? {
      var a := start(started, nodes[0].address);
      var rest := DindEnv(start, started + [nodes[0]], nodes[1..]);
      DindEnvKeepsNames(start, started + [nodes[0]], nodes[1..]);
      DindEnvStep(start, started, nodes);
      var r := DindEnv(start, started, nodes);
      forall i | 0 <= i < |nodes|
        ensures r.0[i].internalAddress == nodes[i].internalAddress
        ensures r.0[i].sshKeyPath == nodes[i].sshKeyPath && r.0[i].role == nodes[i].role
        ensures r.0[i].hostnameOverride == nodes[i].hostnameOverride ||
                (nodes[i].hostnameOverride == "" && r.0[i].hostnameOverride == nodes[i].address)
        ensures r.1.Pass? ==> r.0[i].hostnameOverride == ClusterDefaults.IfEmpty(nodes[i].hostnameOverride, nodes[i].address)
      {
        if i > 0 {
          assert r.0[i] == rest.0[i - 1] && nodes[i] == nodes[1..][i - 1];
        }
      }
    }
  }

  /** How many nodes' containers a run starts before it stops. */
  ghost function DindStarted(start: Starter, started: seq<Node>, nodes: seq<Node>): (k: nat)
    ensures k <= |nodes|
    decreases |nodes|
  {
    if nodes == [] || start(started, nodes[0].address).Err? then 0
    else 1 + DindStarted(start, started + [nodes[0]], nodes[1..])
  }

  /** A run returns one node per node it was given. */
  lemma {:induction false} DindEnvLength(start: Starter, started: seq<Node>, nodes: seq<Node>)
    ensures |DindEnv(start, started, nodes).0| == |nodes|
    decreases |nodes|
  {
    if nodes != [] && start(started, nodes[0].address).Ok? {
      DindEnvLength(start, started + [nodes[0]], nodes[1..]);
    }
  }

  /**
   * A run fails exactly when it stops before the last node, at a node whose start failed after
   * every earlier node had been started in order; that node and the ones after it are unchanged,
   * and its error is the run's.
   */
  lemma {:induction false} DindEnvStopsAtFailure(start: Starter, started: seq<Node>, nodes: seq<Node>)
    ensures var r := DindEnv(start, started, nodes);
      var k := DindStarted(start, started, nodes);
      && |r.0| == |nodes|
      && (r.1.Pass? <==> k == |nodes|)
      && (r.1.Fail? ==>
            && r.0[k..] == nodes[k..]
            && start(started + nodes[..k], nodes[k].address) == Err(r.1.error))
    decreases |nodes|
  {
    DindEnvLength(start, started, nodes);
    if nodes == [] {
    } else if start(started, nodes[0].address).Err? {
      assert started + nodes[..0] == started;
    } else {
      DindEnvStopsAtFailure(start, started + [nodes[0]], nodes[1..]);
      DindEnvLength(start, started + [nodes[0]], nodes[1..]);
      DindEnvStep(start, started, nodes);
      var r := DindEnv(start, started, nodes);
      var k := DindStarted(start, started + [nodes[0]], nodes[1..]);
      if r.1.Fail? {
        DindShiftStarted(started, nodes, k);
        var rest := DindEnv(start, started + [nodes[0]], nodes[1..]);
        assert r.0[k + 1..] == rest.0[k..];
        assert nodes[k + 1..] == nodes[1..][k..];
      }
    }
  }

  lemma DindShiftStarted(started: seq<Node>, nodes: seq<Node>, k: nat)
    requires k < |nodes| - 1
    ensures started + nodes[..k + 1] == started + [nodes[0]] + nodes[1..][..k]
    ensures nodes[k + 1] == nodes[1..][k]
  {
  }

  /** The nodes from `i` on, when the ones before have moved: the whole run is the moved prefix followed by the rest of the run. */
  ghost predicate DindFrom(start: Starter, orig: seq<Node>, nodes: seq<Node>, i: nat)
    requires i <= |orig| == |nodes|
  {
    var rest := DindEnv(start, orig[..i], orig[i..]);
    && nodes[i..] == orig[i..]
    && DindEnv(start, [], orig) == (nodes[..i] + rest.0, rest.1)
  }

  lemma DindStart(start: Starter, orig: seq<Node>)
    ensures DindFrom(start, orig, orig, 0)
  {
    assert orig[..0] == [] && orig[0..] == orig;
    assert orig[..0] == [];
    var rest := DindEnv(start, [], orig);
    assert orig[..0] + rest.0 == rest.0;
  }

  lemma DindAdvance(start: Starter, orig: seq<Node>, nodes: seq<Node>, i: nat, containerAddress: string)
    requires i < |orig| == |nodes| && DindFrom(start, orig, nodes, i)
    requires start(orig[..i], orig[i].address) == Ok(containerAddress)
    ensures DindFrom(start, orig, nodes[i := MoveToContainer(orig[i], containerAddress)], i + 1)
  {
    var next := nodes[i := MoveToContainer(orig[i], containerAddress)];
    var tail := orig[i..];
    assert tail[0] == orig[i] && tail[1..] == orig[i + 1..];
    assert orig[..i + 1] == orig[..i] + [orig[i]];
    DindEnvStep(start, orig[..i], tail);
    var rest := DindEnv(start, orig[..i + 1], orig[i + 1..]);
    assert next[..i + 1] == nodes[..i] + [MoveToContainer(orig[i], containerAddress)];
    assert next[i + 1..] == nodes[i + 1..];
    assert nodes[..i] + ([MoveToContainer(orig[i], containerAddress)] + rest.0) == next[..i + 1] + rest.0;
  }

  lemma DindStops(start: Starter, orig: seq<Node>, nodes: seq<Node>, i: nat)
    requires i < |orig| == |nodes| && DindFrom(start, orig, nodes, i)
    requires start(orig[..i], orig[i].address).Err?
    ensures DindEnv(start, [], orig) == (nodes, Fail(start(orig[..i], orig[i].address).error))
  {
    assert orig[i..][0] == orig[i];
    assert nodes == nodes[..i] + nodes[i..];
  }

  lemma DindEnd(start: Starter, orig: seq<Node>, nodes: seq<Node>)
    requires |orig| == |nodes| && DindFrom(start, orig, nodes, |orig|)
    ensures DindEnv(start, [], orig) == (nodes, Pass)
  {
    assert orig[|orig|..] == [];
    assert nodes[..|orig|] == nodes;
    assert nodes + [] == nodes;
  }

  /**
   * createDINDEnv: start a container for each node in order and move the node to it, stopping at
   * the first start failure; `started` are the nodes containers were requested for.
   */
  method CreateDINDEnv(rkeConfig: RKEConfig, start: Starter) returns (err: Outcome, started: seq<Node>)
    modifies rkeConfig
    ensures (rkeConfig.nodes, err) == DindEnv(start, [], old(rkeConfig.nodes))
    ensures rkeConfig.Fields().(nodes := old(rkeConfig.nodes)) == old(rkeConfig.Fields())
  {
    ghost var orig := rkeConfig.nodes;
    started := [];
    DindStart(start, orig);
    for i := 0 to |rkeConfig.nodes|
      invariant |rkeConfig.nodes| == |orig|
      invariant started == orig[..i]
      invariant DindFrom(start, orig, rkeConfig.nodes, i)
      invariant rkeConfig.Fields().(nodes := orig) == old(rkeConfig.Fields())
    {
      var address := start(started, rkeConfig.nodes[i].address);
      if address.Err? {
        DindStops(start, orig, rkeConfig.nodes, i);
        return Fail(address.error), started + [rkeConfig.nodes[i]];
      }
      DindAdvance(start, orig, rkeConfig.nodes, i, address.value);
      assert orig[..i + 1] == orig[..i] + [orig[i]];
      started := started + [rkeConfig.nodes[i]];
      var node := rkeConfig.nodes[i];
      if node.hostnameOverride == "" {
        node := node.(hostnameOverride := node.address);
      }
      node := node.(address := address.value);
      rkeConfig.nodes := rkeConfig.nodes[i := node];
    }
    DindEnd(start, orig, rkeConfig.nodes);
    err := Pass;
  }

  // ----- clusterUpFromCli -----

  /** The steps clusterUpFromCli can take. */
  datatype UpCall = ClusterUpLocal | ClusterUpDind | ResolveClusterFile | ParseConfig | ClusterInit | ClusterUp

  /** The regular path: resolve and parse the cluster file, then initialise, then (unless "init") bring up. */
  function RegularPlan(init: bool): seq<UpCall>
  {
    [ResolveClusterFile, ParseConfig] + (if init then [ClusterInit] else [ClusterInit, ClusterUp])
  }

  /** The message a failing step's error is wrapped in. */
  function UpPrefix(call: UpCall): string
  {
    if call == ResolveClusterFile then "Failed to resolve cluster file: "
    else if call == ParseConfig then "Failed to parse cluster file: "
    else ""
  }

  /**
   * clusterUpFromCli: "local" is checked before "dind", each handing over to its own bring-up;
   * otherwise the regular path runs, stopping at its first failure.
   */
  function ClusterUpFromCli(world: World<UpCall>, done: seq<UpCall>, c: CLIFlags): Exec<UpCall>
  {
    if c.local then Run(world, done, [ClusterUpLocal])
    else if c.dind then Run(world, done, [ClusterUpDind])
    else
      var e := Run(world, done, RegularPlan(c.init));
      if e.outcome.Pass? then e
      else Exec(e.issued, Fail(UpPrefix(e.issued[|e.issued| - 1]) + e.outcome.error))
  }

  /** The "local" flag wins over "dind", and each hands the whole bring-up to its own call. */
  lemma ClusterUpDispatch(world: World<UpCall>, done: seq<UpCall>, c: CLIFlags)
    ensures var e := ClusterUpFromCli(world, done, c);
      && (c.local ==> e == Exec([ClusterUpLocal], world(done, ClusterUpLocal)))
      && (!c.local && c.dind ==> e == Exec([ClusterUpDind], world(done, ClusterUpDind)))
      && (!c.local && !c.dind ==> ClusterUpLocal !in e.issued && ClusterUpDind !in e.issued)
  {
    if c.local {
      RunSingle(world, done, ClusterUpLocal);
    } else if c.dind {
      RunSingle(world, done, ClusterUpDind);
    } else {
      RunIssuesFromPlan(world, done, RegularPlan(c.init));
    }
  }

  /**
   * On the regular path a failure to resolve or to parse the cluster file is wrapped, and nothing
   * after it runs.
   */
  lemma ClusterUpFileErrors(world: World<UpCall>, done: seq<UpCall>, c: CLIFlags)
    requires !c.local && !c.dind
    ensures var e := ClusterUpFromCli(world, done, c);
      && (world(done, ResolveClusterFile).Fail? ==>
            e == Exec([ResolveClusterFile], Fail("Failed to resolve cluster file: " + world(done, ResolveClusterFile).error)))
      && (world(done, ResolveClusterFile).Pass? && world(done + [ResolveClusterFile], ParseConfig).Fail? ==>
            e == Exec([ResolveClusterFile, ParseConfig],
                      Fail("Failed to parse cluster file: " + world(done + [ResolveClusterFile], ParseConfig).error)))
  {
    var plan := RegularPlan(c.init);
    assert plan == [ResolveClusterFile, ParseConfig] + plan[2..];
    RunAppend(world, done, [ResolveClusterFile, ParseConfig], plan[2..]);
    RunTwo(world, done, ResolveClusterFile, ParseConfig);
  }

  /** With "init" the cluster is initialised and never brought up. */
  lemma ClusterUpInitOnly(world: World<UpCall>, done: seq<UpCall>, c: CLIFlags)
    requires !c.local && !c.dind && c.init
    ensures var e := ClusterUpFromCli(world, done, c);
      && ClusterUp !in e.issued
      && (e.outcome.Pass? <==> e.issued == [ResolveClusterFile, ParseConfig, ClusterInit]
                                && world(done + [ResolveClusterFile, ParseConfig], ClusterInit).Pass?)
  {
    RunThree(world, done, ResolveClusterFile, ParseConfig, ClusterInit);
    assert RegularPlan(c.init) == [ResolveClusterFile, ParseConfig, ClusterInit];
  }

  /**
   * Without "init", bring-up runs only after initialisation succeeded, and the run succeeds exactly
   * when it has done both, in that order.
   */
  lemma ClusterUpAfterInit(world: World<UpCall>, done: seq<UpCall>, c: CLIFlags)
    requires !c.local && !c.dind && !c.init
    ensures var e := ClusterUpFromCli(world, done, c);
      && (ClusterUp in e.issued ==> world(done + [ResolveClusterFile, ParseConfig], ClusterInit).Pass?)
      && (e.outcome.Pass? <==> e.issued == [ResolveClusterFile, ParseConfig, ClusterInit, ClusterUp]
                                && world(done + [ResolveClusterFile, ParseConfig, ClusterInit], ClusterUp).Pass?)
  {
    RunFour(world, done, ResolveClusterFile, ParseConfig, ClusterInit, ClusterUp);
    assert RegularPlan(c.init) == [ResolveClusterFile, ParseConfig, ClusterInit, ClusterUp];
  }

  // ----- APIURL -----

  /** The API URL ClusterUp reports after reconciliation: the first control-plane host's, when there is one. */
  function APIURL(controlPlaneHosts: seq<Host>, previous: string): string
  {
    if |controlPlaneHosts| > 0 then "https://" + controlPlaneHosts[0].address + ":6443" else previous
  }

  /**
   * The reported URL is the server URL of the first control-plane host, from which the local
   * kubeconfig's address reader gets that host back.
   */
  lemma APIURLNamesFirstHost(controlPlaneHosts: seq<Host>, previous: string)
    ensures controlPlaneHosts == [] ==> APIURL(controlPlaneHosts, previous) == previous
    ensures controlPlaneHosts != [] ==>
      APIURL(controlPlaneHosts, previous) == LocalKubeConfig.ServerURL(controlPlaneHosts[0].address)
    ensures controlPlaneHosts != [] && ':' !in controlPlaneHosts[0].address ==>
      LocalKubeConfig.GetLocalConfigAddress(Ok(APIURL(controlPlaneHosts, previous))) == Ok(controlPlaneHosts[0].address)
  {
    if controlPlaneHosts != [] && ':' !in controlPlaneHosts[0].address {
      LocalKubeConfig.ConfigAddressRoundTrip(controlPlaneHosts[0].address);
    }
  }
}

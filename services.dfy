/**
 * Container specifications of the control-plane and worker services (services/services.go,
 * services/kubecontroller.go, services/kubeproxy.go, services/scheduler.go): the health check
 * handed to Docker, whether a named container runs, and the image, command line and host settings
 * of kube-controller, kube-proxy and the scheduler. Starting a container is one call of the
 * outside world (docker.DoRunContainer).
 */
module Services {
  import opened Wrappers
  import opened Steps
  import opened Strings
  import opened Hosts

  const KubeproxyContainerName := "kube-proxy"
  const KubeControllerContainerName := "kube-controller"
  const SchedulerContainerName := "scheduler"

  // ----- BuildHealthCheckConfig -----

  /** A service's health check; the durations are Go time.Duration values. */
  datatype HealthCheck = HealthCheck(command: string, interval: int, timeout: int, startPeriod: int, retries: int)

  /** Docker's health-check settings. */
  datatype HealthConfig = HealthConfig(test: seq<string>, interval: int, timeout: int, startPeriod: int, retries: int)

  /** The zero value of HealthCheck: no check configured. */
  const NoHealthCheck := HealthCheck("", 0, 0, 0, 0)

  /** BuildHealthCheckConfig: no Docker health check (nil) exactly for the zero value. */
  function BuildHealthCheckConfig(healthCheck: HealthCheck): (r: Option<HealthConfig>)
    ensures r.None? <==> healthCheck == NoHealthCheck
  {
    if healthCheck != NoHealthCheck then
      Some(HealthConfig(["CMD-SHELL", healthCheck.command], healthCheck.interval, healthCheck.timeout,
                        healthCheck.startPeriod, healthCheck.retries))
    else None
  }

  /** Read a Docker health check back: the shell command of a "CMD-SHELL" test and the timings. */
  function HealthCheckOf(cfg: HealthConfig): HealthCheck
  {
    var command := if |cfg.test| == 2 && cfg.test[0] == "CMD-SHELL" then cfg.test[1] else "";
    HealthCheck(command, cfg.interval, cfg.timeout, cfg.startPeriod, cfg.retries)
  }

  /**
   * A configured check becomes a "CMD-SHELL" test of its command, and nothing of it is lost: reading
   * the Docker settings back gives the check.
   */
  lemma HealthCheckRoundTrip(healthCheck: HealthCheck)
    requires healthCheck != NoHealthCheck
    ensures BuildHealthCheckConfig(healthCheck).Some?
    ensures BuildHealthCheckConfig(healthCheck).value.test == ["CMD-SHELL", healthCheck.command]
    ensures HealthCheckOf(BuildHealthCheckConfig(healthCheck).value) == healthCheck
  {
  }

  // ----- IsContainerRunning -----

  /** Some container, scanned in list order, has `"/" + containerName` as its first name. */
  function FindContainer(containerNames: seq<seq<string>>, containerName: string): bool
    requires forall i | 0 <= i < |containerNames| :: |containerNames[i]| >= 1
    decreases |containerNames|
  {
    if containerNames == [] then false
    else if containerNames[0][0] == "/" + containerName then true
    else FindContainer(containerNames[1..], containerName)
  }

  /** The scan finds a container exactly when one of them has the name as its first name. */
  lemma {:induction false} FindContainerIff(containerNames: seq<seq<string>>, containerName: string)
    requires forall i | 0 <= i < |containerNames| :: |containerNames[i]| >= 1
    ensures FindContainer(containerNames, containerName) <==>
      exists i | 0 <= i < |containerNames| :: containerNames[i][0] == "/" + containerName
    decreases |containerNames|
  {
    if containerNames != [] {
      var rest := containerNames[1..];
      FindContainerIff(rest, containerName);
      if exists i | 0 <= i < |containerNames| :: containerNames[i][0] == "/" + containerName {
        var i :| 0 <= i < |containerNames| && containerNames[i][0] == "/" + containerName;
        if i > 0 {
          assert rest[i - 1] == containerNames[i];
        }
      }
      if exists i | 0 <= i < |rest| :: rest[i][0] == "/" + containerName {
        var i :| 0 <= i < |rest| && rest[i][0] == "/" + containerName;
        assert containerNames[i + 1] == rest[i];
      }
    }
  }

  /**
   * IsContainerRunning over the answer of the Docker container list on the host (each container's
   * names, or the list error). Docker names every container, and the source reads each one's first
   * name unchecked.
   */
  function IsContainerRunning(hostname: string, containerName: string, listed: Result<seq<seq<string>>>)
    : (r: (bool, Outcome))
    requires listed.Ok? ==> forall i | 0 <= i < |listed.value| :: |listed.value[i]| >= 1
    ensures listed.Err? ==>
      r == (false, Fail("Can't get Docker containers for host [" + hostname + "]: " + listed.error))
    ensures listed.Ok? ==>
      && r.1 == Pass
      && (r.0 <==> exists i | 0 <= i < |listed.value| :: listed.value[i][0] == "/" + containerName)
  {
    if listed.Err? then (false, Fail("Can't get Docker containers for host [" + hostname + "]: " + listed.error))
    else
      FindContainerIff(listed.value, containerName);
      (FindContainer(listed.value, containerName), Pass)
  }

  // ----- container specifications -----

  /** The container settings (container.Config) a service is started with. */
  datatype ContainerConfig = ContainerConfig(image: string, cmd: seq<string>)

  /** The host settings (container.HostConfig); "" and false are Go's zero values. */
  datatype HostConfig = HostConfig(networkMode: string, privileged: bool, restartPolicy: string)

  /** The plane a container is started for. */
  datatype PlaneRole = Control | Worker

  /** docker.DoRunContainer: start a container of the given name on a host. */
  datatype ContainerCall = DoRunContainer(
    imageCfg: ContainerConfig, hostCfg: HostConfig, containerName: string, host: Host, role: PlaneRole)

  datatype KubeController = KubeController(version: string, image: string, clusterCIDR: string, serviceClusterIPRange: string)
  datatype Kubeproxy = Kubeproxy(version: string, image: string)
  datatype Scheduler = Scheduler(version: string, image: string)

  /** The image reference of a service: its image tagged with its version. */
  function ImageRef(image: string, version: string): string
  {
    image + ":" + version
  }

  /**
   * A reference is read as repository and tag at its last ':': an untagged version is the tag and
   * the image is the rest.
   */
  lemma ImageRefParts(image: string, version: string)
    requires ':' !in version
    ensures var fields := Split(ImageRef(image, version), ':');
      fields[|fields| - 1] == version && Join(fields[..|fields| - 1], ':') == image
  {
    SplitAtLast(image, ':', version);
    JoinSplit(image, ':');
    var fields := Split(ImageRef(image, version), ':');
    assert fields[..|fields| - 1] == Split(image, ':');
  }

  /** The value of a "--name=value" argument: the first argument with that prefix, read after it. */
  function FlagValue(cmd: seq<string>, flag: string): (v: Option<string>)
    ensures v.Some? ==> exists i | 0 <= i < |cmd| :: cmd[i] == flag + v.value
    decreases |cmd|
  {
    if cmd == [] then None
    else if flag <= cmd[0] then
      assert cmd[0] == flag + cmd[0][|flag|..];
      Some(cmd[0][|flag|..])
    else
      var v := FlagValue(cmd[1..], flag);
      if v.Some? then
        var i :| 0 <= i < |cmd[1..]| && cmd[1..][i] == flag + v.value;
        assert cmd[i + 1] == cmd[1..][i];
        v
      else v
  }

  /** Arguments without the flag's prefix are passed over. */
  lemma {:induction false} FlagValueSkip(cmd: seq<string>, flag: string, k: nat)
    requires k <= |cmd|
    requires forall i | 0 <= i < k :: !(flag <= cmd[i])
    ensures FlagValue(cmd, flag) == FlagValue(cmd[k..], flag)
    decreases k
  {
    if k > 0 {
      FlagValueSkip(cmd[1..], flag, k - 1);
      assert cmd[1..][k - 1..] == cmd[k..];
    }
  }

  /** Arguments before the first one carrying the flag do not change its value. */
  lemma {:induction false} FlagValueAppend(front: seq<string>, back: seq<string>, flag: string)
    requires forall i | 0 <= i < |front| :: !(flag <= front[i])
    ensures FlagValue(front + back, flag) == FlagValue(back, flag)
    decreases |front|
  {
    if front != [] {
      FlagValueAppend(front[1..], back, flag);
      assert (front + back)[0] == front[0];
      assert !(flag <= front[0]);
      assert (front + back)[1..] == front[1..] + back;
      assert FlagValue(front + back, flag) == FlagValue((front + back)[1..], flag);
    } else {
      assert front + back == back;
    }
  }

  /** The master URL of kube-controller (host.IP, no trailing slash). */
  function ControllerMaster(host: Host): string
  {
    "http://" + host.ip + ":8080"
  }

  /** The master URL of kube-proxy and the scheduler (trailing slash). */
  function MasterWithSlash(host: Host): string
  {
    "http://" + host.ip + ":8080/"
  }

  /** The arguments of kube-controller before its master. */
  const ControllerLeading: seq<string> := ["/hyperkube", "controller-manager", "--address=0.0.0.0", "--cloud-provider="]

  /** The fixed arguments of kube-controller between its master and its ranges. */
  const ControllerTuning: seq<string> := [
    "--enable-hostpath-provisioner=false", "--node-monitor-grace-period=40s", "--pod-eviction-timeout=5m0s",
    "--v=2", "--allocate-node-cidrs=true"]

  /** buildKubeControllerConfig */
  function BuildKubeControllerConfig(host: Host, kubeControllerService: KubeController): (r: (ContainerConfig, HostConfig))
    ensures |r.0.cmd| == 12 && r.0.cmd[..2] == ["/hyperkube", "controller-manager"]
    ensures r.1 == HostConfig("", false, "always")
  {
    (ContainerConfig(
       ImageRef(kubeControllerService.image, kubeControllerService.version),
       ControllerLeading
       + ["--master=" + ControllerMaster(host)]
       + ControllerTuning
       + ["--cluster-cidr=" + kubeControllerService.clusterCIDR,
          "--service-cluster-ip-range=" + kubeControllerService.serviceClusterIPRange]),
     HostConfig("", false, "always"))
  }

  /** The value of the first argument carrying the flag. */
  lemma FlagAt(cmd: seq<string>, flag: string, k: nat, value: string)
    requires k < |cmd| && cmd[k] == flag + value
    requires forall i | 0 <= i < k :: !(flag <= cmd[i])
    ensures FlagValue(cmd, flag) == Some(value)
  {
    FlagValueSkip(cmd, flag, k);
    assert cmd[k][..|flag|] == flag;
  }

  /** kube-controller talks to the API server on the host's own IP, port 8080, no trailing slash. */
  lemma KubeControllerMaster(host: Host, kubeControllerService: KubeController)
    ensures FlagValue(BuildKubeControllerConfig(host, kubeControllerService).0.cmd, "--master=") == Some(ControllerMaster(host))
  {
    var cmd := BuildKubeControllerConfig(host, kubeControllerService).0.cmd;
    assert cmd[0][0] == '/' && cmd[1][0] == 'c' && cmd[2][2] == 'a' && cmd[3][2] == 'c';
    FlagAt(cmd, "--master=", 4, ControllerMaster(host));
  }

  /** An argument differing from the flag at some position does not carry it. */
  lemma NotFlag(flag: string, arg: string, j: nat)
    requires j < |flag| && j < |arg| && flag[j] != arg[j]
    ensures !(flag <= arg)
  {
  }

  /** An argument whose fixed start differs from the flag does not carry it. */
  lemma NotFlagStart(flag: string, start: string, rest: string, j: nat)
    requires j < |flag| && j < |start| && flag[j] != start[j]
    ensures !(flag <= start + rest)
  {
    NotFlag(flag, start + rest, j);
  }

  /** None of kube-controller's fixed arguments carries a range flag. */
  lemma FixedArgsHaveNoRanges(flag: string)
    requires flag == "--cluster-cidr=" || flag == "--service-cluster-ip-range="
    ensures forall i | 0 <= i < |ControllerLeading| :: !(flag <= ControllerLeading[i])
    ensures forall i | 0 <= i < |ControllerTuning| :: !(flag <= ControllerTuning[i])
  {
    NotFlag(flag, ControllerLeading[0], 0);
    NotFlag(flag, ControllerLeading[1], 0);
    NotFlag(flag, ControllerLeading[2], 2);
    NotFlag(flag, ControllerLeading[3], if flag[2] == 'c' then 4 else 2);
    NotFlag(flag, ControllerTuning[0], 2);
    NotFlag(flag, ControllerTuning[1], 2);
    NotFlag(flag, ControllerTuning[2], 2);
    NotFlag(flag, ControllerTuning[3], 2);
    NotFlag(flag, ControllerTuning[4], 2);
  }

  /** The ranges are the first arguments of kube-controller to carry a range flag. */
  lemma KubeControllerRangeFlag(host: Host, kubeControllerService: KubeController, flag: string)
    requires flag == "--cluster-cidr=" || flag == "--service-cluster-ip-range="
    ensures FlagValue(BuildKubeControllerConfig(host, kubeControllerService).0.cmd, flag) ==
      FlagValue(["--cluster-cidr=" + kubeControllerService.clusterCIDR,
                 "--service-cluster-ip-range=" + kubeControllerService.serviceClusterIPRange], flag)
  {
    var master := ["--master=" + ControllerMaster(host)];
    var ranges := ["--cluster-cidr=" + kubeControllerService.clusterCIDR,
                   "--service-cluster-ip-range=" + kubeControllerService.serviceClusterIPRange];
    var cmd := BuildKubeControllerConfig(host, kubeControllerService).0.cmd;
    assert cmd == ControllerLeading + (master + (ControllerTuning + ranges));
    FixedArgsHaveNoRanges(flag);
    NotFlagStart(flag, "--master=", ControllerMaster(host), 2);
    FlagValueAppend(ControllerLeading, master + (ControllerTuning + ranges), flag);
    FlagValueAppend(master, ControllerTuning + ranges, flag);
    FlagValueAppend(ControllerTuning, ranges, flag);
  }

  /** Reading the two ranges back from the arguments that carry them. */
  lemma RangeArgs(clusterCIDR: string, serviceClusterIPRange: string)
    ensures var ranges := ["--cluster-cidr=" + clusterCIDR, "--service-cluster-ip-range=" + serviceClusterIPRange];
      && FlagValue(ranges, "--cluster-cidr=") == Some(clusterCIDR)
      && FlagValue(ranges, "--service-cluster-ip-range=") == Some(serviceClusterIPRange)
  {
    var ranges := ["--cluster-cidr=" + clusterCIDR, "--service-cluster-ip-range=" + serviceClusterIPRange];
    FlagAt(ranges, "--cluster-cidr=", 0, clusterCIDR);
    NotFlagStart("--service-cluster-ip-range=", "--cluster-cidr=", clusterCIDR, 2);
    FlagAt(ranges, "--service-cluster-ip-range=", 1, serviceClusterIPRange);
  }

  /** kube-controller is given the service's cluster CIDR and IP range, read back from its command line. */
  lemma KubeControllerRanges(host: Host, kubeControllerService: KubeController)
    ensures var cmd := BuildKubeControllerConfig(host, kubeControllerService).0.cmd;
      && FlagValue(cmd, "--cluster-cidr=") == Some(kubeControllerService.clusterCIDR)
      && FlagValue(cmd, "--service-cluster-ip-range=") == Some(kubeControllerService.serviceClusterIPRange)
  {
    KubeControllerRangeFlag(host, kubeControllerService, "--cluster-cidr=");
    KubeControllerRangeFlag(host, kubeControllerService, "--service-cluster-ip-range=");
    RangeArgs(kubeControllerService.clusterCIDR, kubeControllerService.serviceClusterIPRange);
  }

  /** buildKubeproxyConfig: the master is the control-plane host, not the host the proxy runs on. */
  function BuildKubeproxyConfig(host: Host, masterHost: Host, kubeproxyService: Kubeproxy): (r: (ContainerConfig, HostConfig))
    ensures |r.0.cmd| == 5 && r.0.cmd[..2] == ["/hyperkube", "proxy"]
    ensures r.1 == HostConfig("host", true, "always")
  {
    (ContainerConfig(
       ImageRef(kubeproxyService.image, kubeproxyService.version),
       ["/hyperkube",
        "proxy",
        "--v=2",
        "--healthz-bind-address=0.0.0.0",
        "--master=" + MasterWithSlash(masterHost)]),
     HostConfig("host", true, "always"))
  }

  /** buildSchedulerConfig */
  function BuildSchedulerConfig(host: Host, schedulerService: Scheduler): (r: (ContainerConfig, HostConfig))
    ensures |r.0.cmd| == 5 && r.0.cmd[..2] == ["/hyperkube", "scheduler"]
    ensures r.1 == HostConfig("", false, "always")
  {
    (ContainerConfig(
       ImageRef(schedulerService.image, schedulerService.version),
       ["/hyperkube",
        "scheduler",
        "--v=2",
        "--address=0.0.0.0",
        "--master=" + MasterWithSlash(host)]),
     HostConfig("", false, "always"))
  }

  /**
   * kube-proxy reaches the API server of the master host and the scheduler that of its own host,
   * both with a trailing slash; kube-controller's master has none. The proxy's master does not
   * depend on the host it runs on.
   */
  lemma MasterFlags(host: Host, masterHost: Host, other: Host, kubeproxyService: Kubeproxy, schedulerService: Scheduler)
    ensures FlagValue(BuildKubeproxyConfig(host, masterHost, kubeproxyService).0.cmd, "--master=") == Some(MasterWithSlash(masterHost))
    ensures FlagValue(BuildSchedulerConfig(host, schedulerService).0.cmd, "--master=") == Some(MasterWithSlash(host))
    ensures BuildKubeproxyConfig(host, masterHost, kubeproxyService) == BuildKubeproxyConfig(other, masterHost, kubeproxyService)
    ensures MasterWithSlash(host) == ControllerMaster(host) + "/"
  {
    var proxy := BuildKubeproxyConfig(host, masterHost, kubeproxyService).0.cmd;
    var scheduler := BuildSchedulerConfig(host, schedulerService).0.cmd;
    assert proxy[0][0] == '/' && proxy[1][0] == 'p' && proxy[2][2] == 'v' && proxy[3][2] == 'h';
    assert scheduler[0][0] == '/' && scheduler[1][0] == 's' && scheduler[2][2] == 'v' && scheduler[3][2] == 'a';
    FlagAt(proxy, "--master=", 4, MasterWithSlash(masterHost));
    FlagAt(scheduler, "--master=", 4, MasterWithSlash(host));
  }

  // ----- running the services -----

  /** Start one container and return DoRunContainer's error unchanged. */
  function RunContainer(world: World<ContainerCall>, done: seq<ContainerCall>, call: ContainerCall): (e: Exec<ContainerCall>)
    ensures e == Run(world, done, [call])
  {
    RunSingle(world, done, call);
    Exec([call], world(done, call))
  }

  /** runKubeController: start "kube-controller" for the control plane with its built settings. */
  function RunKubeController(world: World<ContainerCall>, done: seq<ContainerCall>, host: Host, kubeControllerService: KubeController)
    : (e: Exec<ContainerCall>)
    ensures |e.issued| == 1 && e.issued[0].containerName == KubeControllerContainerName && e.issued[0].role == Control
    ensures e.issued[0].host == host
    ensures (e.issued[0].imageCfg, e.issued[0].hostCfg) == BuildKubeControllerConfig(host, kubeControllerService)
    ensures e.outcome == world(done, e.issued[0])
  {
    var (imageCfg, hostCfg) := BuildKubeControllerConfig(host, kubeControllerService);
    RunContainer(world, done, DoRunContainer(imageCfg, hostCfg, KubeControllerContainerName, host, Control))
  }

  /** runKubeproxy: start "kube-proxy" for the worker plane, pointed at the master host. */
  function RunKubeproxy(world: World<ContainerCall>, done: seq<ContainerCall>, host: Host, masterHost: Host, kubeproxyService: Kubeproxy)
    : (e: Exec<ContainerCall>)
    ensures |e.issued| == 1 && e.issued[0].containerName == KubeproxyContainerName && e.issued[0].role == Worker
    ensures e.issued[0].host == host
    ensures (e.issued[0].imageCfg, e.issued[0].hostCfg) == BuildKubeproxyConfig(host, masterHost, kubeproxyService)
    ensures e.outcome == world(done, e.issued[0])
  {
    var (imageCfg, hostCfg) := BuildKubeproxyConfig(host, masterHost, kubeproxyService);
    RunContainer(world, done, DoRunContainer(imageCfg, hostCfg, KubeproxyContainerName, host, Worker))
  }

  /** runScheduler: start "scheduler" for the control plane. */
  function RunScheduler(world: World<ContainerCall>, done: seq<ContainerCall>, host: Host, schedulerService: Scheduler)
    : (e: Exec<ContainerCall>)
    ensures |e.issued| == 1 && e.issued[0].containerName == SchedulerContainerName && e.issued[0].role == Control
    ensures e.issued[0].host == host
    ensures (e.issued[0].imageCfg, e.issued[0].hostCfg) == BuildSchedulerConfig(host, schedulerService)
    ensures e.outcome == world(done, e.issued[0])
  {
    var (imageCfg, hostCfg) := BuildSchedulerConfig(host, schedulerService);
    RunContainer(world, done, DoRunContainer(imageCfg, hostCfg, SchedulerContainerName, host, Control))
  }
}

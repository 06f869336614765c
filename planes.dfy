/**
 * Bringing the Kubernetes planes up (cluster/cluster.go, services/controlplane.go) and tearing a
 * cluster down (cluster/remove.go): fixed visit orders that stop at the first error.
 */
module Planes {
  import opened Wrappers
  import opened Steps
  import opened Hosts

  /** The remote calls of bring-up and teardown. */
  datatype PlaneCall =
    | RunEtcdPlane(etcdHosts: seq<Host>)                      // services.RunEtcdPlane
    | RunKubeAPI(host: Host)                                  // runKubeAPI
    | RunKubeController(host: Host)                           // runKubeController
    | RunScheduler(host: Host)                                // runScheduler
    | RunWorkerPlane(controlHosts: seq<Host>, workerHosts: seq<Host>)  // services.RunWorkerPlane
    | RemoveWorkerPlane(hosts: seq<Host>)                     // services.RemoveWorkerPlane(hosts, true)
    | RemoveControlPlane(hosts: seq<Host>)                    // services.RemoveControlPlane(hosts, true)
    | RemoveEtcdPlane(hosts: seq<Host>)                       // services.RemoveEtcdPlane
    | CleanUp(host: Host, image: string)                      // host.CleanUp
    | RemoveAdminConfig(path: string)                         // pki.RemoveAdminConfig

  /** The hosts of the three planes and what teardown needs. */
  datatype PlaneCluster = PlaneCluster(
    etcdHosts: seq<Host>, controlPlaneHosts: seq<Host>, workerHosts: seq<Host>,
    rkeImages: map<string, string>, localKubeConfigPath: string)

  // ----- RunControlPlane -----

  /** The three services started on one control-plane host, in order. */
  function ControlServices(h: Host): seq<PlaneCall>
  {
    [RunKubeAPI(h), RunKubeController(h), RunScheduler(h)]
  }

  /** RunControlPlane's calls when none fails: each host's three services, host after host. */
  function ControlPlanePlan(hosts: seq<Host>): (r: seq<PlaneCall>)
    ensures |r| == 3 * |hosts|
    decreases |hosts|
  {
    if hosts == [] then [] else ControlServices(hosts[0]) + ControlPlanePlan(hosts[1..])
  }

  /**
   * The plan starts kube-api, kube-controller and the scheduler on the `i`-th host at positions
   * 3i, 3i+1 and 3i+2: hosts in list order, each host's services in that order.
   */
  lemma {:induction false} ControlPlanePlanOrder(hosts: seq<Host>, i: nat)
    requires i < |hosts|
    ensures var plan := ControlPlanePlan(hosts);
      plan[3 * i] == RunKubeAPI(hosts[i]) && plan[3 * i + 1] == RunKubeController(hosts[i])
      && plan[3 * i + 2] == RunScheduler(hosts[i])
    decreases |hosts|
  {
    if i > 0 {
      ControlPlanePlanOrder(hosts[1..], i - 1);
      assert ControlPlanePlan(hosts)[3..] == ControlPlanePlan(hosts[1..]);
    }
  }

  /** Every call of the plan starts a control-plane service on one of the hosts. */
  lemma {:induction false} ControlPlanePlanCalls(hosts: seq<Host>)
    ensures forall c <- ControlPlanePlan(hosts) ::
      (c.RunKubeAPI? || c.RunKubeController? || c.RunScheduler?) && c.host in hosts
    decreases |hosts|
  {
    if hosts != [] {
      ControlPlanePlanCalls(hosts[1..]);
    }
  }

  /** The control-plane loop after `calls`, with the hosts from `i` on still to go. */
  ghost predicate ControlFrom(world: World<PlaneCall>, done: seq<PlaneCall>, hosts: seq<Host>, calls: seq<PlaneCall>, i: nat)
    requires i <= |hosts|
  {
    Run(world, done, ControlPlanePlan(hosts)) == After(calls, Run(world, done + calls, ControlPlanePlan(hosts[i..])))
  }

  /** The loop starts with every host to go. */
  lemma ControlStart(world: World<PlaneCall>, done: seq<PlaneCall>, hosts: seq<Host>)
    ensures ControlFrom(world, done, hosts, [], 0)
  {
    assert hosts[0..] == hosts && done + [] == done;
  }

  /** The rest of the loop from host `i` is that host's three services, then the hosts after it. */
  lemma ControlNext(world: World<PlaneCall>, done: seq<PlaneCall>, hosts: seq<Host>, i: nat)
    requires i < |hosts|
    ensures var first := Run(world, done, ControlServices(hosts[i]));
      Run(world, done, ControlPlanePlan(hosts[i..])) ==
        if first.outcome.Fail? then first
        else After(ControlServices(hosts[i]), Run(world, done + ControlServices(hosts[i]), ControlPlanePlan(hosts[i + 1..])))
  {
    assert hosts[i..][0] == hosts[i];
    assert hosts[i..][1..] == hosts[i + 1..];
    RunAppend(world, done, ControlServices(hosts[i]), ControlPlanePlan(hosts[i + 1..]));
  }

  /** A host whose three services start moves the loop on. */
  lemma ControlAdvance(world: World<PlaneCall>, done: seq<PlaneCall>, hosts: seq<Host>, calls: seq<PlaneCall>, i: nat)
    requires i < |hosts| && ControlFrom(world, done, hosts, calls, i)
    requires Run(world, done + calls, ControlServices(hosts[i])).outcome.Pass?
    ensures ControlFrom(world, done, hosts, calls + ControlServices(hosts[i]), i + 1)
  {
    var three := ControlServices(hosts[i]);
    ControlNext(world, done + calls, hosts, i);
    AfterAfter(calls, three, Run(world, done + calls + three, ControlPlanePlan(hosts[i + 1..])));
    assert done + calls + three == done + (calls + three);
  }

  /** A host whose services fail to start ends the loop with that run. */
  lemma ControlStops(world: World<PlaneCall>, done: seq<PlaneCall>, hosts: seq<Host>, calls: seq<PlaneCall>, i: nat)
    requires i < |hosts| && ControlFrom(world, done, hosts, calls, i)
    requires Run(world, done + calls, ControlServices(hosts[i])).outcome.Fail?
    ensures Run(world, done, ControlPlanePlan(hosts)) == After(calls, Run(world, done + calls, ControlServices(hosts[i])))
  {
    ControlNext(world, done + calls, hosts, i);
  }

  /** The loop with no host left has passed. */
  lemma ControlEnd(world: World<PlaneCall>, done: seq<PlaneCall>, hosts: seq<Host>, calls: seq<PlaneCall>)
    requires ControlFrom(world, done, hosts, calls, |hosts|)
    ensures Run(world, done, ControlPlanePlan(hosts)) == Exec(calls, Pass)
  {
    assert hosts[|hosts|..] == [] && calls + [] == calls;
  }

  /**
   * RunControlPlane: on each host in order start kube-api, kube-controller and the scheduler,
   * returning the first error unchanged; no call is made after it.
   */
  method RunControlPlane(world: World<PlaneCall>, done: seq<PlaneCall>, masterHosts: seq<Host>)
    returns (err: Outcome, calls: seq<PlaneCall>)
    ensures Exec(calls, err) == Run(world, done, ControlPlanePlan(masterHosts))
  {
    calls := [];
    ControlStart(world, done, masterHosts);
    for i := 0 to |masterHosts|
      invariant ControlFrom(world, done, masterHosts, calls, i)
    {
      var host := masterHosts[i];
      RunThree(world, done + calls, RunKubeAPI(host), RunKubeController(host), RunScheduler(host));
      var o := world(done + calls, RunKubeAPI(host));
      if o.Fail? {
        ControlStops(world, done, masterHosts, calls, i);
        return o, calls + [RunKubeAPI(host)];
      }
      o := world(done + calls + [RunKubeAPI(host)], RunKubeController(host));
      if o.Fail? {
        ControlStops(world, done, masterHosts, calls, i);
        return o, calls + [RunKubeAPI(host), RunKubeController(host)];
      }
      o := world(done + calls + [RunKubeAPI(host), RunKubeController(host)], RunScheduler(host));
      if o.Fail? {
        ControlStops(world, done, masterHosts, calls, i);
        return o, calls + ControlServices(host);
      }
      ControlAdvance(world, done, masterHosts, calls, i);
      calls := calls + ControlServices(host);
    }
    ControlEnd(world, done, masterHosts, calls);
    err := Pass;
  }

  // ----- DeployClusterPlanes -----

  const EtcdPlaneFailed := "[etcd] Failed to bring up Etcd Plane: "
  const ControlPlaneFailed := "[controlPlane] Failed to bring up Control Plane: "
  const WorkerPlaneFailed := "[workerPlane] Failed to bring up Worker Plane: "

  /** Every call of bring-up, when none fails: the etcd plane, the control plane, then the worker plane. */
  function DeployPlan(c: PlaneCluster): seq<PlaneCall>
  {
    [RunEtcdPlane(c.etcdHosts)] + ControlPlanePlan(c.controlPlaneHosts) + [RunWorkerPlane(c.controlPlaneHosts, c.workerHosts)]
  }

  /** The prefix DeployClusterPlanes puts on an error, by the plane of the call that failed. */
  function PlanePrefix(call: PlaneCall): string
  {
    match call
    case RunEtcdPlane(_) => EtcdPlaneFailed
    case RunWorkerPlane(_, _) => WorkerPlaneFailed
    case _ => ControlPlaneFailed
  }

  /** What DeployClusterPlanes issues and returns: the run of its plan, its error behind its plane's prefix. */
  function DeploySpec(world: World<PlaneCall>, done: seq<PlaneCall>, c: PlaneCluster): Exec<PlaneCall>
  {
    var e := Run(world, done, DeployPlan(c));
    if e.outcome.Pass? then e
    else Exec(e.issued, Fail(PlanePrefix(e.issued[|e.issued| - 1]) + e.outcome.error))
  }

  /**
   * Bring-up passes exactly when every call of the plan passes, and then it made every one of
   * them; otherwise it stopped at the first that failed and wrapped its error with its plane.
   */
  lemma DeployPlanesOrder(world: World<PlaneCall>, done: seq<PlaneCall>, c: PlaneCluster)
    ensures var e := DeploySpec(world, done, c);
      && |e.issued| <= |DeployPlan(c)| && e.issued == DeployPlan(c)[..|e.issued|]
      && (e.outcome.Pass? <==> e.issued == DeployPlan(c) && AllPass(world, done, DeployPlan(c)))
      && (e.outcome.Fail? ==>
            && |e.issued| >= 1
            && AllPass(world, done, e.issued[..|e.issued| - 1])
            && var last := e.issued[|e.issued| - 1];
            && world(done + e.issued[..|e.issued| - 1], last).Fail?
            && e.outcome.error == PlanePrefix(last) + world(done + e.issued[..|e.issued| - 1], last).error)
  {
    var plan := DeployPlan(c);
    var r := Run(world, done, plan);
    RunShape(world, done, plan);
    var e := DeploySpec(world, done, c);
    assert e.issued == r.issued;
    if r.outcome.Fail? {
      var last := r.issued[|r.issued| - 1];
      assert r.outcome == world(done + r.issued[..|r.issued| - 1], last);
      assert e.outcome == Fail(PlanePrefix(last) + r.outcome.error);
    }
  }

  /** The etcd plane failing to come up ends bring-up with its error. */
  lemma DeployEtcdFails(world: World<PlaneCall>, done: seq<PlaneCall>, c: PlaneCluster)
    requires world(done, RunEtcdPlane(c.etcdHosts)).Fail?
    ensures DeploySpec(world, done, c) ==
      Exec([RunEtcdPlane(c.etcdHosts)], Fail(EtcdPlaneFailed + world(done, RunEtcdPlane(c.etcdHosts)).error))
  {
    var etcd := RunEtcdPlane(c.etcdHosts);
    var plan := DeployPlan(c);
    assert plan[0] == etcd;
  }

  /** The control plane failing to come up ends bring-up with its run, the error wrapped. */
  lemma DeployControlFails(world: World<PlaneCall>, done: seq<PlaneCall>, c: PlaneCluster)
    requires world(done, RunEtcdPlane(c.etcdHosts)).Pass?
    requires Run(world, done + [RunEtcdPlane(c.etcdHosts)], ControlPlanePlan(c.controlPlaneHosts)).outcome.Fail?
    ensures var control := Run(world, done + [RunEtcdPlane(c.etcdHosts)], ControlPlanePlan(c.controlPlaneHosts));
      DeploySpec(world, done, c) == Exec([RunEtcdPlane(c.etcdHosts)] + control.issued, Fail(ControlPlaneFailed + control.outcome.error))
  {
    var etcd := RunEtcdPlane(c.etcdHosts);
    var plan := ControlPlanePlan(c.controlPlaneHosts);
    var control := Run(world, done + [etcd], plan);
    RunAppend(world, done, [etcd] + plan, [RunWorkerPlane(c.controlPlaneHosts, c.workerHosts)]);
    RunAppend(world, done, [etcd], plan);
    RunSingle(world, done, etcd);
    ControlPlanePlanCalls(c.controlPlaneHosts);
    RunIssuesFromPlan(world, done + [etcd], plan);
    RunShape(world, done + [etcd], plan);
    assert control.issued[|control.issued| - 1] in plan;
    assert ([etcd] + control.issued)[|control.issued|] == control.issued[|control.issued| - 1];
  }

  /** Once the etcd and control planes are up, bring-up ends with the worker plane's answer. */
  lemma DeployWorker(world: World<PlaneCall>, done: seq<PlaneCall>, c: PlaneCluster)
    requires world(done, RunEtcdPlane(c.etcdHosts)).Pass?
    requires Run(world, done + [RunEtcdPlane(c.etcdHosts)], ControlPlanePlan(c.controlPlaneHosts)).outcome.Pass?
    ensures var worker := RunWorkerPlane(c.controlPlaneHosts, c.workerHosts);
      var o := world(done + [RunEtcdPlane(c.etcdHosts)] + ControlPlanePlan(c.controlPlaneHosts), worker);
      DeploySpec(world, done, c) == Exec(DeployPlan(c), if o.Pass? then Pass else Fail(WorkerPlaneFailed + o.error))
  {
    var etcd := RunEtcdPlane(c.etcdHosts);
    var plan := ControlPlanePlan(c.controlPlaneHosts);
    var worker := RunWorkerPlane(c.controlPlaneHosts, c.workerHosts);
    EtcdAndControlPass(world, done, c);
    RunSnoc(world, done, [etcd] + plan, worker);
    assert done + [etcd] + plan == done + ([etcd] + plan);
    assert DeployPlan(c)[|DeployPlan(c)| - 1] == worker;
  }

  /** The etcd plane and then the control plane coming up run the first two planes' calls without error. */
  lemma EtcdAndControlPass(world: World<PlaneCall>, done: seq<PlaneCall>, c: PlaneCluster)
    requires world(done, RunEtcdPlane(c.etcdHosts)).Pass?
    requires Run(world, done + [RunEtcdPlane(c.etcdHosts)], ControlPlanePlan(c.controlPlaneHosts)).outcome.Pass?
    ensures var calls := [RunEtcdPlane(c.etcdHosts)] + ControlPlanePlan(c.controlPlaneHosts);
      Run(world, done, calls) == Exec(calls, Pass)
  {
    var etcd := RunEtcdPlane(c.etcdHosts);
    var plan := ControlPlanePlan(c.controlPlaneHosts);
    RunAppend(world, done, [etcd], plan);
    RunSingle(world, done, etcd);
    RunShape(world, done + [etcd], plan);
  }

  /**
   * DeployClusterPlanes: bring up the etcd plane, then the control plane, then the worker plane,
   * each error wrapped with its plane's prefix.
   */
  method DeployClusterPlanes(world: World<PlaneCall>, done: seq<PlaneCall>, c: PlaneCluster)
    returns (err: Outcome, calls: seq<PlaneCall>)
    ensures Exec(calls, err) == DeploySpec(world, done, c)
  {
    var etcd := RunEtcdPlane(c.etcdHosts);
    var o := world(done, etcd);
    if o.Fail? {
      DeployEtcdFails(world, done, c);
      return Fail(EtcdPlaneFailed + o.error), [etcd];
    }
    var controlErr, controlCalls := RunControlPlane(world, done + [etcd], c.controlPlaneHosts);
    if controlErr.Fail? {
      DeployControlFails(world, done, c);
      return Fail(ControlPlaneFailed + controlErr.error), [etcd] + controlCalls;
    }
    DeployWorker(world, done, c);
    RunShape(world, done + [etcd], ControlPlanePlan(c.controlPlaneHosts));
    var worker := RunWorkerPlane(c.controlPlaneHosts, c.workerHosts);
    o := world(done + [etcd] + controlCalls, worker);
    calls := [etcd] + controlCalls + [worker];
    if o.Fail? {
      return Fail(WorkerPlaneFailed + o.error), calls;
    }
    err := Pass;
  }

  // ----- ClusterRemove and cleanUpHosts -----

  /** cleanUpHosts' calls when none fails: clean every host of `hosts`, in order, with `image`. */
  function CleanPlan(hosts: seq<Host>, image: string): (r: seq<PlaneCall>)
    ensures |r| == |hosts|
  {
    seq(|hosts|, i requires 0 <= i < |hosts| => CleanUp(hosts[i], image))
  }

  /** The hosts cleanUpHosts visits: control-plane, then worker, then etcd hosts, repeats kept. */
  function AllHosts(c: PlaneCluster): seq<Host>
  {
    c.controlPlaneHosts + c.workerHosts + c.etcdHosts
  }

  /**
   * Teardown cleans the hosts of the three roles one after the other without merging them: a host
   * with two roles is cleaned twice, and every host is cleaned with the same image.
   */
  lemma CleanPlanVisitsEveryRole(c: PlaneCluster, image: string)
    ensures var plan := CleanPlan(AllHosts(c), image);
      var nc := |c.controlPlaneHosts|;
      var nw := |c.workerHosts|;
      && |plan| == nc + nw + |c.etcdHosts|
      && (forall i | 0 <= i < nc :: plan[i] == CleanUp(c.controlPlaneHosts[i], image))
      && (forall i | 0 <= i < nw :: plan[nc + i] == CleanUp(c.workerHosts[i], image))
      && (forall i | 0 <= i < |c.etcdHosts| :: plan[nc + nw + i] == CleanUp(c.etcdHosts[i], image))
  {
  }

  /** cleanUpHosts: clean each host in turn with `cleanerImage`, returning the first error unchanged. */
  method CleanUpHosts(world: World<PlaneCall>, done: seq<PlaneCall>, cpHosts: seq<Host>, workerHosts: seq<Host>,
                      etcdHosts: seq<Host>, cleanerImage: string)
    returns (err: Outcome, calls: seq<PlaneCall>)
    ensures Exec(calls, err) == Run(world, done, CleanPlan(cpHosts + workerHosts + etcdHosts, cleanerImage))
  {
    var allHosts: seq<Host> := [];
    allHosts := allHosts + cpHosts;
    allHosts := allHosts + workerHosts;
    allHosts := allHosts + etcdHosts;
    assert allHosts == cpHosts + workerHosts + etcdHosts;
    var plan := CleanPlan(allHosts, cleanerImage);
    calls := [];
    for i := 0 to |allHosts|
      invariant calls == plan[..i]
      invariant Run(world, done, calls) == Exec(calls, Pass)
    {
      var call := CleanUp(allHosts[i], cleanerImage);
      RunSnoc(world, done, calls, call);
      var r := world(done + calls, call);
      calls := calls + [call];
      assert calls == plan[..i + 1];
      if r.Fail? {
        RunFailedPrefix(world, done, plan, i + 1);
        return r, calls;
      }
    }
    assert plan[..|allHosts|] == plan;
    err := Pass;
  }

  /** Every call of teardown, when none fails. */
  function RemovePlan(c: PlaneCluster): seq<PlaneCall>
  {
    [RemoveWorkerPlane(c.workerHosts), RemoveControlPlane(c.controlPlaneHosts), RemoveEtcdPlane(c.etcdHosts)]
      + CleanPlan(AllHosts(c), Lookup(c.rkeImages, "alpine"))
      + [RemoveAdminConfig(c.localKubeConfigPath)]
  }

  /**
   * The local admin config is removed only at the very end of teardown: when its removal is
   * issued, every plane removal and every host cleanup before it passed.
   */
  lemma AdminConfigRemovedLast(world: World<PlaneCall>, done: seq<PlaneCall>, c: PlaneCluster)
    ensures var e := Run(world, done, RemovePlan(c));
      RemoveAdminConfig(c.localKubeConfigPath) in e.issued ==>
        e.issued == RemovePlan(c) && AllPass(world, done, RemovePlan(c)[..|RemovePlan(c)| - 1])
  {
    var plan := RemovePlan(c);
    var e := Run(world, done, plan);
    RunShape(world, done, plan);
    if RemoveAdminConfig(c.localKubeConfigPath) in e.issued {
      AdminConfigOnlyLast(c);
      var k :| 0 <= k < |e.issued| && e.issued[k] == RemoveAdminConfig(c.localKubeConfigPath);
      assert plan[k] == e.issued[k];
      assert e.issued == plan;
      if e.outcome.Pass? {
        AllPassPrefix(world, done, plan, |plan| - 1);
      }
    }
  }

  /** The admin config removal is the last call of the teardown plan and no other. */
  lemma AdminConfigOnlyLast(c: PlaneCluster)
    ensures forall k | 0 <= k < |RemovePlan(c)| - 1 :: !RemovePlan(c)[k].RemoveAdminConfig?
  {
    var planes := [RemoveWorkerPlane(c.workerHosts), RemoveControlPlane(c.controlPlaneHosts), RemoveEtcdPlane(c.etcdHosts)];
    var clean := CleanPlan(AllHosts(c), Lookup(c.rkeImages, "alpine"));
    assert RemovePlan(c)[..|RemovePlan(c)| - 1] == planes + clean;
    forall k | 0 <= k < |RemovePlan(c)| - 1 ensures !RemovePlan(c)[k].RemoveAdminConfig? {
      assert RemovePlan(c)[k] == (planes + clean)[k];
    }
  }

  /**
   * ClusterRemove: remove the worker plane, the control plane and the etcd plane, clean every
   * host with the image recorded under "alpine", then remove the local admin config; the first
   * error is returned unchanged and nothing after it is done.
   */
  method ClusterRemove(world: World<PlaneCall>, done: seq<PlaneCall>, c: PlaneCluster)
    returns (err: Outcome, calls: seq<PlaneCall>)
    ensures Exec(calls, err) == Run(world, done, RemovePlan(c))
  {
    var planes := [RemoveWorkerPlane(c.workerHosts), RemoveControlPlane(c.controlPlaneHosts), RemoveEtcdPlane(c.etcdHosts)];
    var clean := CleanPlan(AllHosts(c), Lookup(c.rkeImages, "alpine"));
    var admin := RemoveAdminConfig(c.localKubeConfigPath);
    RunAppend(world, done, planes + clean, [admin]);
    RunAppend(world, done, planes, clean);
    RunThree(world, done, planes[0], planes[1], planes[2]);
    var o := world(done, planes[0]);
    if o.Fail? {
      return o, [planes[0]];
    }
    o := world(done + [planes[0]], planes[1]);
    if o.Fail? {
      return o, [planes[0], planes[1]];
    }
    o := world(done + [planes[0], planes[1]], planes[2]);
    if o.Fail? {
      return o, planes;
    }
    var cleanErr, cleanCalls := CleanUpHosts(world, done + planes, c.controlPlaneHosts, c.workerHosts, c.etcdHosts,
                                             Lookup(c.rkeImages, "alpine"));
    if cleanErr.Fail? {
      return cleanErr, planes + cleanCalls;
    }
    RunSingle(world, done + (planes + clean), admin);
    assert done + planes + clean == done + (planes + clean);
    o := world(done + planes + clean, admin);
    return o, planes + clean + [admin];
  }
}

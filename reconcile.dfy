/**
 * Reconciling a cluster against the one recorded before (cluster/cluster.go): rebuild the local
 * admin kubeconfig against the first control-plane host whose API answers, then delete the
 * control-plane and worker hosts that are no longer wanted, cleaning each up on a best-effort
 * basis.
 */
module Reconcile {
  import opened Wrappers
  import opened Steps
  import opened Hosts
  import opened LocalKubeConfig

  /** The remote calls reconciling makes. */
  datatype ReconcileCall =
    | DeployAdminConfig(config: string, path: string)  // pki.DeployAdminConfig
    | GetK8sVersion(path: string)                      // GetK8sVersion with the local kubeconfig
    | NewKubeClient(path: string)                      // k8s.NewClient
    | DeleteNode(host: Host)                           // hosts.DeleteNode
    | TunnelUp(host: Host)                             // the cleaner's steps
    | RemoveControlPlane(host: Host)
    | RemoveWorkerPlane(host: Host)
    | CleanUp(host: Host, image: string)

  /** A certificate bundle entry (pki.CertificatePKI), with the PEM material as text. */
  datatype CertificatePKI = CertificatePKI(certificate: string, key: string, config: string, name: string)

  /** The zero CertificatePKI a missing map entry reads as. */
  const NoCertificate := CertificatePKI("", "", "", "")

  /** The hosts and images of the cluster recorded by the previous run. */
  datatype CurrentCluster = CurrentCluster(
    controlPlaneHosts: seq<Host>, workerHosts: seq<Host>, rkeImages: map<string, string>)

  const RedeployFailed := "Failed to redeploy local admin config with new host"
  const ClientFailed := "Failed to initialize new kubernetes client: "

  /** The error of a failed node deletion, by role. */
  function DeleteFailed(role: string, h: Host): string
  {
    "Failed to delete " + role + " node " + h.address + " from cluster"
  }

  const ControlPlaneRole := "controlplane"
  const WorkerRole := "worker"

  // ----- hosts.GetToDeleteHosts -----

  /** The current hosts no desired host has the address of, in their current order. */
  function ToDelete(current: seq<Host>, desired: seq<Host>): (r: seq<Host>)
    ensures forall h <- r :: h in current
    decreases |current|
  {
    if current == [] then []
    else
      var rest := ToDelete(current[1..], desired);
      if current[0].address in Addresses(desired) then rest else [current[0]] + rest
  }

  /** A host is deleted exactly when it is current and its address is not desired. */
  lemma {:induction false} ToDeleteIsDifference(current: seq<Host>, desired: seq<Host>, h: Host)
    ensures h in ToDelete(current, desired) <==> h in current && h.address !in Addresses(desired)
    decreases |current|
  {
    if current != [] {
      ToDeleteIsDifference(current[1..], desired, h);
      assert current == [current[0]] + current[1..];
    }
  }

  // ----- rebuildLocalAdminConfig -----

  /** The admin config rendered for a control-plane host (pki.GetKubeConfigX509WithData with the cluster's certificates). */
  function ConfigFor(render: string -> string, h: Host): string
  {
    render(ServerURL(h.address))
  }

  /** Deploying the admin config for `h`, then checking the API through it. */
  function Attempt(render: string -> string, path: string, h: Host): seq<ReconcileCall>
  {
    [DeployAdminConfig(ConfigFor(render, h), path), GetK8sVersion(path)]
  }

  /** What trying `hosts` in turn issues, when each one's deploy passes and its version check fails. */
  function Visits(render: string -> string, path: string, hosts: seq<Host>): (r: seq<ReconcileCall>)
    ensures |r| == 2 * |hosts|
    decreases |hosts|
  {
    if hosts == [] then [] else Attempt(render, path, hosts[0]) + Visits(render, path, hosts[1..])
  }

  /**
   * The loop of rebuildLocalAdminConfig over `hosts` with `working` the config so far: deploy each
   * host's config, failing if that fails; it becomes the working config, and a version check that
   * passes ends the loop. The result is the run and the working config at its end.
   */
  function RebuildLoop(world: World<ReconcileCall>, done: seq<ReconcileCall>, render: string -> string, path: string,
                       hosts: seq<Host>, working: string): (Exec<ReconcileCall>, string)
    decreases |hosts|
  {
    if hosts == [] then (Exec([], Pass), working)
    else
      var config := ConfigFor(render, hosts[0]);
      var deploy := DeployAdminConfig(config, path);
      if world(done, deploy).Fail? then (Exec([deploy], Fail(RedeployFailed)), working)
      else if world(done + [deploy], GetK8sVersion(path)).Pass? then (Exec([deploy, GetK8sVersion(path)], Pass), config)
      else
        var rest := RebuildLoop(world, done + [deploy, GetK8sVersion(path)], render, path, hosts[1..], config);
        (After([deploy, GetK8sVersion(path)], rest.0), rest.1)
  }

  /** The answer to the version check of the `j`-th host, once the hosts before it were tried. */
  function Probe(world: World<ReconcileCall>, done: seq<ReconcileCall>, render: string -> string, path: string,
                 hosts: seq<Host>, j: nat): Outcome
    requires j < |hosts|
  {
    world(done + Visits(render, path, hosts[..j]) + [DeployAdminConfig(ConfigFor(render, hosts[j]), path)],
          GetK8sVersion(path))
  }

  /** Trying the first `n + 1` hosts is trying the first one, then `n` of the rest. */
  lemma VisitsCons(render: string -> string, path: string, hosts: seq<Host>, n: nat)
    requires n < |hosts|
    ensures Visits(render, path, hosts[..n + 1]) == Attempt(render, path, hosts[0]) + Visits(render, path, hosts[1..][..n])
  {
    var s := hosts[..n + 1];
    assert s[0] == hosts[0];
    assert s[1..] == hosts[1..][..n];
  }

  /** The first host's version check follows its deploy. */
  lemma ProbeFirst(world: World<ReconcileCall>, done: seq<ReconcileCall>, render: string -> string, path: string,
                   hosts: seq<Host>)
    requires hosts != []
    ensures Probe(world, done, render, path, hosts, 0) ==
      world(done + [DeployAdminConfig(ConfigFor(render, hosts[0]), path)], GetK8sVersion(path))
  {
    assert Visits(render, path, hosts[..0]) == [] by {
      assert hosts[..0] == [];
    }
    assert done + [] == done;
  }

  /** Probing the rest after one failed check is probing the whole list one further on. */
  lemma ProbeShift(world: World<ReconcileCall>, done: seq<ReconcileCall>, render: string -> string, path: string,
                   hosts: seq<Host>, j: nat)
    requires 1 <= j < |hosts|
    ensures Probe(world, done, render, path, hosts, j) ==
      Probe(world, done + Attempt(render, path, hosts[0]), render, path, hosts[1..], j - 1)
  {
    VisitsCons(render, path, hosts, j - 1);
    assert hosts[1..][j - 1] == hosts[j];
    var a := Attempt(render, path, hosts[0]);
    var v := Visits(render, path, hosts[1..][..j - 1]);
    assert done + (a + v) == done + a + v;
  }

  /** rebuildLocalAdminConfig fails only when a deploy fails, and then with its own message. */
  lemma {:induction false} RebuildFailsOnDeploy(world: World<ReconcileCall>, done: seq<ReconcileCall>,
                                                render: string -> string, path: string, hosts: seq<Host>, working: string)
    requires RebuildLoop(world, done, render, path, hosts, working).0.outcome.Fail?
    ensures var e := RebuildLoop(world, done, render, path, hosts, working).0;
      && e.outcome == Fail(RedeployFailed) && LastFailed(world, done, e)
      && e.issued[|e.issued| - 1].DeployAdminConfig?
    decreases |hosts|
  {
    var e := RebuildLoop(world, done, render, path, hosts, working).0;
    var deploy := DeployAdminConfig(ConfigFor(render, hosts[0]), path);
    if world(done, deploy).Fail? {
      assert done + e.issued[..0] == done;
    } else {
      var pair := Attempt(render, path, hosts[0]);
      RebuildFailsOnDeploy(world, done + pair, render, path, hosts[1..], ConfigFor(render, hosts[0]));
      var rest := RebuildLoop(world, done + pair, render, path, hosts[1..], ConfigFor(render, hosts[0])).0;
      LastFailedAfter(world, done, pair, rest);
      AfterLast(pair, rest);
    }
  }

  /** How many hosts a run of the rebuild loop tried: two calls for each. */
  function Tried(e: Exec<ReconcileCall>): nat
  {
    |e.issued| / 2
  }

  /**
   * When rebuildLocalAdminConfig passes over some hosts, it tried the first `k` of them in order
   * (k = Tried), deploying and checking each, and the config kept is the `k`-th host's.
   */
  lemma {:induction false} RebuildTriesPrefix(world: World<ReconcileCall>, done: seq<ReconcileCall>,
                                              render: string -> string, path: string, hosts: seq<Host>, working: string)
    requires hosts != [] && RebuildLoop(world, done, render, path, hosts, working).0.outcome.Pass?
    ensures var r := RebuildLoop(world, done, render, path, hosts, working);
      && 1 <= Tried(r.0) <= |hosts| && r.0.issued == Visits(render, path, hosts[..Tried(r.0)])
      && r.1 == ConfigFor(render, hosts[Tried(r.0) - 1])
    decreases |hosts|
  {
    var r := RebuildLoop(world, done, render, path, hosts, working);
    var config := ConfigFor(render, hosts[0]);
    var pair := Attempt(render, path, hosts[0]);
    var rest := RebuildLoop(world, done + pair, render, path, hosts[1..], config);
    if world(done + [DeployAdminConfig(config, path)], GetK8sVersion(path)).Pass? || hosts[1..] == [] {
      assert pair + [] == pair;
      assert r == (Exec(pair, Pass), config);
      VisitsCons(render, path, hosts, 0);
      assert hosts[1..][..0] == [];
    } else {
      assert r == (After(pair, rest.0), rest.1);
      RebuildTriesPrefix(world, done + pair, render, path, hosts[1..], config);
      var k1 := Tried(rest.0);
      assert Tried(r.0) == k1 + 1;
      VisitsCons(render, path, hosts, k1);
      assert hosts[1..][k1 - 1] == hosts[k1];
    }
  }

  /**
   * When rebuildLocalAdminConfig passes over some hosts, the version check of every host it
   * tried before the last one failed, and the last one's passed unless no host was left untried:
   * it keeps the config of the first host whose API answers.
   */
  lemma {:induction false} RebuildChoosesFirstWorking(world: World<ReconcileCall>, done: seq<ReconcileCall>,
                                                      render: string -> string, path: string, hosts: seq<Host>, working: string)
    requires hosts != [] && RebuildLoop(world, done, render, path, hosts, working).0.outcome.Pass?
    ensures var k := Tried(RebuildLoop(world, done, render, path, hosts, working).0);
      && 1 <= k <= |hosts|
      && (forall j | 0 <= j < k - 1 :: Probe(world, done, render, path, hosts, j).Fail?)
      && (k < |hosts| ==> Probe(world, done, render, path, hosts, k - 1).Pass?)
    decreases |hosts|
  {
    RebuildTriesPrefix(world, done, render, path, hosts, working);
    var config := ConfigFor(render, hosts[0]);
    ProbeFirst(world, done, render, path, hosts);
    if world(done + [DeployAdminConfig(config, path)], GetK8sVersion(path)).Fail? && hosts[1..] != [] {
      var pair := Attempt(render, path, hosts[0]);
      RebuildChoosesFirstWorking(world, done + pair, render, path, hosts[1..], config);
      var k1 := Tried(RebuildLoop(world, done + pair, render, path, hosts[1..], config).0);
      assert Tried(RebuildLoop(world, done, render, path, hosts, working).0) == k1 + 1;
      forall j | 1 <= j < k1 ensures Probe(world, done, render, path, hosts, j).Fail? {
        ProbeShift(world, done, render, path, hosts, j);
      }
      if k1 + 1 < |hosts| {
        ProbeShift(world, done, render, path, hosts, k1);
      }
    }
  }

  /** The state of the rebuild loop after `calls`, with `working` the config so far and the hosts from `i` on still to go. */
  ghost predicate RebuildingFrom(world: World<ReconcileCall>, done: seq<ReconcileCall>, render: string -> string, path: string,
                                 hosts: seq<Host>, calls: seq<ReconcileCall>, working: string, i: nat)
    requires i <= |hosts|
  {
    var rest := RebuildLoop(world, done + calls, render, path, hosts[i..], working);
    RebuildLoop(world, done, render, path, hosts, "") == (After(calls, rest.0), rest.1)
  }

  /** The rebuild loop starts with every host to go and no config. */
  lemma RebuildingStart(world: World<ReconcileCall>, done: seq<ReconcileCall>, render: string -> string, path: string,
                        hosts: seq<Host>)
    ensures RebuildingFrom(world, done, render, path, hosts, [], "", 0)
  {
    assert hosts[0..] == hosts && done + [] == done;
  }

  /** A host whose deploy fails ends the loop with that call and the redeploy error. */
  lemma RebuildingFails(world: World<ReconcileCall>, done: seq<ReconcileCall>, render: string -> string, path: string,
                        hosts: seq<Host>, calls: seq<ReconcileCall>, working: string, i: nat)
    requires i < |hosts| && RebuildingFrom(world, done, render, path, hosts, calls, working, i)
    requires world(done + calls, DeployAdminConfig(ConfigFor(render, hosts[i]), path)).Fail?
    ensures RebuildLoop(world, done, render, path, hosts, "").0 ==
      Exec(calls + [DeployAdminConfig(ConfigFor(render, hosts[i]), path)], Fail(RedeployFailed))
  {
    assert hosts[i..][0] == hosts[i];
  }

  /** A host whose version check passes ends the loop, keeping its config. */
  lemma RebuildingFound(world: World<ReconcileCall>, done: seq<ReconcileCall>, render: string -> string, path: string,
                        hosts: seq<Host>, calls: seq<ReconcileCall>, working: string, i: nat)
    requires i < |hosts| && RebuildingFrom(world, done, render, path, hosts, calls, working, i)
    requires world(done + calls, DeployAdminConfig(ConfigFor(render, hosts[i]), path)).Pass?
    requires world(done + calls + [DeployAdminConfig(ConfigFor(render, hosts[i]), path)], GetK8sVersion(path)).Pass?
    ensures RebuildLoop(world, done, render, path, hosts, "") ==
      (Exec(calls + Attempt(render, path, hosts[i]), Pass), ConfigFor(render, hosts[i]))
  {
    assert hosts[i..][0] == hosts[i];
  }

  /** A host whose deploy passes and whose version check fails moves the loop on, with its config as the working one. */
  lemma RebuildingAdvance(world: World<ReconcileCall>, done: seq<ReconcileCall>, render: string -> string, path: string,
                          hosts: seq<Host>, calls: seq<ReconcileCall>, working: string, i: nat)
    requires i < |hosts| && RebuildingFrom(world, done, render, path, hosts, calls, working, i)
    requires world(done + calls, DeployAdminConfig(ConfigFor(render, hosts[i]), path)).Pass?
    requires world(done + calls + [DeployAdminConfig(ConfigFor(render, hosts[i]), path)], GetK8sVersion(path)).Fail?
    ensures RebuildingFrom(world, done, render, path, hosts, calls + Attempt(render, path, hosts[i]), ConfigFor(render, hosts[i]), i + 1)
  {
    var pair := Attempt(render, path, hosts[i]);
    var config := ConfigFor(render, hosts[i]);
    assert hosts[i..][0] == hosts[i];
    assert hosts[i..][1..] == hosts[i + 1..];
    AfterAfter(calls, pair, RebuildLoop(world, done + calls + pair, render, path, hosts[i + 1..], config).0);
    assert done + calls + pair == done + (calls + pair);
  }

  /** A loop with no host left keeps its working config and passes. */
  lemma RebuildingEnd(world: World<ReconcileCall>, done: seq<ReconcileCall>, render: string -> string, path: string,
                      hosts: seq<Host>, calls: seq<ReconcileCall>, working: string)
    requires RebuildingFrom(world, done, render, path, hosts, calls, working, |hosts|)
    ensures RebuildLoop(world, done, render, path, hosts, "") == (Exec(calls, Pass), working)
  {
    assert hosts[|hosts|..] == [] && calls + [] == calls;
  }

  // ----- deleting hosts -----

  /** reconcileHostCleaner's steps: reach the host, remove its control plane and worker plane, then clean it. */
  function CleanerPlan(h: Host, image: string): seq<ReconcileCall>
  {
    [TunnelUp(h), RemoveControlPlane(h), RemoveWorkerPlane(h), CleanUp(h, image)]
  }

  /** The prefix reconcileHostCleaner puts on the error of each of its steps. */
  function CleanerPrefix(c: ReconcileCall): string
  {
    match c
    case TunnelUp(_) => "Not able to reach the host: "
    case RemoveControlPlane(_) => "Couldn't remove control plane: "
    case RemoveWorkerPlane(_) => "Couldn't remove worker plane: "
    case _ => "Not able to clean the host: "
  }

  /**
   * Deleting one host: delete its node, failing with the role's message if that fails; otherwise
   * run the cleaner, whose error is only logged.
   */
  function DeleteOne(world: World<ReconcileCall>, done: seq<ReconcileCall>, h: Host, image: string, role: string)
    : Exec<ReconcileCall>
  {
    if world(done, DeleteNode(h)).Fail? then Exec([DeleteNode(h)], Fail(DeleteFailed(role, h)))
    else Exec([DeleteNode(h)] + Run(world, done + [DeleteNode(h)], CleanerPlan(h, image)).issued, Pass)
  }

  /** Deleting `hosts` in turn, stopping at the first node deletion that fails. */
  function DeleteLoop(world: World<ReconcileCall>, done: seq<ReconcileCall>, hosts: seq<Host>, image: string, role: string)
    : Exec<ReconcileCall>
    decreases |hosts|
  {
    if hosts == [] then Exec([], Pass)
    else
      var one := DeleteOne(world, done, hosts[0], image, role);
      if one.outcome.Fail? then one
      else After(one.issued, DeleteLoop(world, done + one.issued, hosts[1..], image, role))
  }

  /** The hosts of the node deletions among `calls`, in order. */
  function Deleted(calls: seq<ReconcileCall>): seq<Host>
    decreases |calls|
  {
    if calls == [] then []
    else (if calls[0].DeleteNode? then [calls[0].host] else []) + Deleted(calls[1..])
  }

  lemma {:induction false} DeletedAppend(a: seq<ReconcileCall>, b: seq<ReconcileCall>)
    ensures Deleted(a + b) == Deleted(a) + Deleted(b)
    decreases |a|
  {
    if a != [] {
      var head: seq<Host> := if a[0].DeleteNode? then [a[0].host] else [];
      assert (a + b)[0] == a[0];
      assert (a + b)[1..] == a[1..] + b;
      DeletedAppend(a[1..], b);
      calc {
        Deleted(a + b);
        head + Deleted(a[1..] + b);
        head + (Deleted(a[1..]) + Deleted(b));
        (head + Deleted(a[1..])) + Deleted(b);
      }
    } else {
      assert a + b == b;
    }
  }

  /** Every cleanup a deletion loop issues uses the loop's image. */
  lemma {:induction false} DeleteLoopCleansWith(world: World<ReconcileCall>, done: seq<ReconcileCall>, hosts: seq<Host>,
                                                image: string, role: string)
    ensures forall c <- DeleteLoop(world, done, hosts, image, role).issued :: c.CleanUp? ==> c.image == image
    decreases |hosts|
  {
    if hosts != [] && world(done, DeleteNode(hosts[0])).Pass? {
      var one := DeleteOne(world, done, hosts[0], image, role);
      CleanerDeletesNothing(world, done + [DeleteNode(hosts[0])], hosts[0], image);
      DeleteLoopCleansWith(world, done + one.issued, hosts[1..], image, role);
    }
  }

  /** Calls that are not node deletions delete nothing. */
  lemma {:induction false} NothingDeleted(calls: seq<ReconcileCall>)
    requires forall c <- calls :: !c.DeleteNode?
    ensures Deleted(calls) == []
    decreases |calls|
  {
    if calls != [] {
      NothingDeleted(calls[1..]);
    }
  }

  /** The cleaner deletes no node, and cleans with the image it was given. */
  lemma CleanerDeletesNothing(world: World<ReconcileCall>, done: seq<ReconcileCall>, h: Host, image: string)
    ensures Deleted(Run(world, done, CleanerPlan(h, image)).issued) == []
    ensures forall c <- Run(world, done, CleanerPlan(h, image)).issued :: c.CleanUp? ==> c.image == image
  {
    RunIssuesFromPlan(world, done, CleanerPlan(h, image));
    NothingDeleted(Run(world, done, CleanerPlan(h, image)).issued);
  }

  /** Deleting hosts deletes every one of them, in order, when it passes, whatever the cleanups answered. */
  lemma {:induction false} DeleteLoopDeletesAll(world: World<ReconcileCall>, done: seq<ReconcileCall>, hosts: seq<Host>,
                                                image: string, role: string)
    ensures var e := DeleteLoop(world, done, hosts, image, role);
      e.outcome.Pass? ==> Deleted(e.issued) == hosts
    decreases |hosts|
  {
    if hosts != [] {
      var h := hosts[0];
      if world(done, DeleteNode(h)).Pass? {
        var one := DeleteOne(world, done, h, image, role);
        var cleaner := Run(world, done + [DeleteNode(h)], CleanerPlan(h, image)).issued;
        CleanerDeletesNothing(world, done + [DeleteNode(h)], h, image);
        DeletedAppend([DeleteNode(h)], cleaner);
        assert Deleted([DeleteNode(h)]) == [h];
        var rest := DeleteLoop(world, done + one.issued, hosts[1..], image, role);
        DeleteLoopDeletesAll(world, done + one.issued, hosts[1..], image, role);
        DeletedAppend(one.issued, rest.issued);
        assert hosts == [h] + hosts[1..];
      }
    }
  }

  /**
   * Deleting hosts fails only on a node deletion that fails: its call is the last one issued, and
   * the returned error names its host and role.
   */
  lemma {:induction false} DeleteLoopFailsOnDelete(world: World<ReconcileCall>, done: seq<ReconcileCall>, hosts: seq<Host>,
                                                   image: string, role: string)
    requires DeleteLoop(world, done, hosts, image, role).outcome.Fail?
    ensures var e := DeleteLoop(world, done, hosts, image, role);
      && LastFailed(world, done, e) && e.issued[|e.issued| - 1].DeleteNode?
      && var h := e.issued[|e.issued| - 1].host;
      && h in hosts && e.outcome == Fail(DeleteFailed(role, h))
    decreases |hosts|
  {
    var h := hosts[0];
    var e := DeleteLoop(world, done, hosts, image, role);
    if world(done, DeleteNode(h)).Fail? {
      assert done + e.issued[..0] == done;
    } else {
      var one := DeleteOne(world, done, h, image, role);
      var rest := DeleteLoop(world, done + one.issued, hosts[1..], image, role);
      DeleteLoopFailsOnDelete(world, done + one.issued, hosts[1..], image, role);
      LastFailedAfter(world, done, one.issued, rest);
      AfterLast(one.issued, rest);
    }
  }

  /** The state of a deletion loop after `calls`, with the hosts from `i` on still to go. */
  ghost predicate DeletingFrom(world: World<ReconcileCall>, done: seq<ReconcileCall>, hosts: seq<Host>, image: string,
                               role: string, calls: seq<ReconcileCall>, i: nat)
    requires i <= |hosts|
  {
    DeleteLoop(world, done, hosts, image, role) == After(calls, DeleteLoop(world, done + calls, hosts[i..], image, role))
  }

  /** A deletion loop starts with every host to go. */
  lemma DeletingStart(world: World<ReconcileCall>, done: seq<ReconcileCall>, hosts: seq<Host>, image: string, role: string)
    ensures DeletingFrom(world, done, hosts, image, role, [], 0)
  {
    assert hosts[0..] == hosts && done + [] == done;
  }

  /** A host whose node deletion passes moves the loop on by its calls. */
  lemma DeletingAdvance(world: World<ReconcileCall>, done: seq<ReconcileCall>, hosts: seq<Host>, image: string,
                        role: string, calls: seq<ReconcileCall>, i: nat)
    requires i < |hosts| && DeletingFrom(world, done, hosts, image, role, calls, i)
    requires world(done + calls, DeleteNode(hosts[i])).Pass?
    ensures DeletingFrom(world, done, hosts, image, role, calls + DeleteOne(world, done + calls, hosts[i], image, role).issued, i + 1)
  {
    var one := DeleteOne(world, done + calls, hosts[i], image, role);
    assert one.outcome.Pass?;
    var rest := DeleteLoop(world, done + calls + one.issued, hosts[i + 1..], image, role);
    assert hosts[i..][0] == hosts[i];
    assert hosts[i..][1..] == hosts[i + 1..];
    assert DeleteLoop(world, done + calls, hosts[i..], image, role) == After(one.issued, rest);
    AfterAfter(calls, one.issued, rest);
    assert done + calls + one.issued == done + (calls + one.issued);
  }

  /** A host whose node deletion fails ends the loop with that call and the role's error. */
  lemma DeletingFails(world: World<ReconcileCall>, done: seq<ReconcileCall>, hosts: seq<Host>, image: string,
                      role: string, calls: seq<ReconcileCall>, i: nat)
    requires i < |hosts| && DeletingFrom(world, done, hosts, image, role, calls, i)
    requires world(done + calls, DeleteNode(hosts[i])).Fail?
    ensures DeleteLoop(world, done, hosts, image, role) == Exec(calls + [DeleteNode(hosts[i])], Fail(DeleteFailed(role, hosts[i])))
  {
    assert hosts[i..][0] == hosts[i];
  }

  /** A loop with no host left has issued all its calls and passed. */
  lemma DeletingEnd(world: World<ReconcileCall>, done: seq<ReconcileCall>, hosts: seq<Host>, image: string,
                    role: string, calls: seq<ReconcileCall>)
    requires DeletingFrom(world, done, hosts, image, role, calls, |hosts|)
    ensures DeleteLoop(world, done, hosts, image, role) == Exec(calls, Pass)
  {
    assert hosts[|hosts|..] == [] && calls + [] == calls;
  }

  // ----- ReconcileCluster -----

  /** ReconcileCluster once the admin config has been rebuilt with the calls `rebuild`: client, then deletions. */
  function AfterRebuild(world: World<ReconcileCall>, done: seq<ReconcileCall>, path: string, rebuild: seq<ReconcileCall>,
                        desiredCP: seq<Host>, desiredWorkers: seq<Host>, current: CurrentCluster): (r: Exec<ReconcileCall>)
    ensures |r.issued| > |rebuild| && r.issued[..|rebuild| + 1] == rebuild + [NewKubeClient(path)]
  {
    var client := world(done + rebuild, NewKubeClient(path));
    if client.Fail? then Exec(rebuild + [NewKubeClient(path)], Fail(ClientFailed + client.error))
    else
      var d := rebuild + [NewKubeClient(path)];
      var cp := DeleteLoop(world, done + d, ToDelete(current.controlPlaneHosts, desiredCP),
                           Lookup(current.rkeImages, "alpine"), ControlPlaneRole);
      if cp.outcome.Fail? then After(d, cp)
      else
        After(d + cp.issued, DeleteLoop(world, done + d + cp.issued, ToDelete(current.workerHosts, desiredWorkers),
                                        Lookup(current.rkeImages, "apline"), WorkerRole))
  }

  /**
   * ReconcileCluster against the previous cluster `current` (None for a new cluster): nothing for
   * a new cluster; otherwise rebuild the admin config over the desired control-plane hosts, make a
   * client, and delete the hosts no longer wanted.
   */
  function ReconcileSpec(world: World<ReconcileCall>, done: seq<ReconcileCall>, render: string -> string, path: string,
                         desiredCP: seq<Host>, desiredWorkers: seq<Host>, current: Option<CurrentCluster>): Exec<ReconcileCall>
  {
    if current.None? then Exec([], Pass)
    else
      var rebuild := RebuildLoop(world, done, render, path, desiredCP, "").0;
      if rebuild.outcome.Fail? then rebuild
      else AfterRebuild(world, done, path, rebuild.issued, desiredCP, desiredWorkers, current.value)
  }

  /** The rebuild's calls delete no node. */
  lemma {:induction false} VisitsDeleteNothing(render: string -> string, path: string, hosts: seq<Host>)
    ensures Deleted(Visits(render, path, hosts)) == []
    decreases |hosts|
  {
    if hosts != [] {
      VisitsDeleteNothing(render, path, hosts[1..]);
      var pair := Attempt(render, path, hosts[0]);
      DeletedAppend(pair, Visits(render, path, hosts[1..]));
      NothingDeleted(pair);
    }
  }

  /** Once the client is made, the deletions are those of the two loops, control-plane hosts first. */
  lemma AfterRebuildDeletes(world: World<ReconcileCall>, done: seq<ReconcileCall>, path: string, rebuild: seq<ReconcileCall>,
                            desiredCP: seq<Host>, desiredWorkers: seq<Host>, current: CurrentCluster)
    requires Deleted(rebuild) == []
    ensures var e := AfterRebuild(world, done, path, rebuild, desiredCP, desiredWorkers, current);
      e.outcome.Pass? ==>
        Deleted(e.issued) == ToDelete(current.controlPlaneHosts, desiredCP) + ToDelete(current.workerHosts, desiredWorkers)
  {
    var e := AfterRebuild(world, done, path, rebuild, desiredCP, desiredWorkers, current);
    var d := rebuild + [NewKubeClient(path)];
    var cpHosts := ToDelete(current.controlPlaneHosts, desiredCP);
    var cp := DeleteLoop(world, done + d, cpHosts, Lookup(current.rkeImages, "alpine"), ControlPlaneRole);
    if world(done + rebuild, NewKubeClient(path)).Pass? && cp.outcome.Pass? {
      var wkHosts := ToDelete(current.workerHosts, desiredWorkers);
      var wk := DeleteLoop(world, done + d + cp.issued, wkHosts, Lookup(current.rkeImages, "apline"), WorkerRole);
      assert e == After(d + cp.issued, wk);
      DeleteLoopDeletesAll(world, done + d, cpHosts, Lookup(current.rkeImages, "alpine"), ControlPlaneRole);
      DeleteLoopDeletesAll(world, done + d + cp.issued, wkHosts, Lookup(current.rkeImages, "apline"), WorkerRole);
      DeletedAppend(rebuild, [NewKubeClient(path)]);
      NothingDeleted([NewKubeClient(path)]);
      DeletedAppend(d, cp.issued);
      assert Deleted(d + cp.issued) == cpHosts;
      DeletedAppend(d + cp.issued, wk.issued);
    }
  }

  /**
   * A reconcile that passes deletes exactly the control-plane hosts no longer wanted, then the
   * worker hosts no longer wanted, each in its recorded order; a new cluster issues nothing.
   */
  lemma ReconcileDeletes(world: World<ReconcileCall>, done: seq<ReconcileCall>, render: string -> string, path: string,
                         desiredCP: seq<Host>, desiredWorkers: seq<Host>, current: Option<CurrentCluster>)
    ensures var e := ReconcileSpec(world, done, render, path, desiredCP, desiredWorkers, current);
      && (current.None? ==> e == Exec([], Pass))
      && (current.Some? && e.outcome.Pass? ==>
            Deleted(e.issued) == ToDelete(current.value.controlPlaneHosts, desiredCP) + ToDelete(current.value.workerHosts, desiredWorkers))
  {
    if current.Some? {
      var rebuild := RebuildLoop(world, done, render, path, desiredCP, "").0;
      if rebuild.outcome.Pass? {
        if desiredCP == [] {
          assert rebuild.issued == [];
        } else {
          RebuildTriesPrefix(world, done, render, path, desiredCP, "");
          VisitsDeleteNothing(render, path, desiredCP[..Tried(rebuild)]);
        }
        AfterRebuildDeletes(world, done, path, rebuild.issued, desiredCP, desiredWorkers, current.value);
      }
    }
  }

  /** A deletion loop that fails after the calls `d` ends the whole run on a failed node deletion. */
  lemma DeletePhaseFails(world: World<ReconcileCall>, done: seq<ReconcileCall>, d: seq<ReconcileCall>,
                         hosts: seq<Host>, image: string, role: string)
    requires DeleteLoop(world, done + d, hosts, image, role).outcome.Fail?
    ensures var e := After(d, DeleteLoop(world, done + d, hosts, image, role));
      LastFailed(world, done, e) && e.issued[|e.issued| - 1].DeleteNode?
  {
    var l := DeleteLoop(world, done + d, hosts, image, role);
    DeleteLoopFailsOnDelete(world, done + d, hosts, image, role);
    LastFailedAfter(world, done, d, l);
    AfterLast(d, l);
  }

  /** Once the admin config is rebuilt, reconciling fails only on the client or on a node deletion, as its last call. */
  lemma AfterRebuildFailsOnlyOn(world: World<ReconcileCall>, done: seq<ReconcileCall>, path: string, rebuild: seq<ReconcileCall>,
                                desiredCP: seq<Host>, desiredWorkers: seq<Host>, c: CurrentCluster)
    requires AfterRebuild(world, done, path, rebuild, desiredCP, desiredWorkers, c).outcome.Fail?
    ensures var e := AfterRebuild(world, done, path, rebuild, desiredCP, desiredWorkers, c);
      && LastFailed(world, done, e)
      && var last := e.issued[|e.issued| - 1];
      && (last.NewKubeClient? || last.DeleteNode?)
  {
    var e := AfterRebuild(world, done, path, rebuild, desiredCP, desiredWorkers, c);
    var d := rebuild + [NewKubeClient(path)];
    var cpHosts := ToDelete(c.controlPlaneHosts, desiredCP);
    var cp := DeleteLoop(world, done + d, cpHosts, Lookup(c.rkeImages, "alpine"), ControlPlaneRole);
    if world(done + rebuild, NewKubeClient(path)).Fail? {
      assert e.issued[..|e.issued| - 1] == rebuild;
    } else if cp.outcome.Fail? {
      DeletePhaseFails(world, done, d, cpHosts, Lookup(c.rkeImages, "alpine"), ControlPlaneRole);
    } else {
      var wkHosts := ToDelete(c.workerHosts, desiredWorkers);
      assert done + d + cp.issued == done + (d + cp.issued);
      DeletePhaseFails(world, done, d + cp.issued, wkHosts, Lookup(c.rkeImages, "apline"), WorkerRole);
    }
  }

  /**
   * A reconcile fails only on a call that failed and is the last one issued: an admin config
   * deploy, the client, or a node deletion. A cleanup that fails never fails the reconcile.
   */
  lemma ReconcileFailsOnlyOn(world: World<ReconcileCall>, done: seq<ReconcileCall>, render: string -> string, path: string,
                             desiredCP: seq<Host>, desiredWorkers: seq<Host>, current: Option<CurrentCluster>)
    requires ReconcileSpec(world, done, render, path, desiredCP, desiredWorkers, current).outcome.Fail?
    ensures var e := ReconcileSpec(world, done, render, path, desiredCP, desiredWorkers, current);
      && LastFailed(world, done, e)
      && var last := e.issued[|e.issued| - 1];
      && (last.DeployAdminConfig? || last.NewKubeClient? || last.DeleteNode?)
  {
    var rebuild := RebuildLoop(world, done, render, path, desiredCP, "").0;
    if rebuild.outcome.Fail? {
      RebuildFailsOnDeploy(world, done, render, path, desiredCP, "");
    } else {
      AfterRebuildFailsOnlyOn(world, done, path, rebuild.issued, desiredCP, desiredWorkers, current.value);
    }
  }

  /**
   * reconcileHostCleaner: reach the host, remove its control plane and its worker plane, and clean
   * it with `image`, stopping at the first step that fails and returning its error behind that
   * step's prefix. The `worker` flag of the source changes nothing.
   */
  method ReconcileHostCleaner(world: World<ReconcileCall>, done: seq<ReconcileCall>, h: Host, image: string)
    returns (err: Outcome, calls: seq<ReconcileCall>)
    ensures var e := Run(world, done, CleanerPlan(h, image));
      && calls == e.issued && (err.Pass? <==> e.outcome.Pass?)
      && (err.Fail? ==> err == Fail(CleanerPrefix(calls[|calls| - 1]) + e.outcome.error))
  {
    RunFour(world, done, TunnelUp(h), RemoveControlPlane(h), RemoveWorkerPlane(h), CleanUp(h, image));
    var o := world(done, TunnelUp(h));
    if o.Fail? {
      return Fail("Not able to reach the host: " + o.error), [TunnelUp(h)];
    }
    o := world(done + [TunnelUp(h)], RemoveControlPlane(h));
    if o.Fail? {
      return Fail("Couldn't remove control plane: " + o.error), [TunnelUp(h), RemoveControlPlane(h)];
    }
    o := world(done + [TunnelUp(h), RemoveControlPlane(h)], RemoveWorkerPlane(h));
    if o.Fail? {
      return Fail("Couldn't remove worker plane: " + o.error), [TunnelUp(h), RemoveControlPlane(h), RemoveWorkerPlane(h)];
    }
    calls := CleanerPlan(h, image);
    o := world(done + [TunnelUp(h), RemoveControlPlane(h), RemoveWorkerPlane(h)], CleanUp(h, image));
    if o.Fail? {
      return Fail("Not able to clean the host: " + o.error), calls;
    }
    err := Pass;
  }

  /**
   * One of ReconcileCluster's deletion loops: for each host, delete its node, returning the role's
   * error if that fails, then run the cleaner and only log its error.
   */
  method DeleteHosts(world: World<ReconcileCall>, done: seq<ReconcileCall>, hosts: seq<Host>, image: string, role: string)
    returns (err: Outcome, calls: seq<ReconcileCall>)
    ensures Exec(calls, err) == DeleteLoop(world, done, hosts, image, role)
  {
    calls := [];
    DeletingStart(world, done, hosts, image, role);
    for i := 0 to |hosts|
      invariant DeletingFrom(world, done, hosts, image, role, calls, i)
    {
      var toDeleteHost := hosts[i];
      if world(done + calls, DeleteNode(toDeleteHost)).Fail? {
        DeletingFails(world, done, hosts, image, role, calls, i);
        return Fail(DeleteFailed(role, toDeleteHost)), calls + [DeleteNode(toDeleteHost)];
      }
      var cleanErr, cleanCalls := ReconcileHostCleaner(world, done + calls + [DeleteNode(toDeleteHost)], toDeleteHost, image);
      DeletingAdvance(world, done, hosts, image, role, calls, i);
      calls := calls + ([DeleteNode(toDeleteHost)] + cleanCalls);
    }
    DeletingEnd(world, done, hosts, image, role, calls);
    err := Pass;
  }

  /**
   * The part of ReconcileCluster after the admin config was rebuilt with the calls `rebuild`: make
   * a client, then delete the unwanted control-plane hosts, then the unwanted worker hosts.
   */
  method ConnectAndDelete(world: World<ReconcileCall>, done: seq<ReconcileCall>, path: string, rebuild: seq<ReconcileCall>,
                          desiredCP: seq<Host>, desiredWorkers: seq<Host>, current: CurrentCluster)
    returns (err: Outcome, calls: seq<ReconcileCall>)
    ensures Exec(calls, err) == AfterRebuild(world, done, path, rebuild, desiredCP, desiredWorkers, current)
  {
    calls := rebuild + [NewKubeClient(path)];
    var client := world(done + rebuild, NewKubeClient(path));
    if client.Fail? {
      return Fail(ClientFailed + client.error), calls;
    }
    var cpToDelete := ToDelete(current.controlPlaneHosts, desiredCP);
    var cpErr, cpCalls := DeleteHosts(world, done + calls, cpToDelete, Lookup(current.rkeImages, "alpine"), ControlPlaneRole);
    if cpErr.Fail? {
      return cpErr, calls + cpCalls;
    }
    calls := calls + cpCalls;
    var wpToDelete := ToDelete(current.workerHosts, desiredWorkers);
    var wpErr, wpCalls := DeleteHosts(world, done + calls, wpToDelete, Lookup(current.rkeImages, "apline"), WorkerRole);
    assert done + calls == done + (rebuild + [NewKubeClient(path)]) + cpCalls;
    return wpErr, calls + wpCalls;
  }

  /** The cluster being reconciled: its hosts, local kubeconfig path and certificate bundle. */
  class Cluster {
    var controlPlaneHosts: seq<Host>
    var workerHosts: seq<Host>
    var localKubeConfigPath: string
    var certificates: map<string, CertificatePKI>

    constructor (controlPlaneHosts: seq<Host>, workerHosts: seq<Host>, localKubeConfigPath: string,
                 certificates: map<string, CertificatePKI>)
      ensures this.controlPlaneHosts == controlPlaneHosts && this.workerHosts == workerHosts
      ensures this.localKubeConfigPath == localKubeConfigPath && this.certificates == certificates
    {
      this.controlPlaneHosts := controlPlaneHosts;
      this.workerHosts := workerHosts;
      this.localKubeConfigPath := localKubeConfigPath;
      this.certificates := certificates;
    }

    /** The admin entry of the bundle; a missing entry reads as the zero value. */
    function AdminEntry(adminName: string): CertificatePKI
      reads this
    {
      if adminName in certificates then certificates[adminName] else NoCertificate
    }

    /**
     * rebuildLocalAdminConfig: try each control-plane host in turn, deploying its admin config and
     * stopping at the first whose API answers; the bundle's admin entry then holds the last config
     * deployed ("" when there are no control-plane hosts). A failed deploy returns an error and
     * leaves the bundle as it was. `render` builds a config for a server URL from the bundle's
     * CA and admin certificates.
     */
    method RebuildLocalAdminConfig(world: World<ReconcileCall>, done: seq<ReconcileCall>, render: string -> string,
                                   adminName: string)
      returns (err: Outcome, calls: seq<ReconcileCall>)
      modifies this
      ensures var r := RebuildLoop(world, done, render, localKubeConfigPath, controlPlaneHosts, "");
        && Exec(calls, err) == r.0
        && (err.Pass? ==> certificates == old(certificates)[adminName := old(AdminEntry(adminName)).(config := r.1)])
        && (err.Fail? ==> certificates == old(certificates))
      ensures controlPlaneHosts == old(controlPlaneHosts) && workerHosts == old(workerHosts)
      ensures localKubeConfigPath == old(localKubeConfigPath)
    {
      var path := localKubeConfigPath;
      var hosts := controlPlaneHosts;
      var workingConfig := "";
      var currentKubeConfig := AdminEntry(adminName);
      calls := [];
      RebuildingStart(world, done, render, path, hosts);
      for i := 0 to |hosts|
        invariant RebuildingFrom(world, done, render, path, hosts, calls, workingConfig, i)
        invariant controlPlaneHosts == hosts && localKubeConfigPath == path
        invariant certificates == old(certificates) && workerHosts == old(workerHosts)
      {
        var cpHost := hosts[i];
        var newConfig := ConfigFor(render, cpHost);
        var deploy := DeployAdminConfig(newConfig, path);
        if world(done + calls, deploy).Fail? {
          RebuildingFails(world, done, render, path, hosts, calls, workingConfig, i);
          return Fail(RedeployFailed), calls + [deploy];
        }
        var version := world(done + calls + [deploy], GetK8sVersion(path));
        if version.Pass? {
          RebuildingFound(world, done, render, path, hosts, calls, workingConfig, i);
          calls := calls + Attempt(render, path, cpHost);
          workingConfig := newConfig;
          break;
        }
        RebuildingAdvance(world, done, render, path, hosts, calls, workingConfig, i);
        calls := calls + Attempt(render, path, cpHost);
        workingConfig := newConfig;
        if i == |hosts| - 1 {
          RebuildingEnd(world, done, render, path, hosts, calls, workingConfig);
        }
      }
      currentKubeConfig := currentKubeConfig.(config := workingConfig);
      certificates := certificates[adminName := currentKubeConfig];
      err := Pass;
    }

    /**
     * ReconcileCluster against the previous cluster `current` (None for a new cluster): rebuild
     * the local admin config, make a client, then delete the control-plane hosts no longer wanted
     * (cleaned with the image under "alpine") and the worker hosts no longer wanted (cleaned with
     * the image under "apline"), stopping at the first error other than a cleanup's.
     */
    method ReconcileCluster(world: World<ReconcileCall>, done: seq<ReconcileCall>, render: string -> string,
                            adminName: string, current: Option<CurrentCluster>)
      returns (err: Outcome, calls: seq<ReconcileCall>)
      modifies this
      ensures Exec(calls, err) ==
        ReconcileSpec(world, done, render, localKubeConfigPath, controlPlaneHosts, workerHosts, current)
      ensures current.None? ==> certificates == old(certificates)
      ensures current.Some? ==>
        var r := RebuildLoop(world, done, render, localKubeConfigPath, controlPlaneHosts, "");
        && (r.0.outcome.Pass? ==> certificates == old(certificates)[adminName := old(AdminEntry(adminName)).(config := r.1)])
        && (r.0.outcome.Fail? ==> certificates == old(certificates))
      ensures controlPlaneHosts == old(controlPlaneHosts) && workerHosts == old(workerHosts)
      ensures localKubeConfigPath == old(localKubeConfigPath)
    {
      if current.None? {
        return Pass, [];
      }
      var rebuildErr, rebuildCalls := RebuildLocalAdminConfig(world, done, render, adminName);
      if rebuildErr.Fail? {
        return rebuildErr, rebuildCalls;
      }
      err, calls := ConnectAndDelete(world, done, localKubeConfigPath, rebuildCalls, controlPlaneHosts, workerHosts, current.value);
    }
  }
}

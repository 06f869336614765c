/**
 * Etcd snapshots (cluster/etcd.go): saving a snapshot on every etcd host, and restoring one only
 * after every host reports the same snapshot checksum.
 */
module Etcd {
  import opened Wrappers
  import opened Steps
  import opened Hosts

  /** The remote calls the snapshot code makes, each naming its host and the container image it runs. */
  datatype EtcdCall =
    | SnapshotSave(host: Host, image: string, name: string)
    | SnapshotChecksum(host: Host, image: string, path: string)
    | DownloadSnapshot(host: Host, image: string, path: string)
    | RestoreSnapshot(host: Host, image: string, path: string, initialCluster: string)

  /** The checksum a successful checksum call reports, given the calls issued before it. */
  type Checksums = (seq<EtcdCall>, EtcdCall) -> string

  /** The S3 part of the etcd backup settings (S3BackupBackend). */
  datatype S3BackupBackend = S3BackupBackend(
    accessKey: string, secretKey: string, bucketName: string, region: string, endpoint: string)

  /** The etcd backup settings (BackupBackend); both levels may be nil. */
  datatype BackupBackend = BackupBackend(name: string, s3BackupBackend: Option<S3BackupBackend>)

  /** What the snapshot code reads from the cluster. */
  datatype EtcdCluster = EtcdCluster(
    etcdHosts: seq<Host>,
    alpineImage: string,
    etcdImage: string,
    backupBackend: Option<BackupBackend>)

  const NotConsistent := "etcd snapshots are not consistent"
  const RestoreFailed := "[etcd] Failed to restore etcd snapshot: "

  /** The snapshots are downloaded from S3 only when both backup levels are set. */
  predicate FromS3(c: EtcdCluster)
  {
    c.backupBackend.Some? && c.backupBackend.value.s3BackupBackend.Some?
  }

  function SavePlan(c: EtcdCluster, name: string): (p: seq<EtcdCall>)
    ensures |p| == |c.etcdHosts|
    ensures forall i | 0 <= i < |p| :: p[i] == SnapshotSave(c.etcdHosts[i], c.alpineImage, name)
  {
    seq(|c.etcdHosts|, i requires 0 <= i < |c.etcdHosts| => SnapshotSave(c.etcdHosts[i], c.alpineImage, name))
  }

  function ChecksumPlan(c: EtcdCluster, path: string): (p: seq<EtcdCall>)
    ensures |p| == |c.etcdHosts|
    ensures forall i | 0 <= i < |p| :: p[i] == SnapshotChecksum(c.etcdHosts[i], c.alpineImage, path)
  {
    seq(|c.etcdHosts|, i requires 0 <= i < |c.etcdHosts| => SnapshotChecksum(c.etcdHosts[i], c.alpineImage, path))
  }

  function DownloadPlan(c: EtcdCluster, path: string): (p: seq<EtcdCall>)
    ensures |p| == |c.etcdHosts|
    ensures forall i | 0 <= i < |p| :: p[i] == DownloadSnapshot(c.etcdHosts[i], c.alpineImage, path)
  {
    seq(|c.etcdHosts|, i requires 0 <= i < |c.etcdHosts| => DownloadSnapshot(c.etcdHosts[i], c.alpineImage, path))
  }

  function RestorePlan(c: EtcdCluster, path: string, initialCluster: string): (p: seq<EtcdCall>)
    ensures |p| == |c.etcdHosts|
    ensures forall i | 0 <= i < |p| :: p[i] == RestoreSnapshot(c.etcdHosts[i], c.etcdImage, path, initialCluster)
  {
    seq(|c.etcdHosts|, i requires 0 <= i < |c.etcdHosts| =>
      RestoreSnapshot(c.etcdHosts[i], c.etcdImage, path, initialCluster))
  }

  /** The checksum reported by the i-th call of `plan`, issued after `done` and the calls before it. */
  function SumAt(sums: Checksums, done: seq<EtcdCall>, plan: seq<EtcdCall>, i: nat): string
    requires i < |plan|
  {
    sums(done + plan[..i], plan[i])
  }

  /**
   * The checksum gate: every host's checksum fetch succeeds and every checksum equals the first
   * host's.
   */
  ghost predicate Consistent(world: World<EtcdCall>, sums: Checksums, done: seq<EtcdCall>, c: EtcdCluster,
                             path: string)
    requires |c.etcdHosts| >= 1
  {
    var plan := ChecksumPlan(c, path);
    AllPass(world, done, plan) && SumsAgree(sums, done, plan)
  }

  /** Every call of `plan` reports the same checksum as the first. */
  predicate SumsAgree(sums: Checksums, done: seq<EtcdCall>, plan: seq<EtcdCall>)
    requires |plan| >= 1
  {
    forall i | 0 <= i < |plan| :: SumAt(sums, done, plan, i) == SumAt(sums, done, plan, 0)
  }

  /** The calls the checksum gate issues: every fetch up to and including the first that fails. */
  function GateCalls(world: World<EtcdCall>, done: seq<EtcdCall>, c: EtcdCluster, path: string): seq<EtcdCall>
  {
    Run(world, done, ChecksumPlan(c, path)).issued
  }

  /** The calls and error of restoring the snapshot at `path`, as the whole sequence is specified. */
  ghost function RestoreSpec(world: World<EtcdCall>, sums: Checksums, done: seq<EtcdCall>, c: EtcdCluster, path: string,
                             initialCluster: seq<Host> -> string): Exec<EtcdCall>
    requires |c.etcdHosts| >= 1
  {
    var gate := GateCalls(world, done, c, path);
    if !Consistent(world, sums, done, c, path) then Exec(gate, Fail(NotConsistent))
    else
      var download := if FromS3(c) then Run(world, done + gate, DownloadPlan(c, path)) else Exec([], Pass);
      if download.outcome.Fail? then Exec(gate + download.issued, download.outcome)
      else
        var restore := Run(world, done + gate + download.issued,
                           RestorePlan(c, path, initialCluster(c.etcdHosts)));
        Exec(gate + download.issued + restore.issued,
             if restore.outcome.Pass? then Pass else Fail(RestoreFailed + restore.outcome.error))
  }

  /** Save a snapshot named `name` on every etcd host in order, stopping at the first error. */
  method SnapshotEtcd(world: World<EtcdCall>, done: seq<EtcdCall>, c: EtcdCluster, name: string)
    returns (err: Outcome, calls: seq<EtcdCall>)
    ensures Exec(calls, err) == Run(world, done, SavePlan(c, name))
  {
    var plan := SavePlan(c, name);
    calls := [];
    for i := 0 to |c.etcdHosts|
      invariant calls == plan[..i]
      invariant Run(world, done, calls) == Exec(calls, Pass)
    {
      var call := SnapshotSave(c.etcdHosts[i], c.alpineImage, name);
      RunSnoc(world, done, calls, call);
      var r := world(done + calls, call);
      calls := calls + [call];
      assert calls == plan[..i + 1];
      if r.Fail? {
        RunFailedPrefix(world, done, plan, i + 1);
        return r, calls;
      }
    }
    assert plan[..|c.etcdHosts|] == plan;
    return Pass, calls;
  }

  /**
   * The first loop of the checksum gate: fetch the snapshot checksum from every etcd host in
   * order, giving up at the first fetch error.
   */
  method FetchChecksums(world: World<EtcdCall>, sums: Checksums, done: seq<EtcdCall>, c: EtcdCluster, path: string)
    returns (fetched: bool, checksums: seq<string>, calls: seq<EtcdCall>)
    ensures calls == GateCalls(world, done, c, path)
    ensures fetched <==> AllPass(world, done, ChecksumPlan(c, path))
    ensures fetched ==> |checksums| == |c.etcdHosts|
    ensures fetched ==> forall k | 0 <= k < |checksums| :: checksums[k] == SumAt(sums, done, ChecksumPlan(c, path), k)
  {
    var plan := ChecksumPlan(c, path);
    checksums := [];
    calls := [];
    for i := 0 to |c.etcdHosts|
      invariant calls == plan[..i]
      invariant Run(world, done, calls) == Exec(calls, Pass)
      invariant |checksums| == i
      invariant forall k | 0 <= k < i :: SumAt(sums, done, plan, k) == checksums[k]
    {
      var call := SnapshotChecksum(c.etcdHosts[i], c.alpineImage, path);
      RunSnoc(world, done, calls, call);
      var r := world(done + calls, call);
      var checksum := sums(done + calls, call);
      calls := calls + [call];
      assert calls == plan[..i + 1];
      if r.Fail? {
        RunFailedPrefix(world, done, plan, i + 1);
        FailedCallBreaksAllPass(world, done, plan, i);
        return false, checksums, calls;
      }
      checksums := checksums + [checksum];
    }
    assert plan[..|c.etcdHosts|] == plan;
    RunShape(world, done, plan);
    return true, checksums, calls;
  }

  /**
   * The checksum gate: fetch every etcd host's snapshot checksum, then compare them with the
   * first host's. The source indexes the first checksum unconditionally, so there must be an
   * etcd host.
   */
  method EtcdSnapshotChecksum(world: World<EtcdCall>, sums: Checksums, done: seq<EtcdCall>, c: EtcdCluster, path: string)
    returns (isEqual: bool, calls: seq<EtcdCall>)
    requires |c.etcdHosts| >= 1
    ensures isEqual <==> Consistent(world, sums, done, c, path)
    ensures calls == GateCalls(world, done, c, path)
  {
    var fetched, checksums;
    fetched, checksums, calls := FetchChecksums(world, sums, done, c, path);
    if !fetched {
      return false, calls;
    }
    var hostChecksum := checksums[0];
    for j := 0 to |checksums|
      invariant forall k | 0 <= k < j :: checksums[k] == hostChecksum
    {
      if checksums[j] != hostChecksum {
        return false, calls;
      }
    }
    return true, calls;
  }

  /** Download the snapshot from S3 on every etcd host in order, stopping at the first error. */
  method DownloadSnapshots(world: World<EtcdCall>, done: seq<EtcdCall>, c: EtcdCluster, path: string)
    returns (err: Outcome, calls: seq<EtcdCall>)
    ensures Exec(calls, err) == Run(world, done, DownloadPlan(c, path))
  {
    var plan := DownloadPlan(c, path);
    calls := [];
    for i := 0 to |c.etcdHosts|
      invariant calls == plan[..i]
      invariant Run(world, done, calls) == Exec(calls, Pass)
    {
      var call := DownloadSnapshot(c.etcdHosts[i], c.alpineImage, path);
      RunSnoc(world, done, calls, call);
      var r := world(done + calls, call);
      calls := calls + [call];
      assert calls == plan[..i + 1];
      if r.Fail? {
        RunFailedPrefix(world, done, plan, i + 1);
        return r, calls;
      }
    }
    assert plan[..|c.etcdHosts|] == plan;
    return Pass, calls;
  }

  /** Restore the snapshot on every etcd host in order, stopping at the first error (not yet wrapped). */
  method RestoreHosts(world: World<EtcdCall>, done: seq<EtcdCall>, c: EtcdCluster, path: string, initCluster: string)
    returns (err: Outcome, calls: seq<EtcdCall>)
    ensures Exec(calls, err) == Run(world, done, RestorePlan(c, path, initCluster))
  {
    var plan := RestorePlan(c, path, initCluster);
    calls := [];
    for i := 0 to |c.etcdHosts|
      invariant calls == plan[..i]
      invariant Run(world, done, calls) == Exec(calls, Pass)
    {
      var call := RestoreSnapshot(c.etcdHosts[i], c.etcdImage, path, initCluster);
      RunSnoc(world, done, calls, call);
      var r := world(done + calls, call);
      calls := calls + [call];
      assert calls == plan[..i + 1];
      if r.Fail? {
        RunFailedPrefix(world, done, plan, i + 1);
        return r, calls;
      }
    }
    assert plan[..|c.etcdHosts|] == plan;
    return Pass, calls;
  }

  /**
   * Restore the snapshot at `path`: the checksum gate, then the S3 downloads when configured,
   * then a restore on every etcd host with the same initial-cluster string, whose first error is
   * wrapped. `initialCluster` stands for services.GetEtcdInitialCluster.
   */
  method RestoreEtcdSnapshot(world: World<EtcdCall>, sums: Checksums, done: seq<EtcdCall>, c: EtcdCluster,
                             path: string, initialCluster: seq<Host> -> string)
    returns (err: Outcome, calls: seq<EtcdCall>)
    requires |c.etcdHosts| >= 1
    ensures Exec(calls, err) == RestoreSpec(world, sums, done, c, path, initialCluster)
  {
    var isEqual, gate := EtcdSnapshotChecksum(world, sums, done, c, path);
    if !isEqual {
      return Fail(NotConsistent), gate;
    }
    var downloads: seq<EtcdCall> := [];
    if FromS3(c) {
      var downloadErr;
      downloadErr, downloads := DownloadSnapshots(world, done + gate, c, path);
      if downloadErr.Fail? {
        return downloadErr, gate + downloads;
      }
    }
    var initCluster := initialCluster(c.etcdHosts);
    var restoreErr, restores := RestoreHosts(world, done + gate + downloads, c, path, initCluster);
    calls := gate + downloads + restores;
    if restoreErr.Fail? {
      return Fail(RestoreFailed + restoreErr.error), calls;
    }
    return Pass, calls;
  }

  /** Every call of the gate is a checksum fetch. */
  lemma GateOnlyFetches(world: World<EtcdCall>, done: seq<EtcdCall>, c: EtcdCluster, path: string)
    ensures forall call <- GateCalls(world, done, c, path) :: call.SnapshotChecksum?
  {
    var plan := ChecksumPlan(c, path);
    RunIssuesFromPlan(world, done, plan);
    forall call <- GateCalls(world, done, c, path) ensures call.SnapshotChecksum? {
      var k :| 0 <= k < |plan| && plan[k] == call;
    }
  }

  /** A failed gate returns the consistency error and issues no download and no restore. */
  lemma GateFailureIssuesNoRestore(world: World<EtcdCall>, sums: Checksums, done: seq<EtcdCall>, c: EtcdCluster,
                                   path: string, initialCluster: seq<Host> -> string)
    requires |c.etcdHosts| >= 1
    requires !Consistent(world, sums, done, c, path)
    ensures RestoreSpec(world, sums, done, c, path, initialCluster).outcome == Fail(NotConsistent)
    ensures forall call <- RestoreSpec(world, sums, done, c, path, initialCluster).issued :: call.SnapshotChecksum?
  {
    GateOnlyFetches(world, done, c, path);
  }

  /**
   * A checksum fetch that fails on any host closes the gate, whatever the other hosts answer,
   * and no host after it is asked.
   */
  lemma FetchErrorClosesGate(world: World<EtcdCall>, sums: Checksums, done: seq<EtcdCall>, c: EtcdCluster,
                             path: string, k: nat)
    requires |c.etcdHosts| >= 1 && k < |c.etcdHosts|
    requires world(done + ChecksumPlan(c, path)[..k], ChecksumPlan(c, path)[k]).Fail?
    ensures !Consistent(world, sums, done, c, path)
    ensures |GateCalls(world, done, c, path)| <= k + 1
  {
    var plan := ChecksumPlan(c, path);
    FailedCallBreaksAllPass(world, done, plan, k);
    RunStopsAt(world, done, plan, k);
  }

  /** The gate holds exactly when all fetches succeed and the checksums agree pairwise. */
  lemma ConsistentIsPairwiseEqual(world: World<EtcdCall>, sums: Checksums, done: seq<EtcdCall>, c: EtcdCluster,
                                  path: string)
    requires |c.etcdHosts| >= 1
    ensures Consistent(world, sums, done, c, path) <==>
      var plan := ChecksumPlan(c, path);
      && AllPass(world, done, plan)
      && (forall i, j | 0 <= i < |plan| && 0 <= j < |plan| :: SumAt(sums, done, plan, i) == SumAt(sums, done, plan, j))
  {
  }

  /**
   * A restore that returns nil issued the whole gate, then every download when S3 is configured,
   * then exactly one restore per etcd host, in host order, all with the same path and
   * initial-cluster string.
   */
  lemma RestoreSuccessOrder(world: World<EtcdCall>, sums: Checksums, done: seq<EtcdCall>, c: EtcdCluster,
                            path: string, initialCluster: seq<Host> -> string)
    requires |c.etcdHosts| >= 1
    requires RestoreSpec(world, sums, done, c, path, initialCluster).outcome.Pass?
    ensures Consistent(world, sums, done, c, path)
    ensures RestoreSpec(world, sums, done, c, path, initialCluster).issued ==
      ChecksumPlan(c, path)
      + (if FromS3(c) then DownloadPlan(c, path) else [])
      + RestorePlan(c, path, initialCluster(c.etcdHosts))
  {
    var gate := ChecksumPlan(c, path);
    RunAllPass(world, done, gate);
    var download := if FromS3(c) then Run(world, done + gate, DownloadPlan(c, path)) else Exec([], Pass);
    RunShape(world, done + gate, DownloadPlan(c, path));
    RunShape(world, done + gate + download.issued, RestorePlan(c, path, initialCluster(c.etcdHosts)));
  }

  /** A restore call is only ever issued after a passed gate and, with S3, after every download passed. */
  lemma RestoreOnlyAfterGateAndDownloads(world: World<EtcdCall>, sums: Checksums, done: seq<EtcdCall>,
                                         c: EtcdCluster, path: string, initialCluster: seq<Host> -> string)
    requires |c.etcdHosts| >= 1
    requires exists call <- RestoreSpec(world, sums, done, c, path, initialCluster).issued :: call.RestoreSnapshot?
    ensures Consistent(world, sums, done, c, path)
    ensures FromS3(c) ==> Run(world, done + ChecksumPlan(c, path), DownloadPlan(c, path)) == Exec(DownloadPlan(c, path), Pass)
  {
    if !Consistent(world, sums, done, c, path) {
      GateFailureIssuesNoRestore(world, sums, done, c, path, initialCluster);
    } else {
      var gate := ChecksumPlan(c, path);
      RunAllPass(world, done, gate);
      if FromS3(c) {
        var plan := DownloadPlan(c, path);
        var download := Run(world, done + gate, plan);
        RunShape(world, done + gate, plan);
        if download.outcome.Fail? {
          RunIssuesFromPlan(world, done + gate, plan);
          GateOnlyFetches(world, done, c, path);
        }
      }
    }
  }

  /** A world in which every call succeeds. */
  function AllSucceed(): World<EtcdCall>
  {
    (done: seq<EtcdCall>, call: EtcdCall) => Pass
  }

  /** Checksums that read "b" on `odd` and "a" everywhere else. */
  function OddOneOut(odd: Host): Checksums
  {
    (done: seq<EtcdCall>, call: EtcdCall) => if call.host == odd then "b" else "a"
  }

  /** Checksums that read `v` on every host. */
  function SameEverywhere(v: string): Checksums
  {
    (done: seq<EtcdCall>, call: EtcdCall) => v
  }

  /** Three hosts whose checksums read "a", "a", "b": the restore is refused before any restore call. */
  lemma MismatchBlocksRestore(c: EtcdCluster, path: string, initialCluster: seq<Host> -> string)
    requires |c.etcdHosts| == 3 && c.etcdHosts[2] != c.etcdHosts[0]
    ensures
      var e := RestoreSpec(AllSucceed(), OddOneOut(c.etcdHosts[2]), [], c, path, initialCluster);
      && e.outcome == Fail(NotConsistent)
      && forall call <- e.issued :: !call.RestoreSnapshot?
  {
    var sums := OddOneOut(c.etcdHosts[2]);
    var plan := ChecksumPlan(c, path);
    assert SumAt(sums, [], plan, 2) != SumAt(sums, [], plan, 0);
    GateFailureIssuesNoRestore(AllSucceed(), sums, [], c, path, initialCluster);
  }

  /**
   * Hosts that all report the same checksum, no S3 backend and no failure: one checksum fetch
   * and then one restore per host, in host order.
   */
  lemma AgreementRestoresEveryHost(c: EtcdCluster, path: string, initialCluster: seq<Host> -> string)
    requires |c.etcdHosts| >= 1 && !FromS3(c)
    ensures
      var e := RestoreSpec(AllSucceed(), SameEverywhere("a"), [], c, path, initialCluster);
      && e.outcome == Pass
      && e.issued == ChecksumPlan(c, path) + RestorePlan(c, path, initialCluster(c.etcdHosts))
  {
    var sums := SameEverywhere("a");
    var gate := ChecksumPlan(c, path);
    var restore := RestorePlan(c, path, initialCluster(c.etcdHosts));
    assert AllPass(AllSucceed(), [], gate);
    assert SumsAgree(sums, [], gate);
    assert Consistent(AllSucceed(), sums, [], c, path);
    RunAllPass(AllSucceed(), [], gate);
    assert GateCalls(AllSucceed(), [], c, path) == gate;
    assert [] + gate + [] == gate;
    assert AllPass(AllSucceed(), gate, restore);
    RunAllPass(AllSucceed(), gate, restore);
    NothingBetween(gate, restore);
  }

  lemma NothingBetween(a: seq<EtcdCall>, b: seq<EtcdCall>)
    ensures a + [] + b == a + b
  {
  }
}

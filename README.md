# rke cluster orchestration, modelled in Dafny

rke brings up and maintains a Kubernetes cluster over SSH and Docker from a cluster file. This
project models the decision logic and the call sequences at its core:

- the secrets-encryption state machine: reconcile, disable, rotate the key, rewrite every secret;
- the etcd snapshot save and restore, with the checksum gate in front of a restore;
- cluster defaulting: node fields, service ranges, network plugin options, system images;
- reconciling a cluster against its previous state: rebuild the local admin kubeconfig, delete stale hosts;
- the fixed bring-up and teardown orders (DeployClusterPlanes, RunControlPlane, ClusterRemove, cleanUpHosts);
- the network plugin dispatch and the Calico and Canal settings maps;
- the kube-controller, kube-proxy and scheduler container specs, the health check and container lookup;
- the desired-state certificate conversion;
- the create-or-update of Kubernetes objects;
- the `rke up` command-line handling: option merging, inactive hosts, the dind environment, the dispatch.

Everything remote (SSH, Docker, the Kubernetes API, state-file writes) is an oracle
`World<C> = (seq<C>, C) -> Outcome`. It answers each call given the calls issued before it. The
calls a procedure issues are returned as a trace. `Steps.Run` is the "issue each call in order,
stop at the first error" fold, and most sequences are proved equal to a `Run` of a fixed plan.

Code that updates fields in place is a `class` with `modifies` clauses:

- the cluster being reconciled or defaulted (`Encryption.Cluster`, `Reconcile.Cluster`, `ClusterDefaults.Cluster`);
- the cluster file (`Cli.RKEConfig`);
- the API server's object store (`K8s.ApiServer`);
- the remote end of secrets encryption (`SecretsServer.Remote`).

Loops over hosts are `for` loops whose invariants tie the state to a recursive specification
function. Pure builders are functions.

The secrets-encryption model tracks four things:

- the provider document deployed on the control plane;
- the document kube-apiserver has loaded;
- the document committed to the state file;
- the seal of every secret.

`DisableSecretsEncryption` and `RotateEncryptionKey` are proved to keep every secret readable by
the loaded document at every intermediate state. In particular, the old key stays in the deployed
document until every secret has been rewritten under the new one.

Module map: `Wrappers` (Option, Result, Outcome), `Steps` (the trace fold), `Strings` (split,
join, path base and dir), `Hosts`, `EncryptionConfig`, `SecretsServer`, `Rewrite`, `Encryption`,
`Etcd`, `ClusterDefaults`, `LocalKubeConfig`, `Network`, `Planes`, `Reconcile`, `Services`,
`State`, `K8s`, `Cli`.

Where the repository's prose description and its code differ, the model follows the code:

- A failed node deletion in ReconcileCluster returns an error at once (cluster/cluster.go:219-221). It is not skipped.
- Disabling encryption ends with the deploy of the empty document, with no kube-apiserver restart after it (cluster/encryption.go:88-95).
- ClusterRemove cleans hosts with the image recorded under "alpine". ReconcileCluster's worker cleanup looks up "apline" (cluster/cluster.go:236), so it gets the empty image unless that misspelt key exists.
- reconcileHostCleaner takes a `worker` flag it never reads (cluster/cluster.go:255-268).
- extractActiveKey indexes the decoded document without checks and panics on a document with no key. The model returns an error instead. A custom document whose first provider is aescbc yields its first key, so a custom configuration can be rotated (cluster/encryption.go:131-140).
- getLocalConfigAddress indexes the split server URL without checks and panics when the URL has no ':'. The model returns an error instead.
- etcdSnapshotChecksum reads `etcdChecksums[0]` unconditionally (cluster/etcd.go:55), so the etcd gate and restore require at least one etcd host.
- GetDesiredState writes each certificate into the generated plan's bundle map without checking that it exists (state/state.go:34), which panics on a nil map. The model returns the error "assignment to entry in nil map" with the plan instead.
- isContainerRunning reads `container.Names[0]` unchecked (services/services.go:57). Docker always names a container, so Services.IsContainerRunning and Services.FindContainerIff require every listed container to have at least one name.

cluster/cluster.go and cluster/remove.go contain unresolved merge conflicts between HEAD and the configurable_images_wip branch, so those files do not compile as they stand. The model takes one side of each conflict:

- cluster/cluster.go:36-57, the constants: HEAD's side, which declares the default service ranges, DNS service, domain, infra image, auth strategy, network plugin and SSH key path that ClusterDefaults uses.
- cluster/cluster.go:180-238: HEAD's side for rebuildLocalAdminConfig and configurable_images_wip's side for ReconcileCluster. ReconcileCluster's worker loop ends at the conflict marker on line 238 with a skipped cleanup failure, and the function returns nil there.
- The tail shared after that marker (cluster/cluster.go:238-246: `continue`, `else { break }`, storing workingConfig into the admin entry) is read as the end of HEAD's rebuild loop, where it belongs. Read on the configurable_images_wip side it would stop the worker deletions after the first cleanup that passes, and it would use variables that side never declares.
- cluster/cluster.go:249-268: configurable_images_wip's reconcileHostCleaner. HEAD's isLocalConfigWorking is not modelled.
- cluster/remove.go:33-49: configurable_images_wip's cleanUpHosts with a cleaner image, matching ClusterRemove's call with RKEImages["alpine"] at cluster/remove.go:26.

## Model

| member | source | states |
|---|---|---|
| Steps.RunShape | services/controlplane.go:10-28 | a stop-at-first-error run issues a prefix of its plan; it passes iff it issued the whole plan and every call passed; on failure every call before the last passed and the last one's error is returned |
| EncryptionConfig.ExtractActiveKey | cluster/encryption.go:232-243 | the active key exists iff the document is a non-empty key list or a custom document whose first provider is aescbc with a key; it is that first key, the key new secrets are sealed with and one the document can read |
| EncryptionConfig.WriteThenRead | cluster/encryption.go:232-251 | whatever a provider document writes, that same document can read back |
| EncryptionConfig.CustomConfigNeverRewritten | cluster/encryption.go:41-64 | with a custom current configuration the reconcile never marks a rewrite and never takes the generated disable path (key extraction and secret rewrite); it blanks and redeploys the document iff there are control-plane hosts and the desired cluster turns encryption off |
| EncryptionConfig.DecideCases | cluster/encryption.go:41-64 | the four-way decision: mark a rewrite iff there are control-plane hosts and encryption goes from off (or no current cluster) to on; disable a custom config iff it goes from custom to off; disable a generated config iff it goes from generated to off; otherwise do nothing |
| SecretsServer.ApplyKeepsGuard | cluster/encryption.go:67-96 | a call that keeps the guarded keys in the deployed, loaded and committed documents keeps every secret readable |
| SecretsServer.GuardedIsReadable | cluster/encryption.go:67-96 | a guarded state is one in which kube-apiserver can read every secret |
| SecretsServer.Remote.Invoke | cluster/encryption.go:79-85 | one remote call: its answer comes from the oracle, it is appended to the trace, and a successful call's effect on the documents and secrets is applied |
| Rewrite.RewriteOneRetriesOnce | cluster/encryption.go:253-266 | rewriting one secret issues one update; only a conflict leads to one fetch and, if that passes, exactly one more update whose answer is returned; any other error is returned with no retry |
| Rewrite.RewriteSecret | cluster/encryption.go:253-266 | the method issues the calls and returns the error of the one-secret specification; every state it passes through only reseals secrets, and on success the secret is sealed as the loaded document writes |
| Rewrite.RewriteEachNoErrors | cluster/encryption.go:110-126 | the sequential rewrite of a list collects no error iff each secret's own rewrite succeeded |
| Rewrite.RewriteAllAttemptsEvery | cluster/encryption.go:110-126 | once the client and the listing succeed, every listed secret is sent an update, even after others failed; the whole rewrite passes iff every secret's rewrite passed |
| Rewrite.RewriteAllTouchesNoDocument | cluster/encryption.go:98-129 | rewriting secrets never deploys, commits or restarts |
| Encryption.ProviderFileForStable | cluster/encryption.go:220-230 | getEncryptionProviderFile returns a non-empty document unchanged; an empty one becomes the one-key document of the fresh key; a second call returns the same document |
| Encryption.DisableOrder | cluster/encryption.go:67-96 | disabling issues, in order, deploy of the identity-first document, restart, the secret rewrite, deploy of ""; it stops at the first failure, passes only after all of them, and deploys "" iff the first three passed |
| Encryption.RotateOrder | cluster/encryption.go:131-187 | rotation issues, in order, deploy of [new, old], commit, restart, the rewrite, deploy of [new], commit, restart; it stops at the first failure, and deploys [new] iff everything up to the rewrite passed |
| Encryption.Cluster.ReconcileEncryptionProviderConfig | cluster/encryption.go:39-65 | each decision's effect: no action changes nothing and returns nil; marking a rewrite only sets RewriteSecrets; disabling a custom config deploys "" once with no restart or rewrite; disabling a generated config is DisableSecretsEncryption |
| Encryption.Cluster.DeployEncryptionProviderFile | cluster/encryption.go:189-192 | one deploy of the cluster's current document, whose answer is returned |
| Encryption.Cluster.GetEncryptionProviderFile | cluster/encryption.go:220-230 | returns and caches the document ProviderFileFor gives; nothing else changes |
| Encryption.Cluster.RewriteSecrets | cluster/encryption.go:98-129 | issues the calls and returns the error of the sequential rewrite; only reseals secrets; on success every secret is sealed as the loaded document writes |
| Encryption.Cluster.DisableSecretsEncryption | cluster/encryption.go:67-96 | no control-plane hosts: nothing happens; otherwise the disable sequence, with the document ending as "" only if every step passed; a current document with no active key issues nothing; on success every secret is plain text; every intermediate state keeps all secrets readable |
| Encryption.Cluster.RotateEncryptionKey | cluster/encryption.go:131-187 | with no active key, the error and nothing issued; otherwise the rotation sequence; on success all three documents hold only the new key and every secret is sealed with it; every intermediate state keeps all secrets readable, so the old key is present until every secret is rewritten |
| Etcd.SnapshotEtcd | cluster/etcd.go:11-18 | the run of one snapshot save per etcd host, in host order, stopping at the first failure |
| Etcd.FetchChecksums | cluster/etcd.go:44-54 | fetches per host in order, stopping at the first error; it succeeds iff every fetch passed, and then returns one checksum per host |
| Etcd.EtcdSnapshotChecksum | cluster/etcd.go:44-62 | the gate is true iff every fetch succeeded and every checksum equals the first host's; it issues only the fetches |
| Etcd.ConsistentIsPairwiseEqual | cluster/etcd.go:55-61 | agreeing with the first host's checksum is the same as all checksums being pairwise equal |
| Etcd.FetchErrorClosesGate | cluster/etcd.go:48-51 | a fetch error on any host closes the gate, and no host after it is asked |
| Etcd.GateFailureIssuesNoRestore | cluster/etcd.go:20-23 | a closed gate returns "etcd snapshots are not consistent" having issued only checksum fetches: no download, no restore |
| Etcd.RestoreEtcdSnapshot | cluster/etcd.go:20-42 | the gate, then the S3 downloads when both backends are set, then one restore per host, each phase stopping at its first failure and a restore error wrapped |
| Etcd.RestoreSuccessOrder | cluster/etcd.go:20-42 | a restore that returns nil issued the whole gate, every download when S3 is set, then one restore per etcd host in order with the same path and initial-cluster string |
| Etcd.RestoreOnlyAfterGateAndDownloads | cluster/etcd.go:25-40 | any restore call means the gate was open and, with S3, every download passed |
| Etcd.MismatchBlocksRestore | cluster/etcd.go:55-61 | three hosts whose third checksum differs: the restore fails as inconsistent and no restore is sent |
| Etcd.AgreementRestoresEveryHost | cluster/etcd.go:34-41 | hosts that agree, no S3 backend, no failure: the fetches, then one restore per host |
| ClusterDefaults.IfEmptyKeeps | cluster/cluster.go:168-172 | setDefaultIfEmpty keeps a non-empty value, writes the default into an empty one, and is idempotent |
| ClusterDefaults.WithDefault | cluster/cluster.go:163-167 | setDefaultIfEmptyMapValue adds the key, keeps every present value (even ""), and writes the default only for an absent key |
| ClusterDefaults.WithDefaultsSpec | cluster/cluster.go:149-161 | applying a list of distinct map defaults adds exactly their keys, keeps every present value and gives each absent key its default |
| ClusterDefaults.WithDefaultsPresent | cluster/cluster.go:149-161 | defaults whose keys are all present change nothing |
| ClusterDefaults.NodesAfterDefaults | cluster/cluster.go:121-136 | each node's empty internal address and hostname override become its address, its empty SSH key path becomes the cluster's, which defaults to "~/.ssh/id_rsa"; address and role are kept |
| ClusterDefaults.DefaultsOnlyFillGaps | cluster/cluster.go:121-161 | the non-empty key path, auth strategy, plugin and all six service fields, and present image and option keys, are never overwritten; the only keys added are the system images and the chosen plugin's images |
| ClusterDefaults.NetworkDefaultsByPlugin | cluster/network.go:68-90 | an unknown plugin gets no option defaults; flannel, calico and canal each get exactly their own image keys |
| ClusterDefaults.DefaultedIdempotent | cluster/cluster.go:121-161 | setting the defaults twice gives the same cluster as setting them once |
| ClusterDefaults.Cluster.SetClusterDefaults | cluster/cluster.go:121-147 | the cluster afterwards is the defaulted cluster |
| ClusterDefaults.Cluster.DefaultNodes | cluster/cluster.go:122-136 | the node loop defaults each node from the cluster key path and changes nothing else |
| ClusterDefaults.Cluster.SetClusterNetworkDefaults | cluster/network.go:68-90 | an empty plugin becomes "flannel", a nil options map becomes a map holding the plugin's defaults, nothing else changes |
| ClusterDefaults.Cluster.SetClusterImageDefaults | cluster/cluster.go:149-161 | a nil image map becomes a map and the system image defaults fill its absent keys; nothing else changes |
| LocalKubeConfig.LocalKubeConfigBeside | cluster/cluster.go:173-178 | the local kubeconfig lies in the cluster file's directory and is named the prefix followed by the cluster file's name |
| LocalKubeConfig.LocalKubeConfigOfPlainName | cluster/cluster.go:173-178 | a bare file name gives "./" + prefix + name |
| LocalKubeConfig.ConfigAddressRoundTrip | cluster/cluster.go:273-281 | the address read back from "https://" + address + ":6443" is the address |
| LocalKubeConfig.ConfigAddressNeedsColon | cluster/cluster.go:273-281 | a server URL without ':' has no address, where the source would index out of range |
| Network.CalicoConfig | cluster/network.go:38-52 | the Calico map holds exactly its ten keys: etcd endpoints, apiRoot "https://127.0.0.1:6443", the pki paths, the cluster CIDR and three images from the options |
| Network.CanalConfig | cluster/network.go:54-66 | the Canal map holds exactly its eight keys: the pki paths, the cluster CIDR and three images from the options |
| Network.CanalDiffersFromCalico | cluster/network.go:38-66 | Canal has no etcd endpoints, no apiRoot and no controllers image, gains the flannel image, and shares the pki paths and CIDR with Calico |
| Network.DeployNetworkPlugin | cluster/network.go:19-36 | flannel, calico and canal each deploy one add-on of their own manifest as "rke-network-plugin" and return its answer; any other name deploys nothing and is "Unsupported network plugin" |
| Network.DefaultPluginIsDeployable | cluster/network.go:68-90 | an empty plugin name is defaulted to one DeployNetworkPlugin knows, with both Flannel images set |
| Planes.ControlPlanePlanOrder | services/controlplane.go:10-26 | the i-th host's kube-api, kube-controller and scheduler are calls 3i, 3i+1 and 3i+2 |
| Planes.ControlPlanePlanCalls | services/controlplane.go:10-26 | every call of the plan starts a control-plane service on a listed host |
| Planes.RunControlPlane | services/controlplane.go:8-29 | the loop issues the stop-at-first-error run of that plan: no call after the first error, none for no hosts |
| Planes.DeployPlanesOrder | cluster/cluster.go:60-75 | bring-up passes iff etcd, every control-plane call and the worker plane all passed; on failure it stopped at the first and wrapped its error with its plane |
| Planes.DeployEtcdFails | cluster/cluster.go:62-65 | an etcd plane failure ends bring-up with its wrapped error and nothing else issued |
| Planes.DeployControlFails | cluster/cluster.go:66-69 | a control-plane failure ends bring-up before the worker plane with its wrapped error |
| Planes.DeployWorker | cluster/cluster.go:70-74 | after etcd and the control plane pass, the worker plane's answer, wrapped, is the result |
| Planes.DeployClusterPlanes | cluster/cluster.go:60-75 | the method issues and returns the bring-up specification |
| Planes.CleanPlanVisitsEveryRole | cluster/remove.go:40-44 | control-plane, then worker, then etcd hosts are cleaned without de-duplication, all with one image |
| Planes.CleanUpHosts | cluster/remove.go:37-54 | the cleanup loop is the stop-at-first-error run over the concatenated hosts |
| Planes.AdminConfigRemovedLast | cluster/remove.go:9-31 | the admin config is removed only when every plane removal and host cleanup before it passed |
| Planes.AdminConfigOnlyLast | cluster/remove.go:25-30 | the admin config removal is the last call of teardown and no other |
| Planes.ClusterRemove | cluster/remove.go:9-31 | worker, control and etcd plane removal, host cleanup with RKEImages["alpine"], admin config removal, stopping at the first error |
| Reconcile.ToDeleteIsDifference | cluster/cluster.go:217-230 | a host is deleted iff it is current and no desired host has its address |
| Reconcile.RebuildFailsOnDeploy | cluster/cluster.go:181-199 | a failed rebuild failed on an admin config deploy, the last call, with "Failed to redeploy local admin config with new host" |
| Reconcile.RebuildTriesPrefix | cluster/cluster.go:181-199 | a passing rebuild tried the first k hosts in order and keeps the k-th host's config |
| Reconcile.RebuildChoosesFirstWorking | cluster/cluster.go:186-198 | every tried host before the last failed its version check, and the last passed unless no host was left: the first working host is chosen |
| Reconcile.DeleteLoopDeletesAll | cluster/cluster.go:218-227 | a deletion loop that passes deleted every host given, in order |
| Reconcile.DeleteLoopFailsOnDelete | cluster/cluster.go:219-221 | a deletion loop fails only on a node deletion, the last call, with an error naming that host and its role |
| Reconcile.DeleteLoopCleansWith | cluster/cluster.go:223-236 | every cleanup of a deletion loop uses the loop's image |
| Reconcile.CleanerDeletesNothing | cluster/cluster.go:255-268 | the host cleaner never deletes a node and cleans with the image it is given |
| Reconcile.ReconcileDeletes | cluster/cluster.go:201-238 | a new cluster issues nothing; a reconcile that passes deletes exactly the stale control-plane hosts, then the stale worker hosts, each in recorded order |
| Reconcile.ReconcileFailsOnlyOn | cluster/cluster.go:201-238 | a reconcile fails only on an admin deploy, the client or a node deletion, as its last call; a failed cleanup never fails it |
| Reconcile.ReconcileHostCleaner | cluster/cluster.go:255-271 | reach, remove control plane, remove worker plane, clean, stopping at the first failure with that step's prefix |
| Reconcile.DeleteHosts | cluster/cluster.go:218-238 | the deletion loop issues and returns the deletion specification |
| Reconcile.ConnectAndDelete | cluster/cluster.go:210-238 | after the rebuild: the client, then both deletion loops, as specified |
| Reconcile.Cluster.RebuildLocalAdminConfig | cluster/cluster.go:181-199 | the loop follows the rebuild specification; on success the admin entry holds the chosen config ("" for no hosts), on failure the bundle is unchanged |
| Reconcile.Cluster.ReconcileCluster | cluster/cluster.go:181-246 | the method issues and returns the reconcile specification and keeps the host lists; with no current cluster the certificates are unchanged; otherwise the admin entry's config becomes the config the rebuild chose when the rebuild passes, and the certificates are unchanged when it fails |
| Services.BuildHealthCheckConfig | services/services.go:79-92 | no health config iff the health check is the zero value |
| Services.HealthCheckRoundTrip | services/services.go:79-92 | a non-zero check gives Test ["CMD-SHELL", command], and interval, timeout, start period and retries read back unchanged |
| Services.FindContainerIff | services/services.go:56-61 | the search finds the container iff some container's first name is "/" + name |
| Services.IsContainerRunning | services/services.go:49-62 | a listing error gives false and the wrapped error; otherwise nil and true iff some container's first name is "/" + name |
| Services.ImageRefParts | services/kubecontroller.go:27 | the image reference splits back at its last ':' into the image and the version |
| Services.BuildKubeControllerConfig | services/kubecontroller.go:25-45 | 12 arguments starting "/hyperkube", "controller-manager"; restart policy "always", not privileged, default network |
| Services.KubeControllerMaster | services/kubecontroller.go:32 | the --master flag is "http://" + host IP + ":8080", with no trailing slash |
| Services.KubeControllerRanges | services/kubecontroller.go:38-39 | --cluster-cidr and --service-cluster-ip-range carry the service's CIDR and service range |
| Services.BuildKubeproxyConfig | services/kubeproxy.go:23-39 | 5 arguments starting "/hyperkube", "proxy"; host network, privileged, restart "always" |
| Services.BuildSchedulerConfig | services/scheduler.go:23-36 | 5 arguments starting "/hyperkube", "scheduler"; only the restart policy "always" |
| Services.MasterFlags | services/kubeproxy.go:30 | kube-proxy's master is the master host's IP + ":8080/", whatever host it runs on; the scheduler's is its own host's IP + ":8080/" |
| Services.RunKubeController | services/kubecontroller.go:16-23 | one container run on the host with the built config, its answer returned unchanged |
| Services.RunKubeproxy | services/kubeproxy.go:14-21 | one container run on the worker host with the built config, its answer returned unchanged |
| Services.RunScheduler | services/scheduler.go:14-21 | one container run on the host with the built config, its answer returned unchanged |
| State.ToStateCert | state/state.go:31-39 | a converted certificate keeps name and config and PEM-encodes certificate and key |
| State.GetDesiredState | state/state.go:18-43 | a plan error is wrapped before certificates are generated; a certificate error is wrapped; writing certificates into a nil bundle is an error returned with the plan; otherwise every certificate is converted into the plan's bundle map and the returned plan carries a new empty bundle |
| State.ConvertedKeepsNames | state/state.go:29-41 | the conversion keeps one entry per certificate with its name and config |
| K8s.ApiServer.CreateBinding | k8s/roles.go:44-51 | a refused create changes nothing; an existing name is AlreadyExists; otherwise the binding is stored |
| K8s.ApiServer.UpdateBinding | k8s/roles.go:45-48 | a refused update changes nothing; an absent name is NotFound; otherwise the binding is replaced |
| K8s.ApiServer.CreateAccount | k8s/serviceaccount.go:21-28 | the same create, for a service account in a namespace |
| K8s.ApiServer.UpdateAccount | k8s/serviceaccount.go:22-25 | the same update, for a service account in a namespace |
| K8s.UpdateClusterRoleBinding | k8s/roles.go:38-54 | a decode error is returned before any request; otherwise one create, and exactly one update iff the create met AlreadyExists; success stores the binding, failure leaves the bindings as they were and is never AlreadyExists; the error is the create's answer unless the create met AlreadyExists, and then the update's |
| K8s.UpdateServiceAccount | k8s/serviceaccount.go:13-31 | the same create-or-update for a service account, always in kube-system, with the same requests, store and error |
| K8s.ApplySystemNodeClusterRoleBinding | k8s/roles.go:12-36 | a client error is returned before any request; otherwise the first request creates the "system:node" binding for the "system:nodes" group, and success stores it |
| Cli.SetS3OptionsFromCLI | cmd/common.go:63-86 | the S3 backend holds each flag's value, and "" where the flag is empty |
| Cli.CLIOptionsOnlyOverride | cmd/common.go:43-61 | a true flag sets SSH agent auth or ignore-docker-version and a false one keeps the file's value; with s3 the backup backend exists, keeps its name and gets the CLI's S3 backend; without s3 it is untouched; nodes and extra args are kept; merging twice equals merging once |
| Cli.SetOptionsFromCLI | cmd/common.go:43-61 | the config afterwards is the merged config, and the error is always nil |
| Cli.CheckAllIncluded | cmd/up.go:222-233 | nil iff there are no inactive hosts; otherwise the error lists their addresses in order, joined by "," |
| Cli.InactiveHostsListed | cmd/up.go:227-232 | the joined list splits back into the inactive addresses when none contains "," |
| Cli.WithConntrackOff | cmd/up.go:324-328 | the extra args gain "conntrack-max-per-core" = "0" (created when nil) and keep every other entry |
| Cli.GetDindConfig | cmd/up.go:305-331 | resolve and parse errors are wrapped and change nothing; otherwise the CLI options are merged and conntrack is turned off in the kube-proxy extra args |
| Cli.DindEnvKeepsNames | cmd/up.go:334-343 | moving nodes into containers keeps the node count, internal address, key path and role; an empty hostname override becomes the original address |
| Cli.DindEnvStopsAtFailure | cmd/up.go:334-343 | the move passes iff every start passed; on the first failure the nodes from that one on are untouched and its error is returned |
| Cli.CreateDINDEnv | cmd/up.go:333-346 | the loop rewrites the nodes as the dind specification says and changes no other field |
| Cli.ClusterUpDispatch | cmd/up.go:236-241 | "local" is checked before "dind", and each runs only its own bring-up |
| Cli.ClusterUpFileErrors | cmd/up.go:242-251 | cluster file resolve and parse errors are wrapped and end the command |
| Cli.ClusterUpInitOnly | cmd/up.go:259-261 | with "init" only ClusterInit runs after parsing; ClusterUp is never issued |
| Cli.ClusterUpAfterInit | cmd/up.go:262-266 | without "init", ClusterUp is issued only after ClusterInit passed |
| Cli.APIURLNamesFirstHost | cmd/up.go:163-165 | with control-plane hosts the API URL is "https://" + first host's address + ":6443", and its address reads back; without hosts it is left as it was |

## Left out

- SSH, Docker, the Kubernetes API, state-file writes and kube-apiserver restarts are oracles whose answers are parameters. Their effects are recorded as calls in a trace. Only secrets encryption gives them an effect on the modelled state.
- Template rendering and YAML decoding are not modelled: providerFileFromKeyList, disabledProviderFileFromKey, DecodeYamlResource and the manifest templates. A provider document is a key list, an identity-first document of one key, "" or a custom document, of which only the first AES-CBC key of its first provider is known. A custom document whose first provider is not aescbc is taken to write plain text. A manifest is the data it is rendered from.
- readEncryptionCustomConfig, parseCustomEncryptionConfig, ReconcileDesiredStateEncryptionConfig and UpdateClusterCurrentState's internals are left out. They are file and state I/O; the commit is one call.
- Encryption.Cluster.RotateEncryptionKey: the new key is a parameter, because generateEncryptionKey draws random bytes and its error path is not modelled. No freshness precondition was needed: the guard holds even when the new key equals the old one.
- Encryption.Cluster.RewriteSecrets: the errgroup workers draining a shared queue are modelled as one sequential pass in listing order. Interleavings and the merging of several workers' error lists into one error are not modelled; the outcome is an error iff some rewrite failed.
- Encryption.Cluster.DisableSecretsEncryption: the model reads the current cluster's document directly, where the source decodes it from YAML.
- Cli.CreateDINDEnv: the storage driver, the container start and the one-second sleep are left out. Starting a dind container is an oracle returning the container address or an error.
- Cli.ClusterUpDispatch: the bodies of clusterUpLocal, clusterUpDind, ClusterInit and ClusterUp are not modelled; each is one call of the outside world. The `update-only` flag is read but never used by the modelled code.
- Cli.GetDindConfig: resolving and parsing the cluster file are oracles, and the YAML unmarshalling is not modelled.
- ClusterDefaults.Cluster.SetClusterDefaults: the default image references and PKI paths are parameters, because they are declared outside the modelled files.
- doFlannelDeploy: its template rendering is left out; the deployed manifest carries the CIDR and the two Flannel images.
- PullImage: its stream copying is I/O and is left out.
- The dind storage driver passed to StartUpDindContainer is not modelled.
- resolveClusterFile is file I/O and is left out.
- The flag declarations of UpCommand are left out.
- Process orchestration in ClusterUp beyond the API URL rule is left out.
- Logging is left out everywhere.
- The integers that occur (the health-check durations and retries) are copied, never computed on, so no width or wrap-around is modelled.
- Strings.Base and Strings.Dir model filepath.Base and filepath.Dir on clean paths only, with no repeated or trailing '/'. The cluster-file path they are applied to is one that was just read as a file.

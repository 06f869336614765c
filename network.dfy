/**
 * The network plugin add-on (cluster/network.go): dispatch on the plugin name, and the settings
 * handed to the Calico and Canal manifests. Rendering a manifest and deploying it as an add-on job
 * are remote; the add-on deploy is one call of the outside world, and a manifest is the data it is
 * rendered from.
 */
module Network {
  import opened Wrappers
  import opened Steps
  import opened ClusterDefaults

  const NetworkPluginResourceName := "rke-network-plugin"
  const CalicoAPIRoot := "https://127.0.0.1:6443"
  const UnsupportedPlugin := "[network] Unsupported network plugin: "

  /** The pki file paths the plugins read (pki.KubeNodeCertPath, ...), declared outside the modelled files. */
  datatype PkiPaths = PkiPaths(kubeNodeCert: string, kubeNodeKey: string, caCert: string, kubeNodeConfig: string)

  /** The data a plugin manifest is rendered from. */
  datatype Manifest =
    | FlannelManifest(clusterCIDR: string, image: string, cniImage: string)
    | CalicoManifest(config: map<string, string>)
    | CanalManifest(config: map<string, string>)

  /** doAddonDeploy of a rendered manifest under its resource name. */
  datatype AddonCall = DoAddonDeploy(manifest: Manifest, resourceName: string)

  /**
   * What the network deploy reads of the cluster: the plugin, its options (already defaulted, so
   * never nil), the cluster CIDR, and the etcd connection string of the etcd hosts.
   */
  datatype NetworkSetup = NetworkSetup(
    plugin: string, options: map<string, string>, clusterCIDR: string, etcdEndpoints: string)

  /** The Calico settings: the etcd endpoints, the local API root, the pki paths, the CIDR and three images. */
  ghost predicate CalicoSettings(m: map<string, string>, n: NetworkSetup, pki: PkiPaths)
  {
    && m.Keys == {"etcdEndpoints", "apiRoot", "clientCrt", "clientKey", "clientCA", "kubeCfg", "clusterCIDR",
                  "cni_image", "node_image", "controllers_image"}
    && m["etcdEndpoints"] == n.etcdEndpoints
    && m["apiRoot"] == CalicoAPIRoot
    && m["clientCrt"] == pki.kubeNodeCert && m["clientKey"] == pki.kubeNodeKey
    && m["clientCA"] == pki.caCert && m["kubeCfg"] == pki.kubeNodeConfig
    && m["clusterCIDR"] == n.clusterCIDR
    && m["cni_image"] == Lookup(n.options, "calico_cni_image")
    && m["node_image"] == Lookup(n.options, "calico_node_image")
    && m["controllers_image"] == Lookup(n.options, "calico_controllers_image")
  }

  /** The Canal settings: the pki paths, the CIDR and three images; no etcd endpoints and no API root. */
  ghost predicate CanalSettings(m: map<string, string>, n: NetworkSetup, pki: PkiPaths)
  {
    && m.Keys == {"clientCrt", "clientKey", "clientCA", "kubeCfg", "clusterCIDR",
                  "node_image", "cni_image", "flannel_image"}
    && m["clientCrt"] == pki.kubeNodeCert && m["clientKey"] == pki.kubeNodeKey
    && m["clientCA"] == pki.caCert && m["kubeCfg"] == pki.kubeNodeConfig
    && m["clusterCIDR"] == n.clusterCIDR
    && m["node_image"] == Lookup(n.options, "canal_node_image")
    && m["cni_image"] == Lookup(n.options, "canal_cni_image")
    && m["flannel_image"] == Lookup(n.options, "canal_flannel_image")
  }

  /** The settings map of doCalicoDeploy, filled key by key. */
  method CalicoConfig(n: NetworkSetup, pki: PkiPaths) returns (calicoConfig: map<string, string>)
    ensures CalicoSettings(calicoConfig, n, pki)
  {
    calicoConfig := map[];
    calicoConfig := calicoConfig["etcdEndpoints" := n.etcdEndpoints];
    calicoConfig := calicoConfig["apiRoot" := CalicoAPIRoot];
    calicoConfig := calicoConfig["clientCrt" := pki.kubeNodeCert];
    calicoConfig := calicoConfig["clientKey" := pki.kubeNodeKey];
    calicoConfig := calicoConfig["clientCA" := pki.caCert];
    calicoConfig := calicoConfig["kubeCfg" := pki.kubeNodeConfig];
    calicoConfig := calicoConfig["clusterCIDR" := n.clusterCIDR];
    calicoConfig := calicoConfig["cni_image" := Lookup(n.options, "calico_cni_image")];
    calicoConfig := calicoConfig["node_image" := Lookup(n.options, "calico_node_image")];
    calicoConfig := calicoConfig["controllers_image" := Lookup(n.options, "calico_controllers_image")];
  }

  /** The settings map of doCanalDeploy, filled key by key. */
  method CanalConfig(n: NetworkSetup, pki: PkiPaths) returns (canalConfig: map<string, string>)
    ensures CanalSettings(canalConfig, n, pki)
  {
    canalConfig := map[];
    canalConfig := canalConfig["clientCrt" := pki.kubeNodeCert];
    canalConfig := canalConfig["clientKey" := pki.kubeNodeKey];
    canalConfig := canalConfig["clientCA" := pki.caCert];
    canalConfig := canalConfig["kubeCfg" := pki.kubeNodeConfig];
    canalConfig := canalConfig["clusterCIDR" := n.clusterCIDR];
    canalConfig := canalConfig["node_image" := Lookup(n.options, "canal_node_image")];
    canalConfig := canalConfig["cni_image" := Lookup(n.options, "canal_cni_image")];
    canalConfig := canalConfig["flannel_image" := Lookup(n.options, "canal_flannel_image")];
  }

  /**
   * Canal shares Calico's pki paths and CIDR but reaches the cluster neither through etcd nor
   * through the API root, and runs Flannel in place of Calico's controllers.
   */
  lemma CanalDiffersFromCalico(calico: map<string, string>, canal: map<string, string>, n: NetworkSetup, pki: PkiPaths)
    requires CalicoSettings(calico, n, pki) && CanalSettings(canal, n, pki)
    ensures "etcdEndpoints" !in canal && "apiRoot" !in canal && "controllers_image" !in canal
    ensures canal.Keys == calico.Keys - {"etcdEndpoints", "apiRoot", "controllers_image"} + {"flannel_image"}
    ensures forall k | k in {"clientCrt", "clientKey", "clientCA", "kubeCfg", "clusterCIDR"} :: canal[k] == calico[k]
  {
  }

  /** The plugins DeployNetworkPlugin knows. */
  predicate KnownPlugin(plugin: string)
  {
    plugin == FlannelNetworkPlugin || plugin == CalicoNetworkPlugin || plugin == CanalNetworkPlugin
  }

  /**
   * DeployNetworkPlugin: "flannel", "calico" and "canal" each deploy their own manifest as the
   * "rke-network-plugin" add-on and return that deploy's error; any other name deploys nothing and
   * is an error naming the plugin.
   */
  method DeployNetworkPlugin(world: World<AddonCall>, done: seq<AddonCall>, n: NetworkSetup, pki: PkiPaths)
    returns (err: Outcome, calls: seq<AddonCall>)
    ensures !KnownPlugin(n.plugin) <==> calls == []
    ensures !KnownPlugin(n.plugin) ==> err == Fail(UnsupportedPlugin + n.plugin)
    ensures KnownPlugin(n.plugin) ==>
      && |calls| == 1 && calls[0].resourceName == NetworkPluginResourceName && err == world(done, calls[0])
    ensures n.plugin == FlannelNetworkPlugin ==>
      calls[0].manifest == FlannelManifest(n.clusterCIDR, Lookup(n.options, "flannel_image"),
                                           Lookup(n.options, "flannel_cni_image"))
    ensures n.plugin == CalicoNetworkPlugin ==>
      calls[0].manifest.CalicoManifest? && CalicoSettings(calls[0].manifest.config, n, pki)
    ensures n.plugin == CanalNetworkPlugin ==>
      calls[0].manifest.CanalManifest? && CanalSettings(calls[0].manifest.config, n, pki)
  {
    var manifest: Manifest;
    if n.plugin == FlannelNetworkPlugin {
      manifest := FlannelManifest(n.clusterCIDR, Lookup(n.options, "flannel_image"), Lookup(n.options, "flannel_cni_image"));
    } else if n.plugin == CalicoNetworkPlugin {
      var calicoConfig := CalicoConfig(n, pki);
      manifest := CalicoManifest(calicoConfig);
    } else if n.plugin == CanalNetworkPlugin {
      var canalConfig := CanalConfig(n, pki);
      manifest := CanalManifest(canalConfig);
    } else {
      return Fail(UnsupportedPlugin + n.plugin), [];
    }
    var call := DoAddonDeploy(manifest, NetworkPluginResourceName);
    err := world(done, call);
    calls := [call];
  }

  /**
   * An empty plugin name is defaulted to Flannel, which DeployNetworkPlugin knows, and the
   * defaulted options then hold both Flannel images.
   */
  lemma DefaultPluginIsDeployable(plugin: string, options: Option<map<string, string>>, images: ImageDefaults)
    requires plugin == ""
    ensures KnownPlugin(IfEmpty(plugin, DefaultNetworkPlugin))
    ensures var opts := NetworkOptionsDefaults(IfEmpty(plugin, DefaultNetworkPlugin), options, images);
      "flannel_image" in opts && "flannel_cni_image" in opts
  {
    NetworkDefaultsByPlugin(IfEmpty(plugin, DefaultNetworkPlugin), options, images);
  }
}

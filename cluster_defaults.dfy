/**
 * Filling in the cluster file's defaults (cluster/cluster.go, cluster/network.go): node addresses
 * and SSH key, service ranges, authentication strategy, the network plugin and its images, and
 * the system images. A default is only ever written into an empty field or an absent map key.
 */
module ClusterDefaults {
  import opened Wrappers
  import opened Hosts

  const DefaultServiceClusterIPRange := "10.233.0.0/18"
  const DefaultClusterCIDR := "10.233.64.0/18"
  const DefaultClusterDNSService := "10.233.0.3"
  const DefaultClusterDomain := "cluster.local"
  const DefaultInfraContainerImage := "gcr.io/google_containers/pause-amd64:3.0"
  const DefaultAuthStrategy := "x509"
  const DefaultNetworkPlugin := "flannel"
  const DefaultClusterSSHKeyPath := "~/.ssh/id_rsa"

  const FlannelNetworkPlugin := "flannel"
  const CalicoNetworkPlugin := "calico"
  const CanalNetworkPlugin := "canal"

  /**
   * The default image references (DefaultAplineImage, DefaultFlannelImage, ...). Their values are
   * declared outside the modelled files, so they are a parameter here.
   */
  datatype ImageDefaults = ImageDefaults(
    alpine: string, nginxProxy: string, certDownloader: string, kubeDNS: string, dnsmasq: string,
    kubeDNSSidecar: string, kubeDNSAutoscaler: string,
    flannel: string, flannelCNI: string,
    calicoCNI: string, calicoNode: string, calicoControllers: string,
    canalCNI: string, canalNode: string, canalFlannel: string)

  /** The service settings that receive defaults. */
  datatype ServiceSettings = ServiceSettings(
    kubeAPIServiceClusterIPRange: string,
    kubeControllerServiceClusterIPRange: string,
    kubeControllerClusterCIDR: string,
    kubeletClusterDNSServer: string,
    kubeletClusterDomain: string,
    kubeletInfraContainerImage: string)

  /** The part of the cluster the defaults read and write; a nil map is None. */
  datatype Settings = Settings(
    sshKeyPath: string,
    nodes: seq<Node>,
    services: ServiceSettings,
    authStrategy: string,
    networkPlugin: string,
    networkOptions: Option<map<string, string>>,
    rkeImages: Option<map<string, string>>)

  // ----- setDefaultIfEmpty, setDefaultIfEmptyMapValue -----

  /** setDefaultIfEmpty: the value a string field holds afterwards. */
  function IfEmpty(v: string, d: string): string
  {
    if |v| == 0 then d else v
  }

  /** A non-empty value is kept, an empty one takes the default, and applying the default twice changes nothing. */
  lemma IfEmptyKeeps(v: string, d: string)
    ensures v != "" ==> IfEmpty(v, d) == v
    ensures v == "" ==> IfEmpty(v, d) == d
    ensures IfEmpty(IfEmpty(v, d), d) == IfEmpty(v, d)
  {
  }

  /**
   * setDefaultIfEmptyMapValue: a key that is present keeps its value, even "", and an absent key
   * is added with the default; no other key changes.
   */
  function WithDefault(m: map<string, string>, key: string, value: string): (r: map<string, string>)
    ensures r.Keys == m.Keys + {key}
    ensures forall k <- m :: r[k] == m[k]
    ensures key !in m ==> r[key] == value
  {
    if key in m then m else m[key := value]
  }

  /** Default every (key, value) entry in turn. */
  function WithDefaults(m: map<string, string>, entries: seq<(string, string)>): map<string, string>
    decreases |entries|
  {
    if entries == [] then m else WithDefaults(WithDefault(m, entries[0].0, entries[0].1), entries[1..])
  }

  /** The keys of a list of entries. */
  function EntryKeys(entries: seq<(string, string)>): set<string>
  {
    set e <- entries :: e.0
  }

  /** Keys that appear once each. */
  predicate DistinctKeys(entries: seq<(string, string)>)
  {
    forall i, j | 0 <= i < j < |entries| :: entries[i].0 != entries[j].0
  }

  /**
   * Defaulting several entries adds exactly their keys, keeps every present key's value, and gives
   * an absent key the value of its entry.
   */
  lemma {:induction false} WithDefaultsSpec(m: map<string, string>, entries: seq<(string, string)>)
    requires DistinctKeys(entries)
    ensures WithDefaults(m, entries).Keys == m.Keys + EntryKeys(entries)
    ensures forall k <- m :: WithDefaults(m, entries)[k] == m[k]
    ensures forall i | 0 <= i < |entries| && entries[i].0 !in m :: WithDefaults(m, entries)[entries[i].0] == entries[i].1
    decreases |entries|
  {
    if entries != [] {
      var m1 := WithDefault(m, entries[0].0, entries[0].1);
      WithDefaultsSpec(m1, entries[1..]);
      assert EntryKeys(entries) == {entries[0].0} + EntryKeys(entries[1..]) by {
        assert entries == [entries[0]] + entries[1..];
      }
      forall i | 0 <= i < |entries| && entries[i].0 !in m
        ensures WithDefaults(m, entries)[entries[i].0] == entries[i].1
      {
        if i > 0 {
          assert entries[1..][i - 1] == entries[i];
        }
      }
    }
  }

  /** Defaulting entries whose keys are all present changes nothing. */
  lemma {:induction false} WithDefaultsPresent(m: map<string, string>, entries: seq<(string, string)>)
    requires EntryKeys(entries) <= m.Keys
    ensures WithDefaults(m, entries) == m
    decreases |entries|
  {
    if entries != [] {
      assert entries[0].0 in EntryKeys(entries);
      assert EntryKeys(entries[1..]) <= EntryKeys(entries) by {
        forall k <- EntryKeys(entries[1..]) ensures k in EntryKeys(entries) {
          var e :| e in entries[1..] && e.0 == k;
          assert e in entries;
        }
      }
      WithDefaultsPresent(m, entries[1..]);
    }
  }

  // ----- the specification of setClusterDefaults -----

  /** A node after defaulting: empty internal address and hostname take the address, an empty key path the cluster's. */
  function NodeDefaults(n: Node, clusterKeyPath: string): Node
  {
    n.(internalAddress := IfEmpty(n.internalAddress, n.address),
       hostnameOverride := IfEmpty(n.hostnameOverride, n.address),
       sshKeyPath := IfEmpty(n.sshKeyPath, clusterKeyPath))
  }

  function NodesDefaults(nodes: seq<Node>, clusterKeyPath: string): (r: seq<Node>)
    ensures |r| == |nodes|
    ensures forall i | 0 <= i < |nodes| :: r[i] == NodeDefaults(nodes[i], clusterKeyPath)
  {
    seq(|nodes|, i requires 0 <= i < |nodes| => NodeDefaults(nodes[i], clusterKeyPath))
  }

  function ServiceDefaults(s: ServiceSettings): ServiceSettings
  {
    ServiceSettings(
      IfEmpty(s.kubeAPIServiceClusterIPRange, DefaultServiceClusterIPRange),
      IfEmpty(s.kubeControllerServiceClusterIPRange, DefaultServiceClusterIPRange),
      IfEmpty(s.kubeControllerClusterCIDR, DefaultClusterCIDR),
      IfEmpty(s.kubeletClusterDNSServer, DefaultClusterDNSService),
      IfEmpty(s.kubeletClusterDomain, DefaultClusterDomain),
      IfEmpty(s.kubeletInfraContainerImage, DefaultInfraContainerImage))
  }

  /** The image options of a network plugin, in the order they are defaulted; none for an unknown plugin. */
  function PluginImageEntries(plugin: string, images: ImageDefaults): seq<(string, string)>
  {
    if plugin == FlannelNetworkPlugin then
      [("flannel_image", images.flannel), ("flannel_cni_image", images.flannelCNI)]
    else if plugin == CalicoNetworkPlugin then
      [("calico_cni_image", images.calicoCNI), ("calico_node_image", images.calicoNode),
       ("calico_controllers_image", images.calicoControllers)]
    else if plugin == CanalNetworkPlugin then
      [("canal_cni_image", images.canalCNI), ("canal_node_image", images.canalNode),
       ("canal_flannel_image", images.canalFlannel)]
    else []
  }

  /** The system images, in the order they are defaulted. */
  function SystemImageEntries(images: ImageDefaults): seq<(string, string)>
  {
    [("alpine", images.alpine), ("nginx_proxy", images.nginxProxy), ("cert_downloader", images.certDownloader),
     ("kubedns_image", images.kubeDNS), ("dnsmasq_image", images.dnsmasq),
     ("kubedns_sidecar_image", images.kubeDNSSidecar), ("kubedns_autoscaler_image", images.kubeDNSAutoscaler)]
  }

  /** A nil map reads as a fresh empty one. */
  function OrEmpty(m: Option<map<string, string>>): map<string, string>
  {
    if m.None? then map[] else m.value
  }

  /** The options after setClusterNetworkDefaults, for the plugin already defaulted. */
  function NetworkOptionsDefaults(plugin: string, options: Option<map<string, string>>, images: ImageDefaults)
    : map<string, string>
  {
    WithDefaults(OrEmpty(options), PluginImageEntries(plugin, images))
  }

  /** The whole of setClusterDefaults: the cluster key path first, then nodes, services, network and images. */
  function Defaulted(s: Settings, images: ImageDefaults): Settings
  {
    var keyPath := IfEmpty(s.sshKeyPath, DefaultClusterSSHKeyPath);
    var plugin := IfEmpty(s.networkPlugin, DefaultNetworkPlugin);
    Settings(
      keyPath,
      NodesDefaults(s.nodes, keyPath),
      ServiceDefaults(s.services),
      IfEmpty(s.authStrategy, DefaultAuthStrategy),
      plugin,
      Some(NetworkOptionsDefaults(plugin, s.networkOptions, images)),
      Some(WithDefaults(OrEmpty(s.rkeImages), SystemImageEntries(images))))
  }

  // ----- properties of the defaults -----

  lemma PluginEntriesDistinct(plugin: string, images: ImageDefaults)
    ensures DistinctKeys(PluginImageEntries(plugin, images))
    ensures DistinctKeys(SystemImageEntries(images))
  {
  }

  /**
   * After the defaults, every node's internal address and hostname are its address when they were
   * empty and unchanged otherwise, and its key path is the cluster's (itself "~/.ssh/id_rsa" when
   * empty) when it was empty and unchanged otherwise; nodes keep their order, address and roles.
   */
  lemma NodesAfterDefaults(s: Settings, images: ImageDefaults)
    ensures var d := Defaulted(s, images);
      && d.sshKeyPath == (if s.sshKeyPath == "" then DefaultClusterSSHKeyPath else s.sshKeyPath)
      && |d.nodes| == |s.nodes|
      && forall i | 0 <= i < |s.nodes| ::
           && d.nodes[i].address == s.nodes[i].address && d.nodes[i].role == s.nodes[i].role
           && d.nodes[i].internalAddress == (if s.nodes[i].internalAddress == "" then s.nodes[i].address else s.nodes[i].internalAddress)
           && d.nodes[i].hostnameOverride == (if s.nodes[i].hostnameOverride == "" then s.nodes[i].address else s.nodes[i].hostnameOverride)
           && d.nodes[i].sshKeyPath == (if s.nodes[i].sshKeyPath == "" then d.sshKeyPath else s.nodes[i].sshKeyPath)
  {
  }

  /**
   * Nothing that is set is overwritten: non-empty strings keep their value, present image and
   * option keys keep their value, and the only keys added are the system images and the chosen
   * plugin's images.
   */
  lemma DefaultsOnlyFillGaps(s: Settings, images: ImageDefaults)
    ensures var d := Defaulted(s, images);
      && (s.sshKeyPath != "" ==> d.sshKeyPath == s.sshKeyPath)
      && (s.authStrategy != "" ==> d.authStrategy == s.authStrategy)
      && (s.networkPlugin != "" ==> d.networkPlugin == s.networkPlugin)
      && (s.services.kubeAPIServiceClusterIPRange != "" ==>
            d.services.kubeAPIServiceClusterIPRange == s.services.kubeAPIServiceClusterIPRange)
      && (s.services.kubeControllerServiceClusterIPRange != "" ==>
            d.services.kubeControllerServiceClusterIPRange == s.services.kubeControllerServiceClusterIPRange)
      && (s.services.kubeControllerClusterCIDR != "" ==>
            d.services.kubeControllerClusterCIDR == s.services.kubeControllerClusterCIDR)
      && (s.services.kubeletClusterDNSServer != "" ==>
            d.services.kubeletClusterDNSServer == s.services.kubeletClusterDNSServer)
      && (s.services.kubeletClusterDomain != "" ==> d.services.kubeletClusterDomain == s.services.kubeletClusterDomain)
      && (s.services.kubeletInfraContainerImage != "" ==>
            d.services.kubeletInfraContainerImage == s.services.kubeletInfraContainerImage)
      && d.rkeImages.Some? && d.networkOptions.Some?
      && d.rkeImages.value.Keys == OrEmpty(s.rkeImages).Keys + EntryKeys(SystemImageEntries(images))
      && (forall k <- OrEmpty(s.rkeImages) :: d.rkeImages.value[k] == OrEmpty(s.rkeImages)[k])
      && d.networkOptions.value.Keys ==
           OrEmpty(s.networkOptions).Keys + EntryKeys(PluginImageEntries(d.networkPlugin, images))
      && (forall k <- OrEmpty(s.networkOptions) :: d.networkOptions.value[k] == OrEmpty(s.networkOptions)[k])
  {
    var d := Defaulted(s, images);
    PluginEntriesDistinct(d.networkPlugin, images);
    WithDefaultsSpec(OrEmpty(s.rkeImages), SystemImageEntries(images));
    WithDefaultsSpec(OrEmpty(s.networkOptions), PluginImageEntries(d.networkPlugin, images));
  }

  /** An unknown plugin gets no option defaults; a known one gets only its own image keys. */
  lemma NetworkDefaultsByPlugin(plugin: string, options: Option<map<string, string>>, images: ImageDefaults)
    ensures plugin !in {FlannelNetworkPlugin, CalicoNetworkPlugin, CanalNetworkPlugin} ==>
      NetworkOptionsDefaults(plugin, options, images) == OrEmpty(options)
    ensures plugin == FlannelNetworkPlugin ==>
      NetworkOptionsDefaults(plugin, options, images).Keys == OrEmpty(options).Keys + {"flannel_image", "flannel_cni_image"}
    ensures plugin == CalicoNetworkPlugin ==>
      NetworkOptionsDefaults(plugin, options, images).Keys ==
        OrEmpty(options).Keys + {"calico_cni_image", "calico_node_image", "calico_controllers_image"}
    ensures plugin == CanalNetworkPlugin ==>
      NetworkOptionsDefaults(plugin, options, images).Keys ==
        OrEmpty(options).Keys + {"canal_cni_image", "canal_node_image", "canal_flannel_image"}
  {
    var entries := PluginImageEntries(plugin, images);
    PluginEntriesDistinct(plugin, images);
    WithDefaultsSpec(OrEmpty(options), entries);
    if plugin == FlannelNetworkPlugin {
      EntryKeysOfTwo("flannel_image", images.flannel, "flannel_cni_image", images.flannelCNI);
    } else if plugin == CalicoNetworkPlugin {
      EntryKeysOfThree("calico_cni_image", images.calicoCNI, "calico_node_image", images.calicoNode,
                       "calico_controllers_image", images.calicoControllers);
    } else if plugin == CanalNetworkPlugin {
      EntryKeysOfThree("canal_cni_image", images.canalCNI, "canal_node_image", images.canalNode,
                       "canal_flannel_image", images.canalFlannel);
    }
  }

  lemma EntryKeysOfTwo(a: string, x: string, b: string, y: string)
    ensures EntryKeys([(a, x), (b, y)]) == {a, b}
  {
    assert (a, x) in [(a, x), (b, y)];
    assert (b, y) in [(a, x), (b, y)];
  }

  lemma EntryKeysOfThree(a: string, x: string, b: string, y: string, c: string, z: string)
    ensures EntryKeys([(a, x), (b, y), (c, z)]) == {a, b, c}
  {
    assert (a, x) in [(a, x), (b, y), (c, z)];
    assert (b, y) in [(a, x), (b, y), (c, z)];
    assert (c, z) in [(a, x), (b, y), (c, z)];
  }

  /** Applying the defaults twice gives the same cluster as applying them once. */
  lemma DefaultedIdempotent(s: Settings, images: ImageDefaults)
    ensures Defaulted(Defaulted(s, images), images) == Defaulted(s, images)
  {
    var d := Defaulted(s, images);
    var dd := Defaulted(d, images);
    assert dd.nodes == d.nodes;
    PluginEntriesDistinct(d.networkPlugin, images);
    WithDefaultsSpec(OrEmpty(s.networkOptions), PluginImageEntries(d.networkPlugin, images));
    WithDefaultsPresent(d.networkOptions.value, PluginImageEntries(d.networkPlugin, images));
    WithDefaultsSpec(OrEmpty(s.rkeImages), SystemImageEntries(images));
    WithDefaultsPresent(d.rkeImages.value, SystemImageEntries(images));
  }

  // ----- the cluster object -----

  /** The cluster object whose fields setClusterDefaults updates in place. */
  class Cluster {
    var sshKeyPath: string
    var nodes: seq<Node>
    var services: ServiceSettings
    var authStrategy: string
    var networkPlugin: string
    var networkOptions: Option<map<string, string>>
    var rkeImages: Option<map<string, string>>

    function Snapshot(): Settings
      reads this
    {
      Settings(sshKeyPath, nodes, services, authStrategy, networkPlugin, networkOptions, rkeImages)
    }

    constructor (s: Settings)
      ensures Snapshot() == s
    {
      sshKeyPath := s.sshKeyPath;
      nodes := s.nodes;
      services := s.services;
      authStrategy := s.authStrategy;
      networkPlugin := s.networkPlugin;
      networkOptions := s.networkOptions;
      rkeImages := s.rkeImages;
    }

    /** setClusterDefaults: the cluster key path, each node in turn, the services, then network and images. */
    method SetClusterDefaults(images: ImageDefaults)
      modifies this
      ensures Snapshot() == Defaulted(old(Snapshot()), images)
    {
      if |sshKeyPath| == 0 {
        sshKeyPath := DefaultClusterSSHKeyPath;
      }
      DefaultNodes();
      services := ServiceDefaults(services);
      authStrategy := IfEmpty(authStrategy, DefaultAuthStrategy);
      SetClusterNetworkDefaults(images);
      SetClusterImageDefaults(images);
    }

    /** The loop of setClusterDefaults over the nodes, against the cluster key path already defaulted. */
    method DefaultNodes()
      modifies this
      ensures nodes == NodesDefaults(old(nodes), sshKeyPath)
      ensures sshKeyPath == old(sshKeyPath) && services == old(services) && authStrategy == old(authStrategy)
      ensures networkPlugin == old(networkPlugin) && networkOptions == old(networkOptions) && rkeImages == old(rkeImages)
    {
      ghost var before := nodes;
      for i := 0 to |nodes|
        invariant sshKeyPath == old(sshKeyPath)
        invariant services == old(services) && authStrategy == old(authStrategy)
        invariant networkPlugin == old(networkPlugin) && networkOptions == old(networkOptions) && rkeImages == old(rkeImages)
        invariant |nodes| == |before|
        invariant forall j | 0 <= j < i :: nodes[j] == NodeDefaults(before[j], sshKeyPath)
        invariant forall j | i <= j < |nodes| :: nodes[j] == before[j]
      {
        var host := nodes[i];
        var updated := host;
        if |host.internalAddress| == 0 {
          updated := updated.(internalAddress := host.address);
        }
        if |host.hostnameOverride| == 0 {
          updated := updated.(hostnameOverride := host.address);
        }
        if |host.sshKeyPath| == 0 {
          updated := updated.(sshKeyPath := sshKeyPath);
        }
        nodes := nodes[i := updated];
      }
      assert nodes == NodesDefaults(before, sshKeyPath);
    }

    /** setClusterNetworkDefaults: default the plugin, make a nil options map, then default the plugin's images. */
    method SetClusterNetworkDefaults(images: ImageDefaults)
      modifies this
      ensures networkPlugin == IfEmpty(old(networkPlugin), DefaultNetworkPlugin)
      ensures networkOptions == Some(NetworkOptionsDefaults(networkPlugin, old(networkOptions), images))
      ensures sshKeyPath == old(sshKeyPath) && nodes == old(nodes) && services == old(services)
      ensures authStrategy == old(authStrategy) && rkeImages == old(rkeImages)
    {
      networkPlugin := IfEmpty(networkPlugin, DefaultNetworkPlugin);
      networkOptions := Some(WithDefaults(OrEmpty(networkOptions), PluginImageEntries(networkPlugin, images)));
    }

    /** setClusterImageDefaults: make a nil image map, then default each system image. */
    method SetClusterImageDefaults(images: ImageDefaults)
      modifies this
      ensures rkeImages == Some(WithDefaults(OrEmpty(old(rkeImages)), SystemImageEntries(images)))
      ensures sshKeyPath == old(sshKeyPath) && nodes == old(nodes) && services == old(services)
      ensures authStrategy == old(authStrategy) && networkPlugin == old(networkPlugin)
      ensures networkOptions == old(networkOptions)
    {
      rkeImages := Some(WithDefaults(OrEmpty(rkeImages), SystemImageEntries(images)));
    }
  }
}

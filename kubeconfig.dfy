/**
 * Where the local admin kubeconfig lives and which server it names (cluster/cluster.go): the
 * file sits beside the cluster file, and the server address is read back from its URL.
 */
module LocalKubeConfig {
  import opened Wrappers
  import opened Strings

  /** The API server URL an admin config is built for: the host on port 6443 over https. */
  function ServerURL(address: string): string
  {
    "https://" + address + ":6443"
  }

  /** GetLocalKubeConfig: the directory of the cluster file, then `prefix` (pki.KubeAdminConfigPrefix) and its name. */
  function GetLocalKubeConfig(configPath: string, prefix: string): string
  {
    Dir(configPath) + "/" + prefix + Base(configPath)
  }

  /** The kubeconfig is in the cluster file's directory, and its name is the cluster file's behind the prefix. */
  lemma LocalKubeConfigBeside(configPath: string, prefix: string)
    requires '/' !in prefix
    ensures Dir(GetLocalKubeConfig(configPath, prefix)) == Dir(configPath)
    ensures Base(GetLocalKubeConfig(configPath, prefix)) == prefix + Base(configPath)
  {
    var d := Dir(configPath);
    var b := prefix + Base(configPath);
    var r := GetLocalKubeConfig(configPath, prefix);
    assert r == d + ['/'] + b;
    assert '/' !in b;
    SplitAtLast(d, '/', b);
    var fields := Split(r, '/');
    assert fields[..|fields| - 1] == Split(d, '/');
    JoinSplit(d, '/');
    assert r[|d|] == '/';
  }

  /** A cluster file named without a directory gets its kubeconfig in ".". */
  lemma LocalKubeConfigOfPlainName(name: string, prefix: string)
    requires name != "" && '/' !in name
    ensures GetLocalKubeConfig(name, prefix) == "./" + prefix + name
  {
    SplitNoSeparator(name, '/');
  }

  /**
   * getLocalConfigAddress over the server URL of the loaded config (or the error loading it): the
   * second ':'-separated field without its first two characters. The source indexes and slices
   * without checks, so a URL without ':' or with a second field shorter than two characters
   * panics; here those are errors.
   */
  function GetLocalConfigAddress(server: Result<string>): Result<string>
  {
    if server.Err? then Err(server.error)
    else
      var fields := Split(server.value, ':');
      if |fields| < 2 then Err("index out of range")
      else if |fields[1]| < 2 then Err("slice bounds out of range")
      else Ok(fields[1][2..])
  }

  /** Reading the address back from a server URL gives the host it was built for. */
  lemma ConfigAddressRoundTrip(address: string)
    requires ':' !in address
    ensures GetLocalConfigAddress(Ok(ServerURL(address))) == Ok(address)
  {
    var rest := "//" + address;
    SplitAtFirst(rest, ':', "6443");
    assert ServerURL(address) == "https" + [':'] + (rest + [':'] + "6443");
    SplitAtFirst("https", ':', rest + [':'] + "6443");
    assert rest[2..] == address;
  }

  /** A URL without a ':' has no second field: an error, where the source panics. */
  lemma ConfigAddressNeedsColon(server: string)
    requires ':' !in server
    ensures GetLocalConfigAddress(Ok(server)).Err?
  {
    SplitNoSeparator(server, ':');
  }
}

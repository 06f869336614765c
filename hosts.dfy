/** Host records shared by the cluster, services and command-line modules. */
module Hosts {

  /** A provisioned host (hosts.Host): the SSH address, the IP services bind to, and its name. */
  datatype Host = Host(address: string, ip: string, hostname: string)

  /** A node entry of the cluster file (RKEConfigNode). */
  datatype Node = Node(
    address: string,
    internalAddress: string,
    hostnameOverride: string,
    sshKeyPath: string,
    role: seq<string>)

  /** The addresses of `hosts`, in order. */
  function Addresses(hosts: seq<Host>): (r: seq<string>)
    ensures |r| == |hosts|
    ensures forall i | 0 <= i < |hosts| :: r[i] == hosts[i].address
  {
    seq(|hosts|, i requires 0 <= i < |hosts| => hosts[i].address)
  }
}

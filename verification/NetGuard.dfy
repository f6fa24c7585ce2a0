/** Host resolution and address classification, beneath every scope decision. */
module NetGuard {
  import opened Prelude

  datatype ParsedUrl = ParsedUrl(scheme: string, host: string, port: int, path: string)

  datatype HostInfo = HostInfo(ips: seq<string>, isLoopback: bool, isPrivate: bool, isHardBlocked: bool)

  /** What the model cannot see: URL splitting, DNS and the address classes of an IP. */
  datatype Net = Net(
    parse: string -> Option<ParsedUrl>,
    isIpLiteral: string -> bool,
    dns: (string, int) -> Option<seq<string>>,
    ipIsLoopback: string -> bool,
    ipIsPrivate: string -> bool,
    glob: (string, string) -> bool)

  const HARD_BLOCK_IPS: set<string> := {"169.254.169.254", "100.100.100.100", "fd00:ec2::254"}
  const HARD_BLOCK_HOSTS: set<string> := {"metadata.google.internal", "metadata", "instance-data"}

  function DefaultPort(scheme: string): int {
    if scheme == "http" then 80 else if scheme == "https" then 443 else 0
  }

  /** None when the name does not resolve. One bad address classifies the whole host. */
  function ResolveHost(net: Net, host: string, port: int): (r: Option<HostInfo>)
    ensures r.Some? && net.isIpLiteral(host) ==> r.value.ips == [host]
    ensures r.Some? && !r.value.isHardBlocked ==>
      host !in HARD_BLOCK_HOSTS && forall ip :: ip in r.value.ips ==> ip !in HARD_BLOCK_IPS
    ensures r.Some? && !r.value.isLoopback && !r.value.isPrivate ==>
      forall ip :: ip in r.value.ips ==> !net.ipIsLoopback(ip) && !net.ipIsPrivate(ip)
  {
    var resolved := if net.isIpLiteral(host) then Some([host]) else net.dns(host, port);
    match resolved
    case None => None
    case Some(ips) =>
      Some(HostInfo(ips,
                    exists ip :: ip in ips && net.ipIsLoopback(ip),
                    exists ip :: ip in ips && net.ipIsPrivate(ip),
                    host in HARD_BLOCK_HOSTS || exists ip :: ip in ips && ip in HARD_BLOCK_IPS))
  }
}

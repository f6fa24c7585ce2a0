/** ScopeGuard: deny-by-default decisions over one authorization record, plus the one piece
 *  of state it carries, the number of requests made.
 */
module Scope {
  import opened Prelude
  import opened NetGuard

  datatype Intensity = Passive | SafeActive | Invasive
  datatype Environment = Production | Staging | Development | Lab

  datatype AuthRecord = AuthRecord(
    verified: bool,
    windowStart: Option<int>,
    windowEnd: Option<int>,
    allowedHosts: set<string>,
    allowedPorts: set<int>,
    allowedMethods: set<string>,
    allowedChecks: set<string>,
    pathAllow: seq<string>,
    pathDeny: seq<string>,
    allowStateChanging: bool,
    intensity: string,
    environment: string,
    maxRequests: int)

  datatype Settings = Settings(maxRequestsPerAssessment: int, allowPrivateNetworks: bool)

  datatype Code =
    | Ok
    | AuthzUnverified | WindowNotStarted | WindowEnded
    | BudgetExhausted
    | CheckNotAuthorized | IntensityExceeded | InvasiveInProd
    | MalformedUrl | MethodDenied | StateChangeDenied | HostOutOfScope | PortDenied
    | PathDenied | PathNotAllowed | ResolutionFailed | MetadataBlocked | PrivateNetworkDenied
    | DnsRebinding | EgressDenied
    | DeclarativeStateChangeDenied | DeclarativeEnvironmentDenied

  datatype Decision = Decision(code: Code, host: string, port: int, ips: seq<string>) {
    predicate Allowed() { code == Ok }
  }

  function Verdict(code: Code): Decision { Decision(code, "", 0, []) }

  const STATE_CHANGING_METHODS: set<string> := {"POST", "PUT", "PATCH", "DELETE"}

  function UpperChar(c: char): char {
    if 'a' <= c <= 'z' then (c as int - 32) as char else c
  }

  function Upper(s: string): string {
    seq(|s|, i requires 0 <= i < |s| => UpperChar(s[i]))
  }

  function Rank(i: Intensity): int {
    match i case Passive => 0 case SafeActive => 1 case Invasive => 2
  }

  function CoerceIntensity(s: string): Intensity {
    if s == "safe_active" then SafeActive else if s == "invasive" then Invasive else Passive
  }

  /** An unknown environment is treated as production. */
  function CoerceEnv(s: string): Environment {
    if s == "staging" then Staging
    else if s == "development" then Development
    else if s == "lab" then Lab
    else Production
  }

  function CheckRecordActive(r: AuthRecord, now: int): Decision {
    if !r.verified then Verdict(AuthzUnverified)
    else if r.windowStart.Some? && now < r.windowStart.value then Verdict(WindowNotStarted)
    else if r.windowEnd.Some? && now > r.windowEnd.value then Verdict(WindowEnded)
    else Verdict(Ok)
  }

  function Limit(r: AuthRecord, s: Settings): int {
    MinInt(r.maxRequests, s.maxRequestsPerAssessment)
  }

  function CheckClassAllowed(r: AuthRecord, checkClass: string, intensity: Intensity): Decision {
    if r.allowedChecks != {} && checkClass !in r.allowedChecks then Verdict(CheckNotAuthorized)
    else if Rank(intensity) > Rank(CoerceIntensity(r.intensity)) then Verdict(IntensityExceeded)
    else if intensity == Invasive && CoerceEnv(r.environment) == Production then Verdict(InvasiveInProd)
    else Verdict(Ok)
  }

  predicate StartsWith(s: string, prefix: string) {
    |prefix| <= |s| && s[..|prefix|] == prefix
  }

  predicate HostInScope(r: AuthRecord, net: Net, host: string) {
    host in r.allowedHosts ||
    exists entry :: entry in r.allowedHosts && StartsWith(entry, "*.") && net.glob(host, entry)
  }

  predicate PathMatches(net: Net, path: string, entry: string) {
    StartsWith(path, entry) || net.glob(path, entry)
  }

  function PathDecision(r: AuthRecord, net: Net, path: string): Code {
    if exists d :: d in r.pathDeny && PathMatches(net, path, d) then PathDenied
    else if r.pathAllow == [] || exists a :: a in r.pathAllow && PathMatches(net, path, a) then Ok
    else PathNotAllowed
  }

  predicate PrivateAllowed(r: AuthRecord, s: Settings) {
    match CoerceEnv(r.environment)
    case Lab => true
    case Staging => s.allowPrivateNetworks
    case Development => s.allowPrivateNetworks
    case Production => false
  }

  /** The request gate, in the order its tests are made. */
  function CheckRequest(r: AuthRecord, s: Settings, net: Net, method_: string, url: string): Decision {
    var m := Upper(method_);
    match net.parse(url)
    case None => Verdict(MalformedUrl)
    case Some(u) =>
      if r.allowedMethods != {} && m !in r.allowedMethods then Verdict(MethodDenied)
      else if m in STATE_CHANGING_METHODS && !r.allowStateChanging then Verdict(StateChangeDenied)
      else if !HostInScope(r, net, u.host) then Verdict(HostOutOfScope)
      else
        var ports := if r.allowedPorts != {} then r.allowedPorts else {DefaultPort(u.scheme)};
        if u.port !in ports then Verdict(PortDenied)
        else
          var p := PathDecision(r, net, u.path);
          if p != Ok then Verdict(p)
          else
            match ResolveHost(net, u.host, u.port)
            case None => Verdict(ResolutionFailed)
            case Some(info) =>
              if info.isHardBlocked then Verdict(MetadataBlocked)
              else if (info.isPrivate || info.isLoopback) && !PrivateAllowed(r, s)
              then Verdict(PrivateNetworkDenied)
              else Decision(Ok, u.host, u.port, info.ips)
  }

  // ---- What an allowed request means, in the fields of the record and of the URL -------

  /** The part of the gate that looks at the method alone. */
  predicate MethodPermitted(r: AuthRecord, method_: string) {
    (r.allowedMethods == {} || Upper(method_) in r.allowedMethods) &&
    (Upper(method_) in {"POST", "PUT", "PATCH", "DELETE"} ==> r.allowStateChanging)
  }

  /** Upper case of the Latin letters; every other character stays. */
  lemma UpperExactly(s: string)
    ensures |Upper(s)| == |s|
    ensures forall i :: 0 <= i < |s| ==>
      if 'a' <= s[i] <= 'z' then Upper(s)[i] as int == s[i] as int - 'a' as int + 'A' as int else Upper(s)[i] == s[i]
  {
  }

  /** Whether private networks may be reached: in a lab, or where the deployment allows it outside
   *  production. */
  predicate PrivatePermitted(r: AuthRecord, s: Settings) {
    r.environment == "lab" || (r.environment in {"staging", "development"} && s.allowPrivateNetworks)
  }

  lemma PrivateExactly(r: AuthRecord, s: Settings)
    ensures PrivateAllowed(r, s) <==> PrivatePermitted(r, s)
  {
    assert |"lab"| == 3 && |"staging"| == 7 && |"development"| == 11;
  }

  /** An address a request may be sent to: no metadata service, and no private one unless private
   *  networks may be reached. */
  predicate AddressPermitted(r: AuthRecord, s: Settings, net: Net, ip: string) {
    ip !in {"169.254.169.254", "100.100.100.100", "fd00:ec2::254"} &&
    (net.ipIsLoopback(ip) || net.ipIsPrivate(ip) ==> PrivatePermitted(r, s))
  }

  /** The host is listed, or matches a listed wildcard, and is no metadata service. */
  predicate HostPermitted(r: AuthRecord, net: Net, host: string) {
    host !in {"metadata.google.internal", "metadata", "instance-data"} &&
    (host in r.allowedHosts ||
     exists entry :: entry in r.allowedHosts && Wildcard(entry) && net.glob(host, entry))
  }

  predicate PortPermitted(r: AuthRecord, u: ParsedUrl) {
    if r.allowedPorts != {} then u.port in r.allowedPorts
    else (u.scheme == "http" && u.port == 80) || (u.scheme == "https" && u.port == 443) ||
         (u.scheme !in {"http", "https"} && u.port == 0)
  }

  /** The entry is a prefix of the path, or a pattern that matches it. */
  predicate Covers(net: Net, entry: string, path: string) { entry <= path || net.glob(path, entry) }

  predicate PathPermitted(r: AuthRecord, net: Net, path: string) {
    (forall d :: d in r.pathDeny ==> !Covers(net, d, path)) &&
    (r.pathAllow == [] || exists a :: a in r.pathAllow && Covers(net, a, path))
  }

  /** The part of the gate that looks at the target alone. */
  predicate TargetPermitted(r: AuthRecord, s: Settings, net: Net, url: string) {
    match net.parse(url)
    case None => false
    case Some(u) =>
      HostPermitted(r, net, u.host) && PortPermitted(r, u) && PathPermitted(r, net, u.path) &&
      (net.isIpLiteral(u.host) || net.dns(u.host, u.port).Some?) &&
      forall ip :: ip in AddressesOf(net, u) ==> AddressPermitted(r, s, net, ip)
  }

  function AddressesOf(net: Net, u: ParsedUrl): seq<string> {
    if net.isIpLiteral(u.host) then [u.host]
    else match net.dns(u.host, u.port) case Some(ips) => ips case None => []
  }

  predicate Wildcard(entry: string) { |entry| >= 2 && entry[0] == '*' && entry[1] == '.' }

  lemma WildcardExactly(entry: string)
    ensures StartsWith(entry, "*.") <==> Wildcard(entry)
  {
    if |entry| >= 2 {
      assert entry[..2] == [entry[0], entry[1]];
    }
  }

  lemma HostExactly(r: AuthRecord, net: Net, host: string)
    ensures HostInScope(r, net, host) && host !in HARD_BLOCK_HOSTS <==> HostPermitted(r, net, host)
  {
    forall entry | entry in r.allowedHosts
      ensures StartsWith(entry, "*.") <==> Wildcard(entry)
    {
      WildcardExactly(entry);
    }
  }

  lemma PathExactly(r: AuthRecord, net: Net, path: string)
    ensures PathDecision(r, net, path) ==
            if exists d :: d in r.pathDeny && Covers(net, d, path) then PathDenied
            else if PathPermitted(r, net, path) then Ok else PathNotAllowed
  {
    forall entry
      ensures PathMatches(net, path, entry) <==> Covers(net, entry, path)
    {
    }
  }

  /** The gate factors: allowed exactly when the method and the target are each permitted. */
  lemma CheckRequestFactors(r: AuthRecord, s: Settings, net: Net, method_: string, url: string)
    ensures CheckRequest(r, s, net, method_, url).Allowed() <==>
            MethodPermitted(r, method_) && TargetPermitted(r, s, net, url)
  {
    PrivateExactly(r, s);
    match net.parse(url)
    case None =>
    case Some(u) =>
      HostExactly(r, net, u.host);
      PathExactly(r, net, u.path);
      match ResolveHost(net, u.host, u.port)
      case None =>
      case Some(info) =>
        assert info.ips == AddressesOf(net, u);
        if PrivateAllowed(r, s) {
        } else {
          assert (info.isPrivate || info.isLoopback) <==>
                 exists ip :: ip in info.ips && (net.ipIsLoopback(ip) || net.ipIsPrivate(ip));
        }
  }

  /** A refusal names the first of these that fails. */
  lemma RefusalOfRequest(r: AuthRecord, s: Settings, net: Net, method_: string, url: string)
    ensures CheckRequest(r, s, net, method_, url).code ==
            match net.parse(url)
            case None => MalformedUrl
            case Some(u) =>
              if r.allowedMethods != {} && Upper(method_) !in r.allowedMethods then MethodDenied
              else if !MethodPermitted(r, method_) then StateChangeDenied
              else if !HostInScope(r, net, u.host) then HostOutOfScope
              else if !PortPermitted(r, u) then PortDenied
              else if exists d :: d in r.pathDeny && Covers(net, d, u.path) then PathDenied
              else if !PathPermitted(r, net, u.path) then PathNotAllowed
              else if !net.isIpLiteral(u.host) && net.dns(u.host, u.port).None? then ResolutionFailed
              else if !HostPermitted(r, net, u.host) ||
                      exists ip :: ip in AddressesOf(net, u) && ip in {"169.254.169.254", "100.100.100.100", "fd00:ec2::254"}
              then MetadataBlocked
              else if !TargetPermitted(r, s, net, url) then PrivateNetworkDenied
              else Ok
    ensures CheckRequest(r, s, net, method_, url).Allowed() ==>
      var u, d := net.parse(url).value, CheckRequest(r, s, net, method_, url); d.host == u.host && d.port == u.port
  {
    CheckRequestFactors(r, s, net, method_, url);
    match net.parse(url)
    case None =>
    case Some(u) =>
      HostExactly(r, net, u.host);
      PathExactly(r, net, u.path);
  }

  /** The record is usable: verified, and inside its window. */
  lemma RecordActiveExactly(r: AuthRecord, now: int)
    ensures CheckRecordActive(r, now).code ==
            if !r.verified then AuthzUnverified
            else if r.windowStart.Some? && r.windowStart.value > now then WindowNotStarted
            else if r.windowEnd.Some? && r.windowEnd.value < now then WindowEnded
            else Ok
  {
  }

  /** An allowed decision carries only addresses that may be connected to. */
  lemma AllowedAddressesArePermitted(r: AuthRecord, s: Settings, net: Net, method_: string, url: string)
    requires CheckRequest(r, s, net, method_, url).Allowed()
    ensures net.parse(url).Some?
    ensures CheckRequest(r, s, net, method_, url).ips == AddressesOf(net, net.parse(url).value)
    ensures forall ip :: ip in CheckRequest(r, s, net, method_, url).ips ==> AddressPermitted(r, s, net, ip)
  {
    CheckRequestFactors(r, s, net, method_, url);
  }

  /** Tool gateway: a check class runs only inside the record's classes and intensity, and
   *  nothing invasive ever runs in production (or in an environment nobody can name). */
  lemma ClassAllowedExactly(r: AuthRecord, checkClass: string, intensity: Intensity)
    ensures CheckClassAllowed(r, checkClass, intensity).Allowed() <==>
            (r.allowedChecks == {} || checkClass in r.allowedChecks) &&
            (intensity == Passive || CoerceIntensity(r.intensity) == Invasive ||
             intensity == CoerceIntensity(r.intensity)) &&
            !(intensity == Invasive && r.environment !in {"staging", "development", "lab"})
  {
  }

  class ScopeGuard {
    const record: AuthRecord
    const settings: Settings
    const net: Net
    var requestsMade: int

    constructor (record: AuthRecord, settings: Settings, net: Net, requestsMade: int)
      ensures this.record == record && this.settings == settings && this.net == net
      ensures this.requestsMade == requestsMade
    {
      this.record := record;
      this.settings := settings;
      this.net := net;
      this.requestsMade := requestsMade;
    }

    function Request(method_: string, url: string): Decision {
      CheckRequest(record, settings, net, method_, url)
    }

    /** A limit of zero means there is no limit. */
    predicate BudgetLeft()
      reads this
    {
      Limit(record, settings) == 0 || requestsMade + 1 <= Limit(record, settings)
    }

    method NoteRequest()
      modifies this
      ensures requestsMade == old(requestsMade) + 1
    {
      requestsMade := requestsMade + 1;
    }
  }
}

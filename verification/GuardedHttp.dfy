/** GuardedHttpClient.request: the only way out to the target.
 *
 *  The target may answer anything: its reply is an arbitrary function of all hops sent to it
 *  so far. A reply's location is already resolved against the URL it answered.
 */
module GuardedHttp {
  import opened Prelude
  import opened NetGuard
  import opened Scope

  /** One request put on the wire. `address` is the pinned IP, None when nothing was pinned. */
  datatype Hop = Hop(method_: string, url: string, address: Option<string>)

  datatype Reply = Failed | Response(status: int, location: Option<string>)

  type Target = seq<Hop> -> Reply

  datatype Outcome = Returned(reply: Reply) | Blocked(code: Code) | Unreachable

  predicate IsRedirect(reply: Reply) {
    reply.Response? && reply.status in {301, 302, 303, 307, 308} && reply.location.Some?
  }

  function Pin(net: Net, url: string, ips: seq<string>): Option<string> {
    match net.parse(url)
    case None => None
    case Some(u) =>
      if net.isIpLiteral(u.host) then Some(u.host)
      else if ips == [] then None
      else Some(ips[0])
  }

  /** The host is resolved a second time just before connecting; `again` is that answer. */
  predicate Rebound(again: Option<HostInfo>, validated: seq<string>) {
    again.Some? && validated != [] &&
    (((again.value.isHardBlocked || again.value.isPrivate || again.value.isLoopback) &&
      forall ip :: ip in again.value.ips ==> ip !in validated)
     || exists ip :: ip in again.value.ips && ip !in validated)
  }

  /** 301, 302 and 303 turn the request into a GET; 307 and 308 keep its method. */
  function NextMethod(method_: string, status: int): string {
    if status in {301, 302, 303} then "GET" else method_
  }

  // ---- What one call may put on the wire ------------------------------------------------

  /** The hop is in scope as a pair, and goes to the first address of its host, which is permitted. */
  predicate HopAuthorized(r: AuthRecord, s: Settings, net: Net, h: Hop) {
    MethodPermitted(r, h.method_) && TargetPermitted(r, s, net, h.url) &&
    var ips := AddressesOf(net, net.parse(h.url).value);
    h.address == (if ips == [] then None else Some(ips[0])) &&
    (h.address.Some? ==> AddressPermitted(r, s, net, h.address.value))
  }

  /** A reply that leads to another hop. */
  predicate Leads(reply: Reply) {
    reply.Response? && reply.location.Some? &&
    (reply.status == 301 || reply.status == 302 || reply.status == 303 || reply.status == 307 || reply.status == 308)
  }

  /** The reply to the hops before it leads to this hop: to the location it names, as a GET after
   *  301, 302 and 303, and with the method of the hop before it after 307 and 308. */
  predicate LeadsTo(reply: Reply, before: Hop, hop: Hop) {
    Leads(reply) && hop.url == reply.location.value &&
    (reply.status == 301 || reply.status == 302 || reply.status == 303 ==> hop.method_ == "GET") &&
    (reply.status == 307 || reply.status == 308 ==> hop.method_ == before.method_)
  }

  /** Every hop but the first is the redirect named by the reply to the hop before it. */
  predicate FollowsRedirects(target: Target, sent: seq<Hop>) {
    forall k :: 1 <= k < |sent| ==> LeadsTo(target(sent[..k]), sent[k - 1], sent[k])
  }

  /** A hop after the first that is not a GET keeps the method of the call, and was reached by 307
   *  and 308 alone. */
  lemma {:induction false} MethodsAreKept(target: Target, sent: seq<Hop>, k: nat)
    requires FollowsRedirects(target, sent) && 1 <= k < |sent| && sent[k].method_ != "GET"
    ensures sent[k].method_ == sent[0].method_
    ensures forall j :: 1 <= j <= k ==> target(sent[..j]).Response? && target(sent[..j]).status in {307, 308}
    decreases k
  {
    assert LeadsTo(target(sent[..k]), sent[k - 1], sent[k]);
    if k > 1 {
      MethodsAreKept(target, sent, k - 1);
    }
  }

  /** The second resolution shows that the name was rebound: an address was not validated, or a
   *  sensitive host lost them all. */
  predicate ShowsRebinding(again: Option<HostInfo>, validated: seq<string>) {
    again.Some? && validated != [] &&
    ((exists ip :: ip in again.value.ips && ip !in validated) ||
     (again.value.ips == [] && (again.value.isPrivate || again.value.isLoopback || again.value.isHardBlocked)))
  }

  class GuardedHttpClient {
    const guard: ScopeGuard
    var requestCount: int
    var errorCount: int
    var consecutiveErrors: int

    constructor (guard: ScopeGuard)
      ensures this.guard == guard && requestCount == errorCount == consecutiveErrors == 0
    {
      this.guard := guard;
      requestCount, errorCount, consecutiveErrors := 0, 0, 0;
    }

    /** The gates passed before anything leaves, in order. */
    function Precheck(now: int, method_: string, url: string,
                      again: Option<HostInfo>, sandbox: Option<(string, int) -> bool>): Code
      reads guard
    {
      var decision := guard.Request(method_, url);
      if !CheckRecordActive(guard.record, now).Allowed() then CheckRecordActive(guard.record, now).code
      else if !guard.BudgetLeft() then BudgetExhausted
      else if !decision.Allowed() then decision.code
      else if Rebound(again, decision.ips) then DnsRebinding
      else if sandbox.Some? && !sandbox.value(decision.host, decision.port) then EgressDenied
      else Ok
    }

    ghost predicate AllAuthorized(sent: seq<Hop>) {
      forall h :: h in sent ==> HopAuthorized(guard.record, guard.settings, guard.net, h)
    }

    /** Puts one more hop on the wire and keeps the counters. */
    method Transmit(target: Target, sent: seq<Hop>, hop: Hop) returns (reply: Reply)
      requires AllAuthorized(sent) && guard.Request(hop.method_, hop.url).Allowed()
      requires hop.address == Pin(guard.net, hop.url, guard.Request(hop.method_, hop.url).ips)
      modifies this
      ensures reply == target(sent + [hop]) && AllAuthorized(sent + [hop])
      ensures requestCount == old(requestCount) + 1
      ensures errorCount == old(errorCount) + if reply.Failed? then 1 else 0
      ensures consecutiveErrors == if reply.Failed? then old(consecutiveErrors) + 1 else 0
    {
      requestCount := requestCount + 1;
      SendableHop(hop);
      reply := target(sent + [hop]);
      if reply.Failed? {
        errorCount := errorCount + 1;
        consecutiveErrors := consecutiveErrors + 1;
      } else {
        consecutiveErrors := 0;
      }
    }

    method Request(now: int, method_: string, url: string, maxRedirects: int,
                   again: Option<HostInfo>, sandbox: Option<(string, int) -> bool>, target: Target)
      returns (outcome: Outcome, sent: seq<Hop>)
      modifies this, guard
      // Every pair on the wire is authorized, and the hops are the redirect chain of the call.
      ensures forall h :: h in sent ==> HopAuthorized(guard.record, guard.settings, guard.net, h)
      ensures FollowsRedirects(target, sent)
      ensures sent != [] ==> sent[0].method_ == method_ && sent[0].url == url
      ensures |sent| <= if maxRedirects > 0 then maxRedirects + 1 else 1
      ensures sent != [] <==> old(Precheck(now, method_, url, again, sandbox)) == Ok
      // Every hop is accounted for, and one caller alone never passes a limit.
      ensures guard.requestsMade == old(guard.requestsMade) + |sent|
      ensures requestCount == old(requestCount) + |sent|
      ensures sent != [] && guard.record.maxRequests > 0 && guard.settings.maxRequestsPerAssessment > 0 ==>
        guard.requestsMade <= guard.record.maxRequests && guard.requestsMade <= guard.settings.maxRequestsPerAssessment
      // How the call ended.
      ensures outcome.Returned? ==>
        sent != [] && outcome.reply == target(sent) && target(sent).Response? &&
        (Leads(target(sent)) ==> |sent| == (if maxRedirects > 0 then maxRedirects + 1 else 1))
      ensures outcome.Unreachable? <==> sent != [] && target(sent).Failed?
      ensures outcome.Blocked? && sent == [] ==>
        outcome.code == old(Precheck(now, method_, url, again, sandbox))
      ensures outcome.Blocked? && sent != [] ==>
        Leads(target(sent)) && |sent| <= maxRedirects &&
        var next := guard.Request("GET", target(sent).location.value);
        if next.Allowed() then outcome.code == BudgetExhausted && !guard.BudgetLeft()
        else outcome.code == next.code
      // The health signal counts connection failures, not HTTP errors.
      ensures errorCount == old(errorCount) + (if outcome.Unreachable? then 1 else 0)
      ensures consecutiveErrors ==
        if sent == [] then old(consecutiveErrors)
        else if !outcome.Unreachable? then 0
        else if |sent| == 1 then old(consecutiveErrors) + 1 else 1
    {
      sent := [];
      var pre := Precheck(now, method_, url, again, sandbox);
      if pre != Ok {
        return Blocked(pre), sent;
      }
      var decision := guard.Request(method_, url);
      guard.NoteRequest();
      var currentUrl, currentMethod, currentIps := url, method_, decision.ips;
      var redirects := 0;
      while true
        invariant 0 <= redirects && (redirects == 0 || redirects <= maxRedirects)
        invariant |sent| == redirects
        invariant AllAuthorized(sent)
        invariant FollowsRedirects(target, sent)
        invariant guard.Request(currentMethod, currentUrl).Allowed()
        invariant currentIps == guard.Request(currentMethod, currentUrl).ips
        invariant MethodPermitted(guard.record, method_)
        invariant currentMethod == method_ || currentMethod == "GET"
        invariant if sent == [] then currentMethod == method_ && currentUrl == url
                  else sent[0].method_ == method_ && sent[0].url == url &&
                       LeadsTo(target(sent), sent[|sent| - 1], Hop(currentMethod, currentUrl, None))
        invariant guard.requestsMade == old(guard.requestsMade) + |sent| + 1
        invariant Limit(guard.record, guard.settings) != 0 ==>
          guard.requestsMade <= Limit(guard.record, guard.settings)
        invariant requestCount == old(requestCount) + |sent|
        invariant errorCount == old(errorCount)
        invariant consecutiveErrors == if sent == [] then old(consecutiveErrors) else 0
        decreases maxRedirects - redirects
      {
        var hop := Hop(currentMethod, currentUrl, Pin(guard.net, currentUrl, currentIps));
        AppendHop(target, sent, hop);
        var reply := Transmit(target, sent, hop);
        sent := sent + [hop];
        if reply.Failed? {
          return Unreachable, sent;
        }
        if !IsRedirect(reply) {
          return Returned(reply), sent;
        }
        redirects := redirects + 1;
        if redirects > maxRedirects {
          return Returned(reply), sent;
        }
        var location := reply.location.value;
        decision := guard.Request("GET", location);
        if !decision.Allowed() {
          return Blocked(decision.code), sent;
        }
        var nextMethod := NextMethod(currentMethod, reply.status);
        RecheckedAsGet(method_, nextMethod, location);
        currentMethod, currentUrl, currentIps := nextMethod, location, decision.ips;
        if !guard.BudgetLeft() {
          return Blocked(BudgetExhausted), sent;
        }
        guard.NoteRequest();
      }
    }

    lemma SendableHop(hop: Hop)
      requires guard.Request(hop.method_, hop.url).Allowed()
      requires hop.address == Pin(guard.net, hop.url, guard.Request(hop.method_, hop.url).ips)
      ensures HopAuthorized(guard.record, guard.settings, guard.net, hop)
    {
      AllowedAddressesArePermitted(guard.record, guard.settings, guard.net, hop.method_, hop.url);
      CheckRequestFactors(guard.record, guard.settings, guard.net, hop.method_, hop.url);
    }

    /** What must hold before anything leaves, and which code tells that it does not: the first of
     *  these tests that fails. */
    lemma PrecheckExactly(now: int, method_: string, url: string,
                          again: Option<HostInfo>, sandbox: Option<(string, int) -> bool>)
      ensures Precheck(now, method_, url, again, sandbox) ==
              if CheckRecordActive(guard.record, now).code != Ok then CheckRecordActive(guard.record, now).code
              else if !WithinLimits(guard.requestsMade) then BudgetExhausted
              else if !(MethodPermitted(guard.record, method_) && TargetPermitted(guard.record, guard.settings, guard.net, url))
              then CheckRequest(guard.record, guard.settings, guard.net, method_, url).code
              else var u := guard.net.parse(url).value;
                if ShowsRebinding(again, AddressesOf(guard.net, u)) then DnsRebinding
                else if sandbox.Some? && !sandbox.value(u.host, u.port) then EgressDenied
                else Ok
    {
      CheckRequestFactors(guard.record, guard.settings, guard.net, method_, url);
      RefusalOfRequest(guard.record, guard.settings, guard.net, method_, url);
      if guard.Request(method_, url).Allowed() {
        AllowedAddressesArePermitted(guard.record, guard.settings, guard.net, method_, url);
        var ips := AddressesOf(guard.net, guard.net.parse(url).value);
        if again.Some? && ips != [] {
          NotReboundExactly(again.value, ips);
        }
      }
    }

    /** One more request is within the smaller of the two limits; zero is no limit. */
    predicate WithinLimits(made: int) {
      var a, b := guard.record.maxRequests, guard.settings.maxRequestsPerAssessment;
      if a <= b then a == 0 || made < a else b == 0 || made < b
    }

    /** A redirect is re-checked as a GET only; the method part was settled by the first hop. */
    lemma RecheckedAsGet(first: string, current: string, location: string)
      requires MethodPermitted(guard.record, first)
      requires current == first || current == "GET"
      requires guard.Request("GET", location).Allowed()
      ensures guard.Request(current, location) == guard.Request("GET", location)
    {
      CheckRequestFactors(guard.record, guard.settings, guard.net, "GET", location);
      CheckRequestFactors(guard.record, guard.settings, guard.net, current, location);
    }
  }

  lemma AppendHop(target: Target, sent: seq<Hop>, hop: Hop)
    requires FollowsRedirects(target, sent)
    requires sent != [] ==>
      LeadsTo(target(sent), sent[|sent| - 1], hop)
    ensures FollowsRedirects(target, sent + [hop])
  {
    var longer := sent + [hop];
    forall k | 1 <= k < |longer|
      ensures LeadsTo(target(longer[..k]), longer[k - 1], longer[k])
    {
      if k < |sent| {
        assert longer[..k] == sent[..k];
      } else {
        assert longer[..k] == sent;
      }
    }
  }

  /** A name that resolves the same way twice is never reported as rebound ... */
  lemma StableResolutionIsNotRebound(r: AuthRecord, s: Settings, net: Net, method_: string, url: string)
    requires CheckRequest(r, s, net, method_, url).Allowed()
    ensures net.parse(url).Some?
    ensures var u := net.parse(url).value;
            !Rebound(ResolveHost(net, u.host, u.port), CheckRequest(r, s, net, method_, url).ips)
  {
    AllowedAddressesArePermitted(r, s, net, method_, url);
    var ips := CheckRequest(r, s, net, method_, url).ips;
    if ips != [] {
      assert ips[0] in ips;
    }
  }

  /** ... and, once some address was validated, an answer passes only when all its addresses
   *  were validated and, for a sensitive host, there is at least one. */
  lemma NotReboundExactly(again: HostInfo, validated: seq<string>)
    requires validated != []
    ensures !Rebound(Some(again), validated) <==>
      (forall ip :: ip in again.ips ==> ip in validated) &&
      (again.isPrivate || again.isLoopback || again.isHardBlocked ==> again.ips != [])
  {
    if again.ips != [] {
      assert again.ips[0] in again.ips;
    }
  }
}

/** The decisions the tunnel server takes for inbound traffic: which response
    or proxy target an HTTP request gets (`setupHTTPProxy`), the guard that
    keeps a proxy error from answering twice, and when an inbound TCP
    connection on a tunnel's listener may be forwarded to the client
    (`doForward`) and with which addresses. */
module Routing {
  import opened Strings
  import opened Tunnels

  /** The routing key of a Host header: `host.split('.')[0]`. It is neither
      lower-cased nor stripped of a `:port`. */
  function HostKey(host: string): (key: string)
    ensures key <= host
    ensures '.' !in key
    ensures key == host || host[|key|] == '.'
  {
    Before(host, '.')
  }

  /** A request for `<sub>.<anything>` is routed by `sub`, whatever follows. */
  lemma HostKeyOfSubdomain(sub: string, domain: string)
    requires '.' !in sub
    ensures HostKey(sub + "." + domain) == sub
  {
    FirstIndexAfterPrefix(sub, '.', domain);
  }

  /** The reverse proxy's target for a tunnel's local listener. */
  function ProxyTarget(port: nat): string
  {
    "http://127.0.0.1:" + NatToString(port)
  }

  /** Distinct ports give distinct targets: the target names the port. */
  lemma ProxyTargetInjective(p: nat, q: nat)
    requires ProxyTarget(p) == ProxyTarget(q)
    ensures p == q
  {
    var prefix := "http://127.0.0.1:";
    assert NatToString(p) == ProxyTarget(p)[|prefix|..];
    assert NatToString(q) == ProxyTarget(q)[|prefix|..];
    ParseNatToString(p);
    ParseNatToString(q);
  }

  /** What the HTTP handler does with a request: answer it itself, or hand it
      to the reverse proxy. */
  datatype Outcome = Respond(status: nat, body: string) | Proxy(target: string)

  /** The handler of `setupHTTPProxy` for a request whose Host header is `host`
      (None when absent). */
  function Route(host: Option<string>, tunnels: map<string, Tunnel>): (r: Outcome)
    ensures r == Respond(400, "Host header required") <==> host.None? || host.value == ""
    ensures r.Respond? && r.status == 404 <==>
      host.Some? && host.value != "" && HostKey(host.value) !in tunnels
    ensures r.Respond? && r.status == 503 <==>
      host.Some? && host.value != "" && HostKey(host.value) in tunnels && !IsReady(tunnels[HostKey(host.value)])
    ensures r.Proxy? <==>
      host.Some? && host.value != "" && HostKey(host.value) in tunnels && IsReady(tunnels[HostKey(host.value)])
    ensures r.Proxy? ==> r.target == ProxyTarget(tunnels[HostKey(host.value)].allocatedPort)
  {
    if host.None? || host.value == "" then Respond(400, "Host header required")
    else
      var hostname := HostKey(host.value);
      if hostname !in tunnels then Respond(404, "Tunnel not found: " + hostname)
      else if !IsReady(tunnels[hostname]) then Respond(503, "Tunnel not ready - no allocated port")
      else Proxy(ProxyTarget(tunnels[hostname].allocatedPort))
  }

  /** After `Map.set(t.hostname, t)`, a request for `<t.hostname>.<domain>` is
      proxied to the new record's port when it is truthy; requests whose key is
      another hostname are routed as before. */
  lemma RouteAfterRegister(tunnels: map<string, Tunnel>, t: Tunnel, domain: string, host: string)
    requires '.' !in t.hostname && IsReady(t)
    ensures Route(Some(t.hostname + "." + domain), tunnels[t.hostname := t]) == Proxy(ProxyTarget(t.allocatedPort))
    ensures HostKey(host) != t.hostname ==> Route(Some(host), tunnels[t.hostname := t]) == Route(Some(host), tunnels)
  {
    HostKeyOfSubdomain(t.hostname, domain);
  }

  /** Once client `c` has closed, a request for one of its hostnames gets 404,
      and a request routed to another client's tunnel is routed as before. */
  lemma RouteAfterClose(tunnels: map<string, Tunnel>, c: Client, host: string)
    requires host != ""
    ensures Owns(tunnels, c, HostKey(host)) ==>
      Route(Some(host), WithoutClient(tunnels, c)) == Respond(404, "Tunnel not found: " + HostKey(host))
    ensures HostKey(host) in tunnels && tunnels[HostKey(host)].client != c ==>
      Route(Some(host), WithoutClient(tunnels, c)) == Route(Some(host), tunnels)
  {
    var key := HostKey(host);
    if key in tunnels && tunnels[key].client != c {
      assert WithoutClient(tunnels, c)[key] == tunnels[key];
    }
  }

  /** The outgoing HTTP response as far as the error handlers can see it. */
  datatype HttpReply = HttpReply(status: nat, body: string)
  datatype Response = Response(headersSent: bool, replies: seq<HttpReply>)

  /** The two places a proxy error is reported: the callback of `proxy.web`
      (with the error's message) and the proxy's `error` event. */
  datatype ProxyError = CallbackError(message: string) | ErrorEvent

  function BadGatewayBody(e: ProxyError): string
  {
    match e
    case CallbackError(message) => "Bad Gateway: " + message
    case ErrorEvent => "Bad Gateway"
  }

  /** The `if (!res.headersSent) res.status(502).send(...)` guard. */
  function OnProxyError(res: Response, e: ProxyError): (r: Response)
    ensures res.headersSent ==> r == res
    ensures !res.headersSent ==> r.headersSent && r.replies == res.replies + [HttpReply(502, BadGatewayBody(e))]
  {
    if res.headersSent then res
    else Response(true, res.replies + [HttpReply(502, BadGatewayBody(e))])
  }

  /** Several proxy errors reported for one request, in order. */
  function OnProxyErrors(res: Response, errors: seq<ProxyError>): Response
    decreases |errors|
  {
    if errors == [] then res else OnProxyErrors(OnProxyError(res, errors[0]), errors[1..])
  }

  /** However many errors are reported, a response gets at most one 502, and
      none at all when its headers were already sent. */
  lemma {:induction false} ProxyErrorsAnswerAtMostOnce(res: Response, errors: seq<ProxyError>)
    ensures res.headersSent ==> OnProxyErrors(res, errors) == res
    ensures |OnProxyErrors(res, errors).replies| <= |res.replies| + 1
    ensures res.replies <= OnProxyErrors(res, errors).replies
    decreases |errors|
  {
    if errors != [] {
      var next := OnProxyError(res, errors[0]);
      ProxyErrorsAnswerAtMostOnce(next, errors[1..]);
    }
  }

  /** The peer of an inbound socket; either field may be undefined. */
  datatype Peer = Peer(remoteAddress: Option<string>, remotePort: Option<nat>)

  /** One run of `doForward`: try again later, or call `client.forwardOut`
      with these four arguments. */
  datatype ForwardStep = Retry | ForwardOut(boundAddr: string, boundPort: nat, remoteAddr: string, remotePort: nat)

  /** JavaScript's `s || d` for a string that may be undefined. */
  function OrDefault(s: Option<string>, d: string): (r: string)
    ensures (s.None? || s.value == "") ==> r == d
    ensures s.Some? && s.value != "" ==> r == s.value
  {
    if s.None? || s.value == "" then d else s.value
  }

  /** `doForward` for a connection on the listener created for `hostname` by a
      request with `info`. */
  function DoForward(tunnels: map<string, Tunnel>, hostname: string, info: ForwardInfo, peer: Peer): (r: ForwardStep)
    ensures r == Retry <==> hostname !in tunnels || !IsReady(tunnels[hostname])
    ensures r.ForwardOut? ==> r.boundPort == tunnels[hostname].allocatedPort && r.boundPort != 0
    ensures r.ForwardOut? ==> r.boundAddr == (if info.bindAddr == "" then "127.0.0.1" else info.bindAddr)
    ensures r.ForwardOut? ==>
              r.remoteAddr == (if peer.remoteAddress.None? || peer.remoteAddress.value == "" then "127.0.0.1"
                               else peer.remoteAddress.value)
    ensures r.ForwardOut? ==> r.remotePort == (if peer.remotePort.Some? then peer.remotePort.value else 0)
  {
    if hostname !in tunnels || !IsReady(tunnels[hostname]) then Retry
    else
      var srcIP := OrDefault(peer.remoteAddress, "127.0.0.1");
      var srcPort := if peer.remotePort.Some? then peer.remotePort.value else 0;
      var boundAddr := OrDefault(Some(info.bindAddr), "127.0.0.1");
      ForwardOut(boundAddr, tunnels[hostname].allocatedPort, srcIP, srcPort)
  }

  /** After the owner of `hostname` closes, a pending connection on its old
      listener never proceeds: `doForward` retries for as long as no new
      record is set under that hostname. */
  lemma ForwardRetriesAfterClose(tunnels: map<string, Tunnel>, c: Client, hostname: string, info: ForwardInfo, peer: Peer)
    requires Owns(tunnels, c, hostname)
    ensures DoForward(WithoutClient(tunnels, c), hostname, info, peer) == Retry
  {
  }

  /** Once the record under `hostname` has a truthy port, every connection on
      its listener is forwarded to that port. */
  lemma ForwardProceedsAfterRegister(tunnels: map<string, Tunnel>, t: Tunnel, info: ForwardInfo, peer: Peer)
    requires IsReady(t)
    ensures DoForward(tunnels[t.hostname := t], t.hostname, info, peer).ForwardOut?
    ensures DoForward(tunnels[t.hostname := t], t.hostname, info, peer).boundPort == t.allocatedPort
  {
  }
}

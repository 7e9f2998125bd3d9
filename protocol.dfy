/** The small decision rules of the SSH side of the tunnel server: which global
    request creates a tunnel, what a `tcpip-forward` is accepted with, what a
    shell's input does, and the texts written to a client's session. */
module Protocol {
  import opened Strings
  import opened Tunnels

  /** How the `request` handler treats a global request, by name. */
  datatype RequestKind = TcpipForward | CancelTcpipForward | Unknown

  function Classify(name: string): (k: RequestKind)
    ensures k == TcpipForward <==> name == "tcpip-forward"
    ensures k == CancelTcpipForward <==> name == "cancel-tcpip-forward"
  {
    if name == "tcpip-forward" then TcpipForward
    else if name == "cancel-tcpip-forward" then CancelTcpipForward
    else Unknown
  }

  /** The answer sent through the request's `accept` or `reject` callback. */
  datatype Reply = Accepted(port: Option<nat>) | Rejected

  /** The argument of `accept` for a tunnel that listens on `allocatedPort`:
      the port when the client asked for port 0, nothing otherwise. */
  function AcceptArgument(bindPort: nat, allocatedPort: nat): (a: Option<nat>)
    ensures a.Some? <==> bindPort == 0
    ensures a.Some? ==> a.value == allocatedPort
  {
    if bindPort == 0 then Some(allocatedPort) else None
  }

  /** `accept && accept(...)` / `reject && reject()`: callbacks are absent when
      the client did not ask for a reply. */
  function Answer(wantReply: bool, r: Reply): (o: Option<Reply>)
    ensures o.Some? <==> wantReply
    ensures o.Some? ==> o.value == r
  {
    if wantReply then Some(r) else None
  }

  /** What the shell does with one `data` chunk of input. */
  datatype ShellAction = CloseShell | Echo(data: seq<byte>)

  /** Ctrl+C is a chunk of exactly one byte, 3; everything else is echoed as it came. */
  function ShellInput(data: seq<byte>): (a: ShellAction)
    ensures a == CloseShell <==> data == [3]
    ensures a.Echo? ==> a.data == data
  {
    if |data| == 1 && data[0] == 3 then CloseShell else Echo(data)
  }

  const Welcome: string := "\r\n🚇 HTunnel - Ready!\r\n"
  const ClosingNotice: string := "\r\n🛑 Closing tunnel...\r\n"

  /** `https://${hostname}.${baseDomain}` */
  function TunnelUrl(hostname: string, baseDomain: string): string
  {
    "https://" + hostname + "." + baseDomain
  }

  /** The message a client gets when one of its tunnels is created. */
  function TunnelMessage(hostname: string, baseDomain: string): (msg: string)
    ensures msg != ""
  {
    "\r\n🚀 Tunnel created: " + hostname + "\r\n🌐 Access at: " + TunnelUrl(hostname, baseDomain)
      + "\r\n\r\nPress Ctrl+C to close tunnel.\r\n"
  }

  /** One line of the active-tunnel list per hostname, in order. */
  function UrlLines(hostnames: seq<string>, baseDomain: string): (lines: seq<string>)
    ensures |lines| == |hostnames|
    ensures forall i :: 0 <= i < |hostnames| ==> lines[i] == "🌐 " + TunnelUrl(hostnames[i], baseDomain)
    decreases |hostnames|
  {
    if hostnames == [] then []
    else UrlLines(hostnames[..|hostnames| - 1], baseDomain) + ["🌐 " + TunnelUrl(hostnames[|hostnames| - 1], baseDomain)]
  }

  /** The message `sendTunnelInfoToSession` writes for a non-empty list. */
  function ActiveTunnelsMessage(lines: seq<string>): string
  {
    "\r\n🚀 Active Tunnels:\r\n" + Join(lines, "\r\n") + "\r\n\r\n"
  }
}

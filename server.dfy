/** The `TunnelServer` class: the tunnel table `this.tunnels` and the SSH event
    handlers that change it or a client's notifier fields. Each handler is
    one method; the values the libraries hand to a handler (the random draws,
    the port `listen` bound, whether `accept()` returned a channel) are its
    parameters. */
module Server {
  import opened Strings
  import opened Hostnames
  import opened Tunnels
  import opened Protocol
  import opened Routing

  /** How `server.listen(0, '127.0.0.1', ...)` ended: the listening callback
      with the port bound, or the server's `error` event. */
  datatype ListenResult = Listening(port: nat, listener: ListenerId) | ListenFailed

  /** While a client has a shell stream, no tunnel message is held back for it. */
  predicate StreamFlushed(c: Client)
    reads c
  {
    c.activeStream != null ==> c.pendingTunnelMessage.None?
  }

  class TunnelServer {
    const baseDomain: string
    /** The keys of `this.tunnels` in insertion order. */
    var order: seq<string>
    /** `this.tunnels`, from hostname to record. */
    var tunnels: map<string, Tunnel>
    /** The listeners closed by `tunnel.server.close()`, oldest first. */
    var closedListeners: seq<ListenerId>

    ghost predicate Valid()
      reads this
    {
      TableValid(order, tunnels)
    }

    constructor (baseDomain: string)
      ensures Valid()
      ensures this.baseDomain == baseDomain
      ensures order == [] && tunnels == map[] && closedListeners == []
    {
      this.baseDomain := baseDomain;
      order := [];
      tunnels := map[];
      closedListeners := [];
    }

    /** `this.tunnels.set(t.hostname, t)`: no check for an existing entry, which
        is overwritten in place. */
    method Register(t: Tunnel)
      requires Valid()
      modifies this
      ensures Valid()
      ensures tunnels == old(tunnels)[t.hostname := t]
      ensures order == SetKey(old(order), t.hostname)
      ensures closedListeners == old(closedListeners)
    {
      SetKeepsTable(order, tunnels, t);
      order := SetKey(order, t.hostname);
      tunnels := tunnels[t.hostname := t];
    }

    /** The client's `close` handler: walks the entries in insertion order and,
        for each one the client owns, closes its listener and deletes it. */
    method CloseClient(c: Client)
      requires Valid()
      modifies this
      ensures Valid()
      ensures order == Survivors(old(order), old(tunnels), c)
      ensures tunnels == WithoutClient(old(tunnels), c)
      ensures closedListeners == old(closedListeners) + ListenersOf(OwnedKeys(old(order), old(tunnels), c), old(tunnels))
    {
      var entries, snapshot := order, tunnels;
      ghost var start := CloseState(order, tunnels, closedListeners);
      var i := 0;
      while i < |entries|
        invariant 0 <= i <= |entries|
        invariant CloseState(order, tunnels, closedListeners) == CloseWalk(entries, snapshot, c, i, start)
        invariant forall k :: k in entries ==> k in snapshot
      {
        var hostname, tunnel := entries[i], snapshot[entries[i]];
        if tunnel.client == c {
          closedListeners := closedListeners + [tunnel.server];
          order := RemoveKey(order, hostname);
          tunnels := tunnels - {hostname};
        }
        i := i + 1;
      }
      CloseWalkProgress(entries, snapshot, c, |entries|, start.closed);
      CloseWalkDone(entries, snapshot, c, start.closed, order, tunnels, closedListeners);
    }

    /** The loop of `sendTunnelInfoToSession`: one URL line per tunnel of
        `client`, in insertion order. */
    method CollectTunnelUrls(client: Client) returns (lines: seq<string>)
      requires Valid()
      ensures lines == UrlLines(OwnedKeys(order, tunnels, client), baseDomain)
      ensures lines == [] <==> forall k :: k in tunnels ==> tunnels[k].client != client
    {
      lines := [];
      var i := 0;
      while i < |order|
        invariant 0 <= i <= |order|
        invariant lines == UrlLines(OwnedKeys(order[..i], tunnels, client), baseDomain)
      {
        var hostname := order[i];
        assert order[..i + 1][..i] == order[..i];
        if tunnels[hostname].client == client {
          ghost var ks := OwnedKeys(order[..i], tunnels, client);
          assert (ks + [hostname])[..|ks|] == ks;
          lines := lines + ["🌐 " + TunnelUrl(hostname, baseDomain)];
        }
        i := i + 1;
      }
      assert order[..i] == order;
      OwnedKeysMembers(order, tunnels, client);
      if lines != [] {
        assert OwnedKeys(order, tunnels, client)[0] in OwnedKeys(order, tunnels, client);
      }
    }

    /** `sendTunnelInfoToSession`: writes the list of the client's tunnel URLs
        to `session`, and nothing when the client has none. (The class defines
        it; no handler calls it.) */
    method SendTunnelInfoToSession(session: Channel, client: Client)
      requires Valid()
      modifies session
      ensures var lines := UrlLines(OwnedKeys(order, tunnels, client), baseDomain);
        session.log == old(session.log) + (if lines == [] then [] else [Text(ActiveTunnelsMessage(lines))])
    {
      var lines := CollectTunnelUrls(client);
      if |lines| > 0 {
        session.log := session.log + [Text(ActiveTunnelsMessage(lines))];
      }
    }

    /** The tail of the listening callback: the new message replaces any
        pending one, then goes to the shell stream if there is one, else to
        the session if there is one, else stays pending. */
    method NotifyTunnelCreated(client: Client, hostname: string)
      modifies client, client.activeStream, client.activeSession
      ensures client.activeStream == old(client.activeStream)
      ensures client.activeSession == old(client.activeSession)
      ensures StreamFlushed(client)
      ensures var msg := TunnelMessage(hostname, baseDomain);
        if client.activeStream != null then
          && client.pendingTunnelMessage == None
          && client.activeStream.log == old(client.activeStream.log) + [Text(msg)]
          && (client.activeSession != null && client.activeSession != client.activeStream ==>
                client.activeSession.log == old(client.activeSession.log))
        else if client.activeSession != null then
          && client.pendingTunnelMessage == None
          && client.activeSession.log == old(client.activeSession.log) + [Text(msg)]
        else
          client.pendingTunnelMessage == Some(msg)
    {
      client.pendingTunnelMessage := Some(TunnelMessage(hostname, baseDomain));
      if client.activeStream != null {
        client.activeStream.log := client.activeStream.log + [Text(client.pendingTunnelMessage.value)];
        client.pendingTunnelMessage := None;
      } else if client.activeSession != null {
        client.activeSession.log := client.activeSession.log + [Text(client.pendingTunnelMessage.value)];
        client.pendingTunnelMessage := None;
      }
    }

    /** The listening callback of a tunnel's local server: records the tunnel,
        tells the client, and answers the `tcpip-forward` request. */
    method OnListening(client: Client, info: ForwardInfo, hostname: string, port: nat, listener: ListenerId, wantReply: bool)
      returns (reply: Option<Reply>)
      requires Valid()
      modifies this, client, client.activeStream, client.activeSession
      ensures Valid()
      ensures tunnels == old(tunnels)[hostname := Tunnel(client, info.bindAddr, info.bindPort, hostname, port, listener)]
      ensures order == SetKey(old(order), hostname)
      ensures closedListeners == old(closedListeners)
      ensures reply == Answer(wantReply, Accepted(AcceptArgument(info.bindPort, port)))
      ensures client.activeStream == old(client.activeStream)
      ensures client.activeSession == old(client.activeSession)
      ensures StreamFlushed(client)
      ensures var msg := TunnelMessage(hostname, baseDomain);
        if client.activeStream != null then
          && client.pendingTunnelMessage == None
          && client.activeStream.log == old(client.activeStream.log) + [Text(msg)]
          && (client.activeSession != null && client.activeSession != client.activeStream ==>
                client.activeSession.log == old(client.activeSession.log))
        else if client.activeSession != null then
          && client.pendingTunnelMessage == None
          && client.activeSession.log == old(client.activeSession.log) + [Text(msg)]
        else
          client.pendingTunnelMessage == Some(msg)
    {
      Register(Tunnel(client, info.bindAddr, info.bindPort, hostname, port, listener));
      NotifyTunnelCreated(client, hostname);
      reply := Answer(wantReply, Accepted(AcceptArgument(info.bindPort, port)));
    }

    /** The client's `request` handler for a global request `name`, with the
        listening callback or the listener's error run right after it. */
    method HandleRequest(client: Client, name: string, info: ForwardInfo, wantReply: bool, draw: Draw, listen: ListenResult)
      returns (reply: Option<Reply>)
      requires Valid() && ValidDraw(draw)
      modifies this, client, client.activeStream, client.activeSession
      ensures Valid()
      ensures closedListeners == old(closedListeners)
      ensures client.activeStream == old(client.activeStream)
      ensures client.activeSession == old(client.activeSession)
      ensures Classify(name) == TcpipForward && listen.Listening? ==>
        var hostname := GenerateRandomHostname(draw);
        && tunnels == old(tunnels)[hostname := Tunnel(client, info.bindAddr, info.bindPort, hostname, listen.port, listen.listener)]
        && order == SetKey(old(order), hostname)
        && reply == Answer(wantReply, Accepted(AcceptArgument(info.bindPort, listen.port)))
        && StreamFlushed(client)
        && var msg := TunnelMessage(hostname, baseDomain);
          if client.activeStream != null then
            && client.pendingTunnelMessage == None
            && client.activeStream.log == old(client.activeStream.log) + [Text(msg)]
            && (client.activeSession != null && client.activeSession != client.activeStream ==>
                  client.activeSession.log == old(client.activeSession.log))
          else if client.activeSession != null then
            && client.pendingTunnelMessage == None
            && client.activeSession.log == old(client.activeSession.log) + [Text(msg)]
          else
            client.pendingTunnelMessage == Some(msg)
      ensures Classify(name) == TcpipForward && listen.ListenFailed? ==>
        tunnels == old(tunnels) && order == old(order) && reply == Answer(wantReply, Rejected)
      ensures Classify(name) == CancelTcpipForward ==>
        tunnels == old(tunnels) && order == old(order) && reply == Answer(wantReply, Accepted(None))
      ensures Classify(name) == Unknown ==>
        tunnels == old(tunnels) && order == old(order) && reply == Answer(wantReply, Rejected)
      ensures Classify(name) != TcpipForward || listen.ListenFailed? ==>
        && client.pendingTunnelMessage == old(client.pendingTunnelMessage)
        && (client.activeStream != null ==> client.activeStream.log == old(client.activeStream.log))
        && (client.activeSession != null ==> client.activeSession.log == old(client.activeSession.log))
    {
      var kind := Classify(name);
      if kind == TcpipForward {
        var hostname := GenerateRandomHostname(draw);
        if listen.Listening? {
          reply := OnListening(client, info, hostname, listen.port, listen.listener, wantReply);
        } else {
          reply := Answer(wantReply, Rejected);
        }
      } else if kind == CancelTcpipForward {
        reply := Answer(wantReply, Accepted(None));
      } else {
        reply := Answer(wantReply, Rejected);
      }
    }

    /** The client's `ready` handler: the client starts without an active session. */
    method OnReady(client: Client)
      modifies client
      ensures client.activeSession == null
      ensures client.activeStream == old(client.activeStream)
      ensures client.pendingTunnelMessage == old(client.pendingTunnelMessage)
    {
      client.activeSession := null;
    }

    /** The `session` handler: a session that was accepted becomes the client's
        active session. */
    method OnSession(client: Client, session: Channel?)
      modifies client
      ensures client.activeSession == (if session != null then session else old(client.activeSession))
      ensures client.activeStream == old(client.activeStream)
      ensures client.pendingTunnelMessage == old(client.pendingTunnelMessage)
    {
      if session != null {
        client.activeSession := session;
      }
    }

    /** The session's `pty` handler: once the pty is granted, the welcome text
        and then any pending message go to the session, and nothing stays pending. */
    method OnPty(client: Client, session: Channel, ptyGranted: bool)
      modifies client, session
      ensures client.activeStream == old(client.activeStream)
      ensures client.activeSession == old(client.activeSession)
      ensures !ptyGranted ==> session.log == old(session.log) && client.pendingTunnelMessage == old(client.pendingTunnelMessage)
      ensures ptyGranted ==> client.pendingTunnelMessage == None
      ensures ptyGranted ==>
        session.log == old(session.log) + [Text(Welcome)] +
          (if old(client.pendingTunnelMessage).Some? then [Text(old(client.pendingTunnelMessage).value)] else [])
    {
      if ptyGranted {
        session.log := session.log + [Text(Welcome)];
        if client.pendingTunnelMessage.Some? {
          session.log := session.log + [Text(client.pendingTunnelMessage.value)];
          client.pendingTunnelMessage := None;
        }
      }
    }

    /** The session's `shell` handler: an accepted stream gets the welcome text,
        becomes the client's active stream, and then gets any pending message. */
    method OnShell(client: Client, stream: Channel?)
      requires StreamFlushed(client)
      modifies client, stream
      ensures StreamFlushed(client)
      ensures client.activeSession == old(client.activeSession)
      ensures stream == null ==>
        client.activeStream == old(client.activeStream) && client.pendingTunnelMessage == old(client.pendingTunnelMessage)
      ensures stream != null ==> client.activeStream == stream && client.pendingTunnelMessage == None
      ensures stream != null ==>
        stream.log == old(stream.log) + [Text(Welcome)] +
          (if old(client.pendingTunnelMessage).Some? then [Text(old(client.pendingTunnelMessage).value)] else [])
    {
      if stream != null {
        stream.log := stream.log + [Text(Welcome)];
        client.activeStream := stream;
        if client.pendingTunnelMessage.Some? {
          stream.log := stream.log + [Text(client.pendingTunnelMessage.value)];
          client.pendingTunnelMessage := None;
        }
      }
    }

    /** The shell stream's `data` handler: Ctrl+C writes the closing notice,
        exits with status 0 and ends the stream; anything else is echoed. */
    method OnShellData(stream: Channel, data: seq<byte>)
      modifies stream
      ensures data == [3] ==> stream.log == old(stream.log) + [Text(ClosingNotice), ExitStatus(0), EndOfStream]
      ensures data != [3] ==> stream.log == old(stream.log) + [Raw(data)]
    {
      match ShellInput(data)
      case CloseShell =>
        stream.log := stream.log + [Text(ClosingNotice), ExitStatus(0), EndOfStream];
      case Echo(bytes) =>
        stream.log := stream.log + [Raw(bytes)];
    }

    /** The session's `close` handler: forgets the active session (whichever
        session closed) but keeps the active stream. */
    method OnSessionClose(client: Client)
      modifies client
      ensures client.activeSession == null
      ensures client.activeStream == old(client.activeStream)
      ensures client.pendingTunnelMessage == old(client.pendingTunnelMessage)
    {
      client.activeSession := null;
    }
  }
}

# EasyTunnel tunnel server, modelled in Dafny

EasyTunnel exposes a local HTTP service under a public hostname. A user opens an
SSH connection with a remote forward (`ssh -R0:localhost:3000 …`). The server
then does four things:

- It picks a random hostname such as `quick-fox-7`.
- It opens a local listener on an ephemeral port and records the tunnel in its
  table `this.tunnels`.
- It tells the user the URL `https://<hostname>.<baseDomain>` in their SSH session.
- It reverse-proxies HTTP requests for `<hostname>.<baseDomain>` to the
  listener, and forwards each connection on that listener back over SSH.

This project models the `TunnelServer` class of `server.js`:

- **`strings.dfy` (`Strings`)**: shared text helpers.
  - An `Option` type for values that may be undefined.
  - `split(c)[0]` as `Before`.
  - Decimal rendering of a natural number, as `${n}` prints it, and its inverse.
  - `indexOf` and `join`.
- **`hostnames.dfy` (`Hostnames`)**: `generateRandomHostname`.
  - The three `Math.random()` values are a parameter.
  - The hostname is an adjective, an animal and a number below 1000.
  - Proved: hostnames and choices correspond one to one, and every hostname is
    a DNS label.
- **`tunnels.dfy` (`Tunnels`)**: the state.
  - The JavaScript `Map` `this.tunnels` is modelled as its insertion order plus
    a Dafny `map`. `set` keeps the position of a key that is already present;
    `delete` removes the key.
  - The tunnel record, and the SSH client and channel objects with the
    notifier fields the server stores on a client.
  - The close handler's walk over the entries, with the lemmas about it.
- **`routing.dfy` (`Routing`)**: the decisions for inbound traffic.
  - The HTTP handler of `setupHTTPProxy`: 400, 404, 503 or proxy.
  - The guard that keeps a proxy error from answering twice.
  - `doForward`: wait, or call `forwardOut` with the defaulted addresses.
- **`protocol.dfy` (`Protocol`)**: the SSH-side rules.
  - Which global request does what.
  - The argument of `accept` for `tcpip-forward`.
  - The Ctrl+C test on shell input.
  - The texts written to a session.
- **`server.dfy` (`Server`)**: the class `TunnelServer`.
  - Fields: the table and the listeners closed so far.
  - One method per event handler that changes the table or a client's fields:
    `request`, the listening callback, `close`, `ready`, `session`, `pty`,
    `shell`, shell `data`, session `close`.
  - `sendTunnelInfoToSession` and its collection loop.

Where the code and the written design of the system disagree, the model follows
the code:

- **No duplicate check.** A tunnel is registered with a plain `Map.set`
  (`server.js:269`). A second tunnel that draws a hostname already in use
  overwrites the first record instead of failing.
  `Tunnels.OverwriteOrphansListener` proves what follows from that: right
  after the overwrite the old listener is no longer in the table, so closing
  any client at that point does not close it.
- **Host key.** The HTTP routing key is `host.split('.')[0]`
  (`server.js:317`). It is not lower-cased and a `:port` is not stripped, so
  `Quick-fox-7.example.com` and `quick-fox-7:8081` find nothing.
- **`cancel-tcpip-forward`** is accepted and removes nothing
  (`server.js:294-296`). Tunnels end only when their client closes.
- **No re-check after `listen`.** The listening callback registers the tunnel
  without checking that the client is still connected. A client that closed
  while `listen` was pending leaves a record behind.
- **Session `close`** sets `client.activeSession` to null whichever session
  closed, and nothing ever clears `client.activeStream`.
- **`doForward`** retries until a record with a truthy port exists under its
  hostname (`server.js:220-225`). After the owner closes, a pending connection
  retries without end (`Routing.ForwardRetriesAfterClose`).
- **`sendTunnelInfoToSession`** is defined on the class but no handler calls it.

## Model

| member | source | states |
|---|---|---|
| Hostnames.RandomIndex | server.js:48-50 | `Math.floor(Math.random() * n)` is always an index below `n` |
| Hostnames.RandomIndexReaches | server.js:48-50 | every index below `n` is the outcome of some random value in [0, 1) |
| Hostnames.Choose | server.js:48-50 | the three draws give an adjective index below 8, an animal index below 8 and a number below 1000 |
| Hostnames.GenerateRandomHostname | server.js:45-52 | the hostname parses back to exactly the choice the draws made, is a DNS label, and contains no `.` |
| Hostnames.WordLists | server.js:46-47 | the two word lists have no repeated word, and every word is 1 to 6 lower-case letters |
| Hostnames.ParseFormat | server.js:51 | parsing `${adj}-${animal}-${number}` gives back the adjective, animal and number it was built from |
| Hostnames.FormatParse | server.js:51 | every text the parser accepts is exactly the rendering of the choice it returns, so rendering is one to one |
| Hostnames.FormatIsDnsLabel | server.js:51 | every rendered hostname is 1 to 63 letters, digits and hyphens, starts with a letter, does not end with a hyphen, and has no `.` |
| Hostnames.EveryChoiceDrawable | server.js:46-50 | each of the 64000 hostnames is produced by some draw |
| Strings.ParseNatToString | server.js:50-51 | reading back the decimal text of the number gives the number |
| Strings.NatToStringOfParse | server.js:50-51 | a text the decimal reader accepts is exactly the rendering of its value, so no other text names the same number |
| Strings.Before | server.js:317 | `s.split(c)[0]` is a prefix of `s` without `c`, and is either all of `s` or is followed by `c` |
| Routing.HostKey | server.js:317 | the routing key is a prefix of the Host header with no `.`, followed in the header by `.` or by nothing |
| Routing.HostKeyOfSubdomain | server.js:317 | a request for `<sub>.<anything>` is routed by `sub`, whatever follows the first dot |
| Routing.ProxyTargetInjective | server.js:336 | different ports give different proxy targets |
| Routing.Route | server.js:311-336 | 400 exactly when Host is missing or empty; 404 exactly when the key is not in the table; 503 exactly when its record has a falsy port; otherwise proxy to `http://127.0.0.1:<allocatedPort>` |
| Routing.RouteAfterRegister | server.js:269 | after `set`, a request for `<hostname>.<domain>` is proxied to the new record's port, and requests with other keys are routed as before |
| Routing.RouteAfterClose | server.js:100-110 | after a client's close, requests for its hostnames get 404 and requests for other clients' tunnels are routed as before |
| Routing.OnProxyError | server.js:345-347 | a 502 is written only if headers were not sent, and then headers count as sent |
| Routing.ProxyErrorsAnswerAtMostOnce | server.js:341-357 | whatever errors the proxy callback and `error` event report, a response gets at most one 502, none if headers were sent, and earlier output is kept |
| Routing.OrDefault | server.js:215-217 | JavaScript's or-default gives the default exactly when the value is undefined or empty, and the value otherwise |
| Routing.DoForward | server.js:215-228 | retry exactly when the record is missing or its port is falsy; otherwise forward with the record's port, `bindAddr` or `127.0.0.1`, the peer address or `127.0.0.1`, and the peer port or 0 |
| Routing.ForwardRetriesAfterClose | server.js:220-225 | after the owner closes, a connection on its old listener keeps retrying |
| Routing.ForwardProceedsAfterRegister | server.js:220-228 | once the record has a truthy port, connections on its listener are forwarded to that port |
| Protocol.Classify | server.js:208-300 | `tcpip-forward` and `cancel-tcpip-forward` are recognised by exact name; every other name is unknown |
| Protocol.AcceptArgument | server.js:283-286 | `accept` gets the allocated port exactly when the requested bind port is 0 |
| Protocol.Answer | server.js:283-300 | a reply is sent exactly when the client asked for one, and it is the decided reply |
| Protocol.ShellInput | server.js:158-167 | the shell closes exactly on the one-byte chunk 3; any other chunk is echoed unchanged |
| Protocol.TunnelMessage | server.js:275 | the tunnel-created message is never empty, so a pending message always counts as set |
| Protocol.UrlLines | server.js:57-61 | one line `🌐 https://<hostname>.<baseDomain>` per hostname, in order |
| Tunnels.SetKey | server.js:269 | `set` keeps an existing key in place and puts a new key last; no key is lost or repeated |
| Tunnels.SetKeepsTable | server.js:269 | `set` keeps the table well formed: keys listed once, each record under its own hostname |
| Tunnels.OverwriteOrphansListener | server.js:269 | when `set` overwrites a record with a different listener, right after the overwrite, the old listener is not among those that closing any client would close |
| Tunnels.RemoveKeyAfter | server.js:106 | deleting a key takes exactly that entry out of the insertion order and keeps the rest in order |
| Tunnels.RemoveKeyDistinct | server.js:106 | after `delete`, the key is gone and every other key is still listed, once |
| Tunnels.DeleteKeepsTable | server.js:106 | `delete` keeps the table well formed |
| Tunnels.OwnedKeys | server.js:103-104 | the keys the close handler picks are keys of the order whose record belongs to the client |
| Tunnels.OwnedKeysMembers | server.js:103-104 | a key is picked exactly when it is in the table and its record belongs to the client |
| Tunnels.SurvivorsMembers | server.js:103-108 | a key survives the close exactly when it is in the order and not the client's |
| Tunnels.SurvivorsDistinct | server.js:103-108 | the surviving keys are still listed once each |
| Tunnels.OwnedAndSurvivorsPartition | server.js:103-108 | every key is either closed or survives, never both |
| Tunnels.ListenersOfMembers | server.js:105 | a listener is closed exactly when it belongs to a record the client owned |
| Tunnels.CloseStepOwned | server.js:104-107 | visiting an entry of the client closes its listener and deletes it; the walk's state moves on by that entry |
| Tunnels.CloseStepKept | server.js:103-104 | visiting an entry of another client leaves order, table and closed listeners as they were |
| Tunnels.CloseWalkProgress | server.js:103-109 | after `i` iterations the order holds the visited survivors and then the unvisited entries, the table lacks exactly the client's visited keys, and their listeners are closed in order |
| Tunnels.CloseWalkDone | server.js:103-109 | after the last iteration, the table is the old one without the client's records and the order lists exactly the survivors |
| Tunnels.CloseClientKeepsTable | server.js:100-110 | closing a client leaves a well-formed table in which the client owns nothing and every other record is unchanged |
| Server.TunnelServer.constructor | server.js:8-9 | a new server has an empty tunnel table and has closed nothing |
| Server.TunnelServer.Register | server.js:269 | the record is stored under its hostname, overwriting any record there; the order is updated by `set`; the table stays well formed |
| Server.TunnelServer.CloseClient | server.js:100-110 | every record of the client is deleted, every other record and its position are kept, and the client's listeners are closed in insertion order |
| Server.TunnelServer.CollectTunnelUrls | server.js:56-61 | the list holds the URL lines of the client's tunnels in insertion order, and is empty exactly when the client owns no tunnel |
| Server.TunnelServer.SendTunnelInfoToSession | server.js:54-71 | the session gets the active-tunnel message if the client owns a tunnel, and nothing otherwise |
| Server.TunnelServer.NotifyTunnelCreated | server.js:274-280 | the new message replaces any pending one; it goes to the stream if there is one, else to the session, else it stays pending |
| Server.TunnelServer.OnListening | server.js:257-287 | the tunnel is recorded with the bound port and listener; the new message replaces any pending one and is written to the stream if there is one, else to the session, else stays pending; the request is accepted with the port only for bind port 0 |
| Server.TunnelServer.HandleRequest | server.js:204-302 | `tcpip-forward` registers a tunnel under the generated hostname and delivers its message as the listening callback does when `listen` succeeds, and rejects when it fails; cancel is accepted and any other request rejected; except after a successful `tcpip-forward`, the table, the pending message and the session and stream logs are unchanged |
| Server.TunnelServer.OnReady | server.js:116 | a ready client has no active session |
| Server.TunnelServer.OnSession | server.js:119-123 | an accepted session becomes the client's active session |
| Server.TunnelServer.OnPty | server.js:125-138 | when the pty is granted, the welcome text and then any pending message are written to the session, and nothing stays pending |
| Server.TunnelServer.OnShell | server.js:140-156 | an accepted stream gets the welcome text, becomes the active stream and then gets any pending message; a client with a stream holds no pending message |
| Server.TunnelServer.OnShellData | server.js:158-168 | Ctrl+C writes the closing notice, exits with status 0 and ends the stream; any other chunk is echoed |
| Server.TunnelServer.OnSessionClose | server.js:178-180 | the active session is cleared and the active stream is kept |

## Left out

- SSH server setup, authentication (accepts everything, `server.js:82-85`), the `service`, `error`, `end`, `rekey`, `tcpip-forward`, `forward` and `tcpip` handlers, and `exec` rejection. They call into the ssh2 library or only log.
- Host key loading (`server.js:25-43`): file-system I/O.
- The constructor's defaults from environment variables, the verbose flag and every `console.log`/`vlog` call. `baseDomain` is a constructor parameter.
- express and http-proxy mechanics: `changeOrigin`, timeouts, `req.url` rewriting and `proxyRes` logging. Only the routing decision and the 502 guard are modelled.
- `net.createServer`, the ephemeral-port `listen`, `forwardOut` and the two-way `pipe` with its cross-closing on error and close. These are sockets and event-driven concurrency. `listen`'s outcome is a parameter, and a listener is an identifier.
- `Server.TunnelServer.HandleRequest`: the listening callback or error is taken to run right after the request. The model does not capture other events that interleave while `listen` is pending.
- `Routing.DoForward`: models one run. The `setImmediate` rescheduling is a timing mechanism and is not modelled.
- `Math.random` returns a float. Its values are modelled as real numbers in [0, 1), so floating-point rounding of `r * n` is not modelled.
- `Server.TunnelServer.NotifyTunnelCreated`, `Server.TunnelServer.SendTunnelInfoToSession`: a `write` that throws is not modelled. A write always succeeds, so the message is always cleared after it is written.
- `Server.TunnelServer.OnPty`: whether `accept()` returned a truthy pty is a boolean parameter.
- `Server.TunnelServer.OnShell`, `Server.TunnelServer.OnSession`: a falsy `accept()` result is modelled as `null`.
- `pendingTunnelMessage` truthiness is modelled as `Some`. This is exact because the only message ever stored is non-empty (`Protocol.TunnelMessage`).
- `tunnel.server && tunnel.server.close()` and its `try`: every record has a listener, and closing it is recorded and never fails.
- `start()` and `index.js`: port reading, signal handlers and process exit.

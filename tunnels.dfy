/** The state the tunnel server keeps: SSH client connections with the three
    notifier fields the server attaches to them, session and shell channels,
    and the tunnel records of `this.tunnels`.

    `this.tunnels` is a JavaScript Map. It is modelled as the pair of its
    insertion order (`order`, the order `entries()` visits) and a Dafny map
    from hostname to record. The functions below give the effect of
    `Map.set`, `Map.delete` and the close handler's loop on that pair. */
module Tunnels {
  import opened Strings

  newtype byte = b: int | 0 <= b < 256

  /** One thing the server did to a channel: wrote text, wrote raw bytes,
      sent an exit status, or ended the stream. */
  datatype ChannelOp = Text(text: string) | Raw(data: seq<byte>) | ExitStatus(code: int) | EndOfStream

  /** An SSH session channel or shell stream. `log` is everything the server
      has done to it, oldest first. */
  class Channel {
    var log: seq<ChannelOp>

    constructor ()
      ensures log == []
    {
      log := [];
    }
  }

  /** An SSH client connection, with the fields the server stores on it. */
  class Client {
    var pendingTunnelMessage: Option<string>
    var activeSession: Channel?
    var activeStream: Channel?

    constructor ()
      ensures pendingTunnelMessage == None && activeSession == null && activeStream == null
    {
      pendingTunnelMessage := None;
      activeSession := null;
      activeStream := null;
    }
  }

  /** Identifies the local `net.Server` a tunnel listens on. */
  type ListenerId = nat

  /** The `info` of a `tcpip-forward` request. */
  datatype ForwardInfo = ForwardInfo(bindAddr: string, bindPort: nat)

  /** The record `tunnelInfo`. `allocatedPort` 0 stands for a falsy port. */
  datatype Tunnel = Tunnel(
    client: Client,
    bindAddr: string,
    bindPort: nat,
    hostname: string,
    allocatedPort: nat,
    server: ListenerId)

  /** `tunnel.allocatedPort` is truthy. */
  predicate IsReady(t: Tunnel) { t.allocatedPort != 0 }

  predicate Owns(m: map<string, Tunnel>, c: Client, k: string) { k in m && m[k].client == c }

  /** The order lists each key of the map once, and each record sits under its own hostname. */
  ghost predicate TableValid(order: seq<string>, m: map<string, Tunnel>)
  {
    && Distinct(order)
    && (forall k :: k in order <==> k in m)
    && (forall k :: k in m ==> m[k].hostname == k)
  }

  /** No two records share a listener: each `net.Server` belongs to one tunnel. */
  ghost predicate UniqueListeners(m: map<string, Tunnel>)
  {
    forall k1, k2 :: k1 in m && k2 in m && k1 != k2 ==> m[k1].server != m[k2].server
  }

  /** The insertion order after `Map.set(k, _)`: a new key goes last, a key
      already present keeps its place. */
  function SetKey(order: seq<string>, k: string): (r: seq<string>)
    ensures Distinct(order) ==> Distinct(r)
    ensures forall x :: x in r <==> x in order || x == k
    ensures order <= r
  {
    if k in order then order else order + [k]
  }

  /** The insertion order after `Map.delete(k)`. */
  function RemoveKey(order: seq<string>, k: string): seq<string>
  {
    if order == [] then []
    else if order[0] == k then order[1..]
    else [order[0]] + RemoveKey(order[1..], k)
  }

  /** In an order without repetitions, `Map.delete(k)` removes `k` altogether
      and leaves no repetitions. */
  lemma {:induction false} RemoveKeyDistinct(order: seq<string>, k: string)
    requires Distinct(order)
    ensures Distinct(RemoveKey(order, k))
    ensures forall x :: x in RemoveKey(order, k) <==> x in order && x != k
  {
    if order != [] && order[0] != k {
      assert Distinct(order[1..]) && order[0] !in order[1..];
      RemoveKeyDistinct(order[1..], k);
    }
  }

  /** Deleting a key that stands after a prefix without it leaves prefix and suffix joined. */
  lemma {:induction false} RemoveKeyAfter(p: seq<string>, k: string, q: seq<string>)
    requires k !in p
    ensures RemoveKey(p + [k] + q, k) == p + q
  {
    var s := p + [k] + q;
    if p == [] {
      assert s == [k] + q;
    } else {
      assert s[0] == p[0] && p[0] != k;
      assert s[1..] == p[1..] + [k] + q;
      RemoveKeyAfter(p[1..], k, q);
      assert p + q == [p[0]] + (p[1..] + q);
    }
  }

  /** The keys of `order` owned by client `c`, in order. */
  function OwnedKeys(order: seq<string>, m: map<string, Tunnel>, c: Client): (r: seq<string>)
    ensures forall x :: x in r ==> x in order && Owns(m, c, x)
    decreases |order|
  {
    if order == [] then []
    else
      var k := order[|order| - 1];
      var init := OwnedKeys(order[..|order| - 1], m, c);
      if Owns(m, c, k) then init + [k] else init
  }

  /** The keys of `order` not owned by client `c`, in order. */
  function Survivors(order: seq<string>, m: map<string, Tunnel>, c: Client): seq<string>
    decreases |order|
  {
    if order == [] then []
    else
      var k := order[|order| - 1];
      var init := Survivors(order[..|order| - 1], m, c);
      if Owns(m, c, k) then init else init + [k]
  }

  /** The listeners of the records under `keys`, in order. */
  function ListenersOf(keys: seq<string>, m: map<string, Tunnel>): seq<ListenerId>
    requires forall k :: k in keys ==> k in m
    decreases |keys|
  {
    if keys == [] then []
    else ListenersOf(keys[..|keys| - 1], m) + [m[keys[|keys| - 1]].server]
  }

  /** The keys listed in `keys`. */
  function KeySet(keys: seq<string>): set<string>
  {
    set k | k in keys
  }

  /** The table with every record of client `c` taken out. */
  function WithoutClient(m: map<string, Tunnel>, c: Client): map<string, Tunnel>
  {
    map k | k in m && m[k].client != c :: m[k]
  }

  lemma {:induction false} OwnedKeysMembers(order: seq<string>, m: map<string, Tunnel>, c: Client)
    ensures forall x :: x in OwnedKeys(order, m, c) <==> x in order && Owns(m, c, x)
    decreases |order|
  {
    if order != [] {
      OwnedKeysMembers(order[..|order| - 1], m, c);
      assert order == order[..|order| - 1] + [order[|order| - 1]];
    }
  }

  lemma {:induction false} SurvivorsMembers(order: seq<string>, m: map<string, Tunnel>, c: Client)
    ensures forall x :: x in Survivors(order, m, c) <==> x in order && !Owns(m, c, x)
    decreases |order|
  {
    if order != [] {
      SurvivorsMembers(order[..|order| - 1], m, c);
      assert order == order[..|order| - 1] + [order[|order| - 1]];
    }
  }

  /** Keeping a subsequence of a sequence without repetitions keeps it without repetitions. */
  lemma {:induction false} SurvivorsDistinct(order: seq<string>, m: map<string, Tunnel>, c: Client)
    requires Distinct(order)
    ensures Distinct(Survivors(order, m, c))
    decreases |order|
  {
    if order != [] {
      var init := order[..|order| - 1];
      SurvivorsDistinct(init, m, c);
      SurvivorsMembers(init, m, c);
    }
  }

  /** Each key of the table is either owned by `c` and closed, or survives:
      together they account for the whole order. */
  lemma {:induction false} OwnedAndSurvivorsPartition(order: seq<string>, m: map<string, Tunnel>, c: Client)
    ensures |OwnedKeys(order, m, c)| + |Survivors(order, m, c)| == |order|
    decreases |order|
  {
    if order != [] {
      OwnedAndSurvivorsPartition(order[..|order| - 1], m, c);
    }
  }

  /** A listener is among those of `keys` exactly when some record under one of `keys` has it. */
  lemma {:induction false} ListenersOfMembers(keys: seq<string>, m: map<string, Tunnel>, l: ListenerId)
    requires forall k :: k in keys ==> k in m
    ensures l in ListenersOf(keys, m) <==> exists k :: k in keys && m[k].server == l
    decreases |keys|
  {
    if keys != [] {
      var init := keys[..|keys| - 1];
      var last := keys[|keys| - 1];
      ListenersOfMembers(init, m, l);
      assert keys == init + [last];
      if l in ListenersOf(keys, m) && l !in ListenersOf(init, m) {
        assert last in keys && m[last].server == l;
      }
    }
  }

  /** Closing client `c` leaves a valid table in which `c` owns nothing and every
      other record is as it was. */
  lemma CloseClientKeepsTable(order: seq<string>, m: map<string, Tunnel>, c: Client)
    requires TableValid(order, m)
    ensures TableValid(Survivors(order, m, c), WithoutClient(m, c))
    ensures m - KeySet(OwnedKeys(order, m, c)) == WithoutClient(m, c)
    ensures forall k :: k in WithoutClient(m, c) ==> WithoutClient(m, c)[k].client != c
    ensures forall k :: k in m && m[k].client != c ==> k in WithoutClient(m, c) && WithoutClient(m, c)[k] == m[k]
  {
    SurvivorsDistinct(order, m, c);
    SurvivorsMembers(order, m, c);
    OwnedKeysMembers(order, m, c);
  }

  /** The state of the close handler's walk after it has visited the first
      `i` entries of `entries` (the order when the walk began, over table `m`):
      the order holds the visited survivors followed by the unvisited entries,
      the table lacks exactly the visited keys of `c`, and their listeners
      have been closed after `closed0`, in order. */
  ghost predicate WalkedUpTo(entries: seq<string>, m: map<string, Tunnel>, c: Client, i: nat,
                             order: seq<string>, t: map<string, Tunnel>, closed0: seq<ListenerId>, closed: seq<ListenerId>)
    requires i <= |entries|
  {
    var owned := OwnedKeys(entries[..i], m, c);
    && order == Survivors(entries[..i], m, c) + entries[i..]
    && t == m - KeySet(owned)
    && closed == closed0 + ListenersOf(owned, m)
  }

  /** One more entry of the close handler's walk, one that client `c` owns:
      its listener is closed and it is deleted from order and table. */
  lemma CloseStepOwned(entries: seq<string>, m: map<string, Tunnel>, c: Client, i: nat, closed0: seq<ListenerId>,
                       order: seq<string>, t: map<string, Tunnel>, closed: seq<ListenerId>)
    requires i < |entries| && Owns(m, c, entries[i])
    requires entries[i] !in Survivors(entries[..i], m, c)
    requires WalkedUpTo(entries, m, c, i, order, t, closed0, closed)
    ensures WalkedUpTo(entries, m, c, i + 1, RemoveKey(order, entries[i]), t - {entries[i]}, closed0, closed + [m[entries[i]].server])
  {
    PrefixStep(entries, m, c, i);
    OwnedOrderStep(entries, m, c, i, order);
    OwnedTableStep(entries, m, c, i, t);
    OwnedClosedStep(entries, m, c, i, closed0, closed);
  }

  lemma OwnedOrderStep(entries: seq<string>, m: map<string, Tunnel>, c: Client, i: nat, order: seq<string>)
    requires i < |entries| && Owns(m, c, entries[i])
    requires entries[i] !in Survivors(entries[..i], m, c)
    requires order == Survivors(entries[..i], m, c) + entries[i..]
    ensures RemoveKey(order, entries[i]) == Survivors(entries[..i + 1], m, c) + entries[i + 1..]
  {
    var k, kept := entries[i], Survivors(entries[..i], m, c);
    assert order == kept + [k] + entries[i + 1..] by {
      assert entries[i..] == [k] + entries[i + 1..];
      AppendAssoc(kept, [k], entries[i + 1..]);
    }
    RemoveKeyAfter(kept, k, entries[i + 1..]);
    PrefixStep(entries, m, c, i);
  }

  lemma OwnedTableStep(entries: seq<string>, m: map<string, Tunnel>, c: Client, i: nat, t: map<string, Tunnel>)
    requires i < |entries| && Owns(m, c, entries[i])
    requires t == m - KeySet(OwnedKeys(entries[..i], m, c))
    ensures t - {entries[i]} == m - KeySet(OwnedKeys(entries[..i + 1], m, c))
  {
    PrefixStep(entries, m, c, i);
    assert KeySet(OwnedKeys(entries[..i + 1], m, c)) == KeySet(OwnedKeys(entries[..i], m, c)) + {entries[i]};
  }

  lemma OwnedClosedStep(entries: seq<string>, m: map<string, Tunnel>, c: Client, i: nat,
                        closed0: seq<ListenerId>, closed: seq<ListenerId>)
    requires i < |entries| && Owns(m, c, entries[i])
    requires closed == closed0 + ListenersOf(OwnedKeys(entries[..i], m, c), m)
    ensures closed + [m[entries[i]].server] == closed0 + ListenersOf(OwnedKeys(entries[..i + 1], m, c), m)
  {
    var owned := OwnedKeys(entries[..i], m, c);
    PrefixStep(entries, m, c, i);
    ListenersOfSnoc(owned, entries[i], m);
    AppendAssoc(closed0, ListenersOf(owned, m), [m[entries[i]].server]);
  }

  /** One more entry of the close handler's walk, one that client `c` does
      not own: nothing changes but the position of the walk. */
  lemma CloseStepKept(entries: seq<string>, m: map<string, Tunnel>, c: Client, i: nat, closed0: seq<ListenerId>,
                      order: seq<string>, t: map<string, Tunnel>, closed: seq<ListenerId>)
    requires i < |entries| && !Owns(m, c, entries[i])
    requires WalkedUpTo(entries, m, c, i, order, t, closed0, closed)
    ensures WalkedUpTo(entries, m, c, i + 1, order, t, closed0, closed)
  {
    var k := entries[i];
    PrefixStep(entries, m, c, i);
    assert entries[i..] == [k] + entries[i + 1..];
    assert order == (Survivors(entries[..i], m, c) + [k]) + entries[i + 1..];
  }

  /** Visiting entry `i` extends the survivors or the owned keys by it. */
  lemma PrefixStep(entries: seq<string>, m: map<string, Tunnel>, c: Client, i: nat)
    requires i < |entries|
    ensures Survivors(entries[..i + 1], m, c) ==
      if Owns(m, c, entries[i]) then Survivors(entries[..i], m, c) else Survivors(entries[..i], m, c) + [entries[i]]
    ensures OwnedKeys(entries[..i + 1], m, c) ==
      if Owns(m, c, entries[i]) then OwnedKeys(entries[..i], m, c) + [entries[i]] else OwnedKeys(entries[..i], m, c)
  {
    assert entries[..i + 1][..i] == entries[..i];
  }

  /** What the close handler's loop keeps changing: the order and contents of
      `this.tunnels` and the listeners closed so far. */
  datatype CloseState = CloseState(order: seq<string>, tunnels: map<string, Tunnel>, closed: seq<ListenerId>)

  /** One iteration of the close handler's loop for entry `k`, whose record
      the iterator yields from `m`: an entry of `c` has its listener closed and
      is deleted. */
  function CloseEntry(s: CloseState, k: string, m: map<string, Tunnel>, c: Client): CloseState
  {
    if Owns(m, c, k) then CloseState(RemoveKey(s.order, k), s.tunnels - {k}, s.closed + [m[k].server])
    else s
  }

  /** The state after the first `i` iterations of the close handler's loop
      over `entries`, started from `start`. */
  function CloseWalk(entries: seq<string>, m: map<string, Tunnel>, c: Client, i: nat, start: CloseState): CloseState
    requires i <= |entries|
  {
    if i == 0 then start else CloseEntry(CloseWalk(entries, m, c, i - 1, start), entries[i - 1], m, c)
  }

  /** Started from the table itself, the loop after `i` iterations has kept
      the visited survivors followed by the unvisited entries, deleted exactly
      the visited keys of `c`, and closed their listeners in order. */
  lemma {:induction false} CloseWalkProgress(entries: seq<string>, m: map<string, Tunnel>, c: Client, i: nat, closed0: seq<ListenerId>)
    requires TableValid(entries, m) && i <= |entries|
    ensures var s := CloseWalk(entries, m, c, i, CloseState(entries, m, closed0));
      WalkedUpTo(entries, m, c, i, s.order, s.tunnels, closed0, s.closed)
  {
    var start := CloseState(entries, m, closed0);
    if i == 0 {
      assert entries[..0] == [] && entries[0..] == entries;
      assert KeySet([]) == {};
    } else {
      CloseWalkProgress(entries, m, c, i - 1, closed0);
      var s := CloseWalk(entries, m, c, i - 1, start);
      var k := entries[i - 1];
      if Owns(m, c, k) {
        assert k !in Survivors(entries[..i - 1], m, c) by {
          SurvivorsMembers(entries[..i - 1], m, c);
        }
        CloseStepOwned(entries, m, c, i - 1, closed0, s.order, s.tunnels, s.closed);
      } else {
        CloseStepKept(entries, m, c, i - 1, closed0, s.order, s.tunnels, s.closed);
      }
    }
  }

  /** When the walk has visited every entry, the table is `m` without client
      `c` and the order its survivors. */
  lemma CloseWalkDone(entries: seq<string>, m: map<string, Tunnel>, c: Client, closed0: seq<ListenerId>,
                      order: seq<string>, t: map<string, Tunnel>, closed: seq<ListenerId>)
    requires TableValid(entries, m)
    requires WalkedUpTo(entries, m, c, |entries|, order, t, closed0, closed)
    ensures TableValid(order, t)
    ensures order == Survivors(entries, m, c)
    ensures t == WithoutClient(m, c)
    ensures closed == closed0 + ListenersOf(OwnedKeys(entries, m, c), m)
  {
    assert entries[..|entries|] == entries && entries[|entries|..] == [];
    assert order == Survivors(entries, m, c) + [];
    CloseClientKeepsTable(entries, m, c);
  }

  lemma ListenersOfSnoc(keys: seq<string>, k: string, m: map<string, Tunnel>)
    requires forall x :: x in keys ==> x in m
    requires k in m
    ensures ListenersOf(keys + [k], m) == ListenersOf(keys, m) + [m[k].server]
  {
    assert (keys + [k])[..|keys|] == keys;
  }

  /** `Map.delete(k)` keeps the table valid. */
  lemma DeleteKeepsTable(order: seq<string>, m: map<string, Tunnel>, k: string)
    requires TableValid(order, m)
    ensures TableValid(RemoveKey(order, k), m - {k})
  {
    RemoveKeyDistinct(order, k);
  }

  /** `Map.set(t.hostname, t)` keeps the table valid. */
  lemma SetKeepsTable(order: seq<string>, m: map<string, Tunnel>, t: Tunnel)
    requires TableValid(order, m)
    ensures TableValid(SetKey(order, t.hostname), m[t.hostname := t])
  {
  }

  /** Registering over an existing hostname with a new listener orphans the old
      listener: it is no longer in the table, so no client's close handler
      will ever close it. */
  lemma OverwriteOrphansListener(order: seq<string>, m: map<string, Tunnel>, t: Tunnel, c: Client)
    requires TableValid(order, m) && UniqueListeners(m)
    requires t.hostname in m && m[t.hostname].server != t.server
    ensures m[t.hostname].server !in
      ListenersOf(OwnedKeys(SetKey(order, t.hostname), m[t.hostname := t], c), m[t.hostname := t])
  {
    var m' := m[t.hostname := t];
    var o' := SetKey(order, t.hostname);
    var l := m[t.hostname].server;
    OwnedKeysMembers(o', m', c);
    ListenersOfMembers(OwnedKeys(o', m', c), m', l);
    forall k | k in m' ensures m'[k].server != l {
      if k != t.hostname {
        assert m'[k] == m[k];
      }
    }
  }
}

/**
 * What starting a batch of servers asks of the clients. Each selected
 * server is one isolated unit of work: an already-registered server is
 * reconnected through its existing client (disconnect, connect, discover);
 * a new server gets a client from the factory and is connected and
 * discovered; a server whose client cannot be built makes no call and is
 * not registered, and the batch goes on.
 */
module Startup {
  import opened McpTypes
  import opened CallTrace

  /** The client constructor: Some(instructions) builds a client reporting those instructions, None means it throws. */
  type ClientFactory = ServerName -> Option<string>

  /** Calls made when server `n` is started. */
  function ServerStartEvents(registered: bool, constructs: bool, n: ServerName): seq<Event> {
    if registered then [ClientCall(Disconnect, n), ClientCall(Connect, n), ClientCall(Discover, n)]
    else if constructs then [ClientCall(Connect, n), ClientCall(Discover, n)]
    else []
  }

  /** Calls made when `names` are started one after another; `registered` are the names that already had a client. */
  function BatchEvents(names: seq<ServerName>, registered: set<ServerName>, factory: ClientFactory): seq<Event> {
    if names == [] then []
    else
      var n := names[|names| - 1];
      BatchEvents(names[..|names| - 1], registered, factory) + ServerStartEvents(n in registered, factory(n).Some?, n)
  }

  /** The names a batch adds to the registry, in registration order. */
  function Constructed(names: seq<ServerName>, registered: set<ServerName>, factory: ClientFactory): seq<ServerName> {
    if names == [] then []
    else
      var n := names[|names| - 1];
      Constructed(names[..|names| - 1], registered, factory) + (if n !in registered && factory(n).Some? then [n] else [])
  }

  /**
   * A batch registers exactly the names that were not registered yet and
   * whose client could be built, each once when the names are distinct.
   */
  lemma {:induction false} ConstructedMembers(names: seq<ServerName>, registered: set<ServerName>, factory: ClientFactory)
    ensures forall n :: n in Constructed(names, registered, factory) <==> n in names && n !in registered && factory(n).Some?
    ensures Distinct(names) ==> Distinct(Constructed(names, registered, factory))
  {
    if names != [] {
      var n, init := names[|names| - 1], names[..|names| - 1];
      assert names == init + [n];
      assert forall m :: m in names <==> m in init || m == n;
      ConstructedMembers(init, registered, factory);
      DistinctSnoc(init, n);
      DistinctSnoc(Constructed(init, registered, factory), n);
    }
  }

  /** How many of `names` get a connect call: the registered ones and those whose client can be built. */
  function StartedCount(names: seq<ServerName>, registered: set<ServerName>, factory: ClientFactory): nat {
    if names == [] then 0
    else
      var n := names[|names| - 1];
      StartedCount(names[..|names| - 1], registered, factory) + (if n in registered || factory(n).Some? then 1 else 0)
  }

  /** How many of `names` were already registered (and so get a disconnect call). */
  function ReconnectedCount(names: seq<ServerName>, registered: set<ServerName>): nat {
    if names == [] then 0
    else
      var n := names[|names| - 1];
      ReconnectedCount(names[..|names| - 1], registered) + (if n in registered then 1 else 0)
  }

  /** Calls made when the registered `names` are each reconnected (restart). */
  function ReconnectEvents(names: seq<ServerName>): seq<Event> {
    if names == [] then []
    else ReconnectEvents(names[..|names| - 1]) + ServerStartEvents(true, false, names[|names| - 1])
  }

  /**
   * The registry a batch leaves: names outside the batch are untouched; a
   * batch name that was registered keeps its entry and is marked healthy
   * at `now` (its client connected again); a new name is registered exactly
   * when its client could be built, with that client's instructions and
   * the extension it came from.
   */
  ghost predicate BatchRegistry(before: map<ServerName, ClientEntry>, after: map<ServerName, ClientEntry>,
                          names: seq<ServerName>, extensionName: string, factory: ClientFactory, now: int)
  {
    && (forall n :: n in after <==> n in before || (n in names && factory(n).Some?))
    && (forall n :: n in after && n !in names ==> after[n] == before[n])
    && (forall n :: n in names && n in before ==> after[n] == before[n].(lastHealthy := now))
    && (forall n :: n in names && n !in before && factory(n).Some? ==>
          after[n] == ClientEntry(extensionName, factory(n).value, false, now))
  }

  /** Starting one more server `n` after `names` extends the registry description by `n`. */
  lemma BatchRegistryStep(before: map<ServerName, ClientEntry>, mid: map<ServerName, ClientEntry>, after: map<ServerName, ClientEntry>,
                          names: seq<ServerName>, n: ServerName, extensionName: string, factory: ClientFactory, now: int)
    requires BatchRegistry(before, mid, names, extensionName, factory, now)
    requires n !in names
    requires n in mid ==> after == mid[n := mid[n].(lastHealthy := now)]
    requires n !in mid && factory(n).Some? ==> after == mid[n := ClientEntry(extensionName, factory(n).value, false, now)]
    requires n !in mid && factory(n).None? ==> after == mid
    ensures BatchRegistry(before, after, names + [n], extensionName, factory, now)
  {
    assert forall m :: m in names + [n] <==> m in names || m == n;
  }

  /** Per server, one start makes at most one call of each kind, and a disconnect only for a registered server. */
  lemma ServerStartCounts(registered: bool, constructs: bool, n: ServerName, m: ServerName, k: CallKind)
    ensures CountCall(ServerStartEvents(registered, constructs, n), k, m) ==
            (if m != n then 0
             else if k == Disconnect then (if registered then 1 else 0)
             else if registered || constructs then 1 else 0)
    ensures CountKind(ServerStartEvents(registered, constructs, n), k) ==
            (if k == Disconnect then (if registered then 1 else 0)
             else if registered || constructs then 1 else 0)
    ensures Refreshes(ServerStartEvents(registered, constructs, n)) == 0
    ensures States(ServerStartEvents(registered, constructs, n)) == []
  {
    var dis, con, dsc := [ClientCall(Disconnect, n)], [ClientCall(Connect, n)], [ClientCall(Discover, n)];
    SingleCounts(ClientCall(Disconnect, n), k, m);
    SingleCounts(ClientCall(Connect, n), k, m);
    SingleCounts(ClientCall(Discover, n), k, m);
    CountCallAppend(con, dsc, k, m);
    CountKindAppend(con, dsc, k);
    RefreshesAppend(con, dsc);
    StatesAppend(con, dsc);
    if registered {
      assert ServerStartEvents(registered, constructs, n) == dis + (con + dsc);
      CountCallAppend(dis, con + dsc, k, m);
      CountKindAppend(dis, con + dsc, k);
      RefreshesAppend(dis, con + dsc);
      StatesAppend(dis, con + dsc);
    } else if constructs {
      assert ServerStartEvents(registered, constructs, n) == con + dsc;
    }
  }

  /** The calls and registrations of a batch over a prefix one name longer. */
  lemma BatchPrefix(names: seq<ServerName>, i: nat, registered: set<ServerName>, factory: ClientFactory)
    requires i < |names|
    ensures BatchEvents(names[..i + 1], registered, factory) ==
            BatchEvents(names[..i], registered, factory) + ServerStartEvents(names[i] in registered, factory(names[i]).Some?, names[i])
    ensures Constructed(names[..i + 1], registered, factory) ==
            Constructed(names[..i], registered, factory)
              + (if names[i] !in registered && factory(names[i]).Some? then [names[i]] else [])
  {
    assert names[..i + 1][..i] == names[..i];
  }

  /** The calls of a restart over a prefix one name longer. */
  lemma ReconnectPrefix(names: seq<ServerName>, i: nat)
    requires i < |names|
    ensures ReconnectEvents(names[..i + 1]) == ReconnectEvents(names[..i]) + ServerStartEvents(true, false, names[i])
  {
    assert names[..i + 1][..i] == names[..i];
  }

  /** The registry part-way through a restart: the names in `done` have reconnected at `now`. */
  function Reconnected(clients: map<ServerName, ClientEntry>, done: seq<ServerName>, now: int): (r: map<ServerName, ClientEntry>)
    ensures r.Keys == clients.Keys
  {
    map n | n in clients :: if n in done then clients[n].(lastHealthy := now) else clients[n]
  }

  lemma ReconnectedNone(clients: map<ServerName, ClientEntry>, now: int)
    ensures Reconnected(clients, [], now) == clients
  {
  }

  /** Reconnecting one more server updates exactly its entry. */
  lemma ReconnectedStep(clients: map<ServerName, ClientEntry>, done: seq<ServerName>, n: ServerName, now: int)
    requires n in clients && n !in done
    ensures Reconnected(clients, done, now)[n] == clients[n]
    ensures Reconnected(clients, done + [n], now) == Reconnected(clients, done, now)[n := clients[n].(lastHealthy := now)]
  {
    var before, after := Reconnected(clients, done, now), Reconnected(clients, done + [n], now);
    var expected := before[n := clients[n].(lastHealthy := now)];
    assert forall m :: m in done + [n] <==> m in done || m == n;
    assert after.Keys == expected.Keys;
    forall m | m in after ensures after[m] == expected[m] {
    }
  }

  /** Once every server has reconnected, each entry is its old one marked healthy at `now`. */
  lemma ReconnectedAll(clients: map<ServerName, ClientEntry>, current: map<ServerName, ClientEntry>, done: seq<ServerName>, now: int)
    requires current == Reconnected(clients, done, now)
    requires forall n :: n in current ==> n in done
    ensures forall n :: n in current <==> n in clients
    ensures forall n :: n in current ==> current[n] == clients[n].(lastHealthy := now)
  {
  }

  /** The calls of one start, as they are appended one after another. */
  lemma ServerStartSteps(t: seq<Event>, registered: bool, constructs: bool, n: ServerName)
    ensures registered ==>
      t + ServerStartEvents(registered, constructs, n) == t + [ClientCall(Disconnect, n)] + [ClientCall(Connect, n)] + [ClientCall(Discover, n)]
    ensures !registered && constructs ==>
      t + ServerStartEvents(registered, constructs, n) == t + [ClientCall(Connect, n)] + [ClientCall(Discover, n)]
    ensures !registered && !constructs ==> t + ServerStartEvents(registered, constructs, n) == t
  {
  }

  /** Starting a server changes no discovery state. */
  lemma StartKeepsState(t: seq<Event>, registered: bool, constructs: bool, n: ServerName)
    ensures LastState(t + ServerStartEvents(registered, constructs, n)) == LastState(t)
  {
    ServerStartCounts(registered, constructs, n, n, Connect);
    LastStateKept(t, ServerStartEvents(registered, constructs, n));
  }

  /**
   * For duplicate-free names, a batch connects and discovers each name
   * exactly once when it is registered or its client can be built, never
   * otherwise, and disconnects exactly the names that were registered.
   */
  lemma {:induction false} BatchPerServer(names: seq<ServerName>, registered: set<ServerName>, factory: ClientFactory, m: ServerName, k: CallKind)
    requires Distinct(names)
    ensures CountCall(BatchEvents(names, registered, factory), k, m) ==
            (if m !in names then 0
             else if k == Disconnect then (if m in registered then 1 else 0)
             else if m in registered || factory(m).Some? then 1 else 0)
  {
    if names != [] {
      var n := names[|names| - 1];
      var init := names[..|names| - 1];
      assert names == init + [n];
      DistinctSnoc(init, n);
      assert forall x :: x in names <==> x in init || x == n;
      BatchPerServer(init, registered, factory, m, k);
      CountCallAppend(BatchEvents(init, registered, factory), ServerStartEvents(n in registered, factory(n).Some?, n), k, m);
      ServerStartCounts(n in registered, factory(n).Some?, n, m, k);
    }
  }

  /**
   * Totals over a batch: as many connects and discovers as started
   * servers, as many disconnects as reconnected ones, and no context
   * refresh or discovery-state change inside the batch itself.
   */
  lemma {:induction false} BatchTotals(names: seq<ServerName>, registered: set<ServerName>, factory: ClientFactory)
    ensures CountKind(BatchEvents(names, registered, factory), Connect) == StartedCount(names, registered, factory)
    ensures CountKind(BatchEvents(names, registered, factory), Discover) == StartedCount(names, registered, factory)
    ensures CountKind(BatchEvents(names, registered, factory), Disconnect) == ReconnectedCount(names, registered)
    ensures Refreshes(BatchEvents(names, registered, factory)) == 0
    ensures States(BatchEvents(names, registered, factory)) == []
  {
    if names != [] {
      var n := names[|names| - 1];
      var init := names[..|names| - 1];
      var a := BatchEvents(init, registered, factory);
      var b := ServerStartEvents(n in registered, factory(n).Some?, n);
      BatchTotals(init, registered, factory);
      CountKindAppend(a, b, Connect);
      CountKindAppend(a, b, Discover);
      CountKindAppend(a, b, Disconnect);
      RefreshesAppend(a, b);
      StatesAppend(a, b);
      ServerStartCounts(n in registered, factory(n).Some?, n, n, Connect);
      ServerStartCounts(n in registered, factory(n).Some?, n, n, Discover);
      ServerStartCounts(n in registered, factory(n).Some?, n, n, Disconnect);
    }
  }

  /** When no batch name is registered yet and every client can be built, all of them are started and none is reconnected. */
  lemma {:induction false} FreshBatchCounts(names: seq<ServerName>, registered: set<ServerName>, factory: ClientFactory)
    requires forall n :: n in names ==> n !in registered && factory(n).Some?
    ensures StartedCount(names, registered, factory) == |names|
    ensures ReconnectedCount(names, registered) == 0
  {
    if names != [] {
      var init := names[..|names| - 1];
      assert forall x :: x in init ==> x in names;
      FreshBatchCounts(init, registered, factory);
    }
  }

  /** When no batch name is registered yet and every client can be built, the batch registers all of them, in order. */
  lemma {:induction false} ConstructedAll(names: seq<ServerName>, registered: set<ServerName>, factory: ClientFactory)
    requires forall i :: 0 <= i < |names| ==> names[i] !in registered && factory(names[i]).Some?
    ensures Constructed(names, registered, factory) == names
  {
    if names != [] {
      var n, init := names[|names| - 1], names[..|names| - 1];
      assert n !in registered && factory(n).Some?;
      assert forall i :: 0 <= i < |init| ==> init[i] == names[i];
      ConstructedAll(init, registered, factory);
      assert init + [n] == names;
    }
  }

  /** When no client can be built and nothing is registered, nothing is started. */
  lemma {:induction false} FailedBatchCounts(names: seq<ServerName>, registered: set<ServerName>, factory: ClientFactory)
    requires forall n :: n in names ==> n !in registered && factory(n) == None
    ensures StartedCount(names, registered, factory) == 0
    ensures ReconnectedCount(names, registered) == 0
  {
    if names != [] {
      var init := names[..|names| - 1];
      assert forall x :: x in init ==> x in names;
      FailedBatchCounts(init, registered, factory);
    }
  }

  /** A restart of duplicate-free `names` disconnects, connects and discovers each of them exactly once and nothing else. */
  lemma {:induction false} ReconnectPerServer(names: seq<ServerName>, m: ServerName, k: CallKind)
    requires Distinct(names)
    ensures CountCall(ReconnectEvents(names), k, m) == (if m in names then 1 else 0)
    ensures CountKind(ReconnectEvents(names), k) == |names|
    ensures Refreshes(ReconnectEvents(names)) == 0
  {
    if names != [] {
      var n := names[|names| - 1];
      var init := names[..|names| - 1];
      assert names == init + [n];
      DistinctSnoc(init, n);
      assert forall x :: x in names <==> x in init || x == n;
      ReconnectPerServer(init, m, k);
      var a := ReconnectEvents(init);
      var b := ServerStartEvents(true, false, n);
      CountCallAppend(a, b, k, m);
      CountKindAppend(a, b, k);
      RefreshesAppend(a, b);
      ServerStartCounts(true, false, n, m, k);
    }
  }
}

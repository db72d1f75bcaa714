/**
 * McpClientManager: owns the registry of MCP clients, the discovery state,
 * the blocked-server records and the health monitor's per-server guard.
 * Every call it makes on a client or on the configuration is appended to
 * `trace`, so that how often each call was made can be stated exactly.
 */
module McpClientManagerModel {
  import opened McpTypes
  import opened CallTrace
  import opened ServerSelection
  import opened Startup
  import opened HealthCheck
  import opened Instructions

  /** The message of the error restartServer raises for an unregistered name. */
  function NotFoundMessage(name: ServerName): string {
    "No MCP server registered with the name \"" + name + "\""
  }

  /** The instructions of the registered clients, in registration order. */
  function InstructionsOf(order: seq<ServerName>, clients: map<ServerName, ClientEntry>): (r: seq<ServerInstructions>)
    requires forall n :: n in order ==> n in clients
    ensures |r| == |order|
    ensures forall i :: 0 <= i < |order| ==> r[i] == ServerInstructions(order[i], clients[order[i]].instructions)
  {
    seq(|order|, i requires 0 <= i < |order| => ServerInstructions(order[i], clients[order[i]].instructions))
  }

  /**
   * For every registered server whose client reports non-empty
   * instructions, the instructions document shows its header line, both
   * markers and the instructions text.
   */
  lemma RegisteredInstructionsShown(order: seq<ServerName>, clients: map<ServerName, ClientEntry>, n: ServerName)
    requires forall m :: m in order ==> m in clients
    requires n in order && clients[n].instructions != ""
    ensures Contains(Aggregate(InstructionsOf(order, clients)), Header(n))
    ensures Contains(Aggregate(InstructionsOf(order, clients)), StartMarker)
    ensures Contains(Aggregate(InstructionsOf(order, clients)), clients[n].instructions)
    ensures Contains(Aggregate(InstructionsOf(order, clients)), EndMarker)
  {
    var i :| 0 <= i < |order| && order[i] == n;
    InstructionsShown(InstructionsOf(order, clients), i);
  }

  /**
   * The instructions document of a registry: empty exactly when no
   * registered server reports instructions, and showing the header line,
   * both markers and the text of every one that does.
   */
  lemma InstructionsDocument(order: seq<ServerName>, clients: map<ServerName, ClientEntry>)
    requires forall m :: m in order ==> m in clients
    ensures Aggregate(InstructionsOf(order, clients)) == "" <==> forall n :: n in order ==> clients[n].instructions == ""
    ensures forall n :: n in order && clients[n].instructions != "" ==>
      && Contains(Aggregate(InstructionsOf(order, clients)), Header(n))
      && Contains(Aggregate(InstructionsOf(order, clients)), StartMarker)
      && Contains(Aggregate(InstructionsOf(order, clients)), clients[n].instructions)
      && Contains(Aggregate(InstructionsOf(order, clients)), EndMarker)
  {
    var s := InstructionsOf(order, clients);
    AggregateEmptyIff(s);
    assert (forall i :: 0 <= i < |s| ==> s[i].text == "") <==> forall n :: n in order ==> clients[n].instructions == "";
    forall n | n in order && clients[n].instructions != ""
      ensures Contains(Aggregate(s), Header(n)) && Contains(Aggregate(s), StartMarker)
      ensures Contains(Aggregate(s), clients[n].instructions) && Contains(Aggregate(s), EndMarker)
    {
      RegisteredInstructionsShown(order, clients, n);
    }
  }

  /** The trace a configured start appends after `t`, around the calls of its batch `b`. */
  function StartTrace(t: seq<Event>, b: seq<Event>): seq<Event> {
    t + [StateChange(InProgress)] + b + [RefreshContext] + [StateChange(Completed)]
  }

  lemma StartTraceKinds(t: seq<Event>, b: seq<Event>, k: CallKind)
    ensures CountKind(StartTrace(t, b), k) == CountKind(t, k) + CountKind(b, k)
  {
    var ip, rc, cp := StateChange(InProgress), RefreshContext, StateChange(Completed);
    SingleCounts(ip, k, "");
    SingleCounts(rc, k, "");
    SingleCounts(cp, k, "");
    CountKindAppend(t, [ip], k);
    CountKindAppend(t + [ip], b, k);
    CountKindAppend(t + [ip] + b, [rc], k);
    CountKindAppend(t + [ip] + b + [rc], [cp], k);
  }

  lemma StartTraceCalls(t: seq<Event>, b: seq<Event>, k: CallKind, n: ServerName)
    ensures CountCall(StartTrace(t, b), k, n) == CountCall(t, k, n) + CountCall(b, k, n)
  {
    var ip, rc, cp := StateChange(InProgress), RefreshContext, StateChange(Completed);
    SingleCounts(ip, k, n);
    SingleCounts(rc, k, n);
    SingleCounts(cp, k, n);
    CountCallAppend(t, [ip], k, n);
    CountCallAppend(t + [ip], b, k, n);
    CountCallAppend(t + [ip] + b, [rc], k, n);
    CountCallAppend(t + [ip] + b + [rc], [cp], k, n);
  }

  lemma StartTraceRefreshes(t: seq<Event>, b: seq<Event>)
    ensures Refreshes(StartTrace(t, b)) == Refreshes(t) + 1 + Refreshes(b)
  {
    var ip, rc, cp := StateChange(InProgress), RefreshContext, StateChange(Completed);
    SingleCounts(ip, Connect, "");
    SingleCounts(rc, Connect, "");
    SingleCounts(cp, Connect, "");
    RefreshesAppend(t, [ip]);
    RefreshesAppend(t + [ip], b);
    RefreshesAppend(t + [ip] + b, [rc]);
    RefreshesAppend(t + [ip] + b + [rc], [cp]);
  }

  lemma StartTraceStates(t: seq<Event>, b: seq<Event>)
    ensures States(StartTrace(t, b)) == States(t) + [InProgress] + States(b) + [Completed]
  {
    var ip, rc, cp := StateChange(InProgress), RefreshContext, StateChange(Completed);
    SingleCounts(ip, Connect, "");
    SingleCounts(rc, Connect, "");
    SingleCounts(cp, Connect, "");
    StatesAppend(t, [ip]);
    StatesAppend(t + [ip], b);
    StatesAppend(t + [ip] + b, [rc]);
    StatesAppend(t + [ip] + b + [rc], [cp]);
  }

  /**
   * A configured start refreshes the context exactly once and enters
   * InProgress then Completed, whatever the batch in between does; its
   * client calls are the batch's.
   */
  lemma StartTraceCounts(t: seq<Event>, batch: seq<ServerName>, registered: set<ServerName>, factory: ClientFactory,
                         k: CallKind, n: ServerName)
    ensures var u := StartTrace(t, BatchEvents(batch, registered, factory));
      && CountKind(u, k) == CountKind(t, k) + CountKind(BatchEvents(batch, registered, factory), k)
      && CountCall(u, k, n) == CountCall(t, k, n) + CountCall(BatchEvents(batch, registered, factory), k, n)
      && Refreshes(u) == Refreshes(t) + 1
      && States(u) == States(t) + [InProgress, Completed]
  {
    var b := BatchEvents(batch, registered, factory);
    BatchTotals(batch, registered, factory);
    StartTraceKinds(t, b, k);
    StartTraceCalls(t, b, k, n);
    StartTraceRefreshes(t, b);
    StartTraceStates(t, b);
  }

  class McpClientManager {
    const autoRestart: AutoRestartConfig
    var discoveryState: DiscoveryState
    /** Registered server names, in registration order. */
    var order: seq<ServerName>
    var clients: map<ServerName, ClientEntry>
    /** getBlockedMcpServers(): append-only. */
    var blockedServers: seq<BlockedServer>
    var trace: seq<Event>

    /** A name has at most one entry, and the discovery state is the last one the trace entered. */
    ghost predicate Valid()
      reads this
    {
      && Distinct(order)
      && (forall n :: n in clients <==> n in order)
      && discoveryState == LastState(trace)
    }

    constructor (autoRestart: AutoRestartConfig)
      ensures Valid()
      ensures this.autoRestart == autoRestart
      ensures discoveryState == NotStarted
      ensures order == [] && clients == map[] && blockedServers == [] && trace == []
    {
      this.autoRestart := autoRestart;
      discoveryState := NotStarted;
      order := [];
      clients := map[];
      blockedServers := [];
      trace := [];
    }

    /**
     * getMcpInstructions: one block per registered server with non-empty
     * instructions, in registration order.
     */
    function McpInstructions(): (r: string)
      reads this
      requires Valid()
      ensures r == "" <==> forall n :: n in order ==> clients[n].instructions == ""
      ensures forall n :: n in order && clients[n].instructions != "" ==>
        Contains(r, Header(n)) && Contains(r, StartMarker) && Contains(r, clients[n].instructions) && Contains(r, EndMarker)
    {
      InstructionsDocument(order, clients);
      Aggregate(InstructionsOf(order, clients))
    }

    /**
     * Starts one selected server (maybeDiscoverMcpServer): a registered
     * server is disconnected and its existing client connected and
     * discovered again; otherwise `client` is what the factory produced,
     * and a built client is registered, connected and discovered.
     */
    method DiscoverServer(n: ServerName, extensionName: string, client: Option<string>, now: int)
      requires Valid()
      modifies this
      ensures Valid()
      ensures trace == old(trace) + ServerStartEvents(n in old(clients), client.Some?, n)
      ensures n in old(clients) ==>
        clients == old(clients)[n := old(clients)[n].(lastHealthy := now)] && order == old(order)
      ensures n !in old(clients) && client.Some? ==>
        clients == old(clients)[n := ClientEntry(extensionName, client.value, false, now)] && order == old(order) + [n]
      ensures n !in old(clients) && client.None? ==> clients == old(clients) && order == old(order)
      ensures discoveryState == old(discoveryState) && blockedServers == old(blockedServers)
    {
      ghost var t0 := trace;
      if n in clients {
        trace := trace + [ClientCall(Disconnect, n)];
        clients := clients[n := clients[n].(lastHealthy := now)];
        trace := trace + [ClientCall(Connect, n)];
        trace := trace + [ClientCall(Discover, n)];
      } else if client.Some? {
        clients := clients[n := ClientEntry(extensionName, client.value, false, now)];
        order := order + [n];
        DistinctSnoc(old(order), n);
        trace := trace + [ClientCall(Connect, n)];
        trace := trace + [ClientCall(Discover, n)];
      }
      ServerStartSteps(t0, n in old(clients), client.Some?, n);
      StartKeepsState(t0, n in old(clients), client.Some?, n);
    }

    /** Starts `names` one after another; one server's failure does not stop the others. */
    method RunBatch(names: seq<ServerName>, extensionName: string, factory: ClientFactory, now: int)
      requires Valid() && Distinct(names)
      modifies this
      ensures Valid()
      ensures trace == old(trace) + BatchEvents(names, old(clients).Keys, factory)
      ensures order == old(order) + Constructed(names, old(clients).Keys, factory)
      ensures BatchRegistry(old(clients), clients, names, extensionName, factory, now)
      ensures discoveryState == old(discoveryState) && blockedServers == old(blockedServers)
    {
      var i := 0;
      while i < |names|
        invariant 0 <= i <= |names|
        invariant Valid()
        invariant trace == old(trace) + BatchEvents(names[..i], old(clients).Keys, factory)
        invariant order == old(order) + Constructed(names[..i], old(clients).Keys, factory)
        invariant BatchRegistry(old(clients), clients, names[..i], extensionName, factory, now)
        invariant discoveryState == old(discoveryState) && blockedServers == old(blockedServers)
      {
        BatchStep(names, i, extensionName, factory, now, old(trace), old(order), old(clients));
        i := i + 1;
      }
      assert names[..i] == names;
    }

    /** Within a batch, the start of the `i`-th name, the ones before it already started. */
    method BatchStep(names: seq<ServerName>, i: nat, extensionName: string, factory: ClientFactory, now: int,
                     ghost t0: seq<Event>, ghost o0: seq<ServerName>, ghost c0: map<ServerName, ClientEntry>)
      requires Valid() && Distinct(names) && i < |names|
      requires trace == t0 + BatchEvents(names[..i], c0.Keys, factory)
      requires order == o0 + Constructed(names[..i], c0.Keys, factory)
      requires BatchRegistry(c0, clients, names[..i], extensionName, factory, now)
      modifies this
      ensures Valid()
      ensures trace == t0 + BatchEvents(names[..i + 1], c0.Keys, factory)
      ensures order == o0 + Constructed(names[..i + 1], c0.Keys, factory)
      ensures BatchRegistry(c0, clients, names[..i + 1], extensionName, factory, now)
      ensures discoveryState == old(discoveryState) && blockedServers == old(blockedServers)
    {
      var n := names[i];
      DistinctNotBefore(names, i);
      BatchPrefix(names, i, c0.Keys, factory);
      assert names[..i + 1] == names[..i] + [n];
      assert n in clients <==> n in c0;
      ghost var mid := clients;
      DiscoverServer(n, extensionName, factory(n), now);
      BatchRegistryStep(c0, mid, clients, names[..i], n, extensionName, factory, now);
      AppendAssoc(t0, BatchEvents(names[..i], c0.Keys, factory), ServerStartEvents(n in c0, factory(n).Some?, n));
      AppendAssoc(o0, Constructed(names[..i], c0.Keys, factory), if n !in c0 && factory(n).Some? then [n] else []);
    }

    /**
     * startConfiguredMcpServers: the discovery state is InProgress before
     * any server is touched; the selected servers are started; the
     * context is refreshed once for the whole batch; then the state is
     * Completed. It completes whatever the individual servers do.
     */
    method StartConfiguredMcpServers(settings: McpSettings, factory: ClientFactory, now: int)
      requires Valid() && Distinct(settings.servers)
      modifies this
      ensures Valid()
      ensures discoveryState == Completed
      ensures var sel := SelectServers(settings.servers, settings.trusted, settings.allowed, settings.blocked, "");
        && blockedServers == old(blockedServers) + sel.newlyBlocked
        && trace == StartTrace(old(trace), BatchEvents(sel.eligible, old(clients).Keys, factory))
        && order == old(order) + Constructed(sel.eligible, old(clients).Keys, factory)
        && BatchRegistry(old(clients), clients, sel.eligible, "", factory, now)
    {
      EnterState(trace, InProgress);
      discoveryState := InProgress;
      trace := trace + [StateChange(InProgress)];
      var sel := SelectServers(settings.servers, settings.trusted, settings.allowed, settings.blocked, "");
      blockedServers := blockedServers + sel.newlyBlocked;
      RunBatch(sel.eligible, "", factory, now);
      RefreshKeepsState(trace);
      trace := trace + [RefreshContext];
      EnterState(trace, Completed);
      discoveryState := Completed;
      trace := trace + [StateChange(Completed)];
    }

    /**
     * startExtension: an inactive extension changes nothing; an active
     * one has its servers selected under the same policy, tagged with the
     * extension's name, and started.
     */
    method StartExtension(ext: Extension, settings: McpSettings, factory: ClientFactory, now: int)
      requires Valid() && Distinct(ext.servers)
      modifies this
      ensures Valid()
      ensures discoveryState == old(discoveryState)
      ensures !ext.isActive ==>
        trace == old(trace) && clients == old(clients) && order == old(order) && blockedServers == old(blockedServers)
      ensures ext.isActive ==>
        var sel := SelectServers(ext.servers, settings.trusted, settings.allowed, settings.blocked, ext.name);
        && blockedServers == old(blockedServers) + sel.newlyBlocked
        && trace == old(trace) + BatchEvents(sel.eligible, old(clients).Keys, factory)
        && order == old(order) + Constructed(sel.eligible, old(clients).Keys, factory)
        && BatchRegistry(old(clients), clients, sel.eligible, ext.name, factory, now)
    {
      if ext.isActive {
        var sel := SelectServers(ext.servers, settings.trusted, settings.allowed, settings.blocked, ext.name);
        blockedServers := blockedServers + sel.newlyBlocked;
        RunBatch(sel.eligible, ext.name, factory, now);
      }
    }

    /** restart(): every registered server goes through the reconnect cycle, in registration order. */
    method Restart(now: int)
      requires Valid()
      modifies this
      ensures Valid()
      ensures trace == old(trace) + ReconnectEvents(old(order))
      ensures order == old(order)
      ensures forall n :: n in clients <==> n in old(clients)
      ensures forall n :: n in clients ==> clients[n] == old(clients)[n].(lastHealthy := now)
      ensures discoveryState == old(discoveryState) && blockedServers == old(blockedServers)
    {
      var names := order;
      var i := 0;
      ReconnectedNone(clients, now);
      while i < |names|
        invariant 0 <= i <= |names|
        invariant Valid() && order == names
        invariant trace == old(trace) + ReconnectEvents(names[..i])
        invariant clients == Reconnected(old(clients), names[..i], now)
        invariant discoveryState == old(discoveryState) && blockedServers == old(blockedServers)
      {
        RestartStep(i, now, old(trace), old(clients));
        i := i + 1;
      }
      assert names[..i] == names;
      ReconnectedAll(old(clients), clients, names, now);
    }

    /** Within a restart, the reconnect of the `i`-th registered server, the ones before it already reconnected. */
    method RestartStep(i: nat, now: int, ghost t0: seq<Event>, ghost c0: map<ServerName, ClientEntry>)
      requires Valid() && i < |order|
      requires trace == t0 + ReconnectEvents(order[..i])
      requires clients == Reconnected(c0, order[..i], now)
      modifies this
      ensures Valid() && order == old(order)
      ensures trace == t0 + ReconnectEvents(order[..i + 1])
      ensures clients == Reconnected(c0, order[..i + 1], now)
      ensures discoveryState == old(discoveryState) && blockedServers == old(blockedServers)
    {
      var n := order[i];
      DistinctNotBefore(order, i);
      ReconnectedStep(c0, order[..i], n, now);
      ReconnectPrefix(order, i);
      assert order[..i + 1] == order[..i] + [n];
      DiscoverServer(n, clients[n].extensionName, None, now);
      AppendAssoc(t0, ReconnectEvents(order[..i]), ServerStartEvents(true, false, n));
    }

    /**
     * restartServer(name): the reconnect cycle for one server; the only
     * failure is an unregistered name, which changes nothing.
     */
    method RestartServer(name: ServerName, now: int) returns (r: Outcome)
      requires Valid()
      modifies this
      ensures Valid()
      ensures r == (if name in old(clients) then Pass else Fail(NotFoundMessage(name)))
      ensures name !in old(clients) ==> trace == old(trace) && clients == old(clients) && order == old(order)
      ensures name in old(clients) ==>
        && trace == old(trace) + ServerStartEvents(true, false, name)
        && clients == old(clients)[name := old(clients)[name].(lastHealthy := now)]
        && order == old(order)
      ensures discoveryState == old(discoveryState) && blockedServers == old(blockedServers)
    {
      if name !in clients {
        return Fail(NotFoundMessage(name));
      }
      DiscoverServer(name, clients[name].extensionName, None, now);
      r := Pass;
    }

    /**
     * One health-check tick at time `now`; `healthy` are the servers whose
     * status is healthy. Servers with a restart in flight are skipped;
     * healthy ones are marked healthy now; one unhealthy for at least the
     * timeout gets its guard set and its disconnect started.
     */
    method Tick(now: int, healthy: set<ServerName>)
      requires Valid()
      modifies this
      ensures Valid()
      ensures trace == old(trace) + TickEvents(old(order), old(clients), healthy, now, autoRestart)
      ensures clients == TickClients(old(clients), healthy, now, autoRestart)
      ensures order == old(order)
      ensures discoveryState == old(discoveryState) && blockedServers == old(blockedServers)
    {
      var i := 0;
      TickDoneNone(clients, healthy, now, autoRestart);
      while i < |order|
        invariant 0 <= i <= |order|
        invariant order == old(order) && Valid()
        invariant trace == old(trace) + TickEvents(order[..i], old(clients), healthy, now, autoRestart)
        invariant clients == TickDone(old(clients), order[..i], healthy, now, autoRestart)
        invariant discoveryState == old(discoveryState) && blockedServers == old(blockedServers)
      {
        TickStep(i, now, healthy, old(trace), old(clients));
        i := i + 1;
      }
      assert order[..i] == order;
      TickDoneAll(old(clients), clients, order, healthy, now, autoRestart);
    }

    /** Within a tick, the check of the `i`-th registered server, the ones before it already checked. */
    method TickStep(i: nat, now: int, healthy: set<ServerName>, ghost t0: seq<Event>, ghost c0: map<ServerName, ClientEntry>)
      requires Valid() && i < |order|
      requires trace == t0 + TickEvents(order[..i], c0, healthy, now, autoRestart)
      requires clients == TickDone(c0, order[..i], healthy, now, autoRestart)
      modifies this
      ensures Valid() && order == old(order)
      ensures trace == t0 + TickEvents(order[..i + 1], c0, healthy, now, autoRestart)
      ensures clients == TickDone(c0, order[..i + 1], healthy, now, autoRestart)
      ensures discoveryState == old(discoveryState) && blockedServers == old(blockedServers)
    {
      var n := order[i];
      DistinctNotBefore(order, i);
      TickDoneStep(c0, order[..i], n, healthy, now, autoRestart);
      TickEventsPrefix(order, i, c0, healthy, now, autoRestart);
      assert order[..i + 1] == order[..i] + [n];
      ghost var done := TickEvents(order[..i], c0, healthy, now, autoRestart);
      CheckServer(n, now, healthy);
      AppendAssoc(t0, done,
        if TriggersRestart(c0[n], n in healthy, now, autoRestart) then [ClientCall(Disconnect, n)] else []);
    }

    /** The health check of one registered server within a tick. */
    method CheckServer(n: ServerName, now: int, healthy: set<ServerName>)
      requires Valid() && n in clients
      modifies this
      ensures Valid()
      ensures clients == old(clients)[n := TickEntry(old(clients)[n], n in healthy, now, autoRestart)]
      ensures trace == old(trace) +
        (if TriggersRestart(old(clients)[n], n in healthy, now, autoRestart) then [ClientCall(Disconnect, n)] else [])
      ensures order == old(order)
      ensures discoveryState == old(discoveryState) && blockedServers == old(blockedServers)
    {
      var e := clients[n];
      var next, restart := e, false;
      if !autoRestart.enabled || e.restarting {
        // skipped: the monitor is off, or a restart of this server is in flight
      } else if n in healthy {
        next := e.(lastHealthy := now);
      } else if now - e.lastHealthy >= autoRestart.unhealthyTimeoutMs {
        next, restart := e.(restarting := true), true;
      }
      assert next == TickEntry(e, n in healthy, now, autoRestart);
      assert restart == TriggersRestart(e, n in healthy, now, autoRestart);
      UpdateKeeps(clients, n, next);
      clients := clients[n := next];
      if restart {
        CallKeepsState(trace, Disconnect, n);
        trace := trace + [ClientCall(Disconnect, n)];
      }
    }

    /**
     * The reconnect of a health-triggered restart finishes at `now`: the
     * client is connected and discovered again and the guard is cleared.
     * Nothing happens for a server with no restart in flight.
     */
    method CompleteRestart(name: ServerName, now: int) returns (finished: bool)
      requires Valid()
      modifies this
      ensures Valid()
      ensures finished == (name in old(clients) && old(clients)[name].restarting)
      ensures finished ==>
        && trace == old(trace) + [ClientCall(Connect, name), ClientCall(Discover, name)]
        && clients == old(clients)[name := CompleteEntry(old(clients)[name], now)]
      ensures !finished ==> trace == old(trace) && clients == old(clients)
      ensures order == old(order)
      ensures discoveryState == old(discoveryState) && blockedServers == old(blockedServers)
    {
      finished := name in clients && clients[name].restarting;
      if finished {
        ghost var t0 := trace;
        trace := trace + [ClientCall(Connect, name), ClientCall(Discover, name)];
        clients := clients[name := CompleteEntry(clients[name], now)];
        assert trace == t0 + ServerStartEvents(false, true, name);
        StartKeepsState(t0, false, true, name);
      }
    }
  }
}

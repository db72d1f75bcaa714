/**
 * The manager's documented behaviours, each replayed on a fresh manager
 * with the collaborators the behaviour describes: a client factory, the
 * configuration's server map, trust and lists, and the health samples.
 */
module ManagerScenarios {
  import opened McpTypes
  import opened CallTrace
  import opened ServerSelection
  import opened Startup
  import opened HealthCheck
  import opened Instructions
  import opened McpClientManagerModel

  /** Auto-restart as configured by default: off. */
  const RestartOff: AutoRestartConfig := AutoRestartConfig(false, 0, 0)

  /** A client factory whose clients always build and report no instructions. */
  const PlainClients: ClientFactory := n => Some("")

  /** A client factory whose constructor always throws. */
  const FailingClients: ClientFactory := n => None

  /** Trusted settings with the given servers and empty allow and block lists. */
  function Configured(servers: seq<ServerName>): (s: McpSettings)
    ensures s.trusted && s.servers == servers && s.allowed == [] && s.blocked == []
  {
    McpSettings(true, servers, [], [])
  }

  /** The trace of a configured start of fresh `servers` whose clients all build. */
  function FreshStartTrace(servers: seq<ServerName>, factory: ClientFactory): seq<Event> {
    StartTrace([], BatchEvents(servers, {}, factory))
  }

  /**
   * In that trace every server is connected once and discovered once,
   * nothing is disconnected, the context is refreshed once, and the
   * discovery state goes from InProgress to Completed.
   */
  lemma FreshStartCounts(servers: seq<ServerName>, factory: ClientFactory)
    requires Distinct(servers) && forall n :: n in servers ==> factory(n).Some?
    ensures CountKind(FreshStartTrace(servers, factory), Connect) == |servers|
    ensures CountKind(FreshStartTrace(servers, factory), Discover) == |servers|
    ensures CountKind(FreshStartTrace(servers, factory), Disconnect) == 0
    ensures forall n, k :: k != Disconnect ==> CountCall(FreshStartTrace(servers, factory), k, n) == (if n in servers then 1 else 0)
    ensures Refreshes(FreshStartTrace(servers, factory)) == 1
    ensures States(FreshStartTrace(servers, factory)) == [InProgress, Completed]
  {
    StartTraceCounts([], servers, {}, factory, Connect, "");
    StartTraceCounts([], servers, {}, factory, Discover, "");
    StartTraceCounts([], servers, {}, factory, Disconnect, "");
    BatchTotals(servers, {}, factory);
    FreshBatchCounts(servers, {}, factory);
    forall n, k | k != Disconnect ensures CountCall(FreshStartTrace(servers, factory), k, n) == (if n in servers then 1 else 0) {
      StartTraceCounts([], servers, {}, factory, k, n);
      BatchPerServer(servers, {}, factory, n, k);
    }
  }

  /**
   * Starting distinct configured servers whose clients all build, on a
   * fresh manager in a trusted folder with no lists: every server is
   * registered, connected once and discovered once, the context is
   * refreshed once for the whole batch, and the discovery state goes
   * from InProgress to Completed.
   */
  method StartAll(servers: seq<ServerName>, factory: ClientFactory, autoRestart: AutoRestartConfig, now: int)
    returns (m: McpClientManager)
    requires Distinct(servers) && forall n :: n in servers ==> factory(n).Some?
    ensures fresh(m) && m.Valid() && m.autoRestart == autoRestart
    ensures m.order == servers && m.blockedServers == []
    ensures forall n :: n in servers ==> m.clients[n] == ClientEntry("", factory(n).value, false, now)
    ensures m.trace == FreshStartTrace(servers, factory) && m.discoveryState == Completed
  {
    m := new McpClientManager(autoRestart);
    ghost var registered := m.clients.Keys;
    assert registered == {};
    AllPermittedSelected(servers, [], [], "");
    assert SelectServers(servers, true, [], [], "").eligible == servers;
    ConstructedAll(servers, registered, factory);
    m.StartConfiguredMcpServers(Configured(servers), factory, now);
  }

  /** One configured server is connected and discovered once, and the context refreshed once. */
  method DiscoverConfigured() returns (connects: nat, discovers: nat, refreshes: nat)
    ensures connects == 1 && discovers == 1 && refreshes == 1
  {
    var m := StartAll(["test-server"], PlainClients, RestartOff, 0);
    FreshStartCounts(["test-server"], PlainClients);
    connects, discovers, refreshes := CountKind(m.trace, Connect), CountKind(m.trace, Discover), Refreshes(m.trace);
  }

  /** Three configured servers: three connects and three discovers, but a single context refresh. */
  method BatchRefreshOnce() returns (connects: nat, discovers: nat, refreshes: nat)
    ensures connects == 3 && discovers == 3 && refreshes == 1
  {
    var servers := ["server-1", "server-2", "server-3"];
    var m := StartAll(servers, PlainClients, RestartOff, 0);
    FreshStartCounts(servers, PlainClients);
    connects, discovers, refreshes := CountKind(m.trace, Connect), CountKind(m.trace, Discover), Refreshes(m.trace);
  }

  /**
   * The discovery state is NotStarted on a new manager; a start enters
   * InProgress before its first client call and Completed after its
   * refresh, and stays Completed.
   */
  method DiscoveryStateProgress() returns (before: DiscoveryState, first: Event, entered: seq<DiscoveryState>, after: DiscoveryState)
    ensures before == NotStarted && first == StateChange(InProgress)
    ensures entered == [InProgress, Completed] && after == Completed
  {
    var m := new McpClientManager(RestartOff);
    before := m.discoveryState;
    ghost var registered := m.clients.Keys;
    assert registered == {};
    AllPermittedSelected(["test-server"], [], [], "");
    m.StartConfiguredMcpServers(Configured(["test-server"]), PlainClients, 0);
    FreshStartCounts(["test-server"], PlainClients);
    assert m.trace == FreshStartTrace(["test-server"], PlainClients);
    first, entered, after := m.trace[0], States(m.trace), m.discoveryState;
  }

  /**
   * A configured start on a fresh manager: the selected servers are
   * started, the blocked ones recorded, and the context refreshed once,
   * between the two state changes.
   */
  method StartFresh(settings: McpSettings, factory: ClientFactory) returns (m: McpClientManager)
    requires Distinct(settings.servers)
    ensures fresh(m) && m.Valid() && m.discoveryState == Completed
    ensures var sel := SelectServers(settings.servers, settings.trusted, settings.allowed, settings.blocked, "");
      && m.blockedServers == sel.newlyBlocked
      && m.trace == FreshStartTrace(sel.eligible, factory)
      && m.order == Constructed(sel.eligible, {}, factory)
  {
    m := new McpClientManager(RestartOff);
    ghost var registered := m.clients.Keys;
    assert registered == {};
    m.StartConfiguredMcpServers(settings, factory, 0);
  }

  /** In an untrusted folder nothing is connected or discovered. */
  method UntrustedFolder() returns (connects: nat, discovers: nat)
    ensures connects == 0 && discovers == 0
  {
    var m := StartFresh(McpSettings(false, ["test-server"], [], []), PlainClients);
    FreshStartCounts([], PlainClients);
    connects, discovers := CountKind(m.trace, Connect), CountKind(m.trace, Discover);
  }

  /** A block-listed server is not started and is recorded, with no extension, as blocked. */
  method BlockedNotStarted() returns (connects: nat, discovers: nat, blocked: seq<BlockedServer>)
    ensures connects == 0 && discovers == 0
    ensures blocked == [BlockedServer("test-server", "")]
  {
    var settings := McpSettings(true, ["test-server"], [], ["test-server"]);
    assert ["test-server"][1..] == [];
    assert SelectServers(settings.servers, true, [], ["test-server"], "") == Selection([], [BlockedServer("test-server", "")]);
    var m := StartFresh(settings, PlainClients);
    FreshStartCounts([], PlainClients);
    connects, discovers, blocked := CountKind(m.trace, Connect), CountKind(m.trace, Discover), m.blockedServers;
  }

  /** With a non-empty allow list only the allowed server is started. */
  method AllowListOnly() returns (connects: nat, discovers: nat, registered: seq<ServerName>)
    ensures connects == 1 && discovers == 1 && registered == ["another-server"]
  {
    var settings := McpSettings(true, ["test-server", "another-server"], ["another-server"], []);
    var names := settings.servers;
    assert names[1..][1..] == [];
    assert Partition(names[1..], ["another-server"], [], "") == Selection(["another-server"], []);
    assert SelectServers(names, true, ["another-server"], [], "") == Selection(["another-server"], []);
    var m := StartFresh(settings, PlainClients);
    FreshStartCounts(["another-server"], PlainClients);
    ConstructedAll(["another-server"], {}, PlainClients);
    connects, discovers, registered := CountKind(m.trace, Connect), CountKind(m.trace, Discover), m.order;
  }

  /** The default configuration: trusted, no configured servers, no lists. */
  const DefaultSettings: McpSettings := McpSettings(true, [], [], [])

  /** An active extension started on a fresh manager in the default configuration. */
  method ExtensionFresh(ext: Extension, factory: ClientFactory) returns (m: McpClientManager)
    requires ext.isActive && Distinct(ext.servers)
    ensures fresh(m) && m.Valid()
    ensures var sel := SelectServers(ext.servers, true, [], [], ext.name);
      && m.trace == BatchEvents(sel.eligible, {}, factory)
      && BatchRegistry(map[], m.clients, sel.eligible, ext.name, factory, 0)
  {
    m := new McpClientManager(RestartOff);
    ghost var registered := m.clients.Keys;
    assert registered == {};
    m.StartExtension(ext, DefaultSettings, factory, 0);
  }

  /** An active extension's server is started, and registered under the extension's name. */
  method ActiveExtension() returns (connects: nat, discovers: nat, owner: string)
    ensures connects == 1 && discovers == 1 && owner == "test-extension"
  {
    var ext := Extension("test-extension", ["test-server"], true);
    AllPermittedSelected(ext.servers, [], [], ext.name);
    var m := ExtensionFresh(ext, PlainClients);
    BatchTotals(["test-server"], {}, PlainClients);
    FreshBatchCounts(["test-server"], {}, PlainClients);
    assert "test-server" in ["test-server"];
    connects, discovers, owner := CountKind(m.trace, Connect), CountKind(m.trace, Discover), m.clients["test-server"].extensionName;
  }

  /** An inactive extension's servers are not started. */
  method InactiveExtension() returns (connects: nat, discovers: nat)
    ensures connects == 0 && discovers == 0
  {
    var m := new McpClientManager(RestartOff);
    m.StartExtension(Extension("test-extension", ["test-server"], false), DefaultSettings, PlainClients, 0);
    connects, discovers := CountKind(m.trace, Connect), CountKind(m.trace, Discover);
  }

  /** restart() reconnects the running server: one disconnect, and a second connect and discover. */
  method RestartAllServers() returns (connects: nat, discovers: nat, disconnects: nat, reconnects: nat, rediscovers: nat)
    ensures connects == 1 && discovers == 1
    ensures disconnects == 1 && reconnects == 2 && rediscovers == 2
  {
    var m := StartAll(["test-server"], PlainClients, RestartOff, 0);
    FreshStartCounts(["test-server"], PlainClients);
    connects, discovers := CountKind(m.trace, Connect), CountKind(m.trace, Discover);
    ghost var t1 := m.trace;
    m.Restart(0);
    var r := ReconnectEvents(["test-server"]);
    ReconnectPerServer(["test-server"], "test-server", Disconnect);
    ReconnectPerServer(["test-server"], "test-server", Connect);
    ReconnectPerServer(["test-server"], "test-server", Discover);
    CountKindAppend(t1, r, Disconnect);
    CountKindAppend(t1, r, Connect);
    CountKindAppend(t1, r, Discover);
    disconnects, reconnects, rediscovers := CountKind(m.trace, Disconnect), CountKind(m.trace, Connect), CountKind(m.trace, Discover);
  }

  /** restartServer(name) reconnects that server: one disconnect, and a second connect and discover. */
  method RestartNamedServer() returns (r: Outcome, disconnects: nat, reconnects: nat, rediscovers: nat)
    ensures r == Pass
    ensures disconnects == 1 && reconnects == 2 && rediscovers == 2
  {
    var m := StartAll(["test-server"], PlainClients, RestartOff, 0);
    FreshStartCounts(["test-server"], PlainClients);
    ghost var t1 := m.trace;
    r := m.RestartServer("test-server", 0);
    var s := ServerStartEvents(true, false, "test-server");
    ServerStartCounts(true, false, "test-server", "test-server", Disconnect);
    ServerStartCounts(true, false, "test-server", "test-server", Connect);
    ServerStartCounts(true, false, "test-server", "test-server", Discover);
    CountKindAppend(t1, s, Disconnect);
    CountKindAppend(t1, s, Connect);
    CountKindAppend(t1, s, Discover);
    disconnects, reconnects, rediscovers := CountKind(m.trace, Disconnect), CountKind(m.trace, Connect), CountKind(m.trace, Discover);
  }

  /** restartServer of an unregistered name fails with the not-found message. */
  method RestartUnknownServer() returns (r: Outcome)
    ensures r == Fail("No MCP server registered with the name \"non-existent\"")
  {
    var m := new McpClientManager(RestartOff);
    r := m.RestartServer("non-existent", 0);
  }

  /** When every client constructor throws, the start still completes, with its refresh, having started nothing. */
  method ClientConstructionFails() returns (state: DiscoveryState, refreshes: nat, connects: nat, registered: seq<ServerName>)
    ensures state == Completed && refreshes == 1 && connects == 0 && registered == []
  {
    AllPermittedSelected(["test-server"], [], [], "");
    var m := StartFresh(Configured(["test-server"]), FailingClients);
    StartTraceCounts([], ["test-server"], {}, FailingClients, Connect, "");
    BatchTotals(["test-server"], {}, FailingClients);
    FailedBatchCounts(["test-server"], {}, FailingClients);
    ConstructedMembers(["test-server"], {}, FailingClients);
    state, refreshes, connects, registered := m.discoveryState, Refreshes(m.trace), CountKind(m.trace, Connect), m.order;
  }

  const WithInstructions: ServerName := "server-with-instructions"
  const WithoutInstructions: ServerName := "server-without-instructions"
  const GivenInstructions: string := "Instructions for server-with-instructions"

  /** Clients reporting instructions only for the server named WithInstructions. */
  const InstructedClients: ClientFactory :=
    n => if n == WithInstructions then Some(GivenInstructions) else Some("")

  /** The header line the document shows for the server with instructions. */
  lemma ExpectedHeader()
    ensures Header(WithInstructions) == "The following are instructions provided by the tool server 'server-with-instructions':"
  {
  }

  /** A server with instructions followed by one without: the document is the first one's block alone. */
  lemma OneBlockOfTwo(w: ServerName, text: string, wo: ServerName)
    requires text != ""
    ensures Aggregate([ServerInstructions(w, text), ServerInstructions(wo, "")]) == ServerBlock(w, text)
  {
    var a := [ServerInstructions(w, text)];
    assert [ServerInstructions(w, text), ServerInstructions(wo, "")] == a + [ServerInstructions(wo, "")] + [];
    EmptyInstructionsContributeNothing(a, wo, []);
    assert a + [] == a;
    RenderSingle(a[0], ServerBlock);
  }

  /**
   * Of two servers, only the one whose client reports instructions
   * contributes: the document is exactly its block, which shows its
   * header line, both markers and its text.
   */
  method InstructionsOnlyWhereGiven() returns (doc: string)
    ensures doc == ServerBlock(WithInstructions, GivenInstructions)
    ensures Contains(doc, Header(WithInstructions))
    ensures Contains(doc, "---[start of server instructions]---")
    ensures Contains(doc, GivenInstructions)
    ensures Contains(doc, "---[end of server instructions]---")
  {
    assert InstructedClients(WithInstructions) == Some(GivenInstructions);
    assert InstructedClients(WithoutInstructions) == Some("");
    var m := StartAll([WithInstructions, WithoutInstructions], InstructedClients, RestartOff, 0);
    assert InstructionsOf(m.order, m.clients) ==
      [ServerInstructions(WithInstructions, GivenInstructions), ServerInstructions(WithoutInstructions, "")];
    OneBlockOfTwo(WithInstructions, GivenInstructions, WithoutInstructions);
    RegisteredInstructionsShown(m.order, m.clients, WithInstructions);
    doc := m.McpInstructions();
  }

  /** Auto-restart on, checking every second, with a five-second unhealthy timeout. */
  const Monitor: AutoRestartConfig := AutoRestartConfig(true, 1000, 5000)

  /** The only server of the health scenario. */
  const Watched: ServerName := "test-server"

  /** A tick over a single registered server. */
  lemma TickSingle(n: ServerName, e: ClientEntry, now: int, cfg: AutoRestartConfig)
    ensures TickClients(map[n := e], {}, now, cfg) == map[n := TickEntry(e, false, now, cfg)]
    ensures TickEvents([n], map[n := e], {}, now, cfg) ==
            if TriggersRestart(e, false, now, cfg) then [ClientCall(Disconnect, n)] else []
  {
    var c, d := TickClients(map[n := e], {}, now, cfg), map[n := TickEntry(e, false, now, cfg)];
    assert c.Keys == d.Keys;
    assert [n][..0] == [];
  }

  /** A tick at `now` on a manager watching only `Watched`, whose status never reports healthy. */
  method TickAt(m: McpClientManager, now: int, ghost e: ClientEntry)
    requires m.Valid() && m.order == [Watched] && m.clients == map[Watched := e]
    modifies m
    ensures m.Valid() && m.order == [Watched]
    ensures m.clients == map[Watched := TickEntry(e, false, now, m.autoRestart)]
    ensures CountKind(m.trace, Disconnect) ==
            CountKind(old(m.trace), Disconnect) + (if TriggersRestart(e, false, now, m.autoRestart) then 1 else 0)
  {
    ghost var t0 := m.trace;
    TickSingle(Watched, e, now, m.autoRestart);
    m.Tick(now, {});
    var ev := if TriggersRestart(e, false, now, m.autoRestart) then [ClientCall(Disconnect, Watched)] else [];
    CountKindAppend(t0, ev, Disconnect);
    SingleCounts(ClientCall(Disconnect, Watched), Disconnect, Watched);
  }

  /**
   * `count` ticks, one second apart from `from`, that find the watched
   * server's restart in flight or its timeout not yet reached: nothing
   * changes and nothing is disconnected.
   */
  method QuietTicks(m: McpClientManager, from: int, count: nat, ghost e: ClientEntry)
    requires m.Valid() && m.order == [Watched] && m.clients == map[Watched := e] && m.autoRestart == Monitor
    requires e.restarting || from + 1000 * (count - 1) - e.lastHealthy < Monitor.unhealthyTimeoutMs
    modifies m
    ensures m.Valid() && m.order == [Watched] && m.clients == map[Watched := e]
    ensures CountKind(m.trace, Disconnect) == CountKind(old(m.trace), Disconnect)
  {
    var k := 0;
    while k < count
      invariant 0 <= k <= count
      invariant m.Valid() && m.order == [Watched] && m.clients == map[Watched := e]
      invariant CountKind(m.trace, Disconnect) == CountKind(old(m.trace), Disconnect)
    {
      TickAt(m, from + 1000 * k, e);
      k := k + 1;
    }
  }

  /**
   * Six ticks, one second apart, starting one second after the watched
   * server was last healthy: the fifth reaches the timeout and starts its
   * restart, the sixth finds it in flight. Exactly one disconnect.
   */
  method UnhealthyWave(m: McpClientManager, from: int, ghost e: ClientEntry)
    requires m.Valid() && m.order == [Watched] && m.clients == map[Watched := e] && m.autoRestart == Monitor
    requires !e.restarting && from - e.lastHealthy == 1000
    modifies m
    ensures m.Valid() && m.order == [Watched] && m.clients == map[Watched := e.(restarting := true)]
    ensures CountKind(m.trace, Disconnect) == CountKind(old(m.trace), Disconnect) + 1
  {
    QuietTicks(m, from, 4, e);
    TickAt(m, from + 4000, e);
    QuietTicks(m, from + 5000, 1, e.(restarting := true));
  }

  /** A manager watching only `Watched`, connected at time 0, that has disconnected nothing yet. */
  method StartWatched() returns (m: McpClientManager)
    ensures fresh(m) && m.Valid() && m.autoRestart == Monitor && m.order == [Watched]
    ensures m.clients == map[Watched := ClientEntry("", "", false, 0)]
    ensures CountKind(m.trace, Disconnect) == 0
  {
    m := StartAll([Watched], PlainClients, Monitor, 0);
    FreshStartCounts([Watched], PlainClients);
    assert m.clients.Keys == {Watched};
  }

  /** The watched server's reconnect finishes at `now`: nothing is disconnected and it counts as healthy from `now`. */
  method FinishRestart(m: McpClientManager, now: int, ghost e: ClientEntry)
    requires m.Valid() && m.order == [Watched] && m.clients == map[Watched := e] && e.restarting
    modifies m
    ensures m.Valid() && m.order == [Watched]
    ensures m.clients == map[Watched := e.(restarting := false, lastHealthy := now)]
    ensures CountKind(m.trace, Disconnect) == CountKind(old(m.trace), Disconnect)
  {
    ghost var t := m.trace;
    var finished := m.CompleteRestart(Watched, now);
    ServerStartCounts(false, true, Watched, Watched, Disconnect);
    CountKindAppend(t, ServerStartEvents(false, true, Watched), Disconnect);
    assert m.clients == map[Watched := CompleteEntry(e, now)];
  }

  /**
   * An unresponsive server, checked every second from its connection at
   * time 0: by 6000 its restart has started (one disconnect); the tick at
   * 7000 finds the restart still in flight and starts no other; once the
   * reconnect finishes at 7000, the ticks up to 13000 restart it again.
   * The startup itself disconnects nothing, so every disconnect counted
   * comes from the monitor.
   */
  method UnresponsiveServerRestarts() returns (firstWave: nat, whileInFlight: nat, secondWave: nat)
    ensures firstWave == 1 && whileInFlight == 1 && secondWave == 2
  {
    var m := StartWatched();
    var e0 := ClientEntry("", "", false, 0);
    UnhealthyWave(m, 1000, e0);
    firstWave := CountKind(m.trace, Disconnect);
    var e1 := e0.(restarting := true);
    QuietTicks(m, 7000, 1, e1);
    whileInFlight := CountKind(m.trace, Disconnect);
    FinishRestart(m, 7000, e1);
    UnhealthyWave(m, 8000, ClientEntry("", "", false, 7000));
    secondWave := CountKind(m.trace, Disconnect);
  }
}

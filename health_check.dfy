/**
 * The health monitor. At each tick every registered server is inspected:
 * one whose restart is still in flight is skipped; one reporting a healthy
 * status is marked healthy now; one that has not been healthy for at least
 * the unhealthy timeout has its restart guard set and its disconnect
 * started. The reconnect finishes later, in a separate step that clears
 * the guard.
 */
module HealthCheck {
  import opened McpTypes
  import opened CallTrace

  /** Whether a tick at `now` starts a restart of a server in state `e`. */
  predicate TriggersRestart(e: ClientEntry, healthy: bool, now: int, cfg: AutoRestartConfig) {
    cfg.enabled && !e.restarting && !healthy && now - e.lastHealthy >= cfg.unhealthyTimeoutMs
  }

  /** A server's entry after one tick. */
  function TickEntry(e: ClientEntry, healthy: bool, now: int, cfg: AutoRestartConfig): ClientEntry {
    if !cfg.enabled || e.restarting then e
    else if healthy then e.(lastHealthy := now)
    else if now - e.lastHealthy >= cfg.unhealthyTimeoutMs then e.(restarting := true)
    else e
  }

  /** The disconnect calls one tick starts, in registration order. */
  function TickEvents(order: seq<ServerName>, clients: map<ServerName, ClientEntry>, healthy: set<ServerName>,
                      now: int, cfg: AutoRestartConfig): seq<Event>
  {
    if order == [] then []
    else
      var n := order[|order| - 1];
      TickEvents(order[..|order| - 1], clients, healthy, now, cfg)
        + (if n in clients && TriggersRestart(clients[n], n in healthy, now, cfg) then [ClientCall(Disconnect, n)] else [])
  }

  /** The registry after one tick. */
  function TickClients(clients: map<ServerName, ClientEntry>, healthy: set<ServerName>, now: int, cfg: AutoRestartConfig): map<ServerName, ClientEntry> {
    map n | n in clients :: TickEntry(clients[n], n in healthy, now, cfg)
  }

  /** The registry part-way through a tick: the servers in `done` have been checked, the others not yet. */
  function TickDone(clients: map<ServerName, ClientEntry>, done: seq<ServerName>, healthy: set<ServerName>,
                    now: int, cfg: AutoRestartConfig): (r: map<ServerName, ClientEntry>)
    ensures r.Keys == clients.Keys
  {
    map n | n in clients :: if n in done then TickEntry(clients[n], n in healthy, now, cfg) else clients[n]
  }

  lemma TickDoneNone(clients: map<ServerName, ClientEntry>, healthy: set<ServerName>, now: int, cfg: AutoRestartConfig)
    ensures TickDone(clients, [], healthy, now, cfg) == clients
  {
  }

  /** Checking one more server updates exactly its entry. */
  lemma TickDoneStep(clients: map<ServerName, ClientEntry>, done: seq<ServerName>, n: ServerName,
                     healthy: set<ServerName>, now: int, cfg: AutoRestartConfig)
    requires n in clients && n !in done
    ensures TickDone(clients, done, healthy, now, cfg)[n] == clients[n]
    ensures TickDone(clients, done + [n], healthy, now, cfg) ==
            TickDone(clients, done, healthy, now, cfg)[n := TickEntry(clients[n], n in healthy, now, cfg)]
  {
    var before, after := TickDone(clients, done, healthy, now, cfg), TickDone(clients, done + [n], healthy, now, cfg);
    var expected := before[n := TickEntry(clients[n], n in healthy, now, cfg)];
    assert forall m :: m in done + [n] <==> m in done || m == n;
    assert after.Keys == expected.Keys;
    forall m | m in after ensures after[m] == expected[m] {
    }
  }

  /** Once every server has been checked, the registry is the one a whole tick produces. */
  lemma TickDoneAll(clients: map<ServerName, ClientEntry>, current: map<ServerName, ClientEntry>, done: seq<ServerName>,
                    healthy: set<ServerName>, now: int, cfg: AutoRestartConfig)
    requires current == TickDone(clients, done, healthy, now, cfg)
    requires forall n :: n in current ==> n in done
    ensures current == TickClients(clients, healthy, now, cfg)
  {
  }

  /** The calls of a tick over a prefix one server longer. */
  lemma TickEventsPrefix(order: seq<ServerName>, i: nat, clients: map<ServerName, ClientEntry>, healthy: set<ServerName>,
                         now: int, cfg: AutoRestartConfig)
    requires i < |order| && order[i] in clients
    ensures TickEvents(order[..i + 1], clients, healthy, now, cfg) ==
            TickEvents(order[..i], clients, healthy, now, cfg)
              + (if TriggersRestart(clients[order[i]], order[i] in healthy, now, cfg) then [ClientCall(Disconnect, order[i])] else [])
  {
    assert order[..i + 1][..i] == order[..i];
  }

  /** A server's entry once its reconnect has finished at `now`: the guard is cleared and the fresh connection counts as healthy. */
  function CompleteEntry(e: ClientEntry, now: int): ClientEntry {
    e.(restarting := false, lastHealthy := now)
  }

  /** What a tick observes: its time and the servers whose status is healthy. */
  datatype HealthSample = HealthSample(now: int, healthy: set<ServerName>)

  /** The calls and final registry of successive ticks with no reconnect finishing in between. */
  function RunTicks(order: seq<ServerName>, clients: map<ServerName, ClientEntry>, samples: seq<HealthSample>,
                    cfg: AutoRestartConfig): (r: (seq<Event>, map<ServerName, ClientEntry>))
    requires forall n :: n in order ==> n in clients
    ensures r.1.Keys == clients.Keys
    decreases |samples|
  {
    if samples == [] then ([], clients)
    else
      var s := samples[0];
      var rest := RunTicks(order, TickClients(clients, s.healthy, s.now, cfg), samples[1..], cfg);
      (TickEvents(order, clients, s.healthy, s.now, cfg) + rest.0, rest.1)
  }

  /**
   * One tick disconnects a registered server exactly when it triggers a
   * restart, and makes no connect, discover or refresh call.
   */
  lemma {:induction false} TickCounts(order: seq<ServerName>, clients: map<ServerName, ClientEntry>, healthy: set<ServerName>,
                                      now: int, cfg: AutoRestartConfig, m: ServerName)
    requires forall n :: n in order ==> n in clients
    requires Distinct(order)
    ensures CountCall(TickEvents(order, clients, healthy, now, cfg), Disconnect, m) ==
            (if m in order && TriggersRestart(clients[m], m in healthy, now, cfg) then 1 else 0)
    ensures CountKind(TickEvents(order, clients, healthy, now, cfg), Connect) == 0
    ensures CountKind(TickEvents(order, clients, healthy, now, cfg), Discover) == 0
    ensures Refreshes(TickEvents(order, clients, healthy, now, cfg)) == 0
  {
    if order != [] {
      var n := order[|order| - 1];
      var init := order[..|order| - 1];
      assert order == init + [n];
      DistinctSnoc(init, n);
      assert forall x :: x in order <==> x in init || x == n;
      TickCounts(init, clients, healthy, now, cfg, m);
      var a := TickEvents(init, clients, healthy, now, cfg);
      var b: seq<Event> := if n in clients && TriggersRestart(clients[n], n in healthy, now, cfg) then [ClientCall(Disconnect, n)] else [];
      CountCallAppend(a, b, Disconnect, m);
      CountKindAppend(a, b, Connect);
      CountKindAppend(a, b, Discover);
      RefreshesAppend(a, b);
      SingleCounts(ClientCall(Disconnect, n), Connect, m);
      SingleCounts(ClientCall(Disconnect, n), Discover, m);
      SingleCounts(ClientCall(Disconnect, n), Disconnect, m);
    }
  }

  /**
   * The restart guard: over any run of ticks with no reconnect finishing,
   * a server is disconnected at most once, and not at all while a restart
   * started before the run is still in flight.
   */
  lemma {:induction false} AtMostOneRestartInFlight(order: seq<ServerName>, clients: map<ServerName, ClientEntry>,
                                                    samples: seq<HealthSample>, cfg: AutoRestartConfig, m: ServerName)
    requires forall n :: n in order ==> n in clients
    requires Distinct(order)
    requires m in clients
    ensures CountCall(RunTicks(order, clients, samples, cfg).0, Disconnect, m) <= (if clients[m].restarting then 0 else 1)
    ensures clients[m].restarting ==> RunTicks(order, clients, samples, cfg).1[m].restarting
    decreases |samples|
  {
    if samples != [] {
      var s := samples[0];
      var next := TickClients(clients, s.healthy, s.now, cfg);
      TickCounts(order, clients, s.healthy, s.now, cfg, m);
      AtMostOneRestartInFlight(order, next, samples[1..], cfg, m);
      CountCallAppend(TickEvents(order, clients, s.healthy, s.now, cfg), RunTicks(order, next, samples[1..], cfg).0, Disconnect, m);
    }
  }

  /**
   * The guard never blocks a server for good: once its reconnect has
   * finished, a server whose status is not healthy is disconnected again
   * by a tick at least one timeout later, whatever the other servers report.
   */
  lemma {:induction false} RestartAgainAfterCompletion(order: seq<ServerName>, clients: map<ServerName, ClientEntry>, healthy: set<ServerName>,
                                                       m: ServerName, finished: int, now: int, cfg: AutoRestartConfig)
    requires forall n :: n in order ==> n in clients
    requires Distinct(order)
    requires m in order && m !in healthy && clients[m] == CompleteEntry(clients[m], finished)
    requires cfg.enabled && now - finished >= cfg.unhealthyTimeoutMs
    ensures CountCall(TickEvents(order, clients, healthy, now, cfg), Disconnect, m) == 1
    ensures TickClients(clients, healthy, now, cfg)[m].restarting
  {
    TickCounts(order, clients, healthy, now, cfg, m);
  }

  /**
   * The same over a run of ticks: once the reconnect of `m` has finished,
   * ticks that never find it healthy, all but the last before one timeout
   * has passed and the last one after, disconnect it exactly once, at the
   * last tick, and leave its restart in flight.
   */
  lemma {:induction false} RestartAgainInRun(order: seq<ServerName>, clients: map<ServerName, ClientEntry>, samples: seq<HealthSample>,
                                             m: ServerName, finished: int, cfg: AutoRestartConfig)
    requires forall n :: n in order ==> n in clients
    requires Distinct(order)
    requires m in order && clients[m] == CompleteEntry(clients[m], finished) && cfg.enabled
    requires samples != [] && forall i :: 0 <= i < |samples| ==> m !in samples[i].healthy
    requires forall i :: 0 <= i < |samples| - 1 ==> samples[i].now - finished < cfg.unhealthyTimeoutMs
    requires samples[|samples| - 1].now - finished >= cfg.unhealthyTimeoutMs
    ensures CountCall(RunTicks(order, clients, samples, cfg).0, Disconnect, m) == 1
    ensures RunTicks(order, clients, samples, cfg).1[m].restarting
    decreases |samples|
  {
    var s, rest := samples[0], samples[1..];
    var next := TickClients(clients, s.healthy, s.now, cfg);
    assert m !in s.healthy;
    TickCounts(order, clients, s.healthy, s.now, cfg, m);
    if rest == [] {
      assert RunTicks(order, next, rest, cfg) == ([], next);
    } else {
      assert s.now - finished < cfg.unhealthyTimeoutMs;
      assert next[m] == clients[m];
      assert forall i :: 0 <= i < |rest| ==> rest[i] == samples[i + 1];
      RestartAgainInRun(order, next, rest, m, finished, cfg);
    }
    CountCallAppend(TickEvents(order, clients, s.healthy, s.now, cfg), RunTicks(order, next, rest, cfg).0, Disconnect, m);
  }
}

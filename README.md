# McpClientManager, modelled in Dafny

This project models `McpClientManager`. That is the component of the Gemini CLI core that starts, tracks and restarts the MCP (Model Context Protocol) tool-server clients of a session. The behaviour follows the manager's own test suite, `packages/core/src/tools/mcp-client-manager.test.ts`. The implementation file `mcp-client-manager.ts` is not part of this model. Where the tests leave a detail open, the model makes these design choices:
- starting a server that is already registered reconnects its existing client (disconnect, connect, discover) rather than replacing it;
- selection applies folder trust first, then the block list, then the allow list;
- the health check keeps a per-server `restarting` flag, which is set when a restart starts and cleared when its reconnect finishes, so that a server has at most one restart in flight.

The client is an abstract handle. The model records every call the manager makes on a client, and every context refresh and discovery-state change, in an event trace. "Called once" and "called three times" are then exact statements about that trace.

| file | module | what it holds |
|---|---|---|
| `mcp_types.dfy` | `McpTypes` | names, discovery states, trace events, registry entries, settings, extensions, `Distinct` |
| `call_trace.dfy` | `CallTrace` | counting calls by kind and server, refreshes and state changes in a trace |
| `server_selection.dfy` | `ServerSelection` | which configured or extension servers may start, and which are recorded as blocked (pure) |
| `startup.dfy` | `Startup` | the calls and registrations of a batch of server starts and of a restart (pure) |
| `health_check.dfy` | `HealthCheck` | one health tick per server, the restart guard, successive ticks (pure) |
| `instructions.dfy` | `Instructions` | the instructions document built from the servers' instructions (pure string building) |
| `mcp_client_manager.dfy` | `McpClientManagerModel` | the `McpClientManager` class: registry, blocked list, discovery state, trace, and its operations as methods |
| `manager_scenarios.dfy` | `ManagerScenarios` | each documented behaviour replayed on a fresh manager, with its exact counts and strings |

How the source's pieces become Dafny:

- **Manager state.** The state the tests change and observe step by step lives on the class `McpClientManager`:
  - the discovery state;
  - the name→client registry, with registration order;
  - the append-only blocked-server list;
  - the trace.

  Every operation is a `method` with `modifies this` whose `ensures` gives the whole new state as a function of the old one. Batch start loops over the selected names, and restart and health tick loop over the registered servers, each with invariants.
- **Client construction** is a parameter, `ClientFactory = ServerName -> Option<string>`. `Some(instructions)` is a client reporting those instructions. `None` is a constructor that throws.
- **Timers** become explicit steps:
  - `Tick(now, healthy)` is one health-check tick at time `now`, where `healthy` is the set of servers whose status reports healthy;
  - `CompleteRestart(name, now)` is the moment a health-triggered reconnect finishes.
- **Concurrency.** Servers in a batch start one after another, in selection order. Each server's start is isolated: a client that cannot be built makes no call and is not registered, and the batch goes on.

## Model

| member | source | states |
|---|---|---|
| McpClientManagerModel.McpClientManager.constructor | packages/core/src/tools/mcp-client-manager.test.ts:101-102 | a new manager has discovery state NotStarted, no clients, no blocked servers and an empty trace |
| McpClientManagerModel.McpClientManager.StartConfiguredMcpServers | packages/core/src/tools/mcp-client-manager.test.ts:69-141 | enters InProgress before any client call; starts exactly the servers the selection policy lets through, in order; appends the newly blocked records; refreshes the context once after the whole batch; ends Completed; the registry afterwards is described by `BatchRegistry` |
| McpClientManagerModel.McpClientManager.RunBatch | packages/core/src/tools/mcp-client-manager.test.ts:80-95 | the loop over a batch: trace, registration order and registry after it equal the batch functions `BatchEvents`, `Constructed` and `BatchRegistry`; the discovery state and blocked list are untouched |
| McpClientManagerModel.McpClientManager.DiscoverServer | packages/core/src/tools/mcp-client-manager.test.ts:355-361 | one server start: a registered server is disconnected and its existing client reconnected and rediscovered; a new server whose client builds is registered, connected and discovered; one whose client throws changes nothing |
| McpClientManagerModel.McpClientManager.StartExtension | packages/core/src/tools/mcp-client-manager.test.ts:143-175 | an inactive extension changes nothing; an active one starts the servers the policy lets through, tagged with the extension's name, with no context refresh |
| McpClientManagerModel.McpClientManager.Restart | packages/core/src/tools/mcp-client-manager.test.ts:189-206 | every registered server, in registration order, is disconnected, connected and discovered again; the registry keeps the same names and entries, marked healthy now |
| McpClientManagerModel.McpClientManager.RestartServer | packages/core/src/tools/mcp-client-manager.test.ts:208-232 | a registered name goes through the reconnect cycle and the call passes; an unregistered name fails with `No MCP server registered with the name "<name>"` and changes nothing |
| McpClientManagerModel.McpClientManager.Tick | packages/core/src/tools/mcp-client-manager.test.ts:370-382 | one health tick: the trace gains exactly `TickEvents` (a disconnect for each registered server that triggers a restart, in order) and the registry becomes `TickClients` |
| McpClientManagerModel.McpClientManager.CheckServer | packages/core/src/tools/mcp-client-manager.test.ts:378-382 | one server within a tick: skipped while its restart is in flight or the monitor is off; marked healthy now when healthy; guard set and disconnect made once unhealthy for at least the timeout |
| McpClientManagerModel.McpClientManager.CompleteRestart | packages/core/src/tools/mcp-client-manager.test.ts:384-389 | a restart in flight finishes: connect and discover again, the guard is cleared and the server counts as healthy now; for any other server nothing happens |
| McpClientManagerModel.StartTraceCounts | packages/core/src/tools/mcp-client-manager.test.ts:80-107 | a configured start adds exactly its batch's client calls, exactly one context refresh, and the state changes InProgress then Completed |
| McpClientManagerModel.McpClientManager.McpInstructions | packages/core/src/tools/mcp-client-manager.test.ts:266-280 | getMcpInstructions, computed as the document of the registered servers' instructions in registration order (one four-line block of header, start marker, text and end marker per server with non-empty instructions, see the Instructions rows); its contract: the result is empty iff no registered server reports instructions, and it contains the header line, both markers and the text of every server that does |
| McpClientManagerModel.InstructionsDocument | packages/core/src/tools/mcp-client-manager.test.ts:266-280 | for any registry: the document is empty iff no registered server has instructions, and it shows the header, both markers and the text of each server that has them |
| McpClientManagerModel.RegisteredInstructionsShown | packages/core/src/tools/mcp-client-manager.test.ts:266-275 | for every registered server with non-empty instructions, the document contains its header line, both markers and its text |
| ServerSelection.Partition | packages/core/src/tools/mcp-client-manager.test.ts:120-141 | a name is eligible iff it is configured, not blocked, and in the allow list when that list is non-empty; a block record exists iff the name is configured and blocked, with the given extension name; the eligible names are a subsequence of the configured ones, so they keep their order; distinct input gives distinct outputs |
| ServerSelection.SelectServers | packages/core/src/tools/mcp-client-manager.test.ts:109-141 | as Partition in a trusted folder, eligible names in configured order; an untrusted folder selects nothing and records nothing |
| ServerSelection.AllPermittedSelected | packages/core/src/tools/mcp-client-manager.test.ts:69-95 | when every name passes the lists, all of them are started, in order, and none is recorded as blocked |
| Startup.ConstructedMembers | packages/core/src/tools/mcp-client-manager.test.ts:284-300 | a batch registers exactly the names not yet registered whose client could be built, each once |
| Startup.ConstructedAll | packages/core/src/tools/mcp-client-manager.test.ts:69-95 | when no name is registered yet and every client builds, the batch registers all of them in order |
| Startup.ServerStartCounts | packages/core/src/tools/mcp-client-manager.test.ts:189-225 | one server start makes a disconnect only for a registered server, and a connect and a discover when registered or when its client builds; no refresh, no state change |
| Startup.BatchPerServer | packages/core/src/tools/mcp-client-manager.test.ts:80-95 | in a batch of distinct names, each name is connected and discovered exactly once when registered or buildable, never otherwise, and disconnected exactly when it was registered |
| Startup.BatchTotals | packages/core/src/tools/mcp-client-manager.test.ts:80-95 | a batch makes as many connects and discovers as servers started, as many disconnects as servers reconnected, and no refresh or state change of its own |
| Startup.FreshBatchCounts | packages/core/src/tools/mcp-client-manager.test.ts:80-95 | with fresh names whose clients all build, every name is started and none reconnected |
| Startup.FailedBatchCounts | packages/core/src/tools/mcp-client-manager.test.ts:284-300 | when no batch name is registered yet and no client can be built, nothing is started or reconnected |
| Startup.ReconnectPerServer | packages/core/src/tools/mcp-client-manager.test.ts:189-206 | a restart of distinct registered names disconnects, connects and discovers each exactly once, with no refresh |
| HealthCheck.TickCounts | packages/core/src/tools/mcp-client-manager.test.ts:370-376 | one tick disconnects a registered server exactly once if it triggers a restart and never otherwise, and makes no connect, discover or refresh |
| HealthCheck.AtMostOneRestartInFlight | packages/core/src/tools/mcp-client-manager.test.ts:378-382 | over any run of ticks with no reconnect finishing, a server is disconnected at most once, and not at all while a restart started before is in flight, which stays in flight |
| HealthCheck.RestartAgainAfterCompletion | packages/core/src/tools/mcp-client-manager.test.ts:384-392 | once a server's reconnect has finished, a tick at least one timeout later that does not find it healthy disconnects it exactly once and sets its guard, whatever the other servers report |
| HealthCheck.RestartAgainInRun | packages/core/src/tools/mcp-client-manager.test.ts:384-392 | after the reconnect finishes, a run of ticks that never finds the server healthy, all but the last before one timeout has passed and the last after it, disconnects it exactly once and leaves its restart in flight |
| Instructions.AggregateEmptyIff | packages/core/src/tools/mcp-client-manager.test.ts:235-280 | the document is empty iff every server's instructions are empty |
| Instructions.AggregateAppend | packages/core/src/tools/mcp-client-manager.test.ts:235-280 | the document of two runs of servers is the first run's document followed by the second's |
| Instructions.EmptyInstructionsContributeNothing | packages/core/src/tools/mcp-client-manager.test.ts:277-279 | a server with empty instructions contributes nothing, wherever it stands |
| Instructions.BlockIncluded | packages/core/src/tools/mcp-client-manager.test.ts:268-275 | a server with non-empty instructions contributes its whole block |
| Instructions.InstructionsShown | packages/core/src/tools/mcp-client-manager.test.ts:268-275 | that block's header line, start marker, text and end marker all occur in the document |
| ManagerScenarios.FreshStartCounts | packages/core/src/tools/mcp-client-manager.test.ts:69-95 | starting N distinct fresh servers whose clients build: N connects and N discovers, each server once, no disconnect, one refresh, states InProgress then Completed |
| ManagerScenarios.DiscoverConfigured | packages/core/src/tools/mcp-client-manager.test.ts:69-78 | one configured server: connect 1, discover 1, refresh 1 |
| ManagerScenarios.BatchRefreshOnce | packages/core/src/tools/mcp-client-manager.test.ts:80-95 | three configured servers: connect 3, discover 3, refresh 1 |
| ManagerScenarios.DiscoveryStateProgress | packages/core/src/tools/mcp-client-manager.test.ts:97-107 | NotStarted before the start; the start's first event is entering InProgress; the states entered are InProgress then Completed; Completed afterwards |
| ManagerScenarios.UntrustedFolder | packages/core/src/tools/mcp-client-manager.test.ts:109-118 | untrusted folder: connect 0, discover 0 |
| ManagerScenarios.BlockedNotStarted | packages/core/src/tools/mcp-client-manager.test.ts:120-129 | a blocked server: connect 0, discover 0, and the blocked list is exactly `{name: "test-server", extensionName: ""}` (also lines 177-187) |
| ManagerScenarios.AllowListOnly | packages/core/src/tools/mcp-client-manager.test.ts:131-141 | two configured servers, one allowed: connect 1, discover 1, only the allowed one registered |
| ManagerScenarios.ActiveExtension | packages/core/src/tools/mcp-client-manager.test.ts:143-158 | an active extension's server: connect 1, discover 1, registered under the extension's name |
| ManagerScenarios.InactiveExtension | packages/core/src/tools/mcp-client-manager.test.ts:160-175 | an inactive extension: connect 0, discover 0 |
| ManagerScenarios.RestartAllServers | packages/core/src/tools/mcp-client-manager.test.ts:189-206 | connect 1 and discover 1 after the start; after restart(): disconnect 1, connect 2, discover 2 |
| ManagerScenarios.RestartNamedServer | packages/core/src/tools/mcp-client-manager.test.ts:208-225 | restartServer passes; disconnect 1, connect 2, discover 2 |
| ManagerScenarios.RestartUnknownServer | packages/core/src/tools/mcp-client-manager.test.ts:227-232 | fails with exactly `No MCP server registered with the name "non-existent"` |
| ManagerScenarios.ClientConstructionFails | packages/core/src/tools/mcp-client-manager.test.ts:284-300 | with a throwing client constructor the start still completes: state Completed, refresh 1, connect 0, nothing registered |
| ManagerScenarios.ExpectedHeader | packages/core/src/tools/mcp-client-manager.test.ts:268-270 | the header for `server-with-instructions` is exactly the tested line |
| ManagerScenarios.OneBlockOfTwo | packages/core/src/tools/mcp-client-manager.test.ts:260-280 | a server with instructions followed by one without: the document is the first server's block alone |
| ManagerScenarios.InstructionsOnlyWhereGiven | packages/core/src/tools/mcp-client-manager.test.ts:236-280 | the document is exactly the block of `server-with-instructions` and contains its header, both markers and `Instructions for server-with-instructions` |
| ManagerScenarios.UnhealthyWave | packages/core/src/tools/mcp-client-manager.test.ts:370-382 | ticks one second apart from one second after the last healthy moment: exactly one disconnect, and the restart is left in flight |
| ManagerScenarios.UnresponsiveServerRestarts | packages/core/src/tools/mcp-client-manager.test.ts:336-393 | with interval 1000 and timeout 5000: one disconnect by 6000, still one after a tick while the restart is pending, two after the restart completes and the timeout elapses again |

## Left out

- Asynchrony, promises and timers are left out. Concurrent server starts are sequentialised in selection order. Timer ticks and the resolution of a pending disconnect are explicit calls (`Tick`, `CompleteRestart`), with time as an integer parameter.
- `healthCheckIntervalMs` is carried in the configuration but not used by the model: the caller picks the tick times. Stopping the manager, which cancels the timer, is not modelled.
- Client status is the `healthy` set passed to `Tick`, not a call on the client.
- A failing disconnect is not modelled as a separate case. The manager swallows it and the reconnect goes ahead, so the calls and the result are those of a successful one. This covers the failing first disconnect at `mcp-client-manager.test.ts:302-324`: `RestartServer` passes for every registered name.
- McpClientManagerModel.McpClientManager.DiscoverServer: a failing connect is not modelled. In the system a connect that fails skips the discover call, and the server's health timestamp is not refreshed because that refresh happens on a successful connect. The model always makes both calls and sets `lastHealthy` to now.
- McpClientManagerModel.McpClientManager.CompleteRestart: a health-triggered reconnect whose connect fails is not modelled either. The model always clears the guard and sets `lastHealthy` to the completion time. So after a failed reconnect the model waits a full timeout before the next restart, where the system makes the server eligible again at the next tick.
- A failing discover is not modelled: the model's discover always succeeds.
- Logging, the MCP wire protocol, the tool, prompt and resource registries, the Gemini client and the server configurations are external collaborators. A server's configuration is only its name.
- `StartExtension` makes no context refresh and does not change the discovery state. The tests do not say otherwise.
- ManagerScenarios.InstructionsOnlyWhereGiven: the test's check that the document has no header for `server-without-instructions` is not proved on the concrete string. What is proved instead is that the document is exactly the other server's single block, and, for any servers, that a server with empty instructions contributes nothing (`Instructions.EmptyInstructionsContributeNothing`).
- The separator between instruction blocks is not fixed by the tests. The model ends each of a block's four lines with a newline and concatenates the blocks.
- `packages/core/src/tools/mcp-client-manager.ts` is not part of this model. Its behaviour is taken from the tests, with the design choices listed at the top of this file.
- `packages/cli/src/ui/components/messages/ToolConfirmationMessage_interaction.test.tsx` is user-interface rendering and is not part of this model.

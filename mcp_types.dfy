/** Values shared by every part of the MCP client manager model. */
module McpTypes {

  /** Key of the client registry: the name a server is configured under. */
  type ServerName = string

  datatype Option<+T> = None | Some(value: T)

  /** Result of an operation that can fail with a message and has no value. */
  datatype Outcome = Pass | Fail(message: string)

  /** Overall phase of a batch start (MCPDiscoveryState). */
  datatype DiscoveryState = NotStarted | InProgress | Completed

  /** The three calls the manager makes on a client handle. */
  datatype CallKind = Connect | Discover | Disconnect

  /**
   * One observable interaction of the manager: a call on a client,
   * the batched context refresh on the configuration, or a change of
   * the discovery state.
   */
  datatype Event =
    | ClientCall(kind: CallKind, server: ServerName)
    | RefreshContext
    | StateChange(state: DiscoveryState)

  /** A server skipped because its name is on the block list. */
  datatype BlockedServer = BlockedServer(name: ServerName, extensionName: string)

  /**
   * What the manager keeps about one registered client: the extension it
   * came from ("" for a user-configured server), the instructions its
   * client reports, the restart guard, and when it was last seen healthy.
   */
  datatype ClientEntry = ClientEntry(
    extensionName: string,
    instructions: string,
    restarting: bool,
    lastHealthy: int)

  /** The auto-restart settings of the health monitor. */
  datatype AutoRestartConfig = AutoRestartConfig(
    enabled: bool,
    healthCheckIntervalMs: nat,
    unhealthyTimeoutMs: nat)

  /**
   * What the configuration reports when a start operation runs: folder
   * trust, the configured server names (the keys of the server map, in
   * insertion order), the allow list and the block list.
   */
  datatype McpSettings = McpSettings(
    trusted: bool,
    servers: seq<ServerName>,
    allowed: seq<ServerName>,
    blocked: seq<ServerName>)

  /** An extension contributing its own servers. */
  datatype Extension = Extension(name: string, servers: seq<ServerName>, isActive: bool)

  /** No element occurs twice (the keys of an object or map). */
  predicate Distinct<T(==)>(s: seq<T>) {
    forall i, j :: 0 <= i < j < |s| ==> s[i] != s[j]
  }

  /** Prepending keeps a sequence duplicate-free exactly when the new element is not already there. */
  lemma DistinctCons<T>(x: T, s: seq<T>)
    ensures Distinct([x] + s) <==> x !in s && Distinct(s)
  {
    var xs := [x] + s;
    if x !in s && Distinct(s) {
      forall i, j | 0 <= i < j < |xs| ensures xs[i] != xs[j] {
        if i == 0 { assert xs[j] == s[j - 1]; }
      }
    }
    if Distinct(xs) {
      forall i | 0 <= i < |s| ensures s[i] != x { assert xs[0] == x && xs[i + 1] == s[i]; }
      forall i, j | 0 <= i < j < |s| ensures s[i] != s[j] { assert xs[i + 1] == s[i] && xs[j + 1] == s[j]; }
    }
  }

  /** Appending keeps a sequence duplicate-free exactly when the new element is not already there. */
  lemma DistinctSnoc<T>(s: seq<T>, x: T)
    ensures Distinct(s + [x]) <==> x !in s && Distinct(s)
  {
    var xs := s + [x];
    if x !in s && Distinct(s) {
      forall i, j | 0 <= i < j < |xs| ensures xs[i] != xs[j] {
        if j == |s| { assert xs[i] == s[i]; }
      }
    }
    if Distinct(xs) {
      forall i | 0 <= i < |s| ensures s[i] != x { assert xs[|s|] == x && xs[i] == s[i]; }
      forall i, j | 0 <= i < j < |s| ensures s[i] != s[j] { assert xs[i] == s[i] && xs[j] == s[j]; }
    }
  }

  lemma AppendAssoc<T>(a: seq<T>, b: seq<T>, c: seq<T>)
    ensures a + b + c == a + (b + c)
  {
  }

  /** In a duplicate-free sequence an element does not occur before its own position. */
  lemma DistinctNotBefore<T>(s: seq<T>, i: nat)
    requires Distinct(s) && i < |s|
    ensures s[i] !in s[..i]
  {
    forall j | 0 <= j < i ensures s[..i][j] != s[i] {
      assert s[..i][j] == s[j];
    }
  }

  /** `a` is `b` with some elements left out, the rest in their order. */
  predicate SubsequenceOf<T(==)>(a: seq<T>, b: seq<T>)
    decreases |b|
  {
    |a| <= |b| &&
    (a == b || (b != [] && (SubsequenceOf(a, b[1..]) || (a != [] && a[0] == b[0] && SubsequenceOf(a[1..], b[1..])))))
  }

  lemma {:induction false} EmptySubsequence<T>(b: seq<T>)
    ensures SubsequenceOf([], b)
    decreases |b|
  {
    if b != [] {
      EmptySubsequence(b[1..]);
    }
  }

  /** Updating the entry of a key already present keeps the key set. */
  lemma UpdateKeeps<K, V>(m: map<K, V>, k: K, v: V)
    requires k in m
    ensures m[k := v].Keys == m.Keys
  {
  }
}

/**
 * Counting over the manager's event trace: how many connect, discover and
 * disconnect calls were made (overall and per server), how many context
 * refreshes, and which discovery states were entered.
 */
module CallTrace {
  import opened McpTypes

  /** Number of calls of kind `k`, to any server. */
  function CountKind(t: seq<Event>, k: CallKind): nat {
    if t == [] then 0
    else CountKind(t[..|t| - 1], k) + (if t[|t| - 1].ClientCall? && t[|t| - 1].kind == k then 1 else 0)
  }

  /** Number of calls of kind `k` to server `n`. */
  function CountCall(t: seq<Event>, k: CallKind, n: ServerName): (c: nat)
    ensures c <= CountKind(t, k)
  {
    if t == [] then 0
    else CountCall(t[..|t| - 1], k, n) + (if t[|t| - 1] == ClientCall(k, n) then 1 else 0)
  }

  /** Number of batched context refreshes. */
  function Refreshes(t: seq<Event>): nat {
    if t == [] then 0
    else Refreshes(t[..|t| - 1]) + (if t[|t| - 1] == RefreshContext then 1 else 0)
  }

  /** The discovery states entered, in order. */
  function States(t: seq<Event>): seq<DiscoveryState> {
    if t == [] then []
    else States(t[..|t| - 1]) + (if t[|t| - 1].StateChange? then [t[|t| - 1].state] else [])
  }

  /** The discovery state after the trace, starting from NotStarted. */
  function LastState(t: seq<Event>): (s: DiscoveryState)
    ensures States(t) == [] ==> s == NotStarted
    ensures States(t) != [] ==> s == States(t)[|States(t)| - 1]
  {
    if t == [] then NotStarted
    else if t[|t| - 1].StateChange? then t[|t| - 1].state
    else LastState(t[..|t| - 1])
  }

  lemma {:induction false} CountKindAppend(a: seq<Event>, b: seq<Event>, k: CallKind)
    ensures CountKind(a + b, k) == CountKind(a, k) + CountKind(b, k)
  {
    if b != [] {
      assert (a + b)[..|a + b| - 1] == a + b[..|b| - 1];
      CountKindAppend(a, b[..|b| - 1], k);
    } else {
      assert a + b == a;
    }
  }

  lemma {:induction false} CountCallAppend(a: seq<Event>, b: seq<Event>, k: CallKind, n: ServerName)
    ensures CountCall(a + b, k, n) == CountCall(a, k, n) + CountCall(b, k, n)
  {
    if b != [] {
      assert (a + b)[..|a + b| - 1] == a + b[..|b| - 1];
      CountCallAppend(a, b[..|b| - 1], k, n);
    } else {
      assert a + b == a;
    }
  }

  lemma {:induction false} RefreshesAppend(a: seq<Event>, b: seq<Event>)
    ensures Refreshes(a + b) == Refreshes(a) + Refreshes(b)
  {
    if b != [] {
      assert (a + b)[..|a + b| - 1] == a + b[..|b| - 1];
      RefreshesAppend(a, b[..|b| - 1]);
    } else {
      assert a + b == a;
    }
  }

  lemma {:induction false} StatesAppend(a: seq<Event>, b: seq<Event>)
    ensures States(a + b) == States(a) + States(b)
  {
    if b != [] {
      assert (a + b)[..|a + b| - 1] == a + b[..|b| - 1];
      StatesAppend(a, b[..|b| - 1]);
    } else {
      assert a + b == a;
    }
  }

  /** The counts of a one-event trace. */
  lemma SingleCounts(e: Event, k: CallKind, m: ServerName)
    ensures CountCall([e], k, m) == (if e == ClientCall(k, m) then 1 else 0)
    ensures CountKind([e], k) == (if e.ClientCall? && e.kind == k then 1 else 0)
    ensures Refreshes([e]) == (if e == RefreshContext then 1 else 0)
    ensures States([e]) == (if e.StateChange? then [e.state] else [])
  {
    assert [e][..0] == [];
  }

  /** Events that change no discovery state leave the current state as it is. */
  lemma LastStateKept(a: seq<Event>, b: seq<Event>)
    requires States(b) == []
    ensures LastState(a + b) == LastState(a)
  {
    StatesAppend(a, b);
    assert States(a + b) == States(a);
  }

  /** A client call changes no discovery state. */
  lemma CallKeepsState(t: seq<Event>, k: CallKind, n: ServerName)
    ensures LastState(t + [ClientCall(k, n)]) == LastState(t)
  {
    SingleCounts(ClientCall(k, n), k, n);
    LastStateKept(t, [ClientCall(k, n)]);
  }

  /** A state change makes its state the current one. */
  lemma EnterState(t: seq<Event>, s: DiscoveryState)
    ensures LastState(t + [StateChange(s)]) == s
  {
    assert (t + [StateChange(s)])[|t|] == StateChange(s);
  }

  /** A context refresh changes no discovery state. */
  lemma RefreshKeepsState(t: seq<Event>)
    ensures LastState(t + [RefreshContext]) == LastState(t)
  {
    assert (t + [RefreshContext])[..|t|] == t;
  }
}

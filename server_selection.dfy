/**
 * The server selector: given folder trust, an allow list and a block list,
 * which of a server map's names may start, and which names are recorded
 * as blocked. It is applied to the user-configured servers (extension
 * name "") and to each active extension's servers (its own name).
 */
module ServerSelection {
  import opened McpTypes

  datatype Selection = Selection(eligible: seq<ServerName>, newlyBlocked: seq<BlockedServer>)

  /** A name passes the lists: not blocked, and allowed when the allow list is non-empty. */
  predicate Permitted(n: ServerName, allowed: seq<ServerName>, blocked: seq<ServerName>) {
    n !in blocked && (|allowed| == 0 || n in allowed)
  }

  /**
   * Selection in a trusted folder: a block-listed name is excluded and
   * recorded, then a non-empty allow list keeps only the names it contains.
   * The eligible names keep their order in `names`.
   */
  function Partition(names: seq<ServerName>, allowed: seq<ServerName>, blocked: seq<ServerName>, extensionName: string): (r: Selection)
    ensures forall n :: n in r.eligible <==> n in names && Permitted(n, allowed, blocked)
    ensures forall b :: b in r.newlyBlocked <==> b.name in names && b.name in blocked && b.extensionName == extensionName
    ensures Distinct(names) ==> Distinct(r.eligible) && Distinct(r.newlyBlocked)
    ensures SubsequenceOf(r.eligible, names)
    ensures |r.eligible| + |r.newlyBlocked| <= |names|
  {
    if names == [] then Selection([], [])
    else
      var rest := Partition(names[1..], allowed, blocked, extensionName);
      var n := names[0];
      assert forall m :: m in names <==> m == n || m in names[1..];
      DistinctCons(n, names[1..]);
      DistinctCons(n, rest.eligible);
      DistinctCons(BlockedServer(n, extensionName), rest.newlyBlocked);
      if n in blocked then
        Selection(rest.eligible, [BlockedServer(n, extensionName)] + rest.newlyBlocked)
      else if |allowed| > 0 && n !in allowed then
        rest
      else
        Selection([n] + rest.eligible, rest.newlyBlocked)
  }

  /**
   * The full selection policy: an untrusted folder starts nothing and
   * records nothing; otherwise Partition decides.
   */
  function SelectServers(names: seq<ServerName>, trusted: bool, allowed: seq<ServerName>, blocked: seq<ServerName>, extensionName: string): (r: Selection)
    ensures forall n :: n in r.eligible <==> trusted && n in names && Permitted(n, allowed, blocked)
    ensures forall b :: b in r.newlyBlocked <==> trusted && b.name in names && b.name in blocked && b.extensionName == extensionName
    ensures Distinct(names) ==> Distinct(r.eligible) && Distinct(r.newlyBlocked)
    ensures SubsequenceOf(r.eligible, names)
    ensures !trusted ==> r == Selection([], [])
  {
    if !trusted then EmptySubsequence(names); Selection([], []) else Partition(names, allowed, blocked, extensionName)
  }

  /** When every name passes the lists, a trusted folder starts all of them, in order, and records none as blocked. */
  lemma {:induction false} AllPermittedSelected(names: seq<ServerName>, allowed: seq<ServerName>, blocked: seq<ServerName>, extensionName: string)
    requires forall n :: n in names ==> Permitted(n, allowed, blocked)
    ensures Partition(names, allowed, blocked, extensionName) == Selection(names, [])
  {
    if names != [] {
      assert forall m :: m in names[1..] ==> m in names;
      AllPermittedSelected(names[1..], allowed, blocked, extensionName);
      assert Permitted(names[0], allowed, blocked);
      assert [names[0]] + names[1..] == names;
    }
  }
}

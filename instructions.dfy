/**
 * The instructions aggregator: one delimited block per registered server
 * whose client reports non-empty instructions, in registration order.
 */
module Instructions {
  import opened McpTypes

  datatype ServerInstructions = ServerInstructions(server: ServerName, text: string)

  const StartMarker: string := "---[start of server instructions]---"
  const EndMarker: string := "---[end of server instructions]---"

  function Header(n: ServerName): string {
    "The following are instructions provided by the tool server '" + n + "':"
  }

  /** The block for one server: header, start marker, the text, end marker, each on its own line. */
  function ServerBlock(n: ServerName, text: string): string {
    Header(n) + "\n" + StartMarker + "\n" + text + "\n" + EndMarker + "\n"
  }

  /** How a block is drawn for a server and its (non-empty) instructions. */
  type BlockFormat = (ServerName, string) -> string

  /**
   * The concatenated blocks of the servers with non-empty instructions,
   * for any block format. The lemmas about the aggregate are proved at
   * this level, where the shape of a block does not matter.
   */
  function Render(servers: seq<ServerInstructions>, block: BlockFormat): string {
    if servers == [] then ""
    else
      var s := servers[|servers| - 1];
      Render(servers[..|servers| - 1], block) + (if s.text == "" then "" else block(s.server, s.text))
  }

  /** The instructions document (getMcpInstructions). */
  function Aggregate(servers: seq<ServerInstructions>): string {
    Render(servers, ServerBlock)
  }

  lemma {:induction false} RenderAppend(a: seq<ServerInstructions>, b: seq<ServerInstructions>, block: BlockFormat)
    ensures Render(a + b, block) == Render(a, block) + Render(b, block)
  {
    if b == [] {
      assert a + b == a;
    } else {
      var init, last := b[..|b| - 1], b[|b| - 1];
      assert (a + b)[..|a + b| - 1] == a + init;
      assert (a + b)[|a + b| - 1] == last;
      RenderAppend(a, init, block);
    }
  }

  lemma RenderSingle(x: ServerInstructions, block: BlockFormat)
    ensures Render([x], block) == if x.text == "" then "" else block(x.server, x.text)
  {
    assert [x][..0] == [];
  }

  lemma {:induction false} RenderEmptyIff(servers: seq<ServerInstructions>, block: BlockFormat)
    requires forall n, t :: t != "" ==> block(n, t) != ""
    ensures Render(servers, block) == "" <==> forall i :: 0 <= i < |servers| ==> servers[i].text == ""
  {
    if servers != [] {
      var init := servers[..|servers| - 1];
      RenderEmptyIff(init, block);
      assert forall i :: 0 <= i < |init| ==> init[i] == servers[i];
    }
  }

  /** The document is empty exactly when every server's instructions are empty. */
  lemma AggregateEmptyIff(servers: seq<ServerInstructions>)
    ensures Aggregate(servers) == "" <==> forall i :: 0 <= i < |servers| ==> servers[i].text == ""
  {
    forall n, t | t != "" ensures ServerBlock(n, t) != "" {
      assert |ServerBlock(n, t)| > |t|;
    }
    RenderEmptyIff(servers, ServerBlock);
  }

  /** `part` occurs in `s` at position `k`. */
  predicate OccursAt(s: string, part: string, k: nat) {
    k + |part| <= |s| && s[k..k + |part|] == part
  }

  /** `part` occurs somewhere in `s`. */
  predicate Contains(s: string, part: string) {
    exists k: nat | k <= |s| :: OccursAt(s, part, k)
  }

  lemma ContainsMiddle(a: string, b: string, c: string)
    ensures Contains(a + b + c, b)
  {
    assert (a + b + c)[|a|..|a| + |b|] == b;
    assert OccursAt(a + b + c, b, |a|);
  }

  lemma ContainsTransitive(s: string, t: string, u: string)
    requires Contains(s, t) && Contains(t, u)
    ensures Contains(s, u)
  {
    var k: nat :| k <= |s| && OccursAt(s, t, k);
    var j: nat :| j <= |t| && OccursAt(t, u, j);
    forall i | 0 <= i < |u| ensures s[k + j + i] == u[i] {
      assert t[j + i] == u[i];
      assert s[k..k + |t|][j + i] == s[k + (j + i)];
    }
    assert s[k + j..k + j + |u|] == u;
    assert OccursAt(s, u, k + j);
  }

  /** The document for two runs of servers is the document of the first followed by that of the second. */
  lemma AggregateAppend(a: seq<ServerInstructions>, b: seq<ServerInstructions>)
    ensures Aggregate(a + b) == Aggregate(a) + Aggregate(b)
  {
    RenderAppend(a, b, ServerBlock);
  }

  lemma RenderSkipsEmpty(a: seq<ServerInstructions>, n: ServerName, b: seq<ServerInstructions>, block: BlockFormat)
    ensures Render(a + [ServerInstructions(n, "")] + b, block) == Render(a + b, block)
  {
    var e := [ServerInstructions(n, "")];
    RenderAppend(a + e, b, block);
    RenderAppend(a, e, block);
    RenderSingle(e[0], block);
    RenderAppend(a, b, block);
  }

  /** A server with empty instructions contributes nothing, wherever it stands. */
  lemma EmptyInstructionsContributeNothing(a: seq<ServerInstructions>, n: ServerName, b: seq<ServerInstructions>)
    ensures Aggregate(a + [ServerInstructions(n, "")] + b) == Aggregate(a + b)
  {
    RenderSkipsEmpty(a, n, b, ServerBlock);
  }

  lemma RenderIncludesBlock(servers: seq<ServerInstructions>, i: nat, block: BlockFormat)
    requires i < |servers| && servers[i].text != ""
    ensures Contains(Render(servers, block), block(servers[i].server, servers[i].text))
  {
    var a, e, b := servers[..i], [servers[i]], servers[i + 1..];
    assert servers[..i + 1] == a + e;
    assert servers == servers[..i + 1] + b;
    RenderAppend(a + e, b, block);
    RenderAppend(a, e, block);
    RenderSingle(e[0], block);
    ContainsMiddle(Render(a, block), block(servers[i].server, servers[i].text), Render(b, block));
  }

  /** A server with non-empty instructions contributes its whole block. */
  lemma BlockIncluded(servers: seq<ServerInstructions>, i: nat)
    requires i < |servers| && servers[i].text != ""
    ensures Contains(Aggregate(servers), ServerBlock(servers[i].server, servers[i].text))
  {
    RenderIncludesBlock(servers, i, ServerBlock);
  }

  /** The header line of a block occurs in it. */
  lemma HeaderInBlock(h: string, sm: string, t: string, em: string, nl: string)
    ensures Contains(h + nl + sm + nl + t + nl + em + nl, h)
  {
    var rest := nl + sm + nl + t + nl + em + nl;
    assert h + nl + sm + nl + t + nl + em + nl == [] + h + rest;
    ContainsMiddle([], h, rest);
  }

  /** The start-marker line of a block occurs in it. */
  lemma StartMarkerInBlock(h: string, sm: string, t: string, em: string, nl: string)
    ensures Contains(h + nl + sm + nl + t + nl + em + nl, sm)
  {
    var rest := nl + t + nl + em + nl;
    assert h + nl + sm + nl + t + nl + em + nl == (h + nl) + sm + rest;
    ContainsMiddle(h + nl, sm, rest);
  }

  /** The instructions text of a block occurs in it. */
  lemma TextInBlock(h: string, sm: string, t: string, em: string, nl: string)
    ensures Contains(h + nl + sm + nl + t + nl + em + nl, t)
  {
    var rest := nl + em + nl;
    assert h + nl + sm + nl + t + nl + em + nl == (h + nl + sm + nl) + t + rest;
    ContainsMiddle(h + nl + sm + nl, t, rest);
  }

  /** The end-marker line of a block occurs in it. */
  lemma EndMarkerInBlock(h: string, sm: string, t: string, em: string, nl: string)
    ensures Contains(h + nl + sm + nl + t + nl + em + nl, em)
  {
    ContainsMiddle(h + nl + sm + nl + t + nl, em, nl);
  }

  /**
   * The document for a server with non-empty instructions contains its
   * header line, both markers and its instructions text.
   */
  lemma InstructionsShown(servers: seq<ServerInstructions>, i: nat)
    requires i < |servers| && servers[i].text != ""
    ensures Contains(Aggregate(servers), Header(servers[i].server))
    ensures Contains(Aggregate(servers), StartMarker)
    ensures Contains(Aggregate(servers), servers[i].text)
    ensures Contains(Aggregate(servers), EndMarker)
  {
    var n, t := servers[i].server, servers[i].text;
    var doc, block := Aggregate(servers), ServerBlock(n, t);
    BlockIncluded(servers, i);
    HeaderInBlock(Header(n), StartMarker, t, EndMarker, "\n");
    StartMarkerInBlock(Header(n), StartMarker, t, EndMarker, "\n");
    TextInBlock(Header(n), StartMarker, t, EndMarker, "\n");
    EndMarkerInBlock(Header(n), StartMarker, t, EndMarker, "\n");
    ContainsTransitive(doc, block, Header(n));
    ContainsTransitive(doc, block, StartMarker);
    ContainsTransitive(doc, block, t);
    ContainsTransitive(doc, block, EndMarker);
  }
}

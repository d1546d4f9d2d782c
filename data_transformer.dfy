/** Turning Neo4j result rows (node, relationship, node) into a de-duplicated
    node and edge list, and blanking node embeddings in place.

    A driver object is modelled by the attributes the code reads: its
    element_id, its `_properties` dict and, for a relationship, its type. A
    property value is a string, None, or any other value given by its str()
    text. */
module DataTransformer {
  import opened Wrappers

  datatype PropValue = Text(s: string) | Null | Other(repr: string)

  type Props = map<string, PropValue>

  datatype Elem = Elem(elementId: Option<string>, properties: Option<Props>, relType: Option<string>)

  /** One element of a result row; a row is a sequence of them. */
  type Row = seq<Elem>

  datatype Node = Node(id: string, name: PropValue)

  datatype Edge = Edge(
    id: string,
    relType: string,
    sourceId: Option<string>,
    targetId: Option<string>,
    sourceName: PropValue,
    targetName: PropValue)

  /** {"nodes": [...], "edges": [...]} */
  datatype Graph = Graph(nodes: seq<Node>, edges: seq<Edge>)

  /** `if x_id` for an element id: None and "" are falsy. */
  predicate TruthyId(id: Option<string>) {
    id.Some? && id.value != ""
  }

  /** getattr(e, '_properties', {}).get('name', 'unknown') */
  function NameOf(e: Elem): PropValue {
    if e.properties.Some? && "name" in e.properties.value then e.properties.value["name"]
    else Text("unknown")
  }

  /** getattr(r, 'type', 'unknown') */
  function TypeOf(e: Elem): string {
    e.relType.GetOr("unknown")
  }

  function NodeIds(g: Graph): set<string> {
    set x | x in g.nodes :: x.id
  }

  function EdgeIds(g: Graph): set<string> {
    set x | x in g.edges :: x.id
  }

  function AddNode(g: Graph, e: Elem): Graph {
    if TruthyId(e.elementId) && e.elementId.value !in NodeIds(g)
    then g.(nodes := g.nodes + [Node(e.elementId.value, NameOf(e))])
    else g
  }

  /** One turn of the loop of format_query_results on a row. */
  function Step(g: Graph, row: Row): Graph {
    if |row| < 3 then g
    else
      var n, r, m := row[0], row[1], row[2];
      var g2 := AddNode(AddNode(g, n), m);
      if TruthyId(r.elementId) && r.elementId.value !in EdgeIds(g2)
      then g2.(edges := g2.edges + [Edge(r.elementId.value, TypeOf(r), n.elementId, m.elementId,
                                         NameOf(n), NameOf(m))])
      else g2
  }

  /** The loop run over the rows, starting from g. */
  function Run(g: Graph, rows: seq<Row>): Graph
    decreases |rows|
  {
    if rows == [] then g else Run(Step(g, rows[0]), rows[1..])
  }

  const Empty := Graph([], [])

  lemma {:induction false} RunAppend(g: Graph, s: seq<Row>, t: seq<Row>)
    ensures Run(g, s + t) == Run(Run(g, s), t)
    decreases |s|
  {
    if s == [] {
      assert s + t == t;
    } else {
      assert (s + t)[0] == s[0] && (s + t)[1..] == s[1..] + t;
      RunAppend(Step(g, s[0]), s[1..], t);
    }
  }

  /** Adding a node adds its id, when truthy, to the node ids. */
  lemma AddNodeIds(g: Graph, e: Elem)
    ensures NodeIds(AddNode(g, e)) == NodeIds(g) + (if TruthyId(e.elementId) then {e.elementId.value} else {})
    ensures AddNode(g, e).edges == g.edges
  {
    if TruthyId(e.elementId) && e.elementId.value !in NodeIds(g) {
      var x := Node(e.elementId.value, NameOf(e));
      assert x in AddNode(g, e).nodes;
    }
  }

  /** Appending an edge adds its id to the edge ids. */
  lemma AddEdgeIds(g: Graph, e: Edge)
    ensures EdgeIds(g.(edges := g.edges + [e])) == EdgeIds(g) + {e.id}
    ensures NodeIds(g.(edges := g.edges + [e])) == NodeIds(g)
  {
    assert e in g.(edges := g.edges + [e]).edges;
  }

  /** format_query_results, with the seen-id sets of the source. */
  method FormatQueryResults(results: seq<Row>) returns (g: Graph)
    ensures g == Run(Empty, results)
  {
    g := Empty;
    var nodeIds: set<string> := {};
    var edgeIds: set<string> := {};
    var i := 0;
    while i < |results|
      invariant 0 <= i <= |results|
      invariant g == Run(Empty, results[..i])
      invariant nodeIds == NodeIds(g) && edgeIds == EdgeIds(g)
    {
      var row := results[i];
      RunAppend(Empty, results[..i], [row]);
      assert results[..i + 1] == results[..i] + [row];
      if |row| >= 3 {
        var n, r, m := row[0], row[1], row[2];
        var nName, mName := NameOf(n), NameOf(m);
        var rType := TypeOf(r);
        ghost var g0 := g;
        if TruthyId(n.elementId) && n.elementId.value !in nodeIds {
          g := g.(nodes := g.nodes + [Node(n.elementId.value, nName)]);
          nodeIds := nodeIds + {n.elementId.value};
        }
        AddNodeIds(g0, n);
        ghost var g1 := g;
        if TruthyId(m.elementId) && m.elementId.value !in nodeIds {
          g := g.(nodes := g.nodes + [Node(m.elementId.value, mName)]);
          nodeIds := nodeIds + {m.elementId.value};
        }
        AddNodeIds(g1, m);
        ghost var g2 := g;
        if TruthyId(r.elementId) && r.elementId.value !in edgeIds {
          var e := Edge(r.elementId.value, rType, n.elementId, m.elementId, nName, mName);
          AddEdgeIds(g2, e);
          g := g.(edges := g.edges + [e]);
          edgeIds := edgeIds + {r.elementId.value};
        }
        assert g == Step(g0, row);
      }
      i := i + 1;
    }
    assert results[..i] == results;
  }

  // ---------------------------------------------------------------------------
  // Properties of the formatted graph.
  // ---------------------------------------------------------------------------

  /** No node id and no edge id occurs twice. */
  predicate Distinct(g: Graph) {
    && (forall i, j :: 0 <= i < j < |g.nodes| ==> g.nodes[i].id != g.nodes[j].id)
    && (forall i, j :: 0 <= i < j < |g.edges| ==> g.edges[i].id != g.edges[j].id)
  }

  /** Adding a node keeps the ids distinct: it is added only when its id is new. */
  lemma AddNodeDistinct(g: Graph, e: Elem)
    requires Distinct(g)
    ensures Distinct(AddNode(g, e))
  {
    var g1 := AddNode(g, e);
    if g1 != g {
      forall i, j | 0 <= i < j < |g1.nodes|
        ensures g1.nodes[i].id != g1.nodes[j].id
      {
        assert g1.nodes[i] == g.nodes[i];
        if j == |g.nodes| {
          assert g.nodes[i] in g.nodes;
        } else {
          assert g1.nodes[j] == g.nodes[j];
        }
      }
    }
  }

  lemma StepDistinct(g: Graph, row: Row)
    requires Distinct(g)
    ensures Distinct(Step(g, row))
  {
    if |row| >= 3 {
      AddNodeDistinct(g, row[0]);
      AddNodeDistinct(AddNode(g, row[0]), row[2]);
      var g2 := AddNode(AddNode(g, row[0]), row[2]);
      var g3 := Step(g, row);
      if g3 != g2 {
        forall i, j | 0 <= i < j < |g3.edges|
          ensures g3.edges[i].id != g3.edges[j].id
        {
          assert g3.edges[i] == g2.edges[i];
          if j == |g2.edges| {
            assert g2.edges[i] in g2.edges;
          } else {
            assert g3.edges[j] == g2.edges[j];
          }
        }
      }
    }
  }

  lemma {:induction false} RunDistinct(g: Graph, rows: seq<Row>)
    requires Distinct(g)
    ensures Distinct(Run(g, rows))
    decreases |rows|
  {
    if rows != [] {
      StepDistinct(g, rows[0]);
      RunDistinct(Step(g, rows[0]), rows[1..]);
    }
  }

  /** The formatted graph never repeats a node id or an edge id. */
  lemma FormatDistinct(results: seq<Row>)
    ensures Distinct(Run(Empty, results))
  {
    RunDistinct(Empty, results);
  }

  // ---------------------------------------------------------------------------
  // First-occurrence order, against a reference de-duplication.
  // ---------------------------------------------------------------------------

  /** Keep the first occurrence of every element, after those already in acc. */
  function DedupFrom(acc: seq<string>, s: seq<string>): seq<string>
    decreases |s|
  {
    if s == [] then acc
    else DedupFrom(if s[0] in acc then acc else acc + [s[0]], s[1..])
  }

  lemma {:induction false} DedupAppend(acc: seq<string>, a: seq<string>, b: seq<string>)
    ensures DedupFrom(acc, a + b) == DedupFrom(DedupFrom(acc, a), b)
    decreases |a|
  {
    if a == [] {
      assert a + b == b;
    } else {
      assert (a + b)[0] == a[0] && (a + b)[1..] == a[1..] + b;
      DedupAppend(if a[0] in acc then acc else acc + [a[0]], a[1..], b);
    }
  }

  /** The truthy ids, in row order, that the loop offers as nodes. */
  function RowNodeIds(row: Row): seq<string> {
    if |row| < 3 then []
    else (if TruthyId(row[0].elementId) then [row[0].elementId.value] else [])
         + (if TruthyId(row[2].elementId) then [row[2].elementId.value] else [])
  }

  /** The truthy id that the loop offers as an edge. */
  function RowEdgeIds(row: Row): seq<string> {
    if |row| >= 3 && TruthyId(row[1].elementId) then [row[1].elementId.value] else []
  }

  function NodeCandidates(rows: seq<Row>): seq<string> {
    if rows == [] then [] else RowNodeIds(rows[0]) + NodeCandidates(rows[1..])
  }

  function EdgeCandidates(rows: seq<Row>): seq<string> {
    if rows == [] then [] else RowEdgeIds(rows[0]) + EdgeCandidates(rows[1..])
  }

  function NodeIdSeq(g: Graph): (r: seq<string>)
    ensures |r| == |g.nodes| && forall i :: 0 <= i < |r| ==> r[i] == g.nodes[i].id
  {
    seq(|g.nodes|, i requires 0 <= i < |g.nodes| => g.nodes[i].id)
  }

  function EdgeIdSeq(g: Graph): (r: seq<string>)
    ensures |r| == |g.edges| && forall i :: 0 <= i < |r| ==> r[i] == g.edges[i].id
  {
    seq(|g.edges|, i requires 0 <= i < |g.edges| => g.edges[i].id)
  }

  lemma InIdSeq(g: Graph, x: string)
    ensures x in NodeIdSeq(g) <==> x in NodeIds(g)
    ensures x in EdgeIdSeq(g) <==> x in EdgeIds(g)
  {
    if x in NodeIds(g) {
      var n :| n in g.nodes && n.id == x;
      var i :| 0 <= i < |g.nodes| && g.nodes[i] == n;
      assert NodeIdSeq(g)[i] == x;
    }
    if x in EdgeIds(g) {
      var e :| e in g.edges && e.id == x;
      var i :| 0 <= i < |g.edges| && g.edges[i] == e;
      assert EdgeIdSeq(g)[i] == x;
    }
  }

  lemma AddNodeDedup(g: Graph, e: Elem)
    ensures NodeIdSeq(AddNode(g, e)) ==
              DedupFrom(NodeIdSeq(g), if TruthyId(e.elementId) then [e.elementId.value] else [])
    ensures AddNode(g, e).edges == g.edges
  {
    if TruthyId(e.elementId) {
      InIdSeq(g, e.elementId.value);
      var one := [e.elementId.value];
      assert one[1..] == [];
    }
  }

  lemma StepDedup(g: Graph, row: Row)
    ensures NodeIdSeq(Step(g, row)) == DedupFrom(NodeIdSeq(g), RowNodeIds(row))
    ensures EdgeIdSeq(Step(g, row)) == DedupFrom(EdgeIdSeq(g), RowEdgeIds(row))
  {
    if |row| >= 3 {
      var a := if TruthyId(row[0].elementId) then [row[0].elementId.value] else [];
      var b := if TruthyId(row[2].elementId) then [row[2].elementId.value] else [];
      var g1 := AddNode(g, row[0]);
      AddNodeDedup(g, row[0]);
      AddNodeDedup(g1, row[2]);
      DedupAppend(NodeIdSeq(g), a, b);
      var g2 := AddNode(g1, row[2]);
      assert EdgeIdSeq(g2) == EdgeIdSeq(g);
      if TruthyId(row[1].elementId) {
        InIdSeq(g2, row[1].elementId.value);
        var one := [row[1].elementId.value];
        assert one[1..] == [];
      }
    }
  }

  lemma {:induction false} RunDedup(g: Graph, rows: seq<Row>)
    ensures NodeIdSeq(Run(g, rows)) == DedupFrom(NodeIdSeq(g), NodeCandidates(rows))
    ensures EdgeIdSeq(Run(g, rows)) == DedupFrom(EdgeIdSeq(g), EdgeCandidates(rows))
    decreases |rows|
  {
    if rows != [] {
      StepDedup(g, rows[0]);
      RunDedup(Step(g, rows[0]), rows[1..]);
      DedupAppend(NodeIdSeq(g), RowNodeIds(rows[0]), NodeCandidates(rows[1..]));
      DedupAppend(EdgeIdSeq(g), RowEdgeIds(rows[0]), EdgeCandidates(rows[1..]));
    }
  }

  /** The node ids are the truthy first/third-element ids of the rows in
      first-occurrence order, and the edge ids the truthy second-element ids
      in first-occurrence order. */
  lemma FormatFirstOccurrence(results: seq<Row>)
    ensures NodeIdSeq(Run(Empty, results)) == DedupFrom([], NodeCandidates(results))
    ensures EdgeIdSeq(Run(Empty, results)) == DedupFrom([], EdgeCandidates(results))
  {
    RunDedup(Empty, results);
    assert NodeIdSeq(Empty) == [] && EdgeIdSeq(Empty) == [];
  }

  /** Every truthy id the rows carry ends up in the result: the ids at
      positions 0 and 2 as nodes, at position 1 as an edge. */
  predicate Covers(g: Graph, rows: seq<Row>) {
    forall k :: 0 <= k < |rows| && |rows[k]| >= 3 ==>
      (TruthyId(rows[k][0].elementId) ==> rows[k][0].elementId.value in NodeIds(g))
      && (TruthyId(rows[k][2].elementId) ==> rows[k][2].elementId.value in NodeIds(g))
      && (TruthyId(rows[k][1].elementId) ==> rows[k][1].elementId.value in EdgeIds(g))
  }

  lemma StepCovers(g: Graph, row: Row)
    ensures Covers(Step(g, row), [row])
    ensures NodeIds(g) <= NodeIds(Step(g, row)) && EdgeIds(g) <= EdgeIds(Step(g, row))
  {
  }

  lemma {:induction false} RunCovers(g: Graph, rows: seq<Row>)
    ensures Covers(Run(g, rows), rows)
    ensures NodeIds(g) <= NodeIds(Run(g, rows)) && EdgeIds(g) <= EdgeIds(Run(g, rows))
    decreases |rows|
  {
    if rows != [] {
      var g1 := Step(g, rows[0]);
      StepCovers(g, rows[0]);
      RunCovers(g1, rows[1..]);
      var out := Run(g, rows);
      forall k | 0 <= k < |rows| && |rows[k]| >= 3
        ensures (TruthyId(rows[k][0].elementId) ==> rows[k][0].elementId.value in NodeIds(out))
             && (TruthyId(rows[k][2].elementId) ==> rows[k][2].elementId.value in NodeIds(out))
             && (TruthyId(rows[k][1].elementId) ==> rows[k][1].elementId.value in EdgeIds(out))
      {
        if k > 0 {
          assert rows[k] == rows[1..][k - 1];
        }
      }
    }
  }

  /** A row whose ids are all falsy or already present changes nothing. */
  lemma StepSeen(g: Graph, row: Row)
    requires Covers(g, [row])
    ensures Step(g, row) == g
  {
    assert [row][0] == row;
    if |row| >= 3 {
      assert AddNode(g, row[0]) == g;
      assert AddNode(g, row[2]) == g;
    }
  }

  lemma {:induction false} RunSeen(g: Graph, rows: seq<Row>)
    requires Covers(g, rows)
    ensures Run(g, rows) == g
    decreases |rows|
  {
    if rows != [] {
      StepSeen(g, rows[0]);
      assert Covers(g, rows[1..]) by {
        forall k | 0 <= k < |rows[1..]| && |rows[1..][k]| >= 3
          ensures (TruthyId(rows[1..][k][0].elementId) ==> rows[1..][k][0].elementId.value in NodeIds(g))
               && (TruthyId(rows[1..][k][2].elementId) ==> rows[1..][k][2].elementId.value in NodeIds(g))
               && (TruthyId(rows[1..][k][1].elementId) ==> rows[1..][k][1].elementId.value in EdgeIds(g))
        {
          assert rows[1..][k] == rows[k + 1];
        }
      }
      RunSeen(g, rows[1..]);
    }
  }

  /** Formatting a list concatenated with itself gives the output of
      formatting it once. */
  lemma FormatSelfConcat(results: seq<Row>)
    ensures Run(Empty, results + results) == Run(Empty, results)
  {
    RunAppend(Empty, results, results);
    RunCovers(Empty, results);
    RunSeen(Run(Empty, results), results);
  }

  /** Empty input gives {"nodes": [], "edges": []}. */
  lemma FormatEmpty()
    ensures Run(Empty, []) == Graph([], [])
  {
  }

  /** Rows with fewer than three elements are ignored wherever they occur. */
  lemma FormatSkipsShortRow(before: seq<Row>, short: Row, after: seq<Row>)
    requires |short| < 3
    ensures Run(Empty, before + [short] + after) == Run(Empty, before + after)
  {
    RunAppend(Empty, before + [short], after);
    RunAppend(Empty, before, [short]);
    RunAppend(Empty, before, after);
  }

  /** Each edge is built from one row: its ids and names are those of that
      row's first and third elements, its id and type those of the second. */
  predicate EdgeFromRow(e: Edge, row: Row) {
    |row| >= 3
    && TruthyId(row[1].elementId) && e.id == row[1].elementId.value && e.relType == TypeOf(row[1])
    && e.sourceId == row[0].elementId && e.targetId == row[2].elementId
    && e.sourceName == NameOf(row[0]) && e.targetName == NameOf(row[2])
  }

  /** Each node is the first or third element of some row, named from that
      element. */
  predicate NodeFromRow(x: Node, row: Row) {
    |row| >= 3
    && exists p :: p in {0, 2} && TruthyId(row[p].elementId) && x.id == row[p].elementId.value
                   && x.name == NameOf(row[p])
  }

  predicate Sourced(g: Graph, rows: seq<Row>) {
    && (forall e :: e in g.edges ==> exists k :: 0 <= k < |rows| && EdgeFromRow(e, rows[k]))
    && (forall x :: x in g.nodes ==> exists k :: 0 <= k < |rows| && NodeFromRow(x, rows[k]))
  }

  lemma {:induction false} RunSourced(g: Graph, rows: seq<Row>, done: seq<Row>)
    requires Sourced(g, done)
    ensures Sourced(Run(g, rows), done + rows)
    decreases |rows|
  {
    if rows == [] {
      assert done + rows == done;
    } else {
      var row := rows[0];
      var g1 := Step(g, row);
      var d1 := done + [row];
      assert Sourced(g1, d1) by {
        forall e | e in g1.edges ensures exists k :: 0 <= k < |d1| && EdgeFromRow(e, d1[k]) {
          if e in g.edges {
            var k :| 0 <= k < |done| && EdgeFromRow(e, done[k]);
            assert d1[k] == done[k];
          } else {
            assert EdgeFromRow(e, d1[|done|]);
          }
        }
        forall x | x in g1.nodes ensures exists k :: 0 <= k < |d1| && NodeFromRow(x, d1[k]) {
          if x in g.nodes {
            var k :| 0 <= k < |done| && NodeFromRow(x, done[k]);
            assert d1[k] == done[k];
          } else {
            assert d1[|done|] == row;
            if x in AddNode(g, row[0]).nodes {
              assert x.id == row[0].elementId.value && x.name == NameOf(row[0]);
              assert NodeFromRow(x, row);
            } else {
              assert x.id == row[2].elementId.value && x.name == NameOf(row[2]);
              assert NodeFromRow(x, row);
            }
          }
        }
      }
      RunSourced(g1, rows[1..], d1);
      assert d1 + rows[1..] == done + rows;
    }
  }

  /** Nothing in the output is invented: every node and edge comes from a row
      of the input, with names taken from the same row. */
  lemma FormatSourced(results: seq<Row>)
    ensures Sourced(Run(Empty, results), results)
  {
    RunSourced(Empty, results, []);
    assert [] + results == results;
  }

  // ---------------------------------------------------------------------------
  // clean_embeddings_from_triples
  // ---------------------------------------------------------------------------

  /** properties['embedding'] = None when the element has a properties dict. */
  function Blank(e: Elem): (r: Elem)
    ensures r.elementId == e.elementId && r.relType == e.relType
    ensures e.properties.None? ==> r.properties.None?
    ensures e.properties.Some? ==>
              r.properties.Some? && "embedding" in r.properties.value
              && r.properties.value["embedding"] == Null
              && forall k :: k in e.properties.value && k != "embedding" ==>
                   k in r.properties.value && r.properties.value[k] == e.properties.value[k]
  {
    if e.properties.Some? then e.(properties := Some(e.properties.value["embedding" := Null])) else e
  }

  /** A row after cleaning: positions 0 and 2 blanked, everything else kept. */
  predicate Cleaned(after: Row, before: Row) {
    |after| == |before| && |before| >= 3
    && after[0] == Blank(before[0]) && after[2] == Blank(before[2])
    && forall p :: 0 <= p < |before| && p != 0 && p != 2 ==> after[p] == before[p]
  }

  /** clean_embeddings_from_triples. The rows are changed where they are and
      the same list is returned; a row shorter than three elements stops the
      loop with IndexError, leaving the rows before it cleaned. */
  method CleanEmbeddings(triples: array<Row>) returns (r: Result<array<Row>>)
    modifies triples
    ensures r.Success? ==> r.value == triples
    ensures r.Success? <==> forall k :: 0 <= k < triples.Length ==> |old(triples[k])| >= 3
    ensures r.Failure? ==> r.error == IndexError
    ensures r.Success? ==> forall k :: 0 <= k < triples.Length ==> Cleaned(triples[k], old(triples[k]))
    ensures exists stop :: StoppedAt(triples, old(triples[..]), stop, r)
  {
    var i := 0;
    while i < triples.Length
      invariant 0 <= i <= triples.Length
      invariant forall k :: 0 <= k < i ==> Cleaned(triples[k], old(triples[k]))
      invariant forall k :: i <= k < triples.Length ==> triples[k] == old(triples[k])
    {
      var item := triples[i];
      if |item| < 3 {
        assert !(|old(triples[i])| >= 3);
        r := Failure(IndexError);
        assert StoppedAt(triples, old(triples[..]), i, r);
        return;
      }
      triples[i] := item[0 := Blank(item[0])][2 := Blank(item[2])];
      i := i + 1;
    }
    r := Success(triples);
    assert StoppedAt(triples, old(triples[..]), i, r);
  }

  /** The rows before stop are cleaned, the rest untouched; a success has
      cleaned every row, and a failure stops at a short row. */
  ghost predicate StoppedAt(triples: array<Row>, before: seq<Row>, stop: int, r: Result<array<Row>>)
    reads triples
  {
    |before| == triples.Length && 0 <= stop <= triples.Length
    && (forall k :: 0 <= k < stop ==> Cleaned(triples[k], before[k]))
    && (forall k :: stop <= k < triples.Length ==> triples[k] == before[k])
    && (r.Success? ==> stop == triples.Length)
    && (r.Failure? ==> stop < triples.Length && |before[stop]| < 3)
  }
}

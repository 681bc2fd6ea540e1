/** The typed knowledge graph: documents own chunks (HAS_CHUNK), chunks mention concepts
    (MENTIONS), and the document projection links documents whose chunks mention a common
    concept (RELATED_DOC). */
module KnowledgeGraph {
  import opened Wrappers
  import opened Lists
  import opened Dicts
  import opened DirectedGraph

  /** The kinds of node each edge type joins. */
  predicate Fits(e: Edge, t: EdgeType) {
    match t
    case HasChunk => e.0.kind == Doc && e.1.kind == Chunk
    case Mentions => e.0.kind == Chunk && e.1.kind == Concept
    case RelatedDoc => e.0.kind == Doc && e.1.kind == Doc
  }

  ghost predicate WellTyped(m: map<Edge, EdgeType>) {
    forall e :: e in m ==> Fits(e, m[e])
  }

  lemma WellTypedUpdate(m: map<Edge, EdgeType>, e: Edge, t: EdgeType)
    requires WellTyped(m) && Fits(e, t)
    ensures WellTyped(m[e := t])
  {
  }

  /** What the store's own operations keep true of its graph. */
  ghost predicate Inv(g: Graph) {
    g.Valid() && WellTyped(g.edges.values)
  }

  predicate IsEdge(g: Graph, u: Node, v: Node, t: EdgeType) {
    (u, v) in g.edges.values && g.edges.values[(u, v)] == t
  }

  // ---------------------------------------------------------------- insertion

  /** `add_doc`: the one node `("Doc", id)` gets the given title and url; its other attributes stay. */
  function WithDoc(g: Graph, docId: string, title: string, url: string): (r: Graph)
    ensures Inv(g) ==> Inv(r)
    ensures r.edges == g.edges
    ensures r.nodes.values.Keys == g.nodes.values.Keys + {Node(Doc, docId)}
    ensures var a := r.nodes.values[Node(Doc, docId)];
      && a.title == Some(title) && a.url == Some(url)
      && (Node(Doc, docId) in g.nodes.values ==>
            a.text == g.nodes.values[Node(Doc, docId)].text && a.pagerank == g.nodes.values[Node(Doc, docId)].pagerank)
    ensures forall n :: n in g.nodes.values && n != Node(Doc, docId) ==> r.nodes.values[n] == g.nodes.values[n]
    ensures Node(Doc, docId) in g.nodes.values ==> r.nodes.keys == g.nodes.keys
  {
    AddNode(g, Node(Doc, docId), Attrs(Some(title), Some(url), None, None))
  }

  /** `add_chunk`: sets the chunk's text, keeping its other attributes, and adds the HAS_CHUNK
      edge from its document, creating an attribute-less document node when the document is
      unknown. New nodes go last: first the chunk, then the document. */
  function WithChunk(g: Graph, chunkId: string, text: string, docId: string): (r: Graph)
    ensures Inv(g) ==> Inv(r)
    ensures r.nodes.values.Keys == g.nodes.values.Keys + {Node(Chunk, chunkId), Node(Doc, docId)}
    ensures r.nodes.values[Node(Chunk, chunkId)] ==
      Merge(if Node(Chunk, chunkId) in g.nodes.values then g.nodes.values[Node(Chunk, chunkId)] else Bare,
            Attrs(None, None, Some(text), None))
    ensures r.nodes.values[Node(Chunk, chunkId)].text == Some(text)
    ensures Node(Doc, docId) !in g.nodes.values ==> r.nodes.values[Node(Doc, docId)] == Bare
    ensures forall n :: n in g.nodes.values && n != Node(Chunk, chunkId) ==> r.nodes.values[n] == g.nodes.values[n]
    ensures r.nodes.keys == g.nodes.keys
      + (if Node(Chunk, chunkId) in g.nodes.values then [] else [Node(Chunk, chunkId)])
      + (if Node(Doc, docId) in g.nodes.values then [] else [Node(Doc, docId)])
    ensures r.edges.values == g.edges.values[(Node(Doc, docId), Node(Chunk, chunkId)) := HasChunk]
    ensures r.edges.keys == if (Node(Doc, docId), Node(Chunk, chunkId)) in g.edges.values then g.edges.keys
      else g.edges.keys + [(Node(Doc, docId), Node(Chunk, chunkId))]
  {
    ChunkNodes(g, chunkId, text, docId);
    ChunkEdges(g, chunkId, text, docId);
    AddEdge(AddNode(g, Node(Chunk, chunkId), Attrs(None, None, Some(text), None)), Node(Doc, docId), Node(Chunk, chunkId), HasChunk)
  }

  lemma ChunkNodes(g: Graph, chunkId: string, text: string, docId: string)
    ensures var r := AddEdge(AddNode(g, Node(Chunk, chunkId), Attrs(None, None, Some(text), None)), Node(Doc, docId), Node(Chunk, chunkId), HasChunk);
      && r.nodes.values.Keys == g.nodes.values.Keys + {Node(Chunk, chunkId), Node(Doc, docId)}
      && r.nodes.values[Node(Chunk, chunkId)] ==
        Merge(if Node(Chunk, chunkId) in g.nodes.values then g.nodes.values[Node(Chunk, chunkId)] else Bare,
              Attrs(None, None, Some(text), None))
      && (Node(Doc, docId) !in g.nodes.values ==> r.nodes.values[Node(Doc, docId)] == Bare)
      && r.nodes.keys == g.nodes.keys
        + (if Node(Chunk, chunkId) in g.nodes.values then [] else [Node(Chunk, chunkId)])
        + (if Node(Doc, docId) in g.nodes.values then [] else [Node(Doc, docId)])
      && forall n :: n in g.nodes.values && n != Node(Chunk, chunkId) ==> r.nodes.values[n] == g.nodes.values[n]
  {
  }

  lemma ChunkEdges(g: Graph, chunkId: string, text: string, docId: string)
    ensures var r := AddEdge(AddNode(g, Node(Chunk, chunkId), Attrs(None, None, Some(text), None)), Node(Doc, docId), Node(Chunk, chunkId), HasChunk);
      && (Inv(g) ==> Inv(r))
      && r.edges.values == g.edges.values[(Node(Doc, docId), Node(Chunk, chunkId)) := HasChunk]
      && r.edges.keys == if (Node(Doc, docId), Node(Chunk, chunkId)) in g.edges.values then g.edges.keys
        else g.edges.keys + [(Node(Doc, docId), Node(Chunk, chunkId))]
  {
    var h := AddNode(g, Node(Chunk, chunkId), Attrs(None, None, Some(text), None));
    if Inv(g) {
      WellTypedUpdate(h.edges.values, (Node(Doc, docId), Node(Chunk, chunkId)), HasChunk);
    }
  }

  /** `add_concept`: makes sure the concept node exists; nothing else changes. */
  function WithConcept(g: Graph, name: string): (r: Graph)
    ensures Inv(g) ==> Inv(r)
    ensures Node(Concept, name) in g.nodes.values ==> r == g
    ensures Node(Concept, name) !in g.nodes.values ==>
      r.nodes.keys == g.nodes.keys + [Node(Concept, name)] && r.nodes.values == g.nodes.values[Node(Concept, name) := Bare]
    ensures r.edges == g.edges
  {
    var r := AddNode(g, Node(Concept, name), Bare);
    assert Node(Concept, name) in g.nodes.values ==> r.nodes.values == g.nodes.values;
    r
  }

  /** `link_mentions`: adds the MENTIONS edge, creating either endpoint bare when missing. */
  function WithMention(g: Graph, chunkId: string, concept: string): (r: Graph)
    ensures Inv(g) ==> Inv(r)
    ensures r.nodes.values.Keys == g.nodes.values.Keys + {Node(Chunk, chunkId), Node(Concept, concept)}
    ensures Node(Chunk, chunkId) !in g.nodes.values ==> r.nodes.values[Node(Chunk, chunkId)] == Bare
    ensures Node(Concept, concept) !in g.nodes.values ==> r.nodes.values[Node(Concept, concept)] == Bare
    ensures forall n :: n in g.nodes.values ==> r.nodes.values[n] == g.nodes.values[n]
    ensures r.edges.values == g.edges.values[(Node(Chunk, chunkId), Node(Concept, concept)) := Mentions]
  {
    var r := AddEdge(g, Node(Chunk, chunkId), Node(Concept, concept), Mentions);
    assert Inv(g) ==> Inv(r) by {
      if Inv(g) {
        WellTypedUpdate(g.edges.values, (Node(Chunk, chunkId), Node(Concept, concept)), Mentions);
      }
    }
    r
  }

  /** Adding a document twice leaves one node, at its first place, with the second title and url. */
  lemma AddDocTwice(g: Graph, docId: string, t1: string, u1: string, t2: string, u2: string)
    requires Inv(g)
    ensures var r := WithDoc(WithDoc(g, docId, t1, u1), docId, t2, u2);
      && r.nodes.keys == WithDoc(g, docId, t1, u1).nodes.keys
      && |set n | n in r.nodes.keys && n == Node(Doc, docId)| == 1
      && r.nodes.values[Node(Doc, docId)].title == Some(t2)
      && r.nodes.values[Node(Doc, docId)].url == Some(u2)
  {
    var r := WithDoc(WithDoc(g, docId, t1, u1), docId, t2, u2);
    assert Node(Doc, docId) in r.nodes.keys;
    assert (set n | n in r.nodes.keys && n == Node(Doc, docId)) == {Node(Doc, docId)};
  }

  /** Adding a concept twice is the same as adding it once. */
  lemma AddConceptIdempotent(g: Graph, name: string)
    ensures WithConcept(WithConcept(g, name), name) == WithConcept(g, name)
  {
  }

  // ---------------------------------------------------------------- projection

  /** The ids of the document nodes, in node order. */
  function DocIds(ns: seq<Node>): (r: seq<string>)
    ensures forall d :: d in r <==> Node(Doc, d) in ns
    ensures Distinct(ns) ==> Distinct(r)
    ensures forall i, j :: 0 <= i < j < |r| ==> Before(ns, Node(Doc, r[i]), Node(Doc, r[j]))
  {
    if ns == [] then []
    else
      var n := ns[|ns| - 1];
      var init := ns[..|ns| - 1];
      assert ns == init + [n];
      BeforeSnoc(init, n);
      assert forall k :: 0 <= k < |DocIds(init)| ==> Node(Doc, DocIds(init)[k]) in init by {
        forall k | 0 <= k < |DocIds(init)| ensures Node(Doc, DocIds(init)[k]) in init {
          assert DocIds(init)[k] in DocIds(init);
        }
      }
      if n.kind == Doc then
        assert Distinct(ns) ==> n !in init by {
          if Distinct(ns) {
            forall k | 0 <= k < |init| ensures init[k] != n {
              assert init[k] == ns[k];
            }
          }
        }
        DocIds(init) + [n.id]
      else DocIds(init)
  }

  function EdgesOfType(m: map<Edge, EdgeType>, t: EdgeType): (r: set<Edge>)
    ensures forall e :: e in r <==> e in m && m[e] == t
  {
    set e | e in m && m[e] == t
  }

  /** Writing a different type on an edge that did not have type `t` leaves the edges of type `t` alone. */
  lemma EdgesOfTypeUpdate(m: map<Edge, EdgeType>, e: Edge, t: EdgeType, t': EdgeType)
    requires t' != t && (e in m ==> m[e] != t)
    ensures EdgesOfType(m[e := t'], t) == EdgesOfType(m, t)
  {
  }

  /** The names of the concepts reached from document `d` by a HAS_CHUNK edge in `hasChunk`
      followed by a MENTIONS edge in `mentions`. */
  function ConceptsVia(hasChunk: set<Edge>, mentions: set<Edge>, d: string): set<string> {
    set e1, e2 | e1 in hasChunk && e2 in mentions && e1.0 == Node(Doc, d) && e2.0 == e1.1 :: e2.1.id
  }

  /** The concepts reachable from document `d`, as the projection computes them. */
  function DocConcepts(g: Graph, d: string): set<string> {
    ConceptsVia(EdgesOfType(g.edges.values, HasChunk), EdgesOfType(g.edges.values, Mentions), d)
  }

  /** The concepts reached from document `d` through those of its HAS_CHUNK edges listed in `seen`. */
  function ConceptsSeen(g: Graph, d: string, seen: seq<Edge>): set<string> {
    ConceptsVia((set e | e in seen) * EdgesOfType(g.edges.values, HasChunk), EdgesOfType(g.edges.values, Mentions), d)
  }

  /** The ids of the MENTIONS targets of node `ch`, as the inner comprehension collects them. */
  function MentionIds(g: Graph, ch: Node): set<string> {
    set n | n in Targets(g.edges.keys, g.edges.values, ch, Mentions) :: n.id
  }

  /** The ids of the targets of the edges in `mentions` that leave `ch`. */
  function TargetIds(mentions: set<Edge>, ch: Node): set<string> {
    set e2 | e2 in mentions && e2.0 == ch :: e2.1.id
  }

  /** One more HAS_CHUNK edge adds the concepts its chunk reaches, when it leaves `d`. */
  lemma ConceptsViaAdd(hasChunk: set<Edge>, mentions: set<Edge>, d: string, e: Edge)
    ensures ConceptsVia(hasChunk + {e}, mentions, d) ==
      ConceptsVia(hasChunk, mentions, d) + (if e.0 == Node(Doc, d) then TargetIds(mentions, e.1) else {})
  {
    var lhs := ConceptsVia(hasChunk + {e}, mentions, d);
    forall c | c in lhs && c !in ConceptsVia(hasChunk, mentions, d)
      ensures e.0 == Node(Doc, d) && c in TargetIds(mentions, e.1)
    {
      var e1, e2 :| e1 in hasChunk + {e} && e2 in mentions && e1.0 == Node(Doc, d) && e2.0 == e1.1 && e2.1.id == c;
      assert e1 == e;
    }
    if e.0 == Node(Doc, d) {
      forall c | c in TargetIds(mentions, e.1) ensures c in lhs {
        var e2 :| e2 in mentions && e2.0 == e.1 && e2.1.id == c;
        assert e in hasChunk + {e};
      }
    }
  }

  /** The comprehension over the out-edges of `ch` finds exactly the MENTIONS targets of `ch`. */
  lemma MentionIdsTargets(g: Graph, ch: Node)
    requires g.Valid()
    ensures MentionIds(g, ch) == TargetIds(EdgesOfType(g.edges.values, Mentions), ch)
  {
    var mn := EdgesOfType(g.edges.values, Mentions);
    forall c | c in TargetIds(mn, ch) ensures c in MentionIds(g, ch) {
      var e2 :| e2 in mn && e2.0 == ch && e2.1.id == c;
      assert e2 == (ch, e2.1) && e2 in g.edges.keys;
      assert e2.1 in Targets(g.edges.keys, g.edges.values, ch, Mentions);
    }
  }

  /** Visiting one more out-edge adds the concepts of its chunk when it is a HAS_CHUNK edge of `d`,
      and nothing otherwise. */
  lemma ConceptsSeenSnoc(g: Graph, d: string, seen: seq<Edge>, e: Edge)
    requires g.Valid()
    ensures ConceptsSeen(g, d, seen + [e]) ==
      ConceptsSeen(g, d, seen) + (if e.0 == Node(Doc, d) && IsEdge(g, e.0, e.1, HasChunk) then MentionIds(g, e.1) else {})
  {
    var hc, mn := EdgesOfType(g.edges.values, HasChunk), EdgesOfType(g.edges.values, Mentions);
    var a := (set x | x in seen) * hc;
    MentionIdsTargets(g, e.1);
    if e in hc {
      assert (set x | x in seen + [e]) * hc == a + {e};
      ConceptsViaAdd(a, mn, d, e);
    } else {
      assert (set x | x in seen + [e]) * hc == a;
    }
  }

  /** `c` is reachable from `d` exactly when some chunk of `d` mentions concept `c`. */
  lemma DocConceptsIff(g: Graph, d: string, c: string)
    requires Inv(g)
    ensures c in DocConcepts(g, d) <==>
      exists ch: string :: IsEdge(g, Node(Doc, d), Node(Chunk, ch), HasChunk) && IsEdge(g, Node(Chunk, ch), Node(Concept, c), Mentions)
  {
    if c in DocConcepts(g, d) {
      var ch := DocConceptWitness(g, d, c);
    }
    forall ch: string | IsEdge(g, Node(Doc, d), Node(Chunk, ch), HasChunk) && IsEdge(g, Node(Chunk, ch), Node(Concept, c), Mentions)
      ensures c in DocConcepts(g, d)
    {
      var e1, e2 := (Node(Doc, d), Node(Chunk, ch)), (Node(Chunk, ch), Node(Concept, c));
      assert e1 in EdgesOfType(g.edges.values, HasChunk) && e2 in EdgesOfType(g.edges.values, Mentions);
    }
  }

  lemma DocConceptWitness(g: Graph, d: string, c: string) returns (ch: string)
    requires Inv(g) && c in DocConcepts(g, d)
    ensures IsEdge(g, Node(Doc, d), Node(Chunk, ch), HasChunk) && IsEdge(g, Node(Chunk, ch), Node(Concept, c), Mentions)
  {
    var e1, e2 :| e1 in EdgesOfType(g.edges.values, HasChunk) && e2 in EdgesOfType(g.edges.values, Mentions) && e1.0 == Node(Doc, d) && e2.0 == e1.1 && e2.1.id == c;
    assert Fits(e1, HasChunk) && Fits(e2, Mentions);
    ch := e1.1.id;
    assert e1.1 == Node(Chunk, ch) && e2.1 == Node(Concept, c);
  }

  /** Two documents share a concept. */
  predicate Shares(g: Graph, d1: string, d2: string) {
    DocConcepts(g, d1) * DocConcepts(g, d2) != {}
  }

  /** One iteration of the projection's inner loop, for the document pair `p`. */
  function Step(g: Graph, p: (string, string)): Graph {
    if p.0 != p.1 && Shares(g, p.0, p.1) then AddEdge(g, Node(Doc, p.0), Node(Doc, p.1), RelatedDoc) else g
  }

  /** The pairs `(a, b)` for `b` in `cols`, in order. */
  function Row(a: string, cols: seq<string>): (r: seq<(string, string)>)
    ensures |r| == |cols|
    ensures forall j :: 0 <= j < |cols| ==> r[j] == (a, cols[j])
  {
    seq(|cols|, j requires 0 <= j < |cols| => (a, cols[j]))
  }

  /** The pairs the nested loops visit, row by row. */
  function Pairs(rows: seq<string>, cols: seq<string>): (r: seq<(string, string)>)
    ensures forall p :: p in r <==> p.0 in rows && p.1 in cols
  {
    if rows == [] then []
    else
      var init := rows[..|rows| - 1];
      assert rows == init + [rows[|rows| - 1]];
      var r0 := Pairs(init, cols);
      var row := Row(rows[|rows| - 1], cols);
      assert forall p: (string, string) :: p in row <==> p.0 == rows[|rows| - 1] && p.1 in cols by {
        forall p: (string, string) | p.0 == rows[|rows| - 1] && p.1 in cols ensures p in row {
          var j :| 0 <= j < |cols| && cols[j] == p.1;
          assert row[j] == p;
        }
      }
      r0 + row
  }

  lemma RowSnoc(a: string, cols: seq<string>, j: nat)
    requires j < |cols|
    ensures Row(a, cols[..j + 1]) == Row(a, cols[..j]) + [(a, cols[j])]
  {
  }

  lemma PairsSnoc(rows: seq<string>, cols: seq<string>, i: nat)
    requires i < |rows|
    ensures Pairs(rows[..i + 1], cols) == Pairs(rows[..i], cols) + Row(rows[i], cols)
  {
    assert rows[..i + 1][..i] == rows[..i];
  }

  /** The projection loops run over the pairs `ps` in order. */
  function Fold(g: Graph, ps: seq<(string, string)>): Graph {
    if ps == [] then g else Step(Fold(g, ps[..|ps| - 1]), ps[|ps| - 1])
  }

  lemma FoldSnoc(g: Graph, ps: seq<(string, string)>, p: (string, string))
    ensures Fold(g, ps + [p]) == Step(Fold(g, ps), p)
  {
    assert (ps + [p])[..|ps|] == ps;
  }

  /** The graph after the RELATED_DOC loops of `compute_doc_pagerank`. */
  function Projected(g: Graph): Graph {
    var ds := DocIds(g.nodes.keys);
    Fold(g, Pairs(ds, ds))
  }

  /** The new edge of a step neither adds nor retypes a HAS_CHUNK or MENTIONS edge. */
  lemma StepKeepsTypedEdges(g: Graph, p: (string, string))
    requires Inv(g)
    requires Node(Doc, p.0) in g.nodes.values && Node(Doc, p.1) in g.nodes.values
    ensures Inv(Step(g, p))
    ensures Step(g, p).nodes == g.nodes
    ensures EdgesOfType(Step(g, p).edges.values, HasChunk) == EdgesOfType(g.edges.values, HasChunk)
    ensures EdgesOfType(Step(g, p).edges.values, Mentions) == EdgesOfType(g.edges.values, Mentions)
    ensures forall e :: e in g.edges.values ==> e in Step(g, p).edges.values && Step(g, p).edges.values[e] == g.edges.values[e]
  {
    if p.0 != p.1 && Shares(g, p.0, p.1) {
      var m := g.edges.values;
      var e := (Node(Doc, p.0), Node(Doc, p.1));
      assert e in m ==> m[e] == RelatedDoc by {
        if e in m { assert Fits(e, m[e]); }
      }
      EdgesOfTypeUpdate(m, e, HasChunk, RelatedDoc);
      EdgesOfTypeUpdate(m, e, Mentions, RelatedDoc);
      WellTypedUpdate(m, e, RelatedDoc);
    }
  }

  /** What a run of projection steps does: nodes and reachable concepts stay, every edge stays
      with its type, and the only new edges are RELATED_DOC edges for visited pairs that share. */
  lemma {:induction false} FoldEffect(g: Graph, ps: seq<(string, string)>)
    requires Inv(g)
    requires forall p :: p in ps ==> Node(Doc, p.0) in g.nodes.values && Node(Doc, p.1) in g.nodes.values
    ensures Inv(Fold(g, ps))
    ensures Fold(g, ps).nodes == g.nodes
    ensures EdgesOfType(Fold(g, ps).edges.values, HasChunk) == EdgesOfType(g.edges.values, HasChunk)
    ensures EdgesOfType(Fold(g, ps).edges.values, Mentions) == EdgesOfType(g.edges.values, Mentions)
    ensures forall e :: e in g.edges.values ==> e in Fold(g, ps).edges.values && Fold(g, ps).edges.values[e] == g.edges.values[e]
    ensures forall e :: e in Fold(g, ps).edges.values && e !in g.edges.values ==>
      e.0.kind == Doc && e.1.kind == Doc && (e.0.id, e.1.id) in ps && e.0.id != e.1.id && Shares(g, e.0.id, e.1.id)
    ensures forall p :: p in ps && p.0 != p.1 && Shares(g, p.0, p.1) ==> (Node(Doc, p.0), Node(Doc, p.1)) in Fold(g, ps).edges.values
  {
    if ps != [] {
      var init := ps[..|ps| - 1];
      var p := ps[|ps| - 1];
      assert ps == init + [p];
      FoldEffect(g, init);
      var h := Fold(g, init);
      StepKeepsTypedEdges(h, p);
      assert forall d :: DocConcepts(h, d) == DocConcepts(g, d);
    }
  }

  /** A step changes nothing once the RELATED_DOC edge it would add is present. */
  lemma {:induction false} FoldFixed(g: Graph, ps: seq<(string, string)>)
    requires Inv(g)
    requires forall p :: p in ps && p.0 != p.1 && Shares(g, p.0, p.1) ==> IsEdge(g, Node(Doc, p.0), Node(Doc, p.1), RelatedDoc)
    ensures Fold(g, ps) == g
  {
    if ps != [] {
      var init := ps[..|ps| - 1];
      var p := ps[|ps| - 1];
      assert forall q: (string, string) :: q in init ==> q in ps;
      FoldFixed(g, init);
      if p.0 != p.1 && Shares(g, p.0, p.1) {
        var e := (Node(Doc, p.0), Node(Doc, p.1));
        assert g.edges.values[e := RelatedDoc] == g.edges.values;
      }
    }
  }

  /** The projection only adds edges: nodes, every existing edge and its type, and the
      HAS_CHUNK and MENTIONS edges are as before. For two different documents, the edge
      `d1 -> d2` is present afterwards iff it was present before or the documents share a concept. */
  lemma ProjectedEdges(g: Graph)
    requires Inv(g)
    ensures Inv(Projected(g))
    ensures Projected(g).nodes == g.nodes
    ensures EdgesOfType(Projected(g).edges.values, HasChunk) == EdgesOfType(g.edges.values, HasChunk)
    ensures EdgesOfType(Projected(g).edges.values, Mentions) == EdgesOfType(g.edges.values, Mentions)
    ensures forall e :: e in g.edges.values ==> e in Projected(g).edges.values && Projected(g).edges.values[e] == g.edges.values[e]
    ensures forall d1, d2 :: d1 != d2 ==>
      ((Node(Doc, d1), Node(Doc, d2)) in Projected(g).edges.values <==>
        (Node(Doc, d1), Node(Doc, d2)) in g.edges.values || Shares(g, d1, d2))
    ensures forall e :: e in Projected(g).edges.values && e !in g.edges.values ==>
      e.0.kind == Doc && e.1.kind == Doc && e.0.id != e.1.id && Projected(g).edges.values[e] == RelatedDoc
  {
    var ds := DocIds(g.nodes.keys);
    var ps := Pairs(ds, ds);
    FoldEffect(g, ps);
    forall d1, d2 | d1 != d2 && Shares(g, d1, d2) ensures (d1, d2) in ps {
      var c :| c in DocConcepts(g, d1) * DocConcepts(g, d2);
      forall d | c in DocConcepts(g, d) ensures Node(Doc, d) in g.nodes.keys {
        var e1, e2 :| e1 in EdgesOfType(g.edges.values, HasChunk) && e2 in EdgesOfType(g.edges.values, Mentions) && e1.0 == Node(Doc, d) && e2.0 == e1.1 && e2.1.id == c;
      }
    }
    forall e | e in Projected(g).edges.values && e !in g.edges.values ensures Projected(g).edges.values[e] == RelatedDoc {
      assert Fits(e, Projected(g).edges.values[e]);
    }
  }

  lemma ProjectedInv(g: Graph)
    requires Inv(g)
    ensures Inv(Projected(g))
  {
    ProjectedEdges(g);
  }

  /** No RELATED_DOC edge yet: the state before the projection runs for the first time. */
  predicate NoRelated(g: Graph) {
    forall e :: e in g.edges.values ==> g.edges.values[e] != RelatedDoc
  }

  /** In a store graph without RELATED_DOC edges no edge joins two documents. */
  lemma NoDocDocEdges(g: Graph)
    requires Inv(g) && NoRelated(g)
    ensures forall e :: e in g.edges.values ==> !(e.0.kind == Doc && e.1.kind == Doc)
  {
    forall e | e in g.edges.values ensures !(e.0.kind == Doc && e.1.kind == Doc) {
      assert Fits(e, g.edges.values[e]);
    }
  }

  /** Graphs with the same HAS_CHUNK and MENTIONS edges reach the same concepts from every document. */
  lemma SameDocConcepts(g: Graph, h: Graph)
    requires EdgesOfType(h.edges.values, HasChunk) == EdgesOfType(g.edges.values, HasChunk)
    requires EdgesOfType(h.edges.values, Mentions) == EdgesOfType(g.edges.values, Mentions)
    ensures forall d :: DocConcepts(h, d) == DocConcepts(g, d)
  {
  }

  /** On a graph without RELATED_DOC edges the projection links exactly the pairs of different
      documents that share a concept, in both directions and never a document to itself; the
      concept sets are those of the projected graph as well. */
  lemma ProjectionRelation(g: Graph, d1: string, d2: string)
    requires Inv(g) && NoRelated(g)
    ensures IsEdge(Projected(g), Node(Doc, d1), Node(Doc, d2), RelatedDoc) <==> d1 != d2 && Shares(g, d1, d2)
    ensures IsEdge(Projected(g), Node(Doc, d1), Node(Doc, d2), RelatedDoc) <==> IsEdge(Projected(g), Node(Doc, d2), Node(Doc, d1), RelatedDoc)
    ensures !IsEdge(Projected(g), Node(Doc, d1), Node(Doc, d1), RelatedDoc)
    ensures DocConcepts(Projected(g), d1) == DocConcepts(g, d1)
  {
    var h := Projected(g);
    ProjectedEdges(g);
    NoDocDocEdges(g);
    SameDocConcepts(g, h);
    var e, back, self := (Node(Doc, d1), Node(Doc, d2)), (Node(Doc, d2), Node(Doc, d1)), (Node(Doc, d1), Node(Doc, d1));
    assert e !in g.edges.values && back !in g.edges.values && self !in g.edges.values;
    assert self !in h.edges.values;
    if d1 != d2 {
      assert e in h.edges.values <==> Shares(g, d1, d2);
      assert back in h.edges.values <==> Shares(g, d2, d1);
      assert Shares(g, d1, d2) <==> Shares(g, d2, d1) by {
        assert DocConcepts(g, d1) * DocConcepts(g, d2) == DocConcepts(g, d2) * DocConcepts(g, d1);
      }
    }
  }

  /** Running the projection again changes nothing. */
  lemma ProjectedIdempotent(g: Graph)
    requires Inv(g)
    ensures Projected(Projected(g)) == Projected(g)
  {
    ProjectedEdges(g);
    var h := Projected(g);
    SameDocConcepts(g, h);
    var ds := DocIds(h.nodes.keys);
    forall p | p in Pairs(ds, ds) && p.0 != p.1 && Shares(h, p.0, p.1)
      ensures IsEdge(h, Node(Doc, p.0), Node(Doc, p.1), RelatedDoc)
    {
      assert Shares(g, p.0, p.1);
      var e := (Node(Doc, p.0), Node(Doc, p.1));
      assert e in h.edges.values;
      assert Fits(e, h.edges.values[e]);
    }
    FoldFixed(h, Pairs(ds, ds));
  }

  /** The pagerank loop: every document node gets `pagerank = rank(h, n)`, where `rank` stands
      for the scores networkx computes on the undirected view of `h`; nothing else changes. */
  function Ranked(h: Graph, rank: (Graph, Node) -> real): (r: Graph)
    ensures Inv(h) ==> Inv(r)
    ensures r.edges == h.edges && r.nodes.keys == h.nodes.keys
    ensures r.nodes.values.Keys == h.nodes.values.Keys
    ensures forall n :: n in h.nodes.values && n.kind == Doc ==>
      r.nodes.values[n] == h.nodes.values[n].(pagerank := Some(rank(h, n)))
    ensures forall n :: n in h.nodes.values && n.kind != Doc ==> r.nodes.values[n] == h.nodes.values[n]
  {
    h.(nodes := Dict(h.nodes.keys, map n | n in h.nodes.values ::
      if n.kind == Doc then h.nodes.values[n].(pagerank := Some(rank(h, n))) else h.nodes.values[n]))
  }

  /** The pagerank loop after visiting the nodes in `done`: those that are documents carry
      their rank, every other node is as in `h`, and the edges are untouched. */
  ghost predicate PartlyRanked(h: Graph, g: Graph, rank: (Graph, Node) -> real, done: seq<Node>) {
    && g.edges == h.edges && g.nodes.keys == h.nodes.keys
    && g.nodes.values.Keys == h.nodes.values.Keys
    && forall n :: n in h.nodes.values ==>
      g.nodes.values[n] == if n.kind == Doc && n in done then h.nodes.values[n].(pagerank := Some(rank(h, n))) else h.nodes.values[n]
  }

  lemma RankStep(h: Graph, g0: Graph, g1: Graph, rank: (Graph, Node) -> real, ns: seq<Node>, k: nat)
    requires Inv(h) && ns == h.nodes.keys && k < |ns|
    requires PartlyRanked(h, g0, rank, ns[..k])
    requires ns[k] in h.nodes.values
    requires g1 == if ns[k].kind == Doc then
      g0.(nodes := g0.nodes.Put(ns[k], g0.nodes.values[ns[k]].(pagerank := Some(rank(h, ns[k]))))) else g0
    ensures PartlyRanked(h, g1, rank, ns[..k + 1])
  {
    var done := ns[..k + 1];
    assert done[..k] == ns[..k] && done[k] == ns[k];
    assert forall m :: m in done <==> m in ns[..k] || m == ns[k];
  }

  lemma RankedAll(h: Graph, g: Graph, rank: (Graph, Node) -> real)
    requires Inv(h) && PartlyRanked(h, g, rank, h.nodes.keys)
    ensures Inv(g) && g == Ranked(h, rank)
  {
    assert g.nodes.values == Ranked(h, rank).nodes.values;
  }

  // ---------------------------------------------------------------- read queries

  function Ids(ns: seq<Node>): (r: seq<string>)
    ensures |r| == |ns|
    ensures forall i :: 0 <= i < |ns| ==> r[i] == ns[i].id
  {
    seq(|ns|, i requires 0 <= i < |ns| => ns[i].id)
  }

  /** The ids among `ys` of chunk nodes other than `chunkId`. */
  function ChunksAmong(ys: seq<Node>, chunkId: string): (r: set<string>)
    ensures forall x :: x in r <==> x != chunkId && Node(Chunk, x) in ys
  {
    if ys == [] then {}
    else
      var y := ys[|ys| - 1];
      assert ys == ys[..|ys| - 1] + [y];
      ChunksAmong(ys[..|ys| - 1], chunkId) + (if y.kind == Chunk && y.id != chunkId then {y.id} else {})
  }

  /** The chunks other than `chunkId` with an edge into one of the concepts named in `ks`. */
  function ChunksInto(es: seq<Edge>, ks: seq<Node>, chunkId: string): (r: set<string>)
    ensures forall x :: x in r <==> x != chunkId && exists k :: k in ks && (Node(Chunk, x), Node(Concept, k.id)) in es
  {
    if ks == [] then {}
    else
      var init := ks[..|ks| - 1];
      var k := ks[|ks| - 1];
      assert ks == init + [k];
      ChunksInto(es, init, chunkId) + ChunksAmong(Sources(es, Node(Concept, k.id)), chunkId)
  }

  lemma ChunksAmongSnoc(ys: seq<Node>, j: nat, chunkId: string)
    requires j < |ys|
    ensures ChunksAmong(ys[..j + 1], chunkId) ==
      ChunksAmong(ys[..j], chunkId) + (if ys[j].kind == Chunk && ys[j].id != chunkId then {ys[j].id} else {})
  {
    var s := ys[..j + 1];
    assert s[..|s| - 1] == ys[..j] && s[|s| - 1] == ys[j];
  }

  lemma ChunksIntoSnoc(es: seq<Edge>, ks: seq<Node>, i: nat, chunkId: string)
    requires i < |ks|
    ensures ChunksInto(es, ks[..i + 1], chunkId) ==
      ChunksInto(es, ks[..i], chunkId) + ChunksAmong(Sources(es, Node(Concept, ks[i].id)), chunkId)
  {
    var s := ks[..i + 1];
    assert s[..|s| - 1] == ks[..i] && s[|s| - 1] == ks[i];
  }

  /** The MENTIONS targets of chunk `chunkId`, in edge order. */
  function MentionTargets(g: Graph, chunkId: string): seq<Node> {
    Targets(g.edges.keys, g.edges.values, Node(Chunk, chunkId), Mentions)
  }

  /** The set `neigh` that `neighbor_chunks_by_concepts` collects. */
  function Neighbours(g: Graph, chunkId: string): set<string> {
    ChunksInto(g.edges.keys, MentionTargets(g, chunkId), chunkId)
  }

  /** In a store graph, the neighbours of a chunk are the other chunks that mention one of its concepts. */
  lemma NeighboursIff(g: Graph, chunkId: string, x: string)
    requires Inv(g)
    ensures x in Neighbours(g, chunkId) <==>
      x != chunkId && exists c: string :: IsEdge(g, Node(Chunk, chunkId), Node(Concept, c), Mentions) && IsEdge(g, Node(Chunk, x), Node(Concept, c), Mentions)
  {
    var ks := MentionTargets(g, chunkId);
    if x in Neighbours(g, chunkId) {
      var k :| k in ks && (Node(Chunk, x), Node(Concept, k.id)) in g.edges.keys;
      assert Fits((Node(Chunk, chunkId), k), Mentions);
      assert k == Node(Concept, k.id);
      var e := (Node(Chunk, x), Node(Concept, k.id));
      assert Fits(e, g.edges.values[e]);
      assert IsEdge(g, Node(Chunk, x), Node(Concept, k.id), Mentions);
    }
    if x != chunkId && exists c: string :: IsEdge(g, Node(Chunk, chunkId), Node(Concept, c), Mentions) && IsEdge(g, Node(Chunk, x), Node(Concept, c), Mentions) {
      var c: string :| IsEdge(g, Node(Chunk, chunkId), Node(Concept, c), Mentions) && IsEdge(g, Node(Chunk, x), Node(Concept, c), Mentions);
      assert Node(Concept, c) in ks;
      assert (Node(Chunk, x), Node(Concept, c)) in g.edges.keys;
    }
  }

  /** A chunk that is not in the graph has no neighbours. */
  lemma NeighboursOfUnknown(g: Graph, chunkId: string)
    requires Inv(g) && Node(Chunk, chunkId) !in g.nodes.values
    ensures Neighbours(g, chunkId) == {}
  {
    var ks := MentionTargets(g, chunkId);
    assert forall k :: k !in ks;
  }

  /** `get_doc_info`: title and url as stored (None when never set), pagerank 0.0 when never computed. */
  datatype DocInfo = DocInfo(title: Option<string>, url: Option<string>, pagerank: real)

  /** `get_doc_info(doc_id)`; an unknown document raises KeyError. */
  function DocInfoOf(g: Graph, docId: string): (r: Result<DocInfo>)
    ensures r.Err? <==> Node(Doc, docId) !in g.nodes.values
    ensures r.Err? ==> r.error == KeyError(docId)
    ensures r.Ok? ==> var a := g.nodes.values[Node(Doc, docId)];
      r.value.title == a.title && r.value.url == a.url && r.value.pagerank == a.pagerank.GetOr(0.0)
  {
    var n := Node(Doc, docId);
    if n in g.nodes.values then
      var a := g.nodes.values[n];
      Ok(DocInfo(a.title, a.url, a.pagerank.GetOr(0.0)))
    else Err(KeyError(docId))
  }

  /** A document known only through `add_chunk` has no title, no url and pagerank 0.0. */
  lemma ImplicitDocInfo(g: Graph, chunkId: string, text: string, docId: string)
    requires Node(Doc, docId) !in g.nodes.values
    ensures DocInfoOf(WithChunk(g, chunkId, text, docId), docId) == Ok(DocInfo(None, None, 0.0))
  {
  }

  /** `get_chunk_doc`: the owner named by the first HAS_CHUNK edge into the chunk. */
  function ChunkDocOf(g: Graph, chunkId: string): (r: Option<string>)
    requires Inv(g)
    ensures r.None? <==> forall d :: !IsEdge(g, d, Node(Chunk, chunkId), HasChunk)
    ensures r.Some? ==> IsEdge(g, Node(Doc, r.value), Node(Chunk, chunkId), HasChunk)
    ensures r.Some? ==> exists i ::
      FirstInto(g.edges.keys, g.edges.values, Node(Chunk, chunkId), HasChunk, i) && g.edges.keys[i].0 == Node(Doc, r.value)
  {
    var es := g.edges.keys;
    var dst := Node(Chunk, chunkId);
    var s := FirstSource(es, g.edges.values, dst, HasChunk);
    if s.None? then
      assert forall d :: !IsEdge(g, d, dst, HasChunk) by {
        forall d ensures !IsEdge(g, d, dst, HasChunk) {
          if (d, dst) in g.edges.values {
            assert (d, dst) in es;
            var i :| 0 <= i < |es| && es[i] == (d, dst);
          }
        }
      }
      None
    else
      assert Fits((s.value, dst), HasChunk);
      assert IsEdge(g, s.value, dst, HasChunk);
      Some(s.value.id)
  }

  /** One provenance record of `explain_paths`. */
  datatype Path = Path(chunkId: string, docId: Option<string>, docTitle: Option<string>, url: Option<string>, concepts: seq<string>)

  /** The record `explain_paths` builds for one chunk id. A falsy owner (None or "") leaves
      title and url None. */
  function PathOf(g: Graph, cid: string): (r: Path)
    requires Inv(g)
    ensures r.chunkId == cid && r.docId == ChunkDocOf(g, cid)
    ensures forall c :: c in r.concepts <==> IsEdge(g, Node(Chunk, cid), Node(Concept, c), Mentions)
    ensures (r.docId.None? || r.docId == Some("")) ==> r.docTitle.None? && r.url.None?
    ensures r.docId.Some? && r.docId.value != "" ==>
      r.docTitle == g.nodes.values[Node(Doc, r.docId.value)].title && r.url == g.nodes.values[Node(Doc, r.docId.value)].url
  {
    var docId := ChunkDocOf(g, cid);
    var ks := MentionTargets(g, cid);
    var concepts := Ids(ks);
    assert forall c :: c in concepts <==> IsEdge(g, Node(Chunk, cid), Node(Concept, c), Mentions) by {
      forall c ensures c in concepts <==> IsEdge(g, Node(Chunk, cid), Node(Concept, c), Mentions) {
        if c in concepts {
          var i :| 0 <= i < |concepts| && concepts[i] == c;
          assert ks[i] in ks;
          assert Fits((Node(Chunk, cid), ks[i]), Mentions);
          assert ks[i] == Node(Concept, c);
        }
        if IsEdge(g, Node(Chunk, cid), Node(Concept, c), Mentions) {
          assert Node(Concept, c) in ks;
          var i :| 0 <= i < |ks| && ks[i] == Node(Concept, c);
          assert concepts[i] == c;
        }
      }
    }
    if docId.Some? && docId.value != "" then
      var n := Node(Doc, docId.value);
      var a := g.nodes.values[n];
      Path(cid, docId, a.title, a.url, concepts)
    else
      Path(cid, docId, None, None, concepts)
  }

  /** The concepts of the provenance record of chunk `cid` come in the order of its MENTIONS
      edges, each once: for any two of them, the edge to the earlier was added first. */
  lemma PathConceptsOrder(g: Graph, cid: string)
    requires Inv(g)
    ensures PathOf(g, cid).concepts == Ids(MentionTargets(g, cid))
    ensures Distinct(PathOf(g, cid).concepts)
    ensures var cs := PathOf(g, cid).concepts;
      forall i, j :: 0 <= i < j < |cs| ==>
        Before(g.edges.keys, (Node(Chunk, cid), Node(Concept, cs[i])), (Node(Chunk, cid), Node(Concept, cs[j])))
  {
    var ks := MentionTargets(g, cid);
    var cs := PathOf(g, cid).concepts;
    forall i | 0 <= i < |ks| ensures ks[i] == Node(Concept, cs[i]) {
      assert ks[i] in ks;
      assert Fits((Node(Chunk, cid), ks[i]), Mentions);
    }
    forall i, j | 0 <= i < j < |ks| ensures ks[i].id != ks[j].id {
      assert Fits((Node(Chunk, cid), ks[i]), Mentions) && Fits((Node(Chunk, cid), ks[j]), Mentions);
    }
  }

  // ---------------------------------------------------------------- the store

  class GraphStore {
    var G: Graph

    ghost predicate Valid()
      reads this
    {
      Inv(G)
    }

    constructor()
      ensures Valid() && G == EmptyGraph()
    {
      G := EmptyGraph();
    }

    method AddDoc(docId: string, title: string, url: string)
      requires Valid()
      modifies this
      ensures Valid() && G == WithDoc(old(G), docId, title, url)
    {
      G := WithDoc(G, docId, title, url);
    }

    method AddChunk(chunkId: string, text: string, docId: string)
      requires Valid()
      modifies this
      ensures Valid() && G == WithChunk(old(G), chunkId, text, docId)
    {
      G := WithChunk(G, chunkId, text, docId);
    }

    method AddConcept(name: string)
      requires Valid()
      modifies this
      ensures Valid() && G == WithConcept(old(G), name)
    {
      G := WithConcept(G, name);
    }

    method LinkMentions(chunkId: string, concept: string)
      requires Valid()
      modifies this
      ensures Valid() && G == WithMention(old(G), chunkId, concept)
    {
      G := WithMention(G, chunkId, concept);
    }

    /** `compute_doc_pagerank`: the RELATED_DOC loops over every ordered pair of document ids,
        then the pagerank attribute on every document node. */
    method ComputeDocPagerank(rank: (Graph, Node) -> real)
      requires Valid()
      modifies this
      ensures Valid() && G == Ranked(Projected(old(G)), rank)
    {
      ProjectDocs();
      WriteRanks(rank);
    }

    /** The nested loops of `compute_doc_pagerank` over the document ids listed before they start. */
    method ProjectDocs()
      requires Valid()
      modifies this
      ensures Valid() && G == Projected(old(G))
    {
      var docs := DocIds(G.nodes.keys);
      ghost var g0 := G;
      ghost var done: seq<(string, string)> := [];
      var i := 0;
      assert forall d :: d in docs ==> Node(Doc, d) in G.nodes.values by {
        forall d | d in docs ensures Node(Doc, d) in G.nodes.values {
          assert Node(Doc, d) in G.nodes.keys;
        }
      }
      while i < |docs|
        invariant 0 <= i <= |docs|
        invariant Valid() && G.nodes == g0.nodes
        invariant done == Pairs(docs[..i], docs)
        invariant G == Fold(g0, done)
      {
        LinkRow(docs[i], docs, g0, done);
        PairsSnoc(docs, docs, i);
        done := done + Row(docs[i], docs);
        i := i + 1;
      }
      assert docs[..i] == docs;
      ProjectedInv(g0);
    }

    /** The inner loop, for document `id1` against every id in `docs`. */
    method LinkRow(id1: string, docs: seq<string>, ghost g0: Graph, ghost done: seq<(string, string)>)
      requires Valid() && G == Fold(g0, done)
      requires Node(Doc, id1) in G.nodes.values && forall d :: d in docs ==> Node(Doc, d) in G.nodes.values
      modifies this
      ensures Valid() && G.nodes == old(G).nodes
      ensures G == Fold(g0, done + Row(id1, docs))
    {
      var j := 0;
      assert done + Row(id1, docs[..0]) == done;
      while j < |docs|
        invariant 0 <= j <= |docs|
        invariant Valid() && G.nodes == old(G).nodes
        invariant G == Fold(g0, done + Row(id1, docs[..j]))
      {
        ghost var ps := done + Row(id1, docs[..j]);
        StepKeepsTypedEdges(G, (id1, docs[j]));
        LinkIfShared(id1, docs[j]);
        FoldSnoc(g0, ps, (id1, docs[j]));
        RowSnoc(id1, docs, j);
        assert done + Row(id1, docs[..j + 1]) == ps + [(id1, docs[j])];
        j := j + 1;
      }
      assert docs[..j] == docs;
    }

    /** The set `c1` (or `c2`) of the inner loop: the loop over the out-edges of document `id`,
        adding the MENTIONS targets of each chunk it has. */
    method CollectConcepts(id: string) returns (cs: set<string>)
      requires Valid()
      ensures cs == DocConcepts(G, id)
    {
      var es := G.edges.keys;
      cs := {};
      var k := 0;
      while k < |es|
        invariant 0 <= k <= |es|
        invariant cs == ConceptsSeen(G, id, es[..k])
      {
        var e := es[k];
        ConceptsSeenSnoc(G, id, es[..k], e);
        assert es[..k + 1] == es[..k] + [e];
        assert e in G.edges.values;
        if e.0 == Node(Doc, id) && G.edges.values[e] == HasChunk {
          cs := cs + MentionIds(G, e.1);
        }
        k := k + 1;
      }
      assert es[..k] == es;
      assert (set x | x in es) * EdgesOfType(G.edges.values, HasChunk) == EdgesOfType(G.edges.values, HasChunk);
    }

    /** One iteration of the inner loop: link the two documents if they are different and their
        reachable concept sets meet. */
    method LinkIfShared(id1: string, id2: string)
      requires Valid()
      modifies this
      ensures G == Step(old(G), (id1, id2))
    {
      if id1 != id2 {
        var c1 := CollectConcepts(id1);
        var c2 := CollectConcepts(id2);
        if c1 * c2 != {} {
          G := AddEdge(G, Node(Doc, id1), Node(Doc, id2), RelatedDoc);
        }
      }
    }

    /** The loop over the PageRank scores, writing `pagerank` on the document nodes. */
    method WriteRanks(rank: (Graph, Node) -> real)
      requires Valid()
      modifies this
      ensures Valid() && G == Ranked(old(G), rank)
    {
      var h := G;
      var ns := G.nodes.keys;
      var k := 0;
      while k < |ns|
        invariant 0 <= k <= |ns|
        invariant PartlyRanked(h, G, rank, ns[..k])
      {
        var n := ns[k];
        ghost var g0 := G;
        assert n in h.nodes.values;
        if n.kind == Doc {
          var a := G.nodes.values[n];
          G := G.(nodes := G.nodes.Put(n, a.(pagerank := Some(rank(h, n)))));
        }
        RankStep(h, g0, G, rank, ns, k);
        k := k + 1;
      }
      assert ns[..k] == ns;
      RankedAll(h, G, rank);
    }

    /** `neighbor_chunks_by_concepts`: the other chunks sharing a MENTIONS concept with the chunk,
        listed in some order and cut to `maxNeighbors` the way Python slices. */
    method NeighborChunksByConcepts(chunkId: string, maxNeighbors: int) returns (r: seq<string>)
      requires Valid()
      ensures Distinct(r)
      ensures forall x :: x in r ==> x in Neighbours(G, chunkId)
      ensures chunkId !in r
      ensures |r| == SliceEnd(|Neighbours(G, chunkId)|, maxNeighbors)
      ensures maxNeighbors >= 0 ==> |r| <= maxNeighbors
      ensures Node(Chunk, chunkId) !in G.nodes.values ==> r == []
    {
      var neigh := CollectNeighbours(chunkId);
      ghost var listed := Enumerate(neigh);
      var l :| Distinct(l) && |l| == |neigh| && (forall x | x in l :: x in neigh) && (forall x | x in neigh :: x in l);
      r := l[..SliceEnd(|l|, maxNeighbors)];
      DistinctPrefix(l, |r|);
      assert forall x :: x in r ==> x in l;
      if Node(Chunk, chunkId) !in G.nodes.values {
        NeighboursOfUnknown(G, chunkId);
      }
    }

    /** The loops of `neighbor_chunks_by_concepts` that fill the set `neigh`. */
    method CollectNeighbours(chunkId: string) returns (neigh: set<string>)
      ensures neigh == Neighbours(G, chunkId)
    {
      var concepts := MentionTargets(G, chunkId);
      neigh := {};
      var i := 0;
      while i < |concepts|
        invariant 0 <= i <= |concepts|
        invariant neigh == ChunksInto(G.edges.keys, concepts[..i], chunkId)
      {
        var found := ChunksMentioning(concepts[i].id, chunkId);
        ChunksIntoSnoc(G.edges.keys, concepts, i, chunkId);
        neigh := neigh + found;
        i := i + 1;
      }
      assert concepts[..i] == concepts;
    }

    /** The inner loop: the chunks other than `chunkId` with an edge into concept `name`. */
    method ChunksMentioning(name: string, chunkId: string) returns (found: set<string>)
      ensures found == ChunksAmong(Sources(G.edges.keys, Node(Concept, name)), chunkId)
    {
      var srcs := Sources(G.edges.keys, Node(Concept, name));
      found := {};
      var j := 0;
      while j < |srcs|
        invariant 0 <= j <= |srcs|
        invariant found == ChunksAmong(srcs[..j], chunkId)
      {
        var ch := srcs[j];
        ChunksAmongSnoc(srcs, j, chunkId);
        if ch.kind == Chunk && ch.id != chunkId {
          found := found + {ch.id};
        }
        j := j + 1;
      }
      assert srcs[..j] == srcs;
    }

    /** `get_chunk_doc`: the loop over the chunk's incoming edges, returning at the first HAS_CHUNK one. */
    method GetChunkDoc(chunkId: string) returns (r: Option<string>)
      requires Valid()
      ensures r == ChunkDocOf(G, chunkId)
    {
      var es := G.edges.keys;
      var i := 0;
      while i < |es|
        invariant 0 <= i <= |es|
        invariant FirstSource(es, G.edges.values, Node(Chunk, chunkId), HasChunk) == FirstSource(es[i..], G.edges.values, Node(Chunk, chunkId), HasChunk)
      {
        var e := es[i];
        assert es[i..][0] == e && es[i..][1..] == es[i + 1..];
        if e.1 == Node(Chunk, chunkId) && G.edges.values[e] == HasChunk {
          return Some(e.0.id);
        }
        i := i + 1;
      }
      return None;
    }

    /** `explain_paths`: one record per requested id, in request order. */
    method ExplainPaths(chunkIds: seq<string>) returns (paths: seq<Path>)
      requires Valid()
      ensures |paths| == |chunkIds|
      ensures forall i :: 0 <= i < |chunkIds| ==> paths[i] == PathOf(G, chunkIds[i])
    {
      paths := [];
      var i := 0;
      while i < |chunkIds|
        invariant 0 <= i <= |chunkIds|
        invariant |paths| == i
        invariant forall k :: 0 <= k < i ==> paths[k] == PathOf(G, chunkIds[k])
      {
        var p := PathFor(chunkIds[i]);
        paths := paths + [p];
        i := i + 1;
      }
    }

    /** The body of the loop of `explain_paths`: the record for one chunk id. */
    method PathFor(cid: string) returns (p: Path)
      requires Valid()
      ensures p == PathOf(G, cid)
    {
      var docId := GetChunkDoc(cid);
      var concepts := Ids(MentionTargets(G, cid));
      var title, url := None, None;
      if docId.Some? && docId.value != "" {
        var info := DocInfoOf(G, docId.value);
        if info.Ok? {
          title, url := info.value.title, info.value.url;
        }
      }
      p := Path(cid, docId, title, url, concepts);
    }
  }
}

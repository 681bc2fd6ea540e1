/** The part of a networkx `DiGraph` the knowledge graph uses: tagged nodes with attribute
    dictionaries, at most one typed edge per ordered pair, and insertion-ordered iteration.

    networkx keeps one adjacency dictionary per node; iterating `out_edges(n)` or `in_edges(n)`
    visits the edges at `n` in the order in which each pair was first added. Here all edges
    live in one insertion-ordered dictionary, and the edges at a node are that dictionary's
    keys filtered to the node, which visits them in the same order. */
module DirectedGraph {
  import opened Wrappers
  import opened Lists
  import opened Dicts

  /** The tag in a node tuple `("Doc", id)`, `("Chunk", id)` or `("Concept", name)`. */
  datatype Kind = Doc | Chunk | Concept

  datatype Node = Node(kind: Kind, id: string)

  /** The `type` attribute of an edge. */
  datatype EdgeType = HasChunk | Mentions | RelatedDoc

  type Edge = (Node, Node)

  /** A node's attribute dictionary; None marks a key that was never set. */
  datatype Attrs = Attrs(title: Option<string>, url: Option<string>, text: Option<string>, pagerank: Option<real>)

  /** The attributes of a node created implicitly by `add_edge`, or by `add_node` without keywords. */
  const Bare := Attrs(None, None, None, None)

  /** `attrs.update(upd)`: the keys set in `upd` overwrite, the others are kept. */
  function Merge(a: Attrs, upd: Attrs): (r: Attrs)
    ensures upd.title.Some? ==> r.title == upd.title
    ensures upd.title.None? ==> r.title == a.title
    ensures upd.url.Some? ==> r.url == upd.url
    ensures upd.url.None? ==> r.url == a.url
    ensures upd.text.Some? ==> r.text == upd.text
    ensures upd.text.None? ==> r.text == a.text
    ensures upd.pagerank.Some? ==> r.pagerank == upd.pagerank
    ensures upd.pagerank.None? ==> r.pagerank == a.pagerank
  {
    Attrs(
      if upd.title.Some? then upd.title else a.title,
      if upd.url.Some? then upd.url else a.url,
      if upd.text.Some? then upd.text else a.text,
      if upd.pagerank.Some? then upd.pagerank else a.pagerank)
  }

  datatype Graph = Graph(nodes: Dict<Node, Attrs>, edges: Dict<Edge, EdgeType>) {

    /** Both dictionaries are well formed and every edge joins two nodes. */
    ghost predicate Valid() {
      && nodes.Valid()
      && edges.Valid()
      && forall e :: e in edges.values ==> e.0 in nodes.values && e.1 in nodes.values
    }
  }

  function EmptyGraph(): (g: Graph)
    ensures g.Valid() && g.nodes.keys == [] && g.edges.keys == []
  {
    Graph(EmptyDict(), EmptyDict())
  }

  /** `G.add_node(n, **upd)`: a new node goes last with `upd` as its attributes; an existing
      node keeps its place and has `upd` merged into its attributes. Edges are untouched. */
  function AddNode(g: Graph, n: Node, upd: Attrs): (r: Graph)
    ensures g.Valid() ==> r.Valid()
    ensures r.edges == g.edges
    ensures r.nodes.values.Keys == g.nodes.values.Keys + {n}
    ensures r.nodes.values[n] == Merge(if n in g.nodes.values then g.nodes.values[n] else Bare, upd)
    ensures forall m :: m in g.nodes.values && m != n ==> r.nodes.values[m] == g.nodes.values[m]
    ensures r.nodes.keys == if n in g.nodes.values then g.nodes.keys else g.nodes.keys + [n]
  {
    g.(nodes := g.nodes.Put(n, Merge(g.nodes.Get(n, Bare), upd)))
  }

  /** Make sure `n` is a node, creating it without attributes if needed. */
  function Touch(g: Graph, n: Node): (r: Graph)
    ensures g.Valid() ==> r.nodes.Valid()
    ensures r.edges == g.edges
    ensures r.nodes.values.Keys == g.nodes.values.Keys + {n}
    ensures n !in g.nodes.values ==> r.nodes.values[n] == Bare
    ensures forall m :: m in g.nodes.values ==> r.nodes.values[m] == g.nodes.values[m]
    ensures r.nodes.keys == if n in g.nodes.values then g.nodes.keys else g.nodes.keys + [n]
  {
    if n in g.nodes.values then g else g.(nodes := g.nodes.Put(n, Bare))
  }

  /** `G.add_edge(u, v, type=t)`: missing endpoints are created bare (first `u`, then `v`);
      an existing edge keeps its place and gets the new type; a new edge goes last. */
  function AddEdge(g: Graph, u: Node, v: Node, t: EdgeType): (r: Graph)
    ensures g.Valid() ==> r.Valid()
    ensures r.nodes.values.Keys == g.nodes.values.Keys + {u, v}
    ensures forall m :: m in g.nodes.values ==> r.nodes.values[m] == g.nodes.values[m]
    ensures u !in g.nodes.values ==> r.nodes.values[u] == Bare
    ensures v !in g.nodes.values ==> r.nodes.values[v] == Bare
    ensures r.edges.values == g.edges.values[(u, v) := t]
    ensures r.edges.keys == if (u, v) in g.edges.values then g.edges.keys else g.edges.keys + [(u, v)]
    ensures u in g.nodes.values && v in g.nodes.values ==> r.nodes == g.nodes
    ensures r.nodes.keys == g.nodes.keys + (if u in g.nodes.values then [] else [u])
                                         + (if v in g.nodes.values || v == u then [] else [v])
  {
    var h := Touch(Touch(g, u), v);
    h.(edges := h.edges.Put((u, v), t))
  }

  /** The nodes `r` are the targets of edges out of `src` met in this order in `es`: for any two
      of them, an edge to the earlier comes before an edge to the later. */
  predicate OutOrder(es: seq<Edge>, src: Node, r: seq<Node>) {
    forall i, j :: 0 <= i < j < |r| ==> Before(es, (src, r[i]), (src, r[j]))
  }

  /** The nodes `r` are the sources of edges into `dst` met in this order in `es`. */
  predicate InOrder(es: seq<Edge>, dst: Node, r: seq<Node>) {
    forall i, j :: 0 <= i < j < |r| ==> Before(es, (r[i], dst), (r[j], dst))
  }

  lemma OutOrderSnoc(es: seq<Edge>, src: Node, r: seq<Node>, e: Edge)
    requires OutOrder(es, src, r)
    requires forall k :: 0 <= k < |r| ==> (src, r[k]) in es
    ensures OutOrder(es + [e], src, r)
    ensures e.0 == src ==> OutOrder(es + [e], src, r + [e.1])
  {
    BeforeSnoc(es, e);
    if e.0 == src {
      var r' := r + [e.1];
      assert e == (src, e.1);
      forall i, j | 0 <= i < j < |r'| ensures Before(es + [e], (src, r'[i]), (src, r'[j])) {
        if j == |r| {
          assert (src, r[i]) in es;
        }
      }
    }
  }

  lemma InOrderSnoc(es: seq<Edge>, dst: Node, r: seq<Node>, e: Edge)
    requires InOrder(es, dst, r)
    requires forall k :: 0 <= k < |r| ==> (r[k], dst) in es
    ensures InOrder(es + [e], dst, r)
    ensures e.1 == dst ==> InOrder(es + [e], dst, r + [e.0])
  {
    BeforeSnoc(es, e);
    if e.1 == dst {
      var r' := r + [e.0];
      assert e == (e.0, dst);
      forall i, j | 0 <= i < j < |r'| ensures Before(es + [e], (r'[i], dst), (r'[j], dst)) {
        if j == |r| {
          assert (r[i], dst) in es;
        }
      }
    }
  }

  /** The targets of the edges of type `t` out of `src`, in edge order. */
  function Targets(es: seq<Edge>, m: map<Edge, EdgeType>, src: Node, t: EdgeType): (r: seq<Node>)
    ensures forall x :: x in r <==> (src, x) in es && (src, x) in m && m[(src, x)] == t
    ensures Distinct(es) ==> Distinct(r)
    ensures OutOrder(es, src, r)
  {
    if es == [] then []
    else
      var e := es[|es| - 1];
      var init := es[..|es| - 1];
      var r0 := Targets(init, m, src, t);
      assert es == init + [e];
      assert forall k :: 0 <= k < |r0| ==> (src, r0[k]) in init by {
        forall k | 0 <= k < |r0| ensures (src, r0[k]) in init {
          assert r0[k] in r0;
        }
      }
      OutOrderSnoc(init, src, r0, e);
      if e.0 == src && e in m && m[e] == t then
        assert Distinct(es) ==> e !in init by {
          if Distinct(es) {
            forall k | 0 <= k < |init| ensures init[k] != e {
              assert init[k] == es[k];
            }
          }
        }
        r0 + [e.1]
      else r0
  }

  /** The sources of all edges into `dst`, whatever their type, in edge order. */
  function Sources(es: seq<Edge>, dst: Node): (r: seq<Node>)
    ensures forall y :: y in r <==> (y, dst) in es
    ensures InOrder(es, dst, r)
  {
    if es == [] then []
    else
      var e := es[|es| - 1];
      var init := es[..|es| - 1];
      var r0 := Sources(init, dst);
      assert es == init + [e];
      assert forall k :: 0 <= k < |r0| ==> (r0[k], dst) in init by {
        forall k | 0 <= k < |r0| ensures (r0[k], dst) in init {
          assert r0[k] in r0;
        }
      }
      InOrderSnoc(init, dst, r0, e);
      r0 + (if e.1 == dst then [e.0] else [])
  }

  /** Edge `e` enters `dst` with type `t`. */
  predicate Into(e: Edge, m: map<Edge, EdgeType>, dst: Node, t: EdgeType) {
    e.1 == dst && e in m && m[e] == t
  }

  /** Position `i` holds the first edge of `es` that enters `dst` with type `t`. */
  predicate FirstInto(es: seq<Edge>, m: map<Edge, EdgeType>, dst: Node, t: EdgeType, i: int) {
    0 <= i < |es| && Into(es[i], m, dst, t) && forall j :: 0 <= j < i ==> !Into(es[j], m, dst, t)
  }

  /** The source of the first edge of type `t` into `dst`, if any. */
  function FirstSource(es: seq<Edge>, m: map<Edge, EdgeType>, dst: Node, t: EdgeType): (r: Option<Node>)
    ensures r.None? <==> forall i :: 0 <= i < |es| ==> !Into(es[i], m, dst, t)
    ensures r.Some? ==> exists i :: FirstInto(es, m, dst, t, i) && es[i].0 == r.value
  {
    if es == [] then None
    else if Into(es[0], m, dst, t) then
      assert FirstInto(es, m, dst, t, 0);
      Some(es[0].0)
    else
      var r := FirstSource(es[1..], m, dst, t);
      assert forall i :: 1 <= i < |es| ==> es[i] == es[1..][i - 1];
      if r.Some? then
        var i :| FirstInto(es[1..], m, dst, t, i) && es[1..][i].0 == r.value;
        assert FirstInto(es, m, dst, t, i + 1);
        r
      else r
  }
}

/**
 * The call graph of `src/utils/graphdb_utils.py`: a networkx `DiGraph`
 * held in a process-wide cache (`_graph`), loaded at most once and written
 * back to disk after each change.
 *
 * A graph is its nodes in insertion order with an attribute dict per node,
 * and its edges in insertion order with an attribute dict per edge. The
 * successors of a node are the targets of its out-edges in insertion order
 * and its predecessors the sources of its in-edges, which is the order
 * networkx keeps in its adjacency dicts, since nothing is ever removed.
 */
module GraphdbUtils {
  import opened Common
  import opened DataModels

  type Edge = (string, string)

  datatype Graph = Graph(nodes: seq<string>, nodeAttrs: map<string, Dict>, edges: seq<Edge>, edgeAttrs: map<Edge, Dict>)

  /** What networkx's own bookkeeping guarantees of a DiGraph. */
  ghost predicate WellFormed(g: Graph)
  {
    && (forall i, j :: 0 <= i < j < |g.nodes| ==> g.nodes[i] != g.nodes[j])
    && (forall n :: n in g.nodeAttrs <==> n in g.nodes)
    && (forall i, j :: 0 <= i < j < |g.edges| ==> g.edges[i] != g.edges[j])
    && (forall e :: e in g.edgeAttrs <==> e in g.edges)
    && (forall e :: e in g.edgeAttrs ==> e.0 in g.nodeAttrs && e.1 in g.nodeAttrs)
  }

  /** `nx.DiGraph()`. */
  function EmptyGraph(): (g: Graph)
    ensures WellFormed(g) && g.nodes == [] && g.edges == []
  {
    Graph([], map[], [], map[])
  }

  /** Every node and every edge of `g` is still in `h`. */
  ghost predicate Grows(g: Graph, h: Graph)
  {
    && (forall n :: n in g.nodeAttrs ==> n in h.nodeAttrs)
    && (forall e :: e in g.edgeAttrs ==> e in h.edgeAttrs)
  }

  lemma GrowsTransitive(g: Graph, h: Graph, k: Graph)
    requires Grows(g, h) && Grows(h, k)
    ensures Grows(g, k)
  {
  }

  /** `graph.add_node(n, **attrs)`: a new node is appended; an existing one has its attributes updated. */
  function AddNode(g: Graph, n: string, attrs: Dict): (h: Graph)
    ensures forall x :: x in h.nodeAttrs <==> x in g.nodeAttrs || x == n
    ensures n !in g.nodeAttrs ==> h.nodes == g.nodes + [n] && h.nodeAttrs[n] == attrs
    ensures n in g.nodeAttrs ==> h.nodes == g.nodes && h.nodeAttrs[n] == g.nodeAttrs[n] + attrs
    ensures forall x :: x in g.nodeAttrs && x != n ==> h.nodeAttrs[x] == g.nodeAttrs[x]
    ensures h.edges == g.edges && h.edgeAttrs == g.edgeAttrs
  {
    if n in g.nodeAttrs then g.(nodeAttrs := g.nodeAttrs[n := g.nodeAttrs[n] + attrs])
    else g.(nodes := g.nodes + [n], nodeAttrs := g.nodeAttrs[n := attrs])
  }

  /** `graph.nodes[n][key] = value` on an existing node. */
  function SetNodeAttr(g: Graph, n: string, key: string, value: Value): (h: Graph)
    requires n in g.nodeAttrs
    ensures h.nodes == g.nodes && h.nodeAttrs.Keys == g.nodeAttrs.Keys
    ensures h.nodeAttrs[n] == g.nodeAttrs[n][key := value]
    ensures forall x :: x in g.nodeAttrs && x != n ==> h.nodeAttrs[x] == g.nodeAttrs[x]
    ensures h.edges == g.edges && h.edgeAttrs == g.edgeAttrs
  {
    g.(nodeAttrs := g.nodeAttrs[n := g.nodeAttrs[n][key := value]])
  }

  /** `graph[u][v][key] = value` on an existing edge. */
  function SetEdgeAttr(g: Graph, e: Edge, key: string, value: Value): (h: Graph)
    requires e in g.edgeAttrs
    ensures h.edges == g.edges && h.edgeAttrs.Keys == g.edgeAttrs.Keys
    ensures h.edgeAttrs[e] == g.edgeAttrs[e][key := value]
    ensures forall x :: x in g.edgeAttrs && x != e ==> h.edgeAttrs[x] == g.edgeAttrs[x]
    ensures h.nodes == g.nodes && h.nodeAttrs == g.nodeAttrs
  {
    g.(edgeAttrs := g.edgeAttrs[e := g.edgeAttrs[e][key := value]])
  }

  /** An endpoint `add_edge` needs: added without attributes when missing. */
  function WithNode(g: Graph, n: string): (h: Graph)
    ensures forall x :: x in h.nodeAttrs <==> x in g.nodeAttrs || x == n
    ensures forall x :: x in g.nodeAttrs ==> h.nodeAttrs[x] == g.nodeAttrs[x]
    ensures n !in g.nodeAttrs ==> h.nodes == g.nodes + [n] && h.nodeAttrs[n] == map[]
    ensures n in g.nodeAttrs ==> h == g
    ensures h.edges == g.edges && h.edgeAttrs == g.edgeAttrs
  {
    if n in g.nodeAttrs then g else AddNode(g, n, map[])
  }

  /** The edge part of `add_edge`, once the endpoints are in place. */
  function PutEdge(g: Graph, e: Edge, attrs: Dict): (h: Graph)
    ensures h.nodes == g.nodes && h.nodeAttrs == g.nodeAttrs
    ensures forall x :: x in h.edgeAttrs <==> x in g.edgeAttrs || x == e
    ensures forall x :: x in g.edgeAttrs && x != e ==> h.edgeAttrs[x] == g.edgeAttrs[x]
    ensures e !in g.edgeAttrs ==> h.edges == g.edges + [e] && h.edgeAttrs[e] == attrs
    ensures e in g.edgeAttrs ==> h.edges == g.edges && h.edgeAttrs[e] == g.edgeAttrs[e] + attrs
  {
    if e in g.edgeAttrs then g.(edgeAttrs := g.edgeAttrs[e := g.edgeAttrs[e] + attrs])
    else g.(edges := g.edges + [e], edgeAttrs := g.edgeAttrs[e := attrs])
  }

  /**
   * `graph.add_edge(u, v, **attrs)`: missing endpoints become nodes without
   * attributes; a new edge is appended, an existing one has its attributes updated.
   */
  function AddEdge(g: Graph, u: string, v: string, attrs: Dict): (h: Graph)
    ensures forall x :: x in h.nodeAttrs <==> x in g.nodeAttrs || x == u || x == v
    ensures forall e :: e in h.edgeAttrs <==> e in g.edgeAttrs || e == (u, v)
    ensures forall x :: x in g.nodeAttrs ==> h.nodeAttrs[x] == g.nodeAttrs[x]
    ensures forall e :: e in g.edgeAttrs && e != (u, v) ==> h.edgeAttrs[e] == g.edgeAttrs[e]
    ensures (u, v) !in g.edgeAttrs ==> h.edgeAttrs[(u, v)] == attrs
    ensures (u, v) in g.edgeAttrs ==> h.edgeAttrs[(u, v)] == g.edgeAttrs[(u, v)] + attrs
  {
    PutEdge(WithNode(WithNode(g, u), v), (u, v), attrs)
  }

  lemma AddNodeWellFormed(g: Graph, n: string, attrs: Dict)
    requires WellFormed(g)
    ensures WellFormed(AddNode(g, n, attrs)) && Grows(g, AddNode(g, n, attrs))
  {
  }

  lemma SetNodeAttrWellFormed(g: Graph, n: string, key: string, value: Value)
    requires WellFormed(g) && n in g.nodeAttrs
    ensures WellFormed(SetNodeAttr(g, n, key, value)) && Grows(g, SetNodeAttr(g, n, key, value))
  {
  }

  lemma SetEdgeAttrWellFormed(g: Graph, e: Edge, key: string, value: Value)
    requires WellFormed(g) && e in g.edgeAttrs
    ensures WellFormed(SetEdgeAttr(g, e, key, value)) && Grows(g, SetEdgeAttr(g, e, key, value))
  {
  }

  lemma WithNodeWellFormed(g: Graph, n: string)
    requires WellFormed(g)
    ensures WellFormed(WithNode(g, n)) && Grows(g, WithNode(g, n))
  {
    if n !in g.nodeAttrs {
      AddNodeWellFormed(g, n, map[]);
    }
  }

  lemma PutEdgeWellFormed(g: Graph, e: Edge, attrs: Dict)
    requires WellFormed(g) && e.0 in g.nodeAttrs && e.1 in g.nodeAttrs
    ensures WellFormed(PutEdge(g, e, attrs)) && Grows(g, PutEdge(g, e, attrs))
  {
  }

  /** `add_edge` keeps the DiGraph's bookkeeping consistent and removes nothing. */
  lemma AddEdgeWellFormed(g: Graph, u: string, v: string, attrs: Dict)
    requires WellFormed(g)
    ensures WellFormed(AddEdge(g, u, v, attrs)) && Grows(g, AddEdge(g, u, v, attrs))
  {
    var g1 := WithNode(g, u);
    var g2 := WithNode(g1, v);
    WithNodeWellFormed(g, u);
    WithNodeWellFormed(g1, v);
    PutEdgeWellFormed(g2, (u, v), attrs);
    GrowsTransitive(g, g1, g2);
    GrowsTransitive(g, g2, PutEdge(g2, (u, v), attrs));
  }

  /** Re-adding an existing edge without attributes leaves the graph as it was. */
  lemma AddExistingEdge(g: Graph, u: string, v: string)
    requires WellFormed(g) && (u, v) in g.edgeAttrs
    ensures AddEdge(g, u, v, map[]) == g
  {
    var h := AddEdge(g, u, v, map[]);
    assert WithNode(WithNode(g, u), v) == g;
    assert h.edgeAttrs[(u, v)] == g.edgeAttrs[(u, v)];
    assert h.edgeAttrs == g.edgeAttrs;
  }

  /** The targets of the edges leaving `n`, in edge order. */
  function Targets(es: seq<Edge>, n: string): (vs: seq<string>)
    ensures forall v :: v in vs <==> (n, v) in es
  {
    if es == [] then []
    else if es[0].0 == n then [es[0].1] + Targets(es[1..], n)
    else Targets(es[1..], n)
  }

  /** The sources of the edges entering `n`, in edge order. */
  function Sources(es: seq<Edge>, n: string): (us: seq<string>)
    ensures forall u :: u in us <==> (u, n) in es
  {
    if es == [] then []
    else if es[0].1 == n then [es[0].0] + Sources(es[1..], n)
    else Sources(es[1..], n)
  }

  /** `graph.successors(n)`: NetworkXError for a name that is not a node. */
  function Successors(g: Graph, n: string): (r: Result<seq<string>>)
    ensures r.Ok? <==> n in g.nodeAttrs
    ensures r.Ok? ==> forall v :: v in r.value <==> (n, v) in g.edges
    ensures r.Err? ==> r.error.NetworkXError?
  {
    if n in g.nodeAttrs then Ok(Targets(g.edges, n))
    else Err(NetworkXError("The node is not in the digraph."))
  }

  /** `graph.predecessors(n)`: NetworkXError for a name that is not a node. */
  function Predecessors(g: Graph, n: string): (r: Result<seq<string>>)
    ensures r.Ok? <==> n in g.nodeAttrs
    ensures r.Ok? ==> forall u :: u in r.value <==> (u, n) in g.edges
    ensures r.Err? ==> r.error.NetworkXError?
  {
    if n in g.nodeAttrs then Ok(Sources(g.edges, n))
    else Err(NetworkXError("The node is not in the digraph."))
  }

  /** Each source's out-edges, source by source. */
  function EdgesFrom(ns: seq<string>, es: seq<Edge>): (r: seq<Edge>)
    ensures forall e :: e in r <==> e in es && e.0 in ns
  {
    if ns == [] then []
    else
      var first := seq(|Targets(es, ns[0])|, i requires 0 <= i < |Targets(es, ns[0])| => (ns[0], Targets(es, ns[0])[i]));
      assert forall e :: e in first <==> e in es && e.0 == ns[0] by {
        forall e | e in es && e.0 == ns[0]
          ensures e in first
        {
          var i :| 0 <= i < |Targets(es, ns[0])| && Targets(es, ns[0])[i] == e.1;
          assert first[i] == e;
        }
      }
      first + EdgesFrom(ns[1..], es)
  }

  /** `list(graph.edges())`: out-edges grouped by source, in node order. */
  function AllEdges(g: Graph): (r: seq<Edge>)
    ensures forall e :: e in r <==> e in g.edges && e.0 in g.nodes
  {
    EdgesFrom(g.nodes, g.edges)
  }

  /** `list(graph.nodes())`. */
  function AllNodes(g: Graph): seq<string>
  {
    g.nodes
  }

  /** In a DiGraph the two listings hold every node once and every edge. */
  lemma ListingsExact(g: Graph)
    requires WellFormed(g)
    ensures forall n :: n in AllNodes(g) <==> n in g.nodeAttrs
    ensures forall i, j :: 0 <= i < j < |AllNodes(g)| ==> AllNodes(g)[i] != AllNodes(g)[j]
    ensures forall e :: e in AllEdges(g) <==> e in g.edgeAttrs
  {
  }

  /** The module's global state: the cached graph and what is stored on disk. */
  class GraphModule {
    var cache: Option<Graph>
    var disk: Option<Graph>

    /** Module import: nothing cached; `disk` is whatever a previous run pickled. */
    constructor (disk: Option<Graph>)
      ensures cache == None && this.disk == disk
    {
      cache := None;
      this.disk := disk;
    }

    ghost predicate Valid()
      reads this
    {
      (cache.Some? ==> WellFormed(cache.value)) && (disk.Some? ==> WellFormed(disk.value))
    }

    /** The graph the process sees: the cached one, or else what a load would give. */
    function Current(): Graph
      reads this
    {
      if cache.Some? then cache.value else if disk.Some? then disk.value else EmptyGraph()
    }

    /** The disk after a first load: an empty graph is saved when nothing was stored. */
    function DiskAfterLoad(): Option<Graph>
      reads this
    {
      if cache.None? && disk.None? then Some(EmptyGraph()) else disk
    }

    /** `save_graph(graph)`. */
    method Save(g: Graph)
      modifies this
      ensures disk == Some(g) && cache == old(cache)
    {
      disk := Some(g);
    }

    /** `load_graph()`: the stored graph, or a new empty graph that is saved first. */
    method LoadGraph() returns (g: Graph)
      modifies this
      ensures cache == old(cache)
      ensures old(disk).Some? ==> g == old(disk).value && disk == old(disk)
      ensures old(disk).None? ==> g == EmptyGraph() && disk == Some(g)
    {
      if disk.Some? {
        g := disk.value;
      } else {
        g := EmptyGraph();
        Save(g);
      }
    }

    /** `_get_graph()`: load once, then always the cached graph. */
    method GetGraph() returns (g: Graph)
      requires Valid()
      modifies this
      ensures Valid() && cache == Some(g) && WellFormed(g)
      ensures g == old(Current()) && disk == old(DiskAfterLoad())
    {
      if cache.None? {
        var loaded := LoadGraph();
        cache := Some(loaded);
      }
      g := cache.value;
    }

    /** `add_dependency(source, target)`: add the edge (and missing endpoints), then save. */
    method AddDependency(source: string, target: string)
      requires Valid()
      modifies this
      ensures Valid() && cache == Some(AddEdge(old(Current()), source, target, map[])) && disk == cache
    {
      var g := GetGraph();
      AddEdgeWellFormed(g, source, target, map[]);
      g := AddEdge(g, source, target, map[]);
      cache := Some(g);
      Save(g);
    }

    /** `get_dependencies(name)`: the successors. */
    method GetDependencies(name: string) returns (r: Result<seq<string>>)
      requires Valid()
      modifies this
      ensures Valid() && r == Successors(old(Current()), name)
      ensures cache == Some(old(Current())) && disk == old(DiskAfterLoad())
    {
      var g := GetGraph();
      r := Successors(g, name);
    }

    /** `get_dependents(name)`: the predecessors. */
    method GetDependents(name: string) returns (r: Result<seq<string>>)
      requires Valid()
      modifies this
      ensures Valid() && r == Predecessors(old(Current()), name)
      ensures cache == Some(old(Current())) && disk == old(DiskAfterLoad())
    {
      var g := GetGraph();
      r := Predecessors(g, name);
    }

    /** `entity_exists(name)`. */
    method EntityExists(name: string) returns (b: bool)
      requires Valid()
      modifies this
      ensures Valid() && (b <==> name in old(Current()).nodeAttrs)
      ensures cache == Some(old(Current())) && disk == old(DiskAfterLoad())
    {
      var g := GetGraph();
      b := name in g.nodeAttrs;
    }

    /** `clear_graph()`: a new empty graph replaces the cache and is saved. */
    method ClearGraph()
      modifies this
      ensures cache == Some(EmptyGraph()) && disk == Some(EmptyGraph()) && Valid()
    {
      cache := Some(EmptyGraph());
      Save(cache.value);
    }

    /** `get_all_entities()`. */
    method GetAllEntities() returns (r: seq<string>)
      requires Valid()
      modifies this
      ensures Valid() && r == AllNodes(old(Current()))
      ensures cache == Some(old(Current())) && disk == old(DiskAfterLoad())
    {
      var g := GetGraph();
      r := AllNodes(g);
    }

    /** `get_all_dependencies()`. */
    method GetAllDependencies() returns (r: seq<Edge>)
      requires Valid()
      modifies this
      ensures Valid() && r == AllEdges(old(Current()))
      ensures cache == Some(old(Current())) && disk == old(DiskAfterLoad())
    {
      var g := GetGraph();
      r := AllEdges(g);
    }
  }
}

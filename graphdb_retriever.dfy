/**
 * The read-only queries of `src/retrievers/graphdb_retriever.py` over the
 * cached call graph. Five of them are the `graphdb_utils` queries under
 * another name; `get_function_file` and `get_call_line_number` read one
 * attribute of a node or an edge.
 *
 * `get_call_line_number` reads the edge attribute "line_number", while the
 * indexer only ever writes "line_numbers": on every graph the indexer builds
 * it answers None. `CallLineNumbers` is the lookup of the key the indexer writes.
 */
module GraphdbRetriever {
  import opened Common
  import opened DataModels
  import opened GraphdbUtils
  import opened GraphdbIndexer

  /** `graph.nodes[name].get("file_path", None)` for a node, None for a name that is not one. */
  function FunctionFile(g: Graph, name: string): Value
  {
    if name in g.nodeAttrs && "file_path" in g.nodeAttrs[name] then g.nodeAttrs[name]["file_path"] else VNone
  }

  /** `graph[caller][callee].get("line_number", None)` for an edge, None otherwise (as written). */
  function CallLineNumber(g: Graph, caller: string, callee: string): Value
  {
    var attrs := EdgeAttrsOf(g, (caller, callee));
    if "line_number" in attrs then attrs["line_number"] else VNone
  }

  /** The lookup of the key the indexer writes: the edge's `line_numbers` list, None otherwise. */
  function CallLineNumbers(g: Graph, caller: string, callee: string): Value
  {
    var attrs := EdgeAttrsOf(g, (caller, callee));
    if "line_numbers" in attrs then attrs["line_numbers"] else VNone
  }

  /** No edge of `g` carries a "line_number" attribute. */
  ghost predicate NoLineNumberKey(g: Graph)
  {
    forall e :: e in g.edgeAttrs ==> "line_number" !in g.edgeAttrs[e]
  }

  /**
   * After one call is indexed, both its caller and its callee report the
   * call's file, whatever file they were recorded under before, and whether
   * or not the line append raised.
   */
  lemma CallRecordsFile(g: Graph, c: FunctionCall)
    ensures FunctionFile(CallStep(g, VCall(c)).graph, c.caller) == VStr(c.file_path)
    ensures FunctionFile(CallStep(g, VCall(c)).graph, c.callee) == VStr(c.file_path)
  {
    CallStepEffect(g, c);
  }

  /**
   * After one entity is indexed, a new node reports the entity's file; a
   * node that already existed keeps the file it had.
   */
  lemma EntityRecordsFile(g: Graph, e: CodeEntity)
    ensures e.name !in g.nodeAttrs ==> FunctionFile(EntityStep(g, VEntity(e)).graph, e.name) == VStr(e.file_path)
    ensures e.name in g.nodeAttrs ==> FunctionFile(EntityStep(g, VEntity(e)).graph, e.name) == FunctionFile(g, e.name)
  {
    if e.name !in g.nodeAttrs {
      assert EntityStep(g, VEntity(e)).graph.nodeAttrs[e.name] == EntityAttrs(e);
    }
  }

  /** One call step only ever adds the key "line_numbers" to the edge it touches. */
  lemma CallStepKeys(g: Graph, c: FunctionCall)
    ensures forall k :: k in EdgeAttrsOf(CallStep(g, VCall(c)).graph, (c.caller, c.callee)) ==>
              k in EdgeAttrsOf(g, (c.caller, c.callee)) || k == "line_numbers"
  {
    var e := (c.caller, c.callee);
    var h := CallEndpoints(g, c);
    CallStepUnfold(g, c);
    if e in g.edgeAttrs {
      var p := AppendLine(h, e, c.line_number);
      if p.error.None? {
        assert p.graph.edgeAttrs[e] == g.edgeAttrs[e]["line_numbers" := VList(LinesOf(g.edgeAttrs[e]) + [VInt(c.line_number)])];
      }
    } else {
      assert CallStep(g, VCall(c)).graph.edgeAttrs[e] == NewEdgeAttrs(c.line_number);
    }
  }

  lemma CallStepNoLineNumberKey(g: Graph, v: Value)
    requires NoLineNumberKey(g)
    ensures NoLineNumberKey(CallStep(g, v).graph)
  {
    if v.VCall? {
      CallNoLineNumberKey(g, v.call);
    }
  }

  lemma CallNoLineNumberKey(g: Graph, c: FunctionCall)
    requires NoLineNumberKey(g)
    ensures NoLineNumberKey(CallStep(g, VCall(c)).graph)
  {
    var h := CallStep(g, VCall(c)).graph;
    var e := (c.caller, c.callee);
    assert "line_number" !in EdgeAttrsOf(h, e) by {
      assert "line_number" !in EdgeAttrsOf(g, e);
      CallStepKeys(g, c);
    }
    CallStepEffect(g, c);
    forall x | x in h.edgeAttrs
      ensures "line_number" !in h.edgeAttrs[x]
    {
      if x == e {
        assert h.edgeAttrs[x] == EdgeAttrsOf(h, x);
      }
    }
  }

  lemma {:induction false} AddCallsNoLineNumberKey(g: Graph, vs: seq<Value>)
    requires NoLineNumberKey(g)
    ensures NoLineNumberKey(AddCalls(g, vs).graph)
    decreases |vs|
  {
    if vs != [] {
      var p := AddCalls(g, vs[..|vs| - 1]);
      AddCallsNoLineNumberKey(g, vs[..|vs| - 1]);
      if p.error.None? {
        CallStepNoLineNumberKey(p.graph, vs[|vs| - 1]);
      }
    }
  }

  /** Indexing a file, raising or not, never writes the key "line_number". */
  lemma RelateNoLineNumberKey(g: Graph, cf: CodeFile)
    requires NoLineNumberKey(g)
    ensures NoLineNumberKey(Relate(g, cf).graph)
  {
    var p := AddEntities(g, cf.entities);
    AddEntitiesEffect(g, cf.entities);
    if p.error.None? {
      AddCallsNoLineNumberKey(p.graph, cf.function_calls);
    }
  }

  /** Neither does `add_dependency`, which adds its edge without attributes. */
  lemma AddDependencyNoLineNumberKey(g: Graph, u: string, v: string)
    requires NoLineNumberKey(g)
    ensures NoLineNumberKey(AddEdge(g, u, v, map[]))
  {
    var h := AddEdge(g, u, v, map[]);
    if (u, v) in g.edgeAttrs {
      assert h.edgeAttrs[(u, v)] == g.edgeAttrs[(u, v)] + map[];
      assert h.edgeAttrs[(u, v)] == g.edgeAttrs[(u, v)];
    }
  }

  /**
   * As written, `get_call_line_number` answers None for every pair on any
   * graph built by indexing files into an empty graph.
   */
  lemma IndexedCallLineNumberIsNone(cf: CodeFile, caller: string, callee: string)
    ensures CallLineNumber(Relate(EmptyGraph(), cf).graph, caller, callee) == VNone
  {
    RelateNoLineNumberKey(EmptyGraph(), cf);
  }

  /**
   * The smallest witness: index one call into an empty graph. The edge
   * exists and holds the call's line under "line_numbers", yet the lookup
   * answers None.
   */
  lemma OneCallLineNumberIsNone(c: FunctionCall)
    ensures (c.caller, c.callee) in CallStep(EmptyGraph(), VCall(c)).graph.edgeAttrs
    ensures CallLineNumbers(CallStep(EmptyGraph(), VCall(c)).graph, c.caller, c.callee) == VList([VInt(c.line_number)])
    ensures CallLineNumber(CallStep(EmptyGraph(), VCall(c)).graph, c.caller, c.callee) == VNone
  {
    CallStepEffect(EmptyGraph(), c);
    CallStepLines(EmptyGraph(), c);
    CallStepNoLineNumberKey(EmptyGraph(), VCall(c));
  }

  /**
   * The corrected lookup after indexing a file that raised nothing: every
   * edge its calls mention lists the lines it held before, then the lines
   * of those calls, in call order.
   */
  lemma RelateCallLineNumbers(g: Graph, cf: CodeFile, caller: string, callee: string)
    requires Relate(g, cf).error.None?
    requires PairLines(cf.function_calls, (caller, callee)) != []
    ensures CallLineNumbers(Relate(g, cf).graph, caller, callee)
            == VList(LinesOf(EdgeAttrsOf(g, (caller, callee))) + PairLines(cf.function_calls, (caller, callee)))
  {
    var p := AddEntities(g, cf.entities);
    AddEntitiesEffect(g, cf.entities);
    assert EdgeAttrsOf(p.graph, (caller, callee)) == EdgeAttrsOf(g, (caller, callee));
    AddCallsLines(p.graph, cf.function_calls, (caller, callee));
  }

  /** `get_callees(name)`: `get_dependencies`, the successors. */
  method GetCallees(gm: GraphModule, name: string) returns (r: Result<seq<string>>)
    requires gm.Valid()
    modifies gm
    ensures gm.Valid() && r == Successors(old(gm.Current()), name)
    ensures gm.cache == Some(old(gm.Current())) && gm.disk == old(gm.DiskAfterLoad())
  {
    r := gm.GetDependencies(name);
  }

  /** `get_callers(name)`: `get_dependents`, the predecessors. */
  method GetCallers(gm: GraphModule, name: string) returns (r: Result<seq<string>>)
    requires gm.Valid()
    modifies gm
    ensures gm.Valid() && r == Predecessors(old(gm.Current()), name)
    ensures gm.cache == Some(old(gm.Current())) && gm.disk == old(gm.DiskAfterLoad())
  {
    r := gm.GetDependents(name);
  }

  /** `function_exists(name)`: `entity_exists`. */
  method FunctionExists(gm: GraphModule, name: string) returns (b: bool)
    requires gm.Valid()
    modifies gm
    ensures gm.Valid() && (b <==> name in old(gm.Current()).nodeAttrs)
    ensures gm.cache == Some(old(gm.Current())) && gm.disk == old(gm.DiskAfterLoad())
  {
    b := gm.EntityExists(name);
  }

  /** `get_function_file(name)`: the node's `file_path`, None when the node or the attribute is missing. */
  method GetFunctionFile(gm: GraphModule, name: string) returns (r: Value)
    requires gm.Valid()
    modifies gm
    ensures gm.Valid() && r == FunctionFile(old(gm.Current()), name)
    ensures name !in old(gm.Current()).nodeAttrs ==> r == VNone
    ensures gm.cache == Some(old(gm.Current())) && gm.disk == old(gm.DiskAfterLoad())
  {
    var g := gm.GetGraph();
    if name in g.nodeAttrs {
      var attrs := g.nodeAttrs[name];
      r := if "file_path" in attrs then attrs["file_path"] else VNone;
    } else {
      r := VNone;
    }
  }

  /** `get_call_line_number(caller, callee)`, reading "line_number" as written; None when there is no edge. */
  method GetCallLineNumber(gm: GraphModule, caller: string, callee: string) returns (r: Value)
    requires gm.Valid()
    modifies gm
    ensures gm.Valid() && r == CallLineNumber(old(gm.Current()), caller, callee)
    ensures (caller, callee) !in old(gm.Current()).edgeAttrs ==> r == VNone
    ensures gm.cache == Some(old(gm.Current())) && gm.disk == old(gm.DiskAfterLoad())
  {
    var g := gm.GetGraph();
    if (caller, callee) in g.edgeAttrs {
      var attrs := g.edgeAttrs[(caller, callee)];
      r := if "line_number" in attrs then attrs["line_number"] else VNone;
    } else {
      r := VNone;
    }
  }

  /** `get_all_functions()`: `get_all_entities`. */
  method GetAllFunctions(gm: GraphModule) returns (r: seq<string>)
    requires gm.Valid()
    modifies gm
    ensures gm.Valid() && r == AllNodes(old(gm.Current()))
    ensures gm.cache == Some(old(gm.Current())) && gm.disk == old(gm.DiskAfterLoad())
  {
    r := gm.GetAllEntities();
  }

  /** `get_all_call_relationships()`: `get_all_dependencies`. */
  method GetAllCallRelationships(gm: GraphModule) returns (r: seq<Edge>)
    requires gm.Valid()
    modifies gm
    ensures gm.Valid() && r == AllEdges(old(gm.Current()))
    ensures gm.cache == Some(old(gm.Current())) && gm.disk == old(gm.DiskAfterLoad())
  {
    r := gm.GetAllDependencies();
  }
}

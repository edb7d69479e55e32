/**
 * `add_caller_callee_relations(code_file)` of `src/indexers/graphdb_indexer.py`:
 * folds one CodeFile's entities and calls into the cached call graph, in
 * place, and saves the graph once at the end.
 *
 * The graph is changed in place, so an exception part-way leaves the cached
 * graph with every change made before it, and nothing is saved. Elements of
 * `entities` / `function_calls` that are not dataclass instances (the dicts
 * `parse_code_file` actually produces for calls) raise AttributeError on the
 * first attribute access.
 */
module GraphdbIndexer {
  import opened Common
  import opened DataModels
  import opened GraphdbUtils

  /** The graph reached so far, and the exception that stopped the loop, if any. */
  datatype Progress = Progress(graph: Graph, error: Option<Error>)

  /** The attributes a new entity node gets. */
  function EntityAttrs(e: CodeEntity): Dict
  {
    map["type" := VStr(e.kind), "file_path" := VStr(e.file_path), "line_number" := VInt(e.line_number),
        "docstring" := OptStrValue(e.docstring), "decorators" := StrListValue(e.decorators),
        "parents" := StrListValue(e.parents)]
  }

  /** One turn of the entity loop: add the node unless it already exists. */
  function EntityStep(g: Graph, v: Value): (p: Progress)
    ensures p.error.None? <==> v.VEntity?
    ensures p.error.Some? ==> p.graph == g
    ensures v.VEntity? ==> v.entity.name in p.graph.nodeAttrs
    ensures forall n :: n in p.graph.nodeAttrs <==> n in g.nodeAttrs || (v.VEntity? && n == v.entity.name)
    ensures forall n :: n in g.nodeAttrs ==> p.graph.nodeAttrs[n] == g.nodeAttrs[n]
    ensures v.VEntity? && v.entity.name !in g.nodeAttrs ==> p.graph.nodeAttrs[v.entity.name] == EntityAttrs(v.entity)
    ensures p.graph.edges == g.edges && p.graph.edgeAttrs == g.edgeAttrs
  {
    match v
    case VEntity(e) =>
      if e.name in g.nodeAttrs then Progress(g, None)
      else Progress(AddNode(g, e.name, EntityAttrs(e)), None)
    case _ => Progress(g, Some(AttributeError("object has no attribute 'name'")))
  }

  /** The attributes an edge has in `g`, or none when it is not an edge. */
  function EdgeAttrsOf(g: Graph, e: Edge): Dict
  {
    if e in g.edgeAttrs then g.edgeAttrs[e] else map[]
  }

  /** The line numbers an edge holds: its `line_numbers` list, or none when the key is missing. */
  function LinesOf(attrs: Dict): seq<Value>
  {
    if "line_numbers" in attrs && attrs["line_numbers"].VList? then attrs["line_numbers"].items else []
  }

  /** An edge's attributes hold exactly the line list `ls`. */
  predicate HoldsLines(attrs: Dict, ls: seq<Value>)
  {
    "line_numbers" in attrs && attrs["line_numbers"] == VList(ls)
  }

  /**
   * `graph[u][v].setdefault("line_numbers", []).append(line)` on an existing
   * edge: appended to the list, or a fresh list when the key is missing;
   * a value without `append` raises.
   */
  function AppendLine(g: Graph, e: Edge, line: int): (p: Progress)
    requires e in g.edgeAttrs
    ensures p.error.Some? <==> "line_numbers" in g.edgeAttrs[e] && !g.edgeAttrs[e]["line_numbers"].VList?
    ensures p.error.Some? ==> p.graph == g
    ensures p.error.None? ==> p.graph == SetEdgeAttr(g, e, "line_numbers", VList(LinesOf(g.edgeAttrs[e]) + [VInt(line)]))
  {
    var attrs := g.edgeAttrs[e];
    if "line_numbers" in attrs && !attrs["line_numbers"].VList? then
      Progress(g, Some(AttributeError("object has no attribute 'append'")))
    else Progress(SetEdgeAttr(g, e, "line_numbers", VList(LinesOf(attrs) + [VInt(line)])), None)
  }

  /** Caller and callee as nodes, both with the call's `file_path` written over any earlier value. */
  function CallEndpoints(g: Graph, c: FunctionCall): (h: Graph)
    ensures h.edges == g.edges && h.edgeAttrs == g.edgeAttrs
    ensures forall x :: x in h.nodeAttrs <==> x in g.nodeAttrs || x == c.caller || x == c.callee
    ensures "file_path" in h.nodeAttrs[c.caller] && h.nodeAttrs[c.caller]["file_path"] == VStr(c.file_path)
    ensures "file_path" in h.nodeAttrs[c.callee] && h.nodeAttrs[c.callee]["file_path"] == VStr(c.file_path)
    ensures forall x :: x in g.nodeAttrs && x != c.caller && x != c.callee ==> h.nodeAttrs[x] == g.nodeAttrs[x]
  {
    var fp := map["file_path" := VStr(c.file_path)];
    var g1 := if c.caller in g.nodeAttrs then g else AddNode(g, c.caller, fp);
    var g2 := SetNodeAttr(g1, c.caller, "file_path", VStr(c.file_path));
    var g3 := if c.callee in g2.nodeAttrs then g2 else AddNode(g2, c.callee, fp);
    SetNodeAttr(g3, c.callee, "file_path", VStr(c.file_path))
  }

  /** One turn of the call loop. */
  function CallStep(g: Graph, v: Value): (p: Progress)
    ensures !v.VCall? ==> p == Progress(g, Some(AttributeError("object has no attribute 'caller'")))
  {
    match v
    case VCall(c) =>
      var h := CallEndpoints(g, c);
      var e := (c.caller, c.callee);
      if e in h.edgeAttrs then AppendLine(h, e, c.line_number)
      else Progress(AddEdge(h, c.caller, c.callee, NewEdgeAttrs(c.line_number)), None)
    case _ => Progress(g, Some(AttributeError("object has no attribute 'caller'")))
  }

  /** The attributes of an edge made by the call loop. */
  function NewEdgeAttrs(line: int): Dict
  {
    map["line_numbers" := VList([VInt(line)])]
  }

  lemma CallStepUnfold(g: Graph, c: FunctionCall)
    ensures (c.caller, c.callee) in g.edgeAttrs ==>
              CallStep(g, VCall(c)) == AppendLine(CallEndpoints(g, c), (c.caller, c.callee), c.line_number)
    ensures (c.caller, c.callee) !in g.edgeAttrs ==>
              CallStep(g, VCall(c))
              == Progress(AddEdge(CallEndpoints(g, c), c.caller, c.callee, NewEdgeAttrs(c.line_number)), None)
  {
  }

  /**
   * One call: both endpoints are nodes carrying the call's file path, the
   * edge exists, and its line is appended to the edge's `line_numbers`
   * (a new edge starts with just this line). Only a `line_numbers` value
   * that is not a list raises. No other edge changes.
   */
  lemma CallStepEffect(g: Graph, c: FunctionCall)
    ensures CallStep(g, VCall(c)).graph.nodeAttrs == CallEndpoints(g, c).nodeAttrs
    ensures (c.caller, c.callee) in CallStep(g, VCall(c)).graph.edgeAttrs
    ensures forall x :: x in g.edgeAttrs && x != (c.caller, c.callee) ==>
              CallStep(g, VCall(c)).graph.edgeAttrs[x] == g.edgeAttrs[x]
    ensures forall x :: x in CallStep(g, VCall(c)).graph.edgeAttrs <==> x in g.edgeAttrs || x == (c.caller, c.callee)
  {
    var h := CallEndpoints(g, c);
    var e := (c.caller, c.callee);
    CallStepUnfold(g, c);
    if e in g.edgeAttrs {
      EdgeKeptFrame(h, e, c.line_number);
    } else {
      EdgeAddedFrame(h, e, c.line_number);
    }
  }

  lemma EdgeKeptFrame(h: Graph, e: Edge, line: int)
    requires e in h.edgeAttrs
    ensures AppendLine(h, e, line).graph.nodeAttrs == h.nodeAttrs
    ensures AppendLine(h, e, line).graph.edgeAttrs.Keys == h.edgeAttrs.Keys
    ensures forall x :: x in h.edgeAttrs && x != e ==> AppendLine(h, e, line).graph.edgeAttrs[x] == h.edgeAttrs[x]
  {
  }

  lemma EdgeAddedFrame(h: Graph, e: Edge, line: int)
    requires e !in h.edgeAttrs && e.0 in h.nodeAttrs && e.1 in h.nodeAttrs
    ensures AddEdge(h, e.0, e.1, NewEdgeAttrs(line)).nodeAttrs == h.nodeAttrs
    ensures forall x :: x in AddEdge(h, e.0, e.1, NewEdgeAttrs(line)).edgeAttrs <==> x in h.edgeAttrs || x == e
    ensures forall x :: x in h.edgeAttrs ==> AddEdge(h, e.0, e.1, NewEdgeAttrs(line)).edgeAttrs[x] == h.edgeAttrs[x]
  {
  }

  /**
   * The call's line is appended to the edge's `line_numbers` (a new edge, or
   * one without the key, starts with just this line); only a `line_numbers`
   * value that is not a list raises.
   */
  lemma CallStepLines(g: Graph, c: FunctionCall)
    ensures CallStep(g, VCall(c)).error.Some? <==>
              "line_numbers" in EdgeAttrsOf(g, (c.caller, c.callee))
              && !EdgeAttrsOf(g, (c.caller, c.callee))["line_numbers"].VList?
    ensures CallStep(g, VCall(c)).error.None? ==>
              HoldsLines(EdgeAttrsOf(CallStep(g, VCall(c)).graph, (c.caller, c.callee)),
                         LinesOf(EdgeAttrsOf(g, (c.caller, c.callee))) + [VInt(c.line_number)])
  {
    var h := CallEndpoints(g, c);
    var e := (c.caller, c.callee);
    CallStepUnfold(g, c);
    assert EdgeAttrsOf(h, e) == EdgeAttrsOf(g, e);
    if e in g.edgeAttrs {
      AppendLineLines(h, e, c.line_number);
    } else {
      NewEdgeLines(h, e, c.line_number);
    }
  }

  lemma AppendLineLines(h: Graph, e: Edge, line: int)
    requires e in h.edgeAttrs
    ensures AppendLine(h, e, line).error.None? ==>
              HoldsLines(EdgeAttrsOf(AppendLine(h, e, line).graph, e), LinesOf(EdgeAttrsOf(h, e)) + [VInt(line)])
  {
  }

  lemma NewEdgeLines(h: Graph, e: Edge, line: int)
    requires e !in h.edgeAttrs
    ensures LinesOf(EdgeAttrsOf(h, e)) == []
    ensures HoldsLines(EdgeAttrsOf(AddEdge(h, e.0, e.1, NewEdgeAttrs(line)), e), [VInt(line)])
  {
    assert NewEdgeAttrs(line)["line_numbers"] == VList([VInt(line)]);
  }

  /** The entity loop over `vs`, stopping at the first exception. */
  function AddEntities(g: Graph, vs: seq<Value>): (p: Progress)
    decreases |vs|
  {
    if vs == [] then Progress(g, None)
    else
      var p := AddEntities(g, vs[..|vs| - 1]);
      if p.error.Some? then p else EntityStep(p.graph, vs[|vs| - 1])
  }

  /** The call loop over `vs`, stopping at the first exception. */
  function AddCalls(g: Graph, vs: seq<Value>): (p: Progress)
    decreases |vs|
  {
    if vs == [] then Progress(g, None)
    else
      var p := AddCalls(g, vs[..|vs| - 1]);
      if p.error.Some? then p else CallStep(p.graph, vs[|vs| - 1])
  }

  /** Both loops: the graph left in the cache and the exception raised, if any. */
  function Relate(g: Graph, cf: CodeFile): Progress
  {
    var p := AddEntities(g, cf.entities);
    if p.error.Some? then p else AddCalls(p.graph, cf.function_calls)
  }

  lemma AddEntitiesNext(g: Graph, vs: seq<Value>, i: nat)
    requires i < |vs|
    ensures AddEntities(g, vs[..i + 1]) ==
      (var p := AddEntities(g, vs[..i]); if p.error.Some? then p else EntityStep(p.graph, vs[i]))
  {
    assert vs[..i + 1][..i] == vs[..i];
  }

  lemma AddCallsNext(g: Graph, vs: seq<Value>, i: nat)
    requires i < |vs|
    ensures AddCalls(g, vs[..i + 1]) ==
      (var p := AddCalls(g, vs[..i]); if p.error.Some? then p else CallStep(p.graph, vs[i]))
  {
    assert vs[..i + 1][..i] == vs[..i];
  }

  /** The `for entity in code_file.entities` loop. */
  method EntityLoop(g0: Graph, vs: seq<Value>) returns (p: Progress)
    ensures p == AddEntities(g0, vs)
  {
    var g := g0;
    var i := 0;
    while i < |vs|
      invariant i <= |vs|
      invariant AddEntities(g0, vs[..i]) == Progress(g, None)
    {
      AddEntitiesNext(g0, vs, i);
      var q := EntityStep(g, vs[i]);
      if q.error.Some? {
        AddEntitiesSticky(g0, vs, i + 1);
        return q;
      }
      g := q.graph;
      i := i + 1;
    }
    assert vs[..i] == vs;
    p := Progress(g, None);
  }

  /** The `for function_call in code_file.function_calls` loop. */
  method CallLoop(g0: Graph, vs: seq<Value>) returns (p: Progress)
    ensures p == AddCalls(g0, vs)
  {
    var g := g0;
    var i := 0;
    while i < |vs|
      invariant i <= |vs|
      invariant AddCalls(g0, vs[..i]) == Progress(g, None)
    {
      AddCallsNext(g0, vs, i);
      var q := CallStep(g, vs[i]);
      if q.error.Some? {
        AddCallsSticky(g0, vs, i + 1);
        return q;
      }
      g := q.graph;
      i := i + 1;
    }
    assert vs[..i] == vs;
    p := Progress(g, None);
  }

  /**
   * `add_caller_callee_relations(code_file)`: the cached graph becomes the
   * result of both loops; it is saved only when neither raised.
   */
  method AddCallerCalleeRelations(gm: GraphModule, cf: CodeFile) returns (err: Option<Error>)
    requires gm.Valid()
    modifies gm
    ensures gm.Valid()
    ensures gm.cache == Some(Relate(old(gm.Current()), cf).graph) && err == Relate(old(gm.Current()), cf).error
    ensures err.None? ==> gm.disk == gm.cache
    ensures err.Some? ==> gm.disk == old(gm.DiskAfterLoad())
  {
    var g := gm.GetGraph();
    RelateWellFormed(g, cf);
    var p := EntityLoop(g, cf.entities);
    if p.error.None? {
      p := CallLoop(p.graph, cf.function_calls);
    }
    gm.cache := Some(p.graph);
    if p.error.None? {
      gm.Save(p.graph);
    }
    err := p.error;
  }

  /** Once the entity loop has raised, later elements change nothing. */
  lemma {:induction false} AddEntitiesSticky(g: Graph, vs: seq<Value>, i: nat)
    requires i <= |vs| && AddEntities(g, vs[..i]).error.Some?
    ensures AddEntities(g, vs) == AddEntities(g, vs[..i])
    decreases |vs| - i
  {
    if i < |vs| {
      AddEntitiesNext(g, vs, i);
      AddEntitiesSticky(g, vs, i + 1);
    } else {
      assert vs[..i] == vs;
    }
  }

  /** Once the call loop has raised, later elements change nothing. */
  lemma {:induction false} AddCallsSticky(g: Graph, vs: seq<Value>, i: nat)
    requires i <= |vs| && AddCalls(g, vs[..i]).error.Some?
    ensures AddCalls(g, vs) == AddCalls(g, vs[..i])
    decreases |vs| - i
  {
    if i < |vs| {
      AddCallsNext(g, vs, i);
      AddCallsSticky(g, vs, i + 1);
    } else {
      assert vs[..i] == vs;
    }
  }

  lemma EntityStepWellFormed(g: Graph, v: Value)
    requires WellFormed(g)
    ensures WellFormed(EntityStep(g, v).graph) && Grows(g, EntityStep(g, v).graph)
  {
    if v.VEntity? && v.entity.name !in g.nodeAttrs {
      AddNodeWellFormed(g, v.entity.name, EntityAttrs(v.entity));
    }
  }

  lemma CallEndpointsWellFormed(g: Graph, c: FunctionCall)
    requires WellFormed(g)
    ensures WellFormed(CallEndpoints(g, c)) && Grows(g, CallEndpoints(g, c))
  {
    var fp := map["file_path" := VStr(c.file_path)];
    var g1 := if c.caller in g.nodeAttrs then g else AddNode(g, c.caller, fp);
    if c.caller !in g.nodeAttrs {
      AddNodeWellFormed(g, c.caller, fp);
    }
    var g2 := SetNodeAttr(g1, c.caller, "file_path", VStr(c.file_path));
    SetNodeAttrWellFormed(g1, c.caller, "file_path", VStr(c.file_path));
    var g3 := if c.callee in g2.nodeAttrs then g2 else AddNode(g2, c.callee, fp);
    if c.callee !in g2.nodeAttrs {
      AddNodeWellFormed(g2, c.callee, fp);
    }
    SetNodeAttrWellFormed(g3, c.callee, "file_path", VStr(c.file_path));
    GrowsTransitive(g, g1, g2);
    GrowsTransitive(g, g2, g3);
  }

  lemma AppendLineWellFormed(g: Graph, e: Edge, line: int)
    requires WellFormed(g) && e in g.edgeAttrs
    ensures WellFormed(AppendLine(g, e, line).graph) && Grows(g, AppendLine(g, e, line).graph)
  {
    if AppendLine(g, e, line).error.None? {
      SetEdgeAttrWellFormed(g, e, "line_numbers", VList(LinesOf(g.edgeAttrs[e]) + [VInt(line)]));
    }
  }

  lemma CallStepWellFormed(g: Graph, v: Value)
    requires WellFormed(g)
    ensures WellFormed(CallStep(g, v).graph) && Grows(g, CallStep(g, v).graph)
  {
    if v.VCall? {
      var c := v.call;
      var h := CallEndpoints(g, c);
      var e := (c.caller, c.callee);
      CallStepUnfold(g, c);
      CallEndpointsWellFormed(g, c);
      if e in g.edgeAttrs {
        AppendLineWellFormed(h, e, c.line_number);
      } else {
        AddEdgeWellFormed(h, c.caller, c.callee, NewEdgeAttrs(c.line_number));
      }
      GrowsTransitive(g, h, CallStep(g, v).graph);
    }
  }

  lemma {:induction false} AddEntitiesWellFormed(g: Graph, vs: seq<Value>)
    requires WellFormed(g)
    ensures WellFormed(AddEntities(g, vs).graph) && Grows(g, AddEntities(g, vs).graph)
    decreases |vs|
  {
    if vs != [] {
      var p := AddEntities(g, vs[..|vs| - 1]);
      AddEntitiesWellFormed(g, vs[..|vs| - 1]);
      if p.error.None? {
        EntityStepWellFormed(p.graph, vs[|vs| - 1]);
        GrowsTransitive(g, p.graph, EntityStep(p.graph, vs[|vs| - 1]).graph);
      }
    }
  }

  lemma {:induction false} AddCallsWellFormed(g: Graph, vs: seq<Value>)
    requires WellFormed(g)
    ensures WellFormed(AddCalls(g, vs).graph) && Grows(g, AddCalls(g, vs).graph)
    decreases |vs|
  {
    if vs != [] {
      var p := AddCalls(g, vs[..|vs| - 1]);
      AddCallsWellFormed(g, vs[..|vs| - 1]);
      if p.error.None? {
        CallStepWellFormed(p.graph, vs[|vs| - 1]);
        GrowsTransitive(g, p.graph, CallStep(p.graph, vs[|vs| - 1]).graph);
      }
    }
  }

  /** The update keeps the DiGraph consistent and only grows it: no node or edge is removed. */
  lemma RelateWellFormed(g: Graph, cf: CodeFile)
    requires WellFormed(g)
    ensures WellFormed(Relate(g, cf).graph) && Grows(g, Relate(g, cf).graph)
  {
    var p := AddEntities(g, cf.entities);
    AddEntitiesWellFormed(g, cf.entities);
    if p.error.None? {
      AddCallsWellFormed(p.graph, cf.function_calls);
      GrowsTransitive(g, p.graph, Relate(g, cf).graph);
    }
  }

  /** The entity loop touches no edge, keeps every existing node's attributes, and makes each entity a node. */
  lemma {:induction false} AddEntitiesEffect(g: Graph, vs: seq<Value>)
    ensures AddEntities(g, vs).graph.edges == g.edges && AddEntities(g, vs).graph.edgeAttrs == g.edgeAttrs
    ensures forall n :: n in g.nodeAttrs ==>
              n in AddEntities(g, vs).graph.nodeAttrs && AddEntities(g, vs).graph.nodeAttrs[n] == g.nodeAttrs[n]
    ensures AddEntities(g, vs).error.None? ==>
              forall i :: 0 <= i < |vs| ==> vs[i].VEntity? && vs[i].entity.name in AddEntities(g, vs).graph.nodeAttrs
    decreases |vs|
  {
    if vs != [] {
      var front := vs[..|vs| - 1];
      var p := AddEntities(g, front);
      AddEntitiesEffect(g, front);
      if p.error.None? {
        var q := EntityStep(p.graph, vs[|vs| - 1]);
        assert AddEntities(g, vs) == q;
        if q.error.None? {
          forall i | 0 <= i < |vs|
            ensures vs[i].VEntity? && vs[i].entity.name in q.graph.nodeAttrs
          {
            if i < |vs| - 1 {
              assert vs[i] == front[i];
            }
          }
        }
      }
    }
  }

  /** The line number call `v` contributes to edge `e`, if it is a call on that edge. */
  function StepLines(v: Value, e: Edge): seq<Value>
  {
    if v.VCall? && (v.call.caller, v.call.callee) == e then [VInt(v.call.line_number)] else []
  }

  /** The line numbers the calls in `vs` contribute to edge `e`, in call order. */
  function PairLines(vs: seq<Value>, e: Edge): seq<Value>
    decreases |vs|
  {
    if vs == [] then [] else PairLines(vs[..|vs| - 1], e) + StepLines(vs[|vs| - 1], e)
  }

  /**
   * An edge's attributes went from `before` to `after` by appending `ls` to
   * its line list: unchanged when `ls` is empty, else holding the old lines then `ls`.
   */
  predicate Appended(before: Dict, after: Dict, ls: seq<Value>)
  {
    if ls == [] then after == before else HoldsLines(after, LinesOf(before) + ls)
  }

  lemma AppendedTransitive(a: Dict, b: Dict, c: Dict, ls: seq<Value>, ms: seq<Value>)
    requires Appended(a, b, ls) && Appended(b, c, ms)
    ensures Appended(a, c, ls + ms)
  {
    if ls != [] && ms != [] {
      assert LinesOf(b) == LinesOf(a) + ls;
      assert LinesOf(a) + (ls + ms) == LinesOf(a) + ls + ms;
    } else if ls == [] {
      assert ls + ms == ms;
    } else {
      assert ls + ms == ls;
    }
  }

  /** One call step that raised nothing, seen from edge `e`. */
  lemma CallStepOnEdge(g: Graph, v: Value, e: Edge)
    requires CallStep(g, v).error.None?
    ensures Appended(EdgeAttrsOf(g, e), EdgeAttrsOf(CallStep(g, v).graph, e), StepLines(v, e))
  {
    var c := v.call;
    var h := CallStep(g, VCall(c)).graph;
    if (c.caller, c.callee) == e {
      CallStepLines(g, c);
      assert StepLines(v, e) == [VInt(c.line_number)];
    } else {
      CallStepEffect(g, c);
      assert StepLines(v, e) == [];
      assert e in h.edgeAttrs <==> e in g.edgeAttrs;
    }
  }

  /**
   * Over a whole call loop that raised nothing, an edge's `line_numbers`
   * is what it held before followed by the lines of the calls on that edge,
   * in call order; an edge no call mentions keeps its attributes.
   */
  lemma {:induction false} AddCallsLines(g: Graph, vs: seq<Value>, e: Edge)
    requires AddCalls(g, vs).error.None?
    ensures Appended(EdgeAttrsOf(g, e), EdgeAttrsOf(AddCalls(g, vs).graph, e), PairLines(vs, e))
    decreases |vs|
  {
    if vs != [] {
      var front := vs[..|vs| - 1];
      var last := vs[|vs| - 1];
      var p := AddCalls(g, front);
      assert p.error.None?;
      AddCallsLines(g, front, e);
      CallStepOnEdge(p.graph, last, e);
      AppendedTransitive(EdgeAttrsOf(g, e), EdgeAttrsOf(p.graph, e), EdgeAttrsOf(AddCalls(g, vs).graph, e),
                         PairLines(front, e), StepLines(last, e));
    }
  }
}

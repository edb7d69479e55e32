/**
 * `parse_code_file`: read a Python file, walk its syntax tree and collect
 * function and class entities, caller -> callee call sites, imports and
 * module-level assignments into a CodeFile.
 *
 * The file system is a map from path to text and Python's parser a function
 * from text to a tree (None for a SyntaxError); a path missing from the map is
 * a FileNotFoundError.
 */
module CodeParser {
  import opened Common
  import opened PyAst
  import opened DataModels
  import Preprocess

  datatype Sources = Sources(files: map<string, string>, parse: string -> Option<Node>)

  /** What one walk of a module collects, in walk order. */
  datatype Extraction = Extraction(
    entities: seq<CodeEntity>,
    calls: seq<FunctionCall>,
    imports: seq<string>,
    globals: seq<Value>)

  const NothingFound := Extraction([], [], [], [])

  /** `d.id if isinstance(d, ast.Name) else d.attr`: any other node has no `attr`. */
  function LabelOf(n: Node): (r: Result<string>)
    ensures r.Ok? <==> n.Name? || n.Attribute?
  {
    match n
    case Name(id, _) => Ok(id)
    case Attribute(_, attr, _) => Ok(attr)
    case _ => Err(AttributeError("object has no attribute 'attr'"))
  }

  /** The labels of decorators or bases; the first node without one raises. */
  function Labels(ns: seq<Node>): (r: Result<seq<string>>)
    ensures r.Ok? <==> forall i :: 0 <= i < |ns| ==> ns[i].Name? || ns[i].Attribute?
    ensures r.Ok? ==> |r.value| == |ns| && forall i :: 0 <= i < |ns| ==> r.value[i] == LabelOf(ns[i]).value
  {
    if ns == [] then Ok([])
    else
      match LabelOf(ns[0])
      case Err(e) => Err(e)
      case Ok(l) =>
        match Labels(ns[1..])
        case Err(e) => Err(e)
        case Ok(ls) => Ok([l] + ls)
  }

  /**
   * The callee recorded for a call's function expression: None when it is
   * neither a name nor an attribute (the call is skipped); `v.attr` needs `v`
   * to be a plain name, otherwise reading `value.id` raises.
   */
  function CalleeOf(func: Node): Option<Result<string>>
  {
    if func.Name? then Some(Ok(func.id))
    else if !func.Attribute? then None
    else if func.value.Name? then Some(Ok(func.value.id + "." + func.attr))
    else Some(Err(AttributeError("object has no attribute 'id'")))
  }

  /** The record a node adds to `caller`'s call sites, if it is a call with a recordable callee. */
  function CallSite(caller: string, path: string, n: Node): Option<Result<FunctionCall>>
  {
    if !n.Call? then None
    else
      match CalleeOf(n.func)
      case None => None
      case Some(Err(e)) => Some(Err(e))
      case Some(Ok(callee)) => Some(Ok(FunctionCall(caller, callee, path, n.lineno)))
  }

  /** The call sites `caller` records while walking `walk`, in walk order. */
  function CallsIn(caller: string, path: string, walk: seq<Node>): Result<seq<FunctionCall>>
  {
    if walk == [] then Ok([])
    else
      match CallsIn(caller, path, walk[..|walk| - 1])
      case Err(e) => Err(e)
      case Ok(cs) => Extend(cs, CallSite(caller, path, walk[|walk| - 1]))
  }

  function Extend(cs: seq<FunctionCall>, site: Option<Result<FunctionCall>>): Result<seq<FunctionCall>>
  {
    match site
    case None => Ok(cs)
    case Some(Err(e)) => Err(e)
    case Some(Ok(c)) => Ok(cs + [c])
  }

  /** `[f"{module}.{alias.name}" for alias in node.names]`. */
  function Qualify(source: string, names: seq<string>): (r: seq<string>)
    ensures |r| == |names|
    ensures forall i :: 0 <= i < |names| ==> r[i] == source + "." + names[i]
  {
    seq(|names|, i requires 0 <= i < |names| => source + "." + names[i])
  }

  /** `[t.id for t in node.targets if isinstance(t, ast.Name)]`. */
  function TargetNames(targets: seq<Node>): (r: seq<string>)
    ensures |r| <= |targets|
    ensures forall x :: x in r <==> exists i :: 0 <= i < |targets| && targets[i].Name? && targets[i].id == x
  {
    if targets == [] then []
    else
      var rest := TargetNames(targets[1..]);
      assert forall i :: 0 < i < |targets| ==> targets[i] == targets[1..][i - 1];
      if targets[0].Name? then [targets[0].id] + rest else rest
  }

  /** The plain names of the targets keep the targets' order. */
  lemma {:induction false} TargetNamesAppend(a: seq<Node>, b: seq<Node>)
    ensures TargetNames(a + b) == TargetNames(a) + TargetNames(b)
    decreases |a|
  {
    if a == [] {
      assert a + b == b;
    } else {
      assert (a + b)[0] == a[0];
      assert (a + b)[1..] == a[1..] + b;
      TargetNamesAppend(a[1..], b);
    }
  }

  /** The dict `global_variables` records for one name. */
  function GlobalEntry(name: string, line: int): Value
  {
    VDict(map["name" := VStr(name), "line_number" := VInt(line)])
  }

  /**
   * One `{"name": t.id, "line_number": lineno}` dict per plain-name target,
   * in target order; every other target is dropped.
   */
  function GlobalsOf(targets: seq<Node>, line: int): (r: seq<Value>)
    ensures |r| == |TargetNames(targets)|
    ensures forall i :: 0 <= i < |r| ==> r[i] == GlobalEntry(TargetNames(targets)[i], line)
    ensures forall i :: 0 <= i < |r| ==> r[i].VDict? && r[i].entries.Keys == {"name", "line_number"}
  {
    if targets == [] then []
    else
      var rest := GlobalsOf(targets[1..], line);
      match targets[0]
      case Name(id, _) => [GlobalEntry(id, line)] + rest
      case _ => rest
  }

  /** What the body of `for node in ast.walk(tree)` does with one node. */
  function Step(n: Node, path: string, acc: Extraction): Result<Extraction>
  {
    match n
    case FunctionDef(name, line, doc, _, _, decs, _) =>
      (match Labels(decs)
       case Err(e) => Err(e)
       case Ok(ds) =>
         match CallsIn(name, path, Walk(n))
         case Err(e) => Err(e)
         case Ok(cs) =>
           Ok(acc.(entities := acc.entities + [CodeEntity(name, "function", path, line, doc, ds, [])],
                   calls := acc.calls + cs)))
    case ClassDef(name, line, doc, bases, _, _, _) =>
      (match Labels(bases)
       case Err(e) => Err(e)
       case Ok(bs) => Ok(acc.(entities := acc.entities + [CodeEntity(name, "class", path, line, doc, [], bs)])))
    case Import(names, _) => Ok(acc.(imports := acc.imports + names))
    case ImportFrom(source, names, _) =>
      Ok(acc.(imports := acc.imports + Qualify(if source.Some? then source.value else "", names)))
    case Assign(targets, _, line) => Ok(acc.(globals := acc.globals + GlobalsOf(targets, line)))
    case _ => Ok(acc)
  }

  /** What the walk loop has collected after the nodes of `walk`; the first raise ends it. */
  function Extract(walk: seq<Node>, path: string): Result<Extraction>
  {
    if walk == [] then Ok(NothingFound)
    else
      match Extract(walk[..|walk| - 1], path)
      case Err(e) => Err(e)
      case Ok(acc) => Step(walk[|walk| - 1], path, acc)
  }

  lemma {:induction false} CallsInSticky(caller: string, path: string, walk: seq<Node>, k: nat)
    requires k <= |walk| && CallsIn(caller, path, walk[..k]).Err?
    ensures CallsIn(caller, path, walk) == CallsIn(caller, path, walk[..k])
    decreases |walk| - k
  {
    if k < |walk| {
      assert walk[..k + 1][..k] == walk[..k];
      CallsInSticky(caller, path, walk, k + 1);
    } else {
      assert walk[..k] == walk;
    }
  }

  lemma {:induction false} ExtractSticky(walk: seq<Node>, path: string, k: nat)
    requires k <= |walk| && Extract(walk[..k], path).Err?
    ensures Extract(walk, path) == Extract(walk[..k], path)
    decreases |walk| - k
  {
    if k < |walk| {
      assert walk[..k + 1][..k] == walk[..k];
      ExtractSticky(walk, path, k + 1);
    } else {
      assert walk[..k] == walk;
    }
  }

  /** The loop `for child in ast.walk(node)` of one function definition. */
  method CollectCalls(caller: string, path: string, node: Node) returns (r: Result<seq<FunctionCall>>)
    ensures r == CallsIn(caller, path, Walk(node))
  {
    var found: seq<FunctionCall> := [];
    var sub := Walk(node);
    for j := 0 to |sub|
      invariant CallsIn(caller, path, sub[..j]) == Ok(found)
    {
      assert sub[..j + 1][..j] == sub[..j];
      assert CallsIn(caller, path, sub[..j + 1]) == Extend(found, CallSite(caller, path, sub[j]));
      var child := sub[j];
      if child.Call? && (child.func.Name? || child.func.Attribute?) {
        var callee;
        if child.func.Name? {
          callee := child.func.id;
        } else {
          if !child.func.value.Name? {
            CallsInSticky(caller, path, sub, j + 1);
            return Err(AttributeError("object has no attribute 'id'"));
          }
          callee := child.func.value.id + "." + child.func.attr;
        }
        found := found + [FunctionCall(caller, callee, path, child.lineno)];
      }
    }
    assert sub[..|sub|] == sub;
    return Ok(found);
  }

  /** The body of the walk loop for one node: `acc` holds the four lists collected so far. */
  method VisitNode(node: Node, path: string, acc: Extraction) returns (r: Result<Extraction>)
    ensures r == Step(node, path, acc)
  {
    r := Ok(acc);
    match node
    case FunctionDef(name, line, doc, _, _, decs, _) =>
      var decorators := Labels(decs);
      if decorators.Err? {
        return Err(decorators.error);
      }
      var entities := acc.entities + [CodeEntity(name, "function", path, line, doc, decorators.value, [])];
      var found := CollectCalls(name, path, node);
      if found.Err? {
        return Err(found.error);
      }
      r := Ok(acc.(entities := entities, calls := acc.calls + found.value));
    case ClassDef(name, line, doc, bases, _, _, _) =>
      var parents := Labels(bases);
      if parents.Err? {
        return Err(parents.error);
      }
      r := Ok(acc.(entities := acc.entities + [CodeEntity(name, "class", path, line, doc, [], parents.value)]));
    case Import(names, _) =>
      r := Ok(acc.(imports := acc.imports + names));
    case ImportFrom(source, names, _) =>
      r := Ok(acc.(imports := acc.imports + Qualify(if source.Some? then source.value else "", names)));
    case Assign(targets, _, line) =>
      r := Ok(acc.(globals := acc.globals + GlobalsOf(targets, line)));
    case _ =>
  }

  /** The `for node in ast.walk(tree)` loop of `parse_code_file`. */
  method CollectDefinitions(tree: Node, path: string) returns (r: Result<Extraction>)
    ensures r == Extract(Walk(tree), path)
  {
    var acc := NothingFound;
    var walk := Walk(tree);
    for i := 0 to |walk|
      invariant Extract(walk[..i], path) == Ok(acc)
    {
      assert walk[..i + 1][..i] == walk[..i];
      var next := VisitNode(walk[i], path, acc);
      if next.Err? {
        ExtractSticky(walk, path, i + 1);
        return next;
      }
      acc := next.value;
    }
    assert walk[..|walk|] == walk;
    return Ok(acc);
  }

  /** The file's text (or "" when it cannot be opened) and what the walk collected from it. */
  function Collected(src: Sources, path: string): (string, Result<Extraction>)
  {
    if path !in src.files then ("", Ok(NothingFound))
    else
      var raw := src.files[path];
      match src.parse(raw)
      case None => (raw, Ok(NothingFound))
      case Some(tree) => (raw, Extract(Walk(tree), path))
  }

  /** `[entity.docstring for entity in entities if entity.docstring]`. */
  function EntityDocstrings(es: seq<CodeEntity>): (ds: seq<string>)
    ensures forall i :: 0 <= i < |ds| ==> ds[i] != []
  {
    if es == [] then []
    else
      var e := es[|es| - 1];
      EntityDocstrings(es[..|es| - 1]) + (if e.docstring.Some? && e.docstring.value != [] then [e.docstring.value] else [])
  }

  function EntityValues(es: seq<CodeEntity>): (vs: seq<Value>)
    ensures |vs| == |es| && forall i :: 0 <= i < |es| ==> vs[i] == VEntity(es[i])
  {
    seq(|es|, i requires 0 <= i < |es| => VEntity(es[i]))
  }

  /** The keyword arguments `parse_code_file` passes to `CodeFile(...)`: no `embedding_ids`. */
  const AsWrittenKeywords: set<string> := {"file_path", "entities", "raw_code", "cleaned_code", "docstrings",
                                           "function_calls", "imports", "global_variables"}

  /** The CodeFile `parse_code_file` builds: call sites as plain dicts, as the loop appends them. */
  function ParseCodeFileResult(src: Sources, path: string): Result<CodeFile>
  {
    var (raw, ex) := Collected(src, path);
    match ex
    case Err(e) => Err(e)
    case Ok(x) =>
      NewCodeFile(AsWrittenKeywords, CodeFile([], Some(path), EntityValues(x.entities), Some(raw), None,
                                              EntityDocstrings(x.entities),
                                              seq(|x.calls|, i requires 0 <= i < |x.calls| => VDict(CallToDict(x.calls[i]))),
                                              x.imports, x.globals, CodeFileType))
  }

  /** `parse_code_file(file_path)` as written. */
  method ParseCodeFile(src: Sources, path: string) returns (r: Result<CodeFile>)
    ensures r == ParseCodeFileResult(src, path)
  {
    var raw := "";
    var ex: Result<Extraction> := Ok(NothingFound);
    if path in src.files {
      raw := src.files[path];
      var tree := src.parse(raw);
      if tree.Some? {
        ex := CollectDefinitions(tree.value, path);
      }
    }
    if ex.Err? {
      return Err(ex.error);
    }
    var x := ex.value;
    var calls := seq(|x.calls|, i requires 0 <= i < |x.calls| => VDict(CallToDict(x.calls[i])));
    r := NewCodeFile(AsWrittenKeywords, CodeFile([], Some(path), EntityValues(x.entities), Some(raw), None,
                                                 EntityDocstrings(x.entities), calls, x.imports, x.globals,
                                                 CodeFileType));
  }

  /**
   * `CodeFile(...)` is never given the required `embedding_ids`, so every
   * call raises: a TypeError, or an AttributeError from the walk before it.
   */
  lemma ParseCodeFileAlwaysRaises(src: Sources, path: string)
    ensures ParseCodeFileResult(src, path).Err?
    ensures Collected(src, path).1.Ok? ==> ParseCodeFileResult(src, path).error.TypeError?
    ensures Collected(src, path).1.Err? ==> ParseCodeFileResult(src, path).error.AttributeError?
  {
    assert "embedding_ids" !in AsWrittenKeywords;
    if Collected(src, path).1.Err? {
      var (raw, ex) := Collected(src, path);
      var tree := src.parse(raw).value;
      ExtractErrors(Walk(tree), path);
    }
  }

  /** Only AttributeError escapes the walk. */
  lemma {:induction false} ExtractErrors(walk: seq<Node>, path: string)
    ensures Extract(walk, path).Err? ==> Extract(walk, path).error.AttributeError?
    decreases |walk|
  {
    if walk != [] {
      ExtractErrors(walk[..|walk| - 1], path);
      var n := walk[|walk| - 1];
      if n.FunctionDef? {
        CallsInErrors(n.name, path, Walk(n));
        LabelsErrors(n.decorators);
      } else if n.ClassDef? {
        LabelsErrors(n.bases);
      }
    }
  }

  lemma {:induction false} LabelsErrors(ns: seq<Node>)
    ensures Labels(ns).Err? ==> Labels(ns).error.AttributeError?
    decreases |ns|
  {
    if ns != [] {
      LabelsErrors(ns[1..]);
    }
  }

  lemma {:induction false} CallsInErrors(caller: string, path: string, walk: seq<Node>)
    ensures CallsIn(caller, path, walk).Err? ==> CallsIn(caller, path, walk).error.AttributeError?
    decreases |walk|
  {
    if walk != [] {
      CallsInErrors(caller, path, walk[..|walk| - 1]);
    }
  }

  /** The keyword arguments of the corrected construction: `embedding_ids=[]` added. */
  const FixedKeywords: set<string> := AsWrittenKeywords + {"embedding_ids"}

  /** The corrected `parse_code_file`: `embedding_ids=[]` passed, call sites stored as FunctionCall records. */
  function ParseCodeFileFixedResult(src: Sources, path: string): Result<CodeFile>
  {
    var (raw, ex) := Collected(src, path);
    match ex
    case Err(e) => Err(e)
    case Ok(x) =>
      NewCodeFile(FixedKeywords, CodeFile([], Some(path), EntityValues(x.entities), Some(raw), None,
                                          EntityDocstrings(x.entities),
                                          seq(|x.calls|, i requires 0 <= i < |x.calls| => VCall(x.calls[i])),
                                          x.imports, x.globals, CodeFileType))
  }

  method ParseCodeFileFixed(src: Sources, path: string) returns (r: Result<CodeFile>)
    ensures r == ParseCodeFileFixedResult(src, path)
  {
    var raw := "";
    var ex: Result<Extraction> := Ok(NothingFound);
    if path in src.files {
      raw := src.files[path];
      var tree := src.parse(raw);
      if tree.Some? {
        ex := CollectDefinitions(tree.value, path);
      }
    }
    if ex.Err? {
      return Err(ex.error);
    }
    var x := ex.value;
    var calls := seq(|x.calls|, i requires 0 <= i < |x.calls| => VCall(x.calls[i]));
    r := NewCodeFile(FixedKeywords, CodeFile([], Some(path), EntityValues(x.entities), Some(raw), None,
                                             EntityDocstrings(x.entities), calls, x.imports, x.globals,
                                             CodeFileType));
  }

  /**
   * The corrected parser raises only from the walk; otherwise it returns a
   * CodeFile for the path with no embedding ids, the file's text (or ""),
   * no cleaned code, the default type, and record instances for every
   * entity and call site.
   */
  lemma ParseCodeFileFixedShape(src: Sources, path: string)
    ensures ParseCodeFileFixedResult(src, path).Ok? <==> Collected(src, path).1.Ok?
    ensures ParseCodeFileFixedResult(src, path).Ok? ==>
      var cf := ParseCodeFileFixedResult(src, path).value;
      var (raw, ex) := Collected(src, path);
      && cf.embedding_ids == [] && cf.file_path == Some(path) && cf.raw_code == Some(raw)
      && cf.cleaned_code == None && cf.kind == CodeFileType
      && cf.entities == EntityValues(ex.value.entities)
      && |cf.function_calls| == |ex.value.calls|
      && (forall i :: 0 <= i < |ex.value.calls| ==> cf.function_calls[i] == VCall(ex.value.calls[i]))
      && cf.imports == ex.value.imports && cf.global_variables == ex.value.globals
      && AllRecords(cf)
  {
    assert CodeFileRequired <= FixedKeywords <= CodeFileFields;
  }

  /** The walk collected everything the prefix collected, and more at the end. */
  lemma {:induction false} ExtractPrefix(walk: seq<Node>, path: string, k: nat)
    requires k <= |walk| && Extract(walk, path).Ok?
    ensures Extract(walk[..k], path).Ok?
    ensures var x, y := Extract(walk[..k], path).value, Extract(walk, path).value;
      x.entities <= y.entities && x.calls <= y.calls
    decreases |walk| - k
  {
    if k == |walk| {
      assert walk[..k] == walk;
    } else {
      var w := walk[..|walk| - 1];
      ExtractLast(walk, path);
      assert w[..k] == walk[..k];
      ExtractPrefix(w, path, k);
      StepEffect(walk[|walk| - 1], path, Extract(w, path).value);
    }
  }

  /** What one node adds to the entities and call sites. */
  lemma StepEffect(n: Node, path: string, acc: Extraction)
    requires Step(n, path, acc).Ok?
    ensures var y := Step(n, path, acc).value;
      && (n.FunctionDef? ==> CallsIn(n.name, path, Walk(n)).Ok? && y.calls == acc.calls + CallsIn(n.name, path, Walk(n)).value)
      && (!n.FunctionDef? ==> y.calls == acc.calls)
      && ((n.FunctionDef? || n.ClassDef?) ==>
            |y.entities| == |acc.entities| + 1 && y.entities[..|acc.entities|] == acc.entities
            && y.entities[|acc.entities|].docstring == n.docstring)
      && (!(n.FunctionDef? || n.ClassDef?) ==> y.entities == acc.entities)
  {
    var y := Step(n, path, acc).value;
    if n.FunctionDef? || n.ClassDef? {
      assert y.entities[..|acc.entities|] == acc.entities;
    }
  }

  /** `Extract` of a non-empty walk is the step of its last node after the rest. */
  lemma ExtractLast(walk: seq<Node>, path: string)
    requires walk != [] && Extract(walk, path).Ok?
    ensures Extract(walk[..|walk| - 1], path).Ok?
    ensures Step(walk[|walk| - 1], path, Extract(walk[..|walk| - 1], path).value) == Extract(walk, path)
  {
  }

  /** A recordable call site below a definition is recorded once `CallsIn` succeeds. */
  lemma {:induction false} CallsInComplete(caller: string, path: string, walk: seq<Node>, j: nat, c: FunctionCall)
    requires j < |walk| && CallsIn(caller, path, walk).Ok?
    requires CallSite(caller, path, walk[j]) == Some(Ok(c))
    ensures c in CallsIn(caller, path, walk).value
    decreases |walk|
  {
    var w := walk[..|walk| - 1];
    if j < |walk| - 1 {
      assert w[j] == walk[j];
      CallsInComplete(caller, path, w, j, c);
    }
  }

  /** Every record `CallsIn` returns comes from one of the walked nodes. */
  lemma {:induction false} CallsInSound(caller: string, path: string, walk: seq<Node>, c: FunctionCall)
    requires CallsIn(caller, path, walk).Ok? && c in CallsIn(caller, path, walk).value
    ensures exists j :: 0 <= j < |walk| && CallSite(caller, path, walk[j]) == Some(Ok(c))
    decreases |walk|
  {
    var w := walk[..|walk| - 1];
    var site := CallSite(caller, path, walk[|walk| - 1]);
    if site == Some(Ok(c)) {
      assert CallSite(caller, path, walk[|walk| - 1]) == Some(Ok(c));
    } else {
      CallsInSound(caller, path, w, c);
      var j :| 0 <= j < |w| && CallSite(caller, path, w[j]) == Some(Ok(c));
      assert w[j] == walk[j];
    }
  }

  /** `c` is the record a call inside definition `d` produces. */
  ghost predicate SiteOf(c: FunctionCall, d: Node, path: string)
  {
    d.FunctionDef? && exists j :: 0 <= j < |Walk(d)| && CallSite(d.name, path, Walk(d)[j]) == Some(Ok(c))
  }

  /** Every recorded call site comes from a call below some `def` in the walk, with that function as caller. */
  lemma {:induction false} CallsSound(walk: seq<Node>, path: string, c: FunctionCall)
    requires Extract(walk, path).Ok? && c in Extract(walk, path).value.calls
    ensures exists i :: 0 <= i < |walk| && SiteOf(c, walk[i], path)
    decreases |walk|
  {
    var w := walk[..|walk| - 1];
    var n := walk[|walk| - 1];
    ExtractLast(walk, path);
    var acc := Extract(w, path).value;
    StepEffect(n, path, acc);
    if c in acc.calls {
      CallsSound(w, path, c);
      var i :| 0 <= i < |w| && SiteOf(c, w[i], path);
      assert w[i] == walk[i];
    } else {
      CallsInSound(n.name, path, Walk(n), c);
      assert SiteOf(c, walk[|walk| - 1], path);
    }
  }

  /**
   * Each recordable call below each `def` in the walk is recorded with that
   * function as caller.
   */
  lemma {:induction false} CallsComplete(walk: seq<Node>, path: string, i: nat, c: FunctionCall)
    requires Extract(walk, path).Ok? && i < |walk| && SiteOf(c, walk[i], path)
    ensures c in Extract(walk, path).value.calls
    decreases |walk|
  {
    var w := walk[..|walk| - 1];
    var n := walk[|walk| - 1];
    ExtractLast(walk, path);
    var acc := Extract(w, path).value;
    StepEffect(n, path, acc);
    if i < |walk| - 1 {
      assert w[i] == walk[i];
      CallsComplete(w, path, i, c);
    } else {
      var j :| 0 <= j < |Walk(n)| && CallSite(n.name, path, Walk(n)[j]) == Some(Ok(c));
      CallsInComplete(n.name, path, Walk(n), j, c);
    }
  }

  /**
   * A call inside a function `g` nested in a function `f` is recorded twice:
   * once with `f` and once with `g` as caller, since walking `f` also visits
   * the body of `g`.
   */
  lemma NestedCallRecordedForBoth(tree: Node, path: string, f: Node, g: Node, call: Node, callee: string)
    requires Extract(Walk(tree), path).Ok?
    requires f in Walk(tree) && f.FunctionDef?
    requires g in Walk(f) && g.FunctionDef?
    requires call in Walk(g) && call.Call? && CalleeOf(call.func) == Some(Ok(callee))
    ensures FunctionCall(f.name, callee, path, call.lineno) in Extract(Walk(tree), path).value.calls
    ensures FunctionCall(g.name, callee, path, call.lineno) in Extract(Walk(tree), path).value.calls
  {
    var walk := Walk(tree);
    WalkTransitive(tree, f, g);
    WalkTransitive(f, g, call);
    var cf := FunctionCall(f.name, callee, path, call.lineno);
    var cg := FunctionCall(g.name, callee, path, call.lineno);
    var jf :| 0 <= jf < |Walk(f)| && Walk(f)[jf] == call;
    var jg :| 0 <= jg < |Walk(g)| && Walk(g)[jg] == call;
    assert CallSite(f.name, path, Walk(f)[jf]) == Some(Ok(cf));
    assert CallSite(g.name, path, Walk(g)[jg]) == Some(Ok(cg));
    var i :| 0 <= i < |walk| && walk[i] == f;
    var k :| 0 <= k < |walk| && walk[k] == g;
    assert SiteOf(cf, walk[i], path);
    assert SiteOf(cg, walk[k], path);
    CallsComplete(walk, path, i, cf);
    CallsComplete(walk, path, k, cg);
  }

  /** The docstrings the walk's entities carry are exactly those `extract_docstrings` collects. */
  lemma {:induction false} EntityDocstringsMatch(walk: seq<Node>, path: string)
    requires Extract(walk, path).Ok?
    ensures EntityDocstrings(Extract(walk, path).value.entities) == Preprocess.Docstrings(walk)
    decreases |walk|
  {
    if walk != [] {
      var w := walk[..|walk| - 1];
      var n := walk[|walk| - 1];
      ExtractLast(walk, path);
      EntityDocstringsMatch(w, path);
      var es := Extract(w, path).value.entities;
      var es' := Extract(walk, path).value.entities;
      StepEffect(n, path, Extract(w, path).value);
      if n.FunctionDef? || n.ClassDef? {
        assert es'[..|es'| - 1] == es;
      }
    }
  }

  /** The corrected CodeFile's docstrings are what `extract_docstrings` returns for the same text. */
  lemma FixedDocstringsMatch(src: Sources, path: string)
    requires path in src.files && ParseCodeFileFixedResult(src, path).Ok?
    ensures ParseCodeFileFixedResult(src, path).value.docstrings == Preprocess.DocstringsOf(src.files[path], src.parse)
  {
    assert CodeFileRequired <= FixedKeywords <= CodeFileFields;
    var raw := src.files[path];
    if src.parse(raw).Some? {
      EntityDocstringsMatch(Walk(src.parse(raw).value), path);
    }
  }

  /** A decorator that is a call, such as `@app.route("/")`, has no `attr`: the whole parse raises. */
  lemma CalledDecoratorRaises(tree: Node, path: string, i: nat)
    requires i < |Walk(tree)| && Walk(tree)[i].FunctionDef?
    requires exists k :: 0 <= k < |Walk(tree)[i].decorators| && Walk(tree)[i].decorators[k].Call?
    ensures Extract(Walk(tree), path).Err?
  {
    var walk := Walk(tree);
    assert walk[..i + 1][..i] == walk[..i];
    if Extract(walk, path).Ok? {
      ExtractPrefix(walk, path, i + 1);
    }
  }
}

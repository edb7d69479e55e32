/**
 * An abstract Python syntax tree, reduced to the node kinds the parser
 * distinguishes, and `ast.walk`: a breadth-first traversal that yields a node
 * before its children, children in field order.
 *
 * Leaf-only nodes that no parser test looks at (expression contexts, `alias`)
 * are left out; since they have no children, dropping them does not change the
 * relative order of the remaining nodes in a walk.
 */
module PyAst {
  import opened Common

  datatype Node =
      /** `def name(args) -> returnAnn:`; `docstring` is what `ast.get_docstring` returns for it. */
    | FunctionDef(name: string, lineno: int, docstring: Option<string>, params: Node, body: seq<Node>,
                  decorators: seq<Node>, returnAnn: seq<Node>)
    | AsyncFunctionDef(name: string, lineno: int, docstring: Option<string>, params: Node, body: seq<Node>,
                       decorators: seq<Node>, returnAnn: seq<Node>)
    | ClassDef(name: string, lineno: int, docstring: Option<string>, bases: seq<Node>, keywords: seq<Node>,
               body: seq<Node>, decorators: seq<Node>)
      /** `import a, b` (the `alias.name` of each). */
    | Import(names: seq<string>, lineno: int)
      /** `from source import a, b`; `source` is None for `from . import a`. */
    | ImportFrom(source: Option<string>, names: seq<string>, lineno: int)
    | Assign(targets: seq<Node>, value: Node, lineno: int)
      /** `func(args)`; `arguments` holds the positional then the keyword arguments. */
    | Call(func: Node, arguments: seq<Node>, lineno: int)
    | Name(id: string, lineno: int)
    | Attribute(value: Node, attr: string, lineno: int)
      /** Any other node (Module, Expr, Return, If, AugAssign, Constant, ...) with its children. */
    | Other(children: seq<Node>)

  function Size(n: Node): nat
  {
    match n
    case FunctionDef(_, _, _, args, body, decs, ret) => 1 + Size(args) + SizeSeq(body) + SizeSeq(decs) + SizeSeq(ret)
    case AsyncFunctionDef(_, _, _, args, body, decs, ret) => 1 + Size(args) + SizeSeq(body) + SizeSeq(decs) + SizeSeq(ret)
    case ClassDef(_, _, _, bases, kws, body, decs) => 1 + SizeSeq(bases) + SizeSeq(kws) + SizeSeq(body) + SizeSeq(decs)
    case Import(_, _) => 1
    case ImportFrom(_, _, _) => 1
    case Assign(targets, value, _) => 1 + SizeSeq(targets) + Size(value)
    case Call(func, args, _) => 1 + Size(func) + SizeSeq(args)
    case Name(_, _) => 1
    case Attribute(value, _, _) => 1 + Size(value)
    case Other(cs) => 1 + SizeSeq(cs)
  }

  function SizeSeq(s: seq<Node>): nat
  {
    if s == [] then 0 else Size(s[0]) + SizeSeq(s[1..])
  }

  lemma {:induction false} SizeSeqAppend(a: seq<Node>, b: seq<Node>)
    ensures SizeSeq(a + b) == SizeSeq(a) + SizeSeq(b)
    decreases |a|
  {
    if a != [] {
      assert (a + b)[1..] == a[1..] + b;
      SizeSeqAppend(a[1..], b);
    } else {
      assert a + b == b;
    }
  }

  lemma {:induction false} SizeSeqMember(s: seq<Node>, i: nat)
    requires i < |s|
    ensures Size(s[i]) <= SizeSeq(s)
    decreases |s|
  {
    if i > 0 {
      SizeSeqMember(s[1..], i - 1);
    }
  }

  /** `ast.iter_child_nodes(n)`, in field order. */
  function Children(n: Node): (cs: seq<Node>)
    ensures SizeSeq(cs) + 1 == Size(n)
  {
    match n
    case FunctionDef(_, _, _, args, body, decs, ret) =>
      SizeSeqAppend([args] + body, decs);
      SizeSeqAppend([args], body);
      SizeSeqAppend([args] + body + decs, ret);
      [args] + body + decs + ret
    case AsyncFunctionDef(_, _, _, args, body, decs, ret) =>
      SizeSeqAppend([args] + body, decs);
      SizeSeqAppend([args], body);
      SizeSeqAppend([args] + body + decs, ret);
      [args] + body + decs + ret
    case ClassDef(_, _, _, bases, kws, body, decs) =>
      SizeSeqAppend(bases, kws);
      SizeSeqAppend(bases + kws, body);
      SizeSeqAppend(bases + kws + body, decs);
      bases + kws + body + decs
    case Import(_, _) => []
    case ImportFrom(_, _, _) => []
    case Assign(targets, value, _) =>
      SizeSeqAppend(targets, [value]);
      targets + [value]
    case Call(func, args, _) =>
      SizeSeqAppend([func], args);
      [func] + args
    case Name(_, _) => []
    case Attribute(value, _, _) => [value]
    case Other(cs) => cs
  }

  /** Breadth-first traversal of a queue of pending nodes. */
  function Bfs(queue: seq<Node>): (ws: seq<Node>)
    decreases SizeSeq(queue)
  {
    if queue == [] then []
    else
      SizeSeqAppend(queue[1..], Children(queue[0]));
      [queue[0]] + Bfs(queue[1..] + Children(queue[0]))
  }

  /** `ast.walk(n)`. */
  function Walk(n: Node): (ws: seq<Node>)
    ensures |ws| > 0 && ws[0] == n
  {
    Bfs([n])
  }

  /** `x` is `n` or lies below it. */
  ghost predicate Within(x: Node, n: Node)
    decreases Size(n)
  {
    x == n || exists i :: 0 <= i < |Children(n)| && WithinChild(x, n, i)
  }

  ghost predicate WithinChild(x: Node, n: Node, i: nat)
    requires i < |Children(n)|
    decreases Size(n), 0
  {
    SizeSeqMember(Children(n), i);
    Within(x, Children(n)[i])
  }

  /** A queue's traversal holds exactly the nodes within some queued node. */
  lemma {:induction false} BfsMembers(queue: seq<Node>, x: Node)
    ensures x in Bfs(queue) <==> exists k :: 0 <= k < |queue| && Within(x, queue[k])
    decreases SizeSeq(queue)
  {
    if queue != [] {
      var n := queue[0];
      var rest := queue[1..] + Children(n);
      SizeSeqAppend(queue[1..], Children(n));
      BfsMembers(rest, x);
      assert Bfs(queue) == [n] + Bfs(rest);
      if x in Bfs(queue) {
        if x == n {
          assert Within(x, queue[0]);
        } else {
          assert x in Bfs(rest);
          var k :| 0 <= k < |rest| && Within(x, rest[k]);
          if k < |queue| - 1 {
            assert rest[k] == queue[k + 1];
          } else {
            var i := k - (|queue| - 1);
            assert rest[k] == Children(n)[i];
            assert WithinChild(x, n, i);
            assert Within(x, queue[0]);
          }
        }
      } else {
        forall k | 0 <= k < |queue|
          ensures !Within(x, queue[k])
        {
          if k == 0 {
            assert x != n;
            forall i | 0 <= i < |Children(n)|
              ensures !WithinChild(x, n, i)
            {
              assert rest[|queue| - 1 + i] == Children(n)[i];
            }
          } else {
            assert rest[k - 1] == queue[k];
          }
        }
      }
    }
  }

  lemma WalkMembers(n: Node, x: Node)
    ensures x in Walk(n) <==> Within(x, n)
  {
    BfsMembers([n], x);
  }

  lemma {:induction false} WithinTransitive(x: Node, y: Node, n: Node)
    requires Within(x, y) && Within(y, n)
    ensures Within(x, n)
    decreases Size(n)
  {
    if y != n {
      var i :| 0 <= i < |Children(n)| && WithinChild(y, n, i);
      SizeSeqMember(Children(n), i);
      WithinTransitive(x, y, Children(n)[i]);
      assert WithinChild(x, n, i);
    }
  }

  /** A node reached by walking a node that `ast.walk(n)` reaches is reached by `ast.walk(n)`. */
  lemma WalkTransitive(n: Node, y: Node, x: Node)
    requires y in Walk(n) && x in Walk(y)
    ensures x in Walk(n)
  {
    WalkMembers(n, y);
    WalkMembers(y, x);
    WithinTransitive(x, y, n);
    WalkMembers(n, x);
  }
}

/**
 * The deterministic helpers of `src/query_processor/query_processor.py`:
 * query normalisation, code-fence stripping, keyword classification, the
 * regex entity heuristic, grouping of entity names from code files, the
 * template queries, the graph-based query string, and the fallback and
 * validation branches that follow a hosted-LLM extraction call.
 *
 * The LLM reply is an input (`None` when the call failed) and `json.loads`
 * is a parameter (`None` when it raises `JSONDecodeError`). Text is taken to
 * be ASCII, as `preprocess_query` leaves it, so `\w` is `[A-Za-z0-9_]`.
 */
module QueryProcessor {
  import opened Common
  import opened DataModels
  import opened GraphdbUtils
  import opened GraphdbIndexer
  import CodefileRetriever

  // ---- preprocess_query ----

  /** `s.encode("ascii", errors="ignore").decode()`: every non-ASCII character dropped. */
  function AsciiOnly(s: string): (r: string)
    ensures |r| <= |s|
    ensures forall i :: 0 <= i < |r| ==> IsAscii(r[i])
  {
    if s == [] then []
    else if IsAscii(s[0]) then [s[0]] + AsciiOnly(s[1..]) else AsciiOnly(s[1..])
  }

  /** Every ASCII character is kept as often as it occurs; every other one is dropped. */
  lemma {:induction false} AsciiOnlyCounts(s: string, c: char)
    ensures multiset(AsciiOnly(s))[c] == if IsAscii(c) then multiset(s)[c] else 0
    decreases |s|
  {
    if s != [] {
      AsciiOnlyCounts(s[1..], c);
      assert s == [s[0]] + s[1..];
    }
  }

  /** Dropping characters keeps the order of the ones kept: it distributes over concatenation. */
  lemma {:induction false} AsciiOnlyAppend(a: string, b: string)
    ensures AsciiOnly(a + b) == AsciiOnly(a) + AsciiOnly(b)
    decreases |a|
  {
    if a != [] {
      assert (a + b)[1..] == a[1..] + b;
      AsciiOnlyAppend(a[1..], b);
    } else {
      assert a + b == b;
    }
  }

  /** An all-ASCII text passes through unchanged. */
  lemma {:induction false} AsciiOnlyKeepsAscii(s: string)
    requires forall i :: 0 <= i < |s| ==> IsAscii(s[i])
    ensures AsciiOnly(s) == s
    decreases |s|
  {
    if s != [] {
      AsciiOnlyKeepsAscii(s[1..]);
    }
  }

  /** `preprocess_query`: strip, then drop non-ASCII characters. */
  function PreprocessQuery(query: string): (r: string)
    ensures forall i :: 0 <= i < |r| ==> IsAscii(r[i])
  {
    AsciiOnly(Strip(query))
  }

  /** On an ASCII query `preprocess_query` is exactly `strip`. */
  lemma PreprocessAsciiQuery(query: string)
    requires forall i :: 0 <= i < |query| ==> IsAscii(query[i])
    ensures PreprocessQuery(query) == Strip(query)
  {
    var l := TrimLeft(query);
    var t := TrimRight(l);
    var a := |query| - |l|;
    assert t == query[a..a + |t|];
    forall i | 0 <= i < |t|
      ensures IsAscii(t[i])
    {
      assert t[i] == query[a + i];
    }
    AsciiOnlyKeepsAscii(t);
  }

  /**
   * The strip comes first, so a non-ASCII character at the edge can shield
   * whitespace from it: the result need not be stripped.
   */
  lemma PreprocessMayLeaveEdgeSpace()
    ensures PreprocessQuery("\U{e9} x") == " x"
  {
    var q := "\U{e9} x";
    assert !IsSpace(q[0]) && !IsSpace(q[2]);
    assert TrimLeft(q) == q;
    assert TrimRight(q) == q;
    assert q == [q[0]] + " x";
    AsciiOnlyKeepsAscii(" x");
  }

  // ---- clean_response ----

  const JsonFence := "```json"
  const Fence := "```"

  /** `clean_response`: drop a leading "```json" and a trailing "```", stripping after each removal. */
  function CleanResponse(text: string): (r: string)
    ensures !StartsWith(text, JsonFence) && !EndsWith(text, Fence) ==> r == text
  {
    var t := if StartsWith(text, JsonFence) then Strip(text[|JsonFence|..]) else text;
    if EndsWith(t, Fence) then Strip(t[..|t| - |Fence|]) else t
  }

  /** Once either marker has been removed the reply is stripped. */
  lemma CleanResponseStripped(text: string)
    requires StartsWith(text, JsonFence) || EndsWith(text, Fence)
    ensures Stripped(CleanResponse(text))
  {
    var t := if StartsWith(text, JsonFence) then Strip(text[|JsonFence|..]) else text;
    if EndsWith(t, Fence) {
      StripIsStripped(t[..|t| - |Fence|]);
    } else {
      StripIsStripped(text[|JsonFence|..]);
    }
  }

  lemma {:induction false} TrimLeftBeforeVisible(a: string, t: string)
    requires t != [] && !IsSpace(t[0])
    ensures TrimLeft(a + t) == TrimLeft(a) + t
    decreases |a|
  {
    if a == [] {
      assert a + t == t;
    } else {
      assert (a + t)[0] == a[0];
      assert (a + t)[1..] == a[1..] + t;
      TrimLeftBeforeVisible(a[1..], t);
    }
  }

  lemma TrimLeftIdempotent(a: string)
    ensures TrimLeft(TrimLeft(a)) == TrimLeft(a)
  {
  }

  /** A reply fenced as "```json … ```" comes back as its stripped body. */
  lemma CleanFencedReply(body: string)
    ensures CleanResponse(JsonFence + body + Fence) == Strip(body)
  {
    var text := JsonFence + body + Fence;
    assert StartsWith(text, JsonFence);
    assert text[|JsonFence|..] == body + Fence;
    TrimLeftBeforeVisible(body, Fence);
    var l := TrimLeft(body);
    assert TrimLeft(body + Fence) == l + Fence;
    assert (l + Fence)[|l + Fence| - 1] == '`';
    assert TrimRight(l + Fence) == l + Fence;
    var t := l + Fence;
    assert EndsWith(t, Fence);
    assert t[..|t| - |Fence|] == l;
    TrimLeftIdempotent(body);
  }

  // ---- classify_query ----

  const Documentation := "documentation"
  const CodeClass := "code"
  const Hybrid := "hybrid"

  /** `classify_query`: keyword tests on the lower-cased query, in this order. */
  function ClassifyQuery(query: string): (r: string)
    ensures r in {Documentation, CodeClass, Hybrid}
  {
    var lower := Lower(query);
    if Contains(lower, "documentation") || Contains(lower, "doc") then Documentation
    else if Contains(lower, "function") || Contains(lower, "module") || Contains(lower, "code") then CodeClass
    else Hybrid
  }

  lemma {:induction false} ContainsPrefixOf(s: string, a: string, b: string)
    requires Contains(s, a + b)
    ensures Contains(s, a)
    decreases |s|
  {
    if StartsWith(s, a + b) {
      assert s[..|a|] == (a + b)[..|a|] == a;
    } else {
      ContainsPrefixOf(s[1..], a, b);
    }
  }

  /**
   * "doc" anywhere, in any case, decides "documentation" before any code
   * keyword is looked at; "code" needs a code keyword and no "doc".
   */
  lemma ClassifyQueryCases(query: string)
    ensures ClassifyQuery(query) == Documentation <==> Contains(Lower(query), "doc")
    ensures ClassifyQuery(query) == CodeClass <==>
              !Contains(Lower(query), "doc")
              && (Contains(Lower(query), "function") || Contains(Lower(query), "module") || Contains(Lower(query), "code"))
  {
    var lower := Lower(query);
    if Contains(lower, "documentation") {
      assert "documentation" == "doc" + "umentation";
      ContainsPrefixOf(lower, "doc", "umentation");
    }
  }

  // ---- extract_entities_heuristic ----

  /** Length of the run of word characters at the start of `s`. */
  function WordEnd(s: string): (e: nat)
    ensures e <= |s|
    ensures forall k :: 0 <= k < e ==> IsWordChar(s[k])
    ensures e < |s| ==> !IsWordChar(s[e])
  {
    if s != [] && IsWordChar(s[0]) then 1 + WordEnd(s[1..]) else 0
  }

  predicate AllWord(w: string)
  {
    forall k :: 0 <= k < |w| ==> IsWordChar(w[k])
  }

  /** What `\b\w+\(\)` matches: a word followed by "()". */
  predicate CallShaped(x: string)
  {
    |x| >= 3 && EndsWith(x, "()") && AllWord(x[..|x| - 2])
  }

  /** What `\b[A-Z][a-zA-Z0-9_]+\b` matches: a whole word of two or more characters opening with a capital. */
  predicate CapitalShaped(x: string)
  {
    |x| >= 2 && IsUpper(x[0]) && AllWord(x)
  }

  /**
   * `re.findall(r'\b\w+\(\)', s)`, for `s` starting at a word boundary.
   * A match must start a word and take all of it (the word character that
   * would follow a shorter run is not '('), so the scan moves word by word.
   */
  function Calls(s: string): (r: seq<string>)
    ensures forall i :: 0 <= i < |r| ==> CallShaped(r[i])
    decreases |s|
  {
    if s == [] then []
    else if !IsWordChar(s[0]) then Calls(s[1..])
    else
      var e := WordEnd(s);
      if StartsWith(s[e..], "()") then
        var x := s[..e] + "()";
        assert x[..|x| - 2] == s[..e];
        [x] + Calls(s[e + 2..])
      else Calls(s[e..])
  }

  /** `re.findall(r'\b[A-Z][a-zA-Z0-9_]+\b', s)`, for `s` starting at a word boundary. */
  function Capitalised(s: string): (r: seq<string>)
    ensures forall i :: 0 <= i < |r| ==> CapitalShaped(r[i])
    decreases |s|
  {
    if s == [] then []
    else if !IsWordChar(s[0]) then Capitalised(s[1..])
    else
      var e := WordEnd(s);
      if IsUpper(s[0]) && e >= 2 then [s[..e]] + Capitalised(s[e..]) else Capitalised(s[e..])
  }

  lemma {:induction false} WordEndBefore(a: string, t: string)
    requires t != [] && !IsWordChar(t[0])
    ensures WordEnd(a + t) == WordEnd(a)
    decreases |a|
  {
    if a == [] {
      assert a + t == t;
    } else {
      assert (a + t)[0] == a[0];
      assert (a + t)[1..] == a[1..] + t;
      WordEndBefore(a[1..], t);
    }
  }

  /** A separator that is neither a word character nor a parenthesis. */
  predicate Separator(c: char)
  {
    !IsWordChar(c) && c != '(' && c != ')'
  }

  /** The calls of two texts joined by a separator are the calls of each, in order. */
  lemma CallsAppend(a: string, c: char, b: string)
    requires Separator(c)
    ensures Calls(a + [c] + b) == Calls(a) + Calls(b)
  {
    assert a + [c] + b == a + ([c] + b);
    assert ([c] + b)[1..] == b;
    CallsAppendTail(a, [c] + b);
  }

  /** The same, for a tail `t` that opens with the separator. */
  lemma {:induction false} CallsAppendTail(a: string, t: string)
    requires t != [] && Separator(t[0])
    ensures Calls(a + t) == Calls(a) + Calls(t[1..])
    decreases |a|
  {
    if a == [] {
      assert a + t == t;
      CallsSkipChar(t);
    } else if !IsWordChar(a[0]) {
      SlicesOfAppend(a, t, 1);
      CallsSkipChar(a + t);
      CallsSkipChar(a);
      CallsAppendTail(a[1..], t);
    } else {
      var e := WordEnd(a);
      CallsWordStep(a, t);
      if StartsWith(a[e..], "()") {
        PairAt(a, e);
        CallsTakeWord(a, e);
        CallsAppendTail(a[e + 2..], t);
        AppendAssoc([a[..e] + "()"], Calls(a[e + 2..]), Calls(t[1..]));
      } else {
        if e + 1 < |a| {
          PairAt(a, e);
        }
        CallsSkipWord(a, e);
        CallsAppendTail(a[e..], t);
      }
    }
  }


  /** The word at the head of `a` is matched the same way before and after a tail opening with a separator. */
  lemma CallsWordStep(a: string, t: string)
    requires t != [] && Separator(t[0]) && a != [] && IsWordChar(a[0])
    ensures StartsWith(a[WordEnd(a)..], "()") ==>
              WordEnd(a) + 2 <= |a| &&
              Calls(a + t) == [a[..WordEnd(a)] + "()"] + Calls(a[WordEnd(a) + 2..] + t)
    ensures !StartsWith(a[WordEnd(a)..], "()") ==> Calls(a + t) == Calls(a[WordEnd(a)..] + t)
  {
    WordEndBefore(a, t);
    var e := WordEnd(a);
    if StartsWith(a[e..], "()") {
      CallsWordCall(a, t, e);
    } else {
      CallsWordPlain(a, t, e);
    }
  }

  /** A word followed by "()" in `a` is still a call once `t` is appended. */
  lemma CallsWordCall(a: string, t: string, e: nat)
    requires a != [] && IsWordChar(a[0]) && e == WordEnd(a) == WordEnd(a + t)
    requires StartsWith(a[e..], "()")
    ensures e + 2 <= |a| && Calls(a + t) == [a[..e] + "()"] + Calls(a[e + 2..] + t)
  {
    PairAt(a, e);
    CallsTakeWord(a + t, e);
    SlicesOfAppend(a, t, e);
    SlicesOfAppend(a, t, e + 2);
  }

  /** A word not followed by "()" in `a` is still not a call once `t`, opening with a separator, is appended. */
  lemma CallsWordPlain(a: string, t: string, e: nat)
    requires t != [] && Separator(t[0])
    requires a != [] && IsWordChar(a[0]) && e == WordEnd(a) == WordEnd(a + t)
    requires !StartsWith(a[e..], "()")
    ensures Calls(a + t) == Calls(a[e..] + t)
  {
    if e + 1 < |a| {
      PairAt(a, e);
    }
    CallsSkipWord(a + t, e);
    SlicesOfAppend(a, t, e);
  }

  /** One step of the scan, where a word followed by "()" is taken. */
  lemma CallsTakeWord(s: string, e: nat)
    requires s != [] && IsWordChar(s[0]) && e == WordEnd(s)
    requires e + 1 < |s| && s[e] == '(' && s[e + 1] == ')'
    ensures Calls(s) == [s[..e] + "()"] + Calls(s[e + 2..])
  {
    PairAt(s, e);
  }

  /** One step of the scan, where a word not followed by "()" is passed over. */
  lemma CallsSkipWord(s: string, e: nat)
    requires s != [] && IsWordChar(s[0]) && e == WordEnd(s)
    requires e + 1 < |s| ==> s[e] != '(' || s[e + 1] != ')'
    ensures Calls(s) == Calls(s[e..])
  {
    if e + 1 < |s| {
      PairAt(s, e);
    }
  }

  /** One step of the scan, past a character that cannot start a word. */
  lemma CallsSkipChar(s: string)
    requires s != [] && !IsWordChar(s[0])
    ensures Calls(s) == Calls(s[1..])
  {
  }

  lemma AppendAssoc(x: seq<string>, y: seq<string>, z: seq<string>)
    ensures x + y + z == x + (y + z)
  {
  }

  lemma PairAt(s: string, e: nat)
    requires e + 1 < |s|
    ensures s[e..][..2] == [s[e], s[e + 1]]
  {
  }

  lemma SlicesOfAppend(a: string, t: string, e: nat)
    requires e <= |a|
    ensures (a + t)[..e] == a[..e] && (a + t)[e..] == a[e..] + t
  {
  }

  /** The capitalised words of two texts joined by a non-word character are those of each, in order. */
  lemma {:induction false} CapitalisedAppend(a: string, c: char, b: string)
    requires !IsWordChar(c)
    ensures Capitalised(a + [c] + b) == Capitalised(a) + Capitalised(b)
    decreases |a|
  {
    var s := a + [c] + b;
    if a == [] {
      assert s[1..] == b;
    } else if !IsWordChar(a[0]) {
      assert s[1..] == a[1..] + [c] + b;
      CapitalisedAppend(a[1..], c, b);
    } else {
      assert s == a + ([c] + b);
      WordEndBefore(a, [c] + b);
      var e := WordEnd(a);
      assert s[..e] == a[..e];
      assert s[e..] == a[e..] + [c] + b;
      CapitalisedAppend(a[e..], c, b);
    }
  }

  lemma WordEndOfWord(w: string, t: string)
    requires AllWord(w) && (t == [] || !IsWordChar(t[0]))
    ensures WordEnd(w + t) == |w|
  {
    var s := w + t;
    assert forall k :: 0 <= k < |w| ==> s[k] == w[k];
    assert |w| < |s| ==> s[|w|] == t[0];
  }

  /** A word followed by "()" is exactly one call. */
  lemma CallOfWord(w: string)
    requires w != [] && AllWord(w)
    ensures Calls(w + "()") == [w + "()"]
  {
    var s := w + "()";
    WordEndOfWord(w, "()");
    assert s[..|w|] == w;
    assert s[|w|..] == "()";
    assert s[|w| + 2..] == [];
  }

  /** A word on its own is one capitalised match exactly when it opens with a capital and has two or more characters. */
  lemma CapitalisedOfWord(w: string)
    requires w != [] && AllWord(w)
    ensures Capitalised(w) == if IsUpper(w[0]) && |w| >= 2 then [w] else []
  {
    WordEndOfWord(w, []);
    assert w + [] == w;
    assert w[..|w|] == w;
    assert w[|w|..] == [];
  }

  /** `extract_entities_heuristic`: (functions, modules), each in order of appearance. */
  function ExtractEntitiesHeuristic(query: string): (r: (seq<string>, seq<string>))
    ensures forall i :: 0 <= i < |r.0| ==> CallShaped(r.0[i])
    ensures forall i :: 0 <= i < |r.1| ==> CapitalShaped(r.1[i])
  {
    (Calls(query), Capitalised(query))
  }

  /** The dict `get_extraction_from_gemini` falls back to. */
  function HeuristicExtraction(query: string): (d: Dict)
    ensures d.Keys == ExtractionKeySet
    ensures d["classification"].VStr? && d["classification"].s in {Documentation, CodeClass, Hybrid}
  {
    var (functions, modules) := ExtractEntitiesHeuristic(query);
    map["functions" := StrListValue(functions), "modules" := StrListValue(modules),
        "classification" := VStr(ClassifyQuery(query))]
  }

  // ---- extract_entity_names ----

  type Names = map<string, seq<Value>>

  const NameKinds: set<string> := {"function", "class"}

  /** Python truthiness of a value. */
  predicate Truthy(v: Value)
  {
    match v
    case VNone => false
    case VInt(i) => i != 0
    case VStr(s) => s != ""
    case VList(items) => items != []
    case VDict(entries) => entries != map[]
    case _ => true
  }

  /** Whether `v` can be looked up in a set: lists, dicts and non-frozen dataclasses cannot. */
  predicate Hashable(v: Value)
  {
    v.VNone? || v.VInt? || v.VStr?
  }

  /**
   * The body of the entity loop for one element: `entity.get("type")` and
   * `entity.get("name")` (only dicts have `get`), membership of the type in
   * {"function", "class"} (which needs a hashable type), and the truthiness
   * of the name. Ok(Some((kind, name))) is an append, Ok(None) a skip.
   */
  function EntityChoice(v: Value): (r: Result<Option<(string, Value)>>)
    ensures r.Ok? && r.value.Some? ==> r.value.value.0 in NameKinds && Truthy(r.value.value.1)
  {
    match v
    case VDict(d) =>
      var kind := GetOr(d, "type", VNone);
      var name := GetOr(d, "name", VNone);
      if !Hashable(kind) then Err(TypeError("unhashable type"))
      else if kind.VStr? && kind.s in NameKinds && Truthy(name) then Ok(Some((kind.s, name)))
      else Ok(None)
    case _ => Err(AttributeError("object has no attribute 'get'"))
  }

  function EmptyNames(): (m: Names)
    ensures m.Keys == NameKinds
  {
    map["function" := [], "class" := []]
  }

  /**
   * The entity loop over a sequence of entity values: the grouped names, or
   * the error of the first element that raises.
   */
  function GroupNames(vs: seq<Value>): (r: Result<Names>)
    ensures r.Ok? ==> r.value.Keys == NameKinds
    decreases |vs|
  {
    if vs == [] then Ok(EmptyNames())
    else
      var init := GroupNames(vs[..|vs| - 1]);
      var last := EntityChoice(vs[|vs| - 1]);
      if init.Err? then init
      else if last.Err? then Err(last.error)
      else if last.value.None? then init
      else
        var kind := last.value.value.0;
        Ok(init.value[kind := init.value[kind] + [last.value.value.1]])
  }

  /** The loop raises exactly when one of the elements does. */
  lemma {:induction false} GroupNamesRaises(vs: seq<Value>)
    ensures GroupNames(vs).Err? <==> exists i :: 0 <= i < |vs| && EntityChoice(vs[i]).Err?
    decreases |vs|
  {
    if vs != [] {
      var init := vs[..|vs| - 1];
      GroupNamesRaises(init);
      assert forall i :: 0 <= i < |init| ==> init[i] == vs[i];
      if GroupNames(vs).Err? && GroupNames(init).Ok? {
        assert EntityChoice(vs[|vs| - 1]).Err?;
      }
    }
  }

  lemma GroupNamesSnoc(vs: seq<Value>, v: Value)
    ensures GroupNames(vs + [v]) ==
              match GroupNames(vs)
              case Err(e) => Err(e)
              case Ok(m) =>
                match EntityChoice(v)
                case Err(e) => Err(e)
                case Ok(None) => Ok(m)
                case Ok(Some(p)) => Ok(m[p.0 := m[p.0] + [p.1]])
  {
    assert (vs + [v])[..|vs|] == vs;
  }

  /** Once an element has raised, later elements change nothing. */
  lemma {:induction false} GroupNamesSticky(p: seq<Value>, s: seq<Value>)
    requires p <= s && GroupNames(p).Err?
    ensures GroupNames(s) == GroupNames(p)
    decreases |s|
  {
    if |s| > |p| {
      assert p <= s[..|s| - 1];
      GroupNamesSticky(p, s[..|s| - 1]);
    } else {
      assert p == s;
    }
  }

  /** The entity values `extract_entity_names` visits: each file's `to_dict()["entities"]`, file after file. */
  function FileEntities(files: seq<CodeFile>): seq<Value>
    decreases |files|
  {
    if files == [] then [] else FileEntities(files[..|files| - 1]) + AsDictEach(files[|files| - 1].entities)
  }

  lemma {:induction false} FileEntitiesPrefix(files: seq<CodeFile>, i: nat)
    requires i <= |files|
    ensures FileEntities(files[..i]) <= FileEntities(files)
    decreases |files| - i
  {
    if i < |files| {
      FileEntitiesPrefix(files, i + 1);
      assert files[..i + 1][..i] == files[..i];
    } else {
      assert files[..i] == files;
    }
  }

  /** The names of the entities of one kind with a non-empty name, in order (records only). */
  function KindNames(es: seq<Value>, kind: string): (r: seq<Value>)
    ensures |r| <= |es|
    decreases |es|
  {
    if es == [] then []
    else
      var e := es[|es| - 1];
      KindNames(es[..|es| - 1], kind) + (if e.VEntity? && e.entity.kind == kind && e.entity.name != "" then [VStr(e.entity.name)] else [])
  }

  /**
   * On dataclass entities the loop never raises, and each kind's list holds
   * exactly the non-empty names of that kind, in order.
   */
  lemma {:induction false} GroupNamesOfRecords(es: seq<Value>)
    requires forall i :: 0 <= i < |es| ==> es[i].VEntity?
    ensures GroupNames(AsDictEach(es)) == Ok(map["function" := KindNames(es, "function"), "class" := KindNames(es, "class")])
    decreases |es|
  {
    if es == [] {
      assert AsDictEach(es) == [];
    } else {
      GroupNamesOfRecords(es[..|es| - 1]);
      GroupNamesRecordStep(es);
    }
  }

  /** The induction step of `GroupNamesOfRecords`: one more dataclass entity at the end. */
  lemma GroupNamesRecordStep(es: seq<Value>)
    requires |es| > 0 && es[|es| - 1].VEntity?
    requires var init := es[..|es| - 1];
             GroupNames(AsDictEach(init)) == Ok(map["function" := KindNames(init, "function"), "class" := KindNames(init, "class")])
    ensures GroupNames(AsDictEach(es)) == Ok(map["function" := KindNames(es, "function"), "class" := KindNames(es, "class")])
  {
    var e := es[|es| - 1].entity;
    AsDictEachLast(es);
    RecordChoice(e);
    KindNamesLast(es);
    if e.kind in NameKinds && e.name != "" {
      RecordKept(es);
    } else {
      RecordSkipped(es);
    }
  }

  lemma RecordKept(es: seq<Value>)
    requires |es| > 0 && es[|es| - 1].VEntity?
    requires var e := es[|es| - 1].entity; e.kind in NameKinds && e.name != ""
    requires var init := es[..|es| - 1];
             GroupNames(AsDictEach(init)) == Ok(map["function" := KindNames(init, "function"), "class" := KindNames(init, "class")])
    requires AsDictEach(es)[..|es| - 1] == AsDictEach(es[..|es| - 1])
    requires var e := es[|es| - 1].entity; EntityChoice(AsDictEach(es)[|es| - 1]) == Ok(Some((e.kind, VStr(e.name))))
    requires forall k :: KindNames(es, k) == KindNames(es[..|es| - 1], k) +
               (if es[|es| - 1].entity.kind == k && es[|es| - 1].entity.name != "" then [VStr(es[|es| - 1].entity.name)] else [])
    ensures GroupNames(AsDictEach(es)) == Ok(map["function" := KindNames(es, "function"), "class" := KindNames(es, "class")])
  {
    var init := es[..|es| - 1];
    var e := es[|es| - 1].entity;
    var f := KindNames(init, "function");
    var c := KindNames(init, "class");
    GroupNamesLast(AsDictEach(es), map["function" := f, "class" := c], Some((e.kind, VStr(e.name))));
    NameAppended(f, c, e.kind, VStr(e.name));
  }

  lemma RecordSkipped(es: seq<Value>)
    requires |es| > 0 && es[|es| - 1].VEntity?
    requires var e := es[|es| - 1].entity; !(e.kind in NameKinds && e.name != "")
    requires var init := es[..|es| - 1];
             GroupNames(AsDictEach(init)) == Ok(map["function" := KindNames(init, "function"), "class" := KindNames(init, "class")])
    requires AsDictEach(es)[..|es| - 1] == AsDictEach(es[..|es| - 1])
    requires EntityChoice(AsDictEach(es)[|es| - 1]) == Ok(None)
    requires forall k :: KindNames(es, k) == KindNames(es[..|es| - 1], k) +
               (if es[|es| - 1].entity.kind == k && es[|es| - 1].entity.name != "" then [VStr(es[|es| - 1].entity.name)] else [])
    ensures GroupNames(AsDictEach(es)) == Ok(map["function" := KindNames(es, "function"), "class" := KindNames(es, "class")])
  {
    var init := es[..|es| - 1];
    var f := KindNames(init, "function");
    var c := KindNames(init, "class");
    GroupNamesLast(AsDictEach(es), map["function" := f, "class" := c], None);
    assert KindNames(es, "function") == f + [] == f;
    assert KindNames(es, "class") == c + [] == c;
  }

  lemma KindNamesLast(es: seq<Value>)
    requires |es| > 0 && es[|es| - 1].VEntity?
    ensures forall k :: KindNames(es, k) == KindNames(es[..|es| - 1], k) +
              (if es[|es| - 1].entity.kind == k && es[|es| - 1].entity.name != "" then [VStr(es[|es| - 1].entity.name)] else [])
  {
  }

  /** The loop's last step, in terms of what it does with the last element. */
  lemma GroupNamesLast(vs: seq<Value>, prev: Names, choice: Option<(string, Value)>)
    requires |vs| > 0 && GroupNames(vs[..|vs| - 1]) == Ok(prev)
    requires EntityChoice(vs[|vs| - 1]) == Ok(choice)
    ensures choice.None? ==> GroupNames(vs) == Ok(prev)
    ensures choice.Some? ==> GroupNames(vs) == Ok(prev[choice.value.0 := prev[choice.value.0] + [choice.value.1]])
  {
  }

  /** Appending a name under one kind leaves the other kind's list as it was. */
  lemma NameAppended(f: seq<Value>, c: seq<Value>, kind: string, name: Value)
    requires kind in NameKinds
    ensures var m := map["function" := f, "class" := c];
            m[kind := m[kind] + [name]] ==
              map["function" := f + (if kind == "function" then [name] else []),
                  "class" := c + (if kind == "class" then [name] else [])]
  {
    if kind == "function" {
      assert c + [] == c;
    } else {
      assert f + [] == f;
    }
  }

  /** `to_dict` of all but the last element, and of the last one. */
  lemma AsDictEachLast(vs: seq<Value>)
    requires |vs| > 0
    ensures AsDictEach(vs)[..|vs| - 1] == AsDictEach(vs[..|vs| - 1])
    ensures AsDictEach(vs)[|vs| - 1] == AsDictIfRecord(vs[|vs| - 1])
  {
  }

  /** A dataclass entity, once turned into its field dict, is kept exactly when its kind is listed and its name is non-empty. */
  lemma RecordChoice(e: CodeEntity)
    ensures EntityChoice(VDict(EntityToDict(e))) ==
              if e.kind in NameKinds && e.name != "" then Ok(Some((e.kind, VStr(e.name)))) else Ok(None)
  {
    var d := EntityToDict(e);
    assert GetOr(d, "type", VNone) == VStr(e.kind);
    assert GetOr(d, "name", VNone) == VStr(e.name);
  }

  /** `extract_entity_names`: the loop over the files, returning the grouped names or raising. */
  method ExtractEntityNames(codeFiles: seq<CodeFile>) returns (r: Result<Names>)
    ensures r == GroupNames(FileEntities(codeFiles))
  {
    var extracted := EmptyNames();
    var i := 0;
    while i < |codeFiles|
      invariant i <= |codeFiles|
      invariant GroupNames(FileEntities(codeFiles[..i])) == Ok(extracted)
    {
      var fileDict := ToDict(codeFiles[i]);
      FileDictEntities(codeFiles[i]);
      var entities := GetOr(fileDict, "entities", VList([])).items;
      var next := GroupEntities(FileEntities(codeFiles[..i]), entities, extracted);
      FileEntitiesNext(codeFiles, i);
      if next.Err? {
        RaisedInFile(codeFiles, i);
        return next;
      }
      extracted := next.value;
      i := i + 1;
    }
    assert codeFiles[..i] == codeFiles;
    r := Ok(extracted);
  }

  /**
   * The inner loop over one file's entities, carrying on from `extracted`,
   * the grouping of the entities `seen` in earlier files.
   */
  method GroupEntities(ghost seen: seq<Value>, entities: seq<Value>, extracted: Names) returns (r: Result<Names>)
    requires GroupNames(seen) == Ok(extracted)
    ensures r == GroupNames(seen + entities)
  {
    var names := extracted;
    var j := 0;
    assert seen + entities[..j] == seen;
    while j < |entities|
      invariant j <= |entities|
      invariant GroupNames(seen + entities[..j]) == Ok(names)
    {
      var entity := entities[j];
      GroupNamesNext(seen, entities, j);
      var choice := EntityChoice(entity);
      if choice.Err? {
        RaisedInEntities(seen, entities, j);
        return Err(choice.error);
      }
      if choice.value.Some? {
        var kind := choice.value.value.0;
        names := names[kind := names[kind] + [choice.value.value.1]];
      }
      j := j + 1;
    }
    assert entities[..j] == entities;
    r := Ok(names);
  }

  lemma FileDictEntities(cf: CodeFile)
    ensures GetOr(ToDict(cf), "entities", VList([])) == VList(AsDictEach(cf.entities))
  {
    assert ToDict(cf)["entities"] == VList(AsDictEach(cf.entities));
  }

  lemma FileEntitiesNext(files: seq<CodeFile>, i: nat)
    requires i < |files|
    ensures FileEntities(files[..i + 1]) == FileEntities(files[..i]) + AsDictEach(files[i].entities)
  {
    assert files[..i + 1][..i] == files[..i];
  }

  /** The loop over one more element of a file's entities. */
  lemma GroupNamesNext(seen: seq<Value>, entities: seq<Value>, j: nat)
    requires j < |entities|
    ensures GroupNames(seen + entities[..j + 1]) ==
              match GroupNames(seen + entities[..j])
              case Err(e) => Err(e)
              case Ok(m) =>
                match EntityChoice(entities[j])
                case Err(e) => Err(e)
                case Ok(None) => Ok(m)
                case Ok(Some(p)) => Ok(m[p.0 := m[p.0] + [p.1]])
  {
    var s := seen + entities[..j + 1];
    assert s[..|s| - 1] == seen + entities[..j];
    assert s[|s| - 1] == entities[j];
  }

  /** An element that raises ends the whole loop with its error. */
  lemma RaisedInEntities(seen: seq<Value>, entities: seq<Value>, j: nat)
    requires j < |entities| && GroupNames(seen + entities[..j + 1]).Err?
    ensures GroupNames(seen + entities) == GroupNames(seen + entities[..j + 1])
  {
    assert seen + entities[..j + 1] <= seen + entities;
    GroupNamesSticky(seen + entities[..j + 1], seen + entities);
  }

  /** A file whose entities raise ends the whole loop with that error. */
  lemma RaisedInFile(files: seq<CodeFile>, i: nat)
    requires i < |files|
    requires GroupNames(FileEntities(files[..i]) + AsDictEach(files[i].entities)).Err?
    ensures GroupNames(FileEntities(files)) == GroupNames(FileEntities(files[..i]) + AsDictEach(files[i].entities))
  {
    FileEntitiesThrough(files, i);
    GroupNamesSticky(FileEntities(files[..i]) + AsDictEach(files[i].entities), FileEntities(files));
  }

  lemma FileEntitiesThrough(files: seq<CodeFile>, i: nat)
    requires i < |files|
    ensures FileEntities(files[..i]) + AsDictEach(files[i].entities) <= FileEntities(files)
  {
    FileEntitiesNext(files, i);
    FileEntitiesPrefix(files, i + 1);
  }

  // ---- fallback_reformulated_queries ----

  const ReformulationKeySet: set<string> := {"graphdb_query", "metadata_query", "faiss_query", "documentation_query"}
  const DefaultModules: seq<string> := ["ModuleA", "ModuleB"]
  const DefaultFunctions: seq<string> := ["processData()"]
  const GraphdbPrefix := "Find all function calls and dependencies between modules: "
  const MetadataPrefix := "Retrieve file paths, API references, and documentation for modules: "
  const FaissPrefix := "Search for similar embeddings to functions: "
  const DocumentationPrefix := "Find all documentation entries mentioning modules: "

  /** The characters of a string as one-character strings, as iterating over a `str` yields them. */
  function Chars(s: string): (r: seq<string>)
    ensures |r| == |s|
    ensures forall i :: 0 <= i < |s| ==> r[i] == [s[i]]
  {
    if s == [] then [] else [[s[0]]] + Chars(s[1..])
  }

  /**
   * `", ".join(v)`: a list of strings is joined, a string is joined character
   * by character, anything else raises TypeError.
   */
  function JoinValue(v: Value): (r: Result<string>)
    ensures v.VList? && AsStrs(v.items).Ok? ==> r == Ok(Join(", ", AsStrs(v.items).value))
    ensures v.VStr? ==> r == Ok(Join(", ", Chars(v.s)))
    ensures !v.VList? && !v.VStr? ==> r.Err?
  {
    match v
    case VList(items) =>
      if AsStrs(items).Ok? then Ok(Join(", ", AsStrs(items).value))
      else Err(TypeError("sequence item: expected str instance"))
    case VStr(s) => Ok(Join(", ", Chars(s)))
    case _ => Err(TypeError("can only join an iterable"))
  }

  /** The four template queries for joined module and function names. */
  function Templates(modules: string, functions: string): (d: Dict)
    ensures d.Keys == ReformulationKeySet
  {
    map["graphdb_query" := VStr(GraphdbPrefix + modules + "."),
        "metadata_query" := VStr(MetadataPrefix + modules + "."),
        "faiss_query" := VStr(FaissPrefix + functions + "."),
        "documentation_query" := VStr(DocumentationPrefix + modules + ".")]
  }

  /**
   * `fallback_reformulated_queries` (the second of its two definitions is
   * the one bound at import): defaults stand in only for absent keys.
   */
  function FallbackReformulatedQueries(extracted: Dict): (r: Result<Dict>)
    ensures r.Ok? ==> r.value.Keys == ReformulationKeySet
  {
    var modules := JoinValue(GetOr(extracted, "modules", StrListValue(DefaultModules)));
    var functions := JoinValue(GetOr(extracted, "functions", StrListValue(DefaultFunctions)));
    if modules.Err? then Err(modules.error)
    else if functions.Err? then Err(functions.error)
    else Ok(Templates(modules.value, functions.value))
  }

  /** With neither key present the default names are used. */
  lemma FallbackDefaults()
    ensures FallbackReformulatedQueries(map[]) ==
              Ok(Templates("ModuleA, ModuleB", "processData()"))
  {
    StrListRoundTrip(DefaultModules);
    StrListRoundTrip(DefaultFunctions);
    assert DefaultModules[1..] == ["ModuleB"];
    assert Join(", ", DefaultModules) == "ModuleA, ModuleB";
    assert Join(", ", DefaultFunctions) == "processData()";
  }

  /** A key that is present, even with an empty list, is used as it is. */
  lemma FallbackEmptyListsKept(extracted: Dict)
    requires "modules" in extracted && extracted["modules"] == VList([])
    requires "functions" in extracted && extracted["functions"] == VList([])
    ensures FallbackReformulatedQueries(extracted) == Ok(Templates("", ""))
  {
  }

  /** Composed with the heuristic dict, the templates list the heuristic names in order of appearance. */
  lemma HeuristicFallback(query: string)
    ensures FallbackReformulatedQueries(HeuristicExtraction(query)) ==
              Ok(Templates(Join(", ", Capitalised(query)), Join(", ", Calls(query))))
  {
    StrListRoundTrip(Capitalised(query));
    StrListRoundTrip(Calls(query));
  }

  // ---- build_faiss_query_from_graph ----

  /** "Node: X", with ". Depends on: a, b" appended when X has successors. */
  function FaissQueryText(name: string, deps: seq<string>): (q: string)
    ensures StartsWith(q, "Node: " + name)
    ensures deps == [] <==> q == "Node: " + name
    ensures deps != [] ==> q[|"Node: " + name|..] == ". Depends on: " + Join(", ", deps)
  {
    var head := "Node: " + name;
    if deps == [] then Join(". ", [head])
    else
      var tail := "Depends on: " + Join(", ", deps);
      assert [head, tail][1..] == [tail];
      assert Join(". ", [head, tail]) == head + ". " + tail;
      assert (head + ". " + tail)[|head|..] == ". Depends on: " + Join(", ", deps);
      Join(". ", [head, tail])
  }

  /** The query string for a node of the graph; `get_dependencies` raises for a name that is not a node. */
  function FaissQueryOf(g: Graph, name: string): (r: Result<string>)
    ensures r.Ok? <==> name in g.nodeAttrs
  {
    match Successors(g, name)
    case Ok(deps) => Ok(FaissQueryText(name, deps))
    case Err(e) => Err(e)
  }

  /**
   * Once a call has been indexed, the query string of its caller lists its
   * callee under "Depends on".
   */
  lemma IndexedCallShowsInQuery(g: Graph, c: FunctionCall)
    requires WellFormed(g)
    ensures var h := CallStep(g, VCall(c)).graph;
            && Successors(h, c.caller).Ok?
            && c.callee in Successors(h, c.caller).value
            && FaissQueryOf(h, c.caller) == Ok(FaissQueryText(c.caller, Successors(h, c.caller).value))
            && FaissQueryOf(h, c.caller) != Ok("Node: " + c.caller)
  {
    var h := CallStep(g, VCall(c)).graph;
    CallStepWellFormed(g, VCall(c));
    CallStepEffect(g, c);
    assert (c.caller, c.callee) in h.edges;
  }

  /** `build_faiss_query_from_graph(node_name)` over the cached graph. */
  method BuildFaissQueryFromGraph(gm: GraphModule, name: string) returns (r: Result<string>)
    requires gm.Valid()
    modifies gm
    ensures gm.Valid() && r == FaissQueryOf(old(gm.Current()), name)
    ensures gm.cache == Some(old(gm.Current())) && gm.disk == old(gm.DiskAfterLoad())
  {
    var deps := gm.GetDependencies(name);
    if deps.Err? {
      return Err(deps.error);
    }
    var parts := ["Node: " + name];
    if deps.value != [] {
      parts := parts + ["Depends on: " + Join(", ", deps.value)];
    }
    r := Ok(Join(". ", parts));
  }

  // ---- get_extraction_from_gemini: fallback and validation ----

  const ExtractionKeys: seq<string> := ["functions", "modules", "classification"]
  const ExtractionKeySet: set<string> := {"functions", "modules", "classification"}
  const NoKnownEntities := "Invalid query: The query does not reference any known function or class names from our context."

  /** `response.replace("'", "\"")`. */
  function FixQuotes(s: string): (r: string)
    ensures |r| == |s|
    ensures forall i :: 0 <= i < |s| ==> r[i] == (if s[i] == '\'' then '"' else s[i])
  {
    if s == [] then [] else [if s[0] == '\'' then '"' else s[0]] + FixQuotes(s[1..])
  }

  /** Python's `key in data` for a decoded JSON value: keys of a dict, items of a list, substrings of a string. */
  function HasKey(data: Value, key: string): (r: Result<bool>)
    ensures data.VDict? ==> r == Ok(key in data.entries)
  {
    match data
    case VDict(m) => Ok(key in m)
    case VList(items) => Ok(VStr(key) in items)
    case VStr(s) => Ok(Contains(s, key))
    case _ => Err(TypeError("argument of type is not iterable"))
  }

  /** `all(key in data for key in keys)`, stopping at the first False. */
  function HasKeys(data: Value, keys: seq<string>): (r: Result<bool>)
    ensures data.VDict? ==> r == Ok(forall i :: 0 <= i < |keys| ==> keys[i] in data.entries)
    decreases |keys|
  {
    if keys == [] then Ok(true)
    else
      match HasKey(data, keys[0])
      case Err(e) => Err(e)
      case Ok(false) => Ok(false)
      case Ok(true) =>
        var rest := HasKeys(data, keys[1..]);
        assert forall i :: 1 <= i < |keys| ==> keys[i] == keys[1..][i - 1];
        rest
  }

  /** The reply decoded as `get_extraction_from_gemini` does: as is, then with quotes fixed. */
  function Decode(reply: string, loads: string -> Option<Value>): Option<Value>
  {
    if loads(reply).Some? then loads(reply) else loads(FixQuotes(reply))
  }

  /**
   * What `get_extraction_from_gemini` returns for an LLM reply (`None` when
   * the call failed): the heuristic dict when there is no reply, it does not
   * decode, or a key is missing; SystemExit when both name lists are empty;
   * otherwise the decoded data itself.
   */
  function ExtractionFromReply(query: string, reply: Option<string>, loads: string -> Option<Value>): (r: Result<Value>)
    ensures r.Ok? ==> r.value.VDict? && ExtractionKeySet <= r.value.entries.Keys
    ensures r.Err? ==> r.error.SystemExit? || r.error.TypeError? || r.error.AttributeError?
  {
    if reply.None? then Ok(VDict(HeuristicExtraction(query)))
    else
      match Decode(reply.value, loads)
      case None => Ok(VDict(HeuristicExtraction(query)))
      case Some(data) =>
        match HasKeys(data, ExtractionKeys)
        case Err(e) => Err(e)
        case Ok(false) => Ok(VDict(HeuristicExtraction(query)))
        case Ok(true) =>
          if !data.VDict? then Err(AttributeError("object has no attribute 'get'"))
          else if !Truthy(GetOr(data.entries, "functions", VNone)) && !Truthy(GetOr(data.entries, "modules", VNone)) then
            Err(SystemExit(NoKnownEntities))
          else
            assert forall i :: 0 <= i < |ExtractionKeys| ==> ExtractionKeys[i] in data.entries;
            assert ExtractionKeys[0] == "functions" && ExtractionKeys[1] == "modules" && ExtractionKeys[2] == "classification";
            Ok(data)
  }

  /** A failed call, an undecodable reply, or a dict missing a key all give the heuristic dict. */
  lemma ExtractionFallsBack(query: string, reply: Option<string>, loads: string -> Option<Value>)
    requires reply.None?
             || Decode(reply.value, loads).None?
             || (Decode(reply.value, loads).value.VDict? && !(ExtractionKeySet <= Decode(reply.value, loads).value.entries.Keys))
    ensures ExtractionFromReply(query, reply, loads) == Ok(VDict(HeuristicExtraction(query)))
  {
    if reply.Some? && Decode(reply.value, loads).Some? {
      var m := Decode(reply.value, loads).value.entries;
      var k :| k in ExtractionKeySet && k !in m;
      assert k == ExtractionKeys[0] || k == ExtractionKeys[1] || k == ExtractionKeys[2];
    }
  }

  /** A decoded dict with all three keys is returned as it is exactly when it names a function or a module. */
  lemma ExtractionValidates(query: string, reply: string, loads: string -> Option<Value>)
    requires Decode(reply, loads).Some? && Decode(reply, loads).value.VDict?
    requires ExtractionKeySet <= Decode(reply, loads).value.entries.Keys
    ensures var m := Decode(reply, loads).value.entries;
            ExtractionFromReply(query, Some(reply), loads) ==
              if Truthy(m["functions"]) || Truthy(m["modules"]) then Ok(VDict(m)) else Err(SystemExit(NoKnownEntities))
  {
    var data := Decode(reply, loads).value;
    assert forall i :: 0 <= i < |ExtractionKeys| ==> ExtractionKeys[i] in data.entries;
  }

  /**
   * Only the LLM's answer is checked for names: a query in which the
   * heuristic finds none still gets its (empty) heuristic dict, while the
   * same empty lists from the LLM end the program.
   */
  lemma EmptyHeuristicNotRejected(query: string, reply: string, loads: string -> Option<Value>)
    requires Calls(query) == [] && Capitalised(query) == []
    requires Decode(reply, loads) == Some(VDict(HeuristicExtraction(query)))
    ensures ExtractionFromReply(query, None, loads) == Ok(VDict(HeuristicExtraction(query)))
    ensures ExtractionFromReply(query, Some(reply), loads) == Err(SystemExit(NoKnownEntities))
  {
    ExtractionValidates(query, reply, loads);
  }

  /** A decoded JSON number makes the key test raise TypeError; a list holding the three key names passes it and then has no `get`. */
  lemma NonDictReplyRaises(query: string, reply: string, loads: string -> Option<Value>)
    requires Decode(reply, loads).Some?
    ensures Decode(reply, loads).value.VInt? ==> ExtractionFromReply(query, Some(reply), loads).Err? && ExtractionFromReply(query, Some(reply), loads).error.TypeError?
    ensures Decode(reply, loads).value == VList([VStr("functions"), VStr("modules"), VStr("classification")]) ==>
              ExtractionFromReply(query, Some(reply), loads) == Err(AttributeError("object has no attribute 'get'"))
  {
  }

  /**
   * `get_extraction_from_gemini(query)` around the LLM call: the known names
   * are gathered from every stored code file first, so a failure there
   * raises before any reply is looked at. `json.dumps` of the grouped names
   * (lists of strings) cannot fail. The reply is an input.
   */
  method GetExtractionFromGemini(query: string, store: CodefileRetriever.Store, reply: Option<string>,
                                 loads: string -> Option<Value>) returns (r: Result<Value>)
    ensures var files := CodefileRetriever.RebuildAll(CodefileRetriever.FindAll(store, ToDictKeys), CodefileRetriever.FromDocument);
      && (files.Err? ==> r == Err(files.error))
      && (files.Ok? && GroupNames(FileEntities(files.value)).Err? ==> r == Err(GroupNames(FileEntities(files.value)).error))
      && (files.Ok? && GroupNames(FileEntities(files.value)).Ok? ==> r == ExtractionFromReply(query, reply, loads))
  {
    var files := CodefileRetriever.FetchAllCodeFiles(store);
    if files.Err? {
      return Err(files.error);
    }
    var names := ExtractEntityNames(files.value);
    if names.Err? {
      return Err(names.error);
    }
    r := ExtractionFromReply(query, reply, loads);
  }
}

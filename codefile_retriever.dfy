/**
 * The document-to-`CodeFile` transformers of `src/retrievers/codefile_retriever.py`.
 *
 * The document store is the list of stored documents in insertion order;
 * `find_one` answers the first match and `find` every match, each projected
 * onto the keys its query names (the `fetch_*` helpers of
 * `src/utils/mongodb_utils.py`). A stored value matches a query value when
 * it equals it or is an array holding it, as in the store's query language.
 *
 * A found document is rebuilt with `CodeEntity(**e)` / `FunctionCall(**fc)`
 * per element and `document.get(key, default)` for every field. When no
 * document is found, the retriever calls `log_error` with one argument
 * although it takes two, so that path raises TypeError; the `Fixed`
 * functions return None there instead.
 */
module CodefileRetriever {
  import opened Common
  import opened DataModels

  /** The stored documents, in insertion order. */
  type Store = seq<Dict>

  /** What `log_error(message)` raises: the logger argument is missing. */
  const LogErrorArity := TypeError("log_error() missing 1 required positional argument: 'message'")

  /** `{"_id": 0, "raw_code": 1}`. */
  const RawCodeProjection: set<string> := {"raw_code"}

  /** A projection onto `keys`: the document's entries under those keys and no others. */
  function Project(doc: Dict, keys: set<string>): (r: Dict)
    ensures r.Keys == doc.Keys * keys
    ensures forall k :: k in r ==> r[k] == doc[k]
  {
    map k | k in doc.Keys * keys :: doc[k]
  }

  /** `{key: want}` matches the document: the value equals `want` or is an array holding it. */
  predicate FieldMatches(doc: Dict, key: string, want: Value)
  {
    key in doc && (doc[key] == want || (doc[key].VList? && want in doc[key].items))
  }

  /** `{"type": "CodeFile.class", key: want}`. */
  predicate Selected(doc: Dict, key: string, want: Value)
  {
    FieldMatches(doc, "type", VStr(CodeFileType)) && FieldMatches(doc, key, want)
  }

  /** The position of the first document `find_one` picks, from `i` on. */
  function FirstFrom(store: Store, key: string, want: Value, i: nat): (r: Option<nat>)
    requires i <= |store|
    ensures r.Some? ==> i <= r.value < |store| && Selected(store[r.value], key, want)
    ensures r.Some? ==> forall j :: i <= j < r.value ==> !Selected(store[j], key, want)
    ensures r.None? ==> forall j :: i <= j < |store| ==> !Selected(store[j], key, want)
    decreases |store| - i
  {
    if i == |store| then None
    else if Selected(store[i], key, want) then Some(i)
    else FirstFrom(store, key, want, i + 1)
  }

  /** `find_one({"type": "CodeFile.class", key: want}, projection)`. */
  function FindOne(store: Store, key: string, want: Value, projection: set<string>): Option<Dict>
  {
    match FirstFrom(store, key, want, 0)
    case Some(i) => Some(Project(store[i], projection))
    case None => None
  }

  /** `list(find({"type": "CodeFile.class"}, projection))`, in store order. */
  function FindAll(store: Store, projection: set<string>): (docs: seq<Dict>)
    ensures |docs| <= |store|
    decreases |store|
  {
    if store == [] then []
    else
      var last := store[|store| - 1];
      FindAll(store[..|store| - 1], projection)
      + (if FieldMatches(last, "type", VStr(CodeFileType)) then [Project(last, projection)] else [])
  }

  /** `find` over two stretches of the store answers the first stretch's documents before the second's. */
  lemma {:induction false} FindAllAppend(a: Store, b: Store, projection: set<string>)
    ensures FindAll(a + b, projection) == FindAll(a, projection) + FindAll(b, projection)
    decreases |b|
  {
    if b == [] {
      assert a + b == a;
    } else {
      var c := b[..|b| - 1];
      assert (a + b)[..|a + b| - 1] == a + c;
      assert (a + b)[|a + b| - 1] == b[|b| - 1];
      FindAllAppend(a, c, projection);
    }
  }

  /** `find` answers exactly the projections of the documents typed "CodeFile.class". */
  lemma {:induction false} FindAllMembers(store: Store, projection: set<string>)
    ensures forall x :: x in FindAll(store, projection) <==>
              exists i :: 0 <= i < |store| && FieldMatches(store[i], "type", VStr(CodeFileType)) && Project(store[i], projection) == x
    decreases |store|
  {
    if store != [] {
      var c := store[..|store| - 1];
      FindAllMembers(c, projection);
      assert forall i :: 0 <= i < |c| ==> c[i] == store[i];
    }
  }

  /** What `for x in value` yields for a stored value; a non-iterable value raises. */
  function Elements(v: Value): (r: Result<seq<Value>>)
    ensures v.VList? ==> r == Ok(v.items)
    ensures v.VNone? || v.VInt? ==> r.Err?
  {
    match v
    case VList(items) => Ok(items)
    case VStr(s) => Ok(seq(|s|, i requires 0 <= i < |s| => VStr([s[i]])))
    case VDict(m) =>
      // iterating a dict yields its keys, and `**key` refuses a string
      if m == map[] then Ok([]) else Err(TypeError("argument after ** must be a mapping, not str"))
    case _ => Err(TypeError("object is not iterable"))
  }

  /** `CodeEntity(**d)` as a Python value. */
  function BuildEntity(d: Dict): (r: Result<Value>)
    ensures r.Ok? <==> EntityFromDict(d).Ok?
    ensures r.Ok? ==> r.value == VEntity(EntityFromDict(d).value)
  {
    match EntityFromDict(d)
    case Ok(e) => Ok(VEntity(e))
    case Err(x) => Err(x)
  }

  /** `FunctionCall(**d)` as a Python value. */
  function BuildCall(d: Dict): (r: Result<Value>)
    ensures r.Ok? <==> CallFromDict(d).Ok?
    ensures r.Ok? ==> r.value == VCall(CallFromDict(d).value)
  {
    match CallFromDict(d)
    case Ok(c) => Ok(VCall(c))
    case Err(x) => Err(x)
  }

  /** `[Record(**x) for x in items]`: the first element that is not a mapping or not accepted raises. */
  function RebuildEach(items: seq<Value>, build: Dict -> Result<Value>): (r: Result<seq<Value>>)
    ensures r.Ok? <==> forall i :: 0 <= i < |items| ==> items[i].VDict? && build(items[i].entries).Ok?
    ensures r.Ok? ==> |r.value| == |items|
    ensures r.Ok? ==> forall i :: 0 <= i < |items| ==> Ok(r.value[i]) == build(items[i].entries)
    decreases |items|
  {
    if items == [] then Ok([])
    else if !items[0].VDict? then Err(TypeError("argument after ** must be a mapping"))
    else
      var first := build(items[0].entries);
      if first.Err? then Err(first.error)
      else
        var rest := RebuildEach(items[1..], build);
        if rest.Err? then rest
        else
          assert forall i :: 1 <= i < |items| ==> items[i] == items[1..][i - 1];
          Ok([first.value] + rest.value)
  }

  /**
   * The `CodeFile(...)` call over already rebuilt entities and calls: every
   * other field is `document.get(key, default)`. A value of the wrong type
   * is refused here (Python would store it).
   */
  function FieldsFrom(d: Dict, entities: seq<Value>, calls: seq<Value>): (r: Result<CodeFile>)
    ensures r.Ok? ==> r.value.entities == entities && r.value.function_calls == calls
    ensures r.Ok? && "file_path" !in d ==> r.value.file_path == None
    ensures r.Ok? && "raw_code" !in d ==> r.value.raw_code == None
    ensures r.Ok? && "cleaned_code" !in d ==> r.value.cleaned_code == None
    ensures r.Ok? && "docstrings" !in d ==> r.value.docstrings == []
    ensures r.Ok? && "imports" !in d ==> r.value.imports == []
    ensures r.Ok? && "global_variables" !in d ==> r.value.global_variables == []
    ensures r.Ok? && "embedding_ids" !in d ==> r.value.embedding_ids == []
    ensures r.Ok? && "type" !in d ==> r.value.kind == CodeFileType
  {
    var filePath := AsOptStr(GetOr(d, "file_path", VNone));
    var rawCode := AsOptStr(GetOr(d, "raw_code", VNone));
    var cleaned := AsOptStr(GetOr(d, "cleaned_code", VNone));
    var docstrings := AsStrList(GetOr(d, "docstrings", VList([])));
    var imports := AsStrList(GetOr(d, "imports", VList([])));
    var globals := GetOr(d, "global_variables", VList([]));
    var ids := AsIntList(GetOr(d, "embedding_ids", VList([])));
    var kind := GetOr(d, "type", VStr(CodeFileType));
    if filePath.Err? then Err(filePath.error)
    else if rawCode.Err? then Err(rawCode.error)
    else if cleaned.Err? then Err(cleaned.error)
    else if docstrings.Err? then Err(docstrings.error)
    else if imports.Err? then Err(imports.error)
    else if !globals.VList? then Err(TypeError("global_variables is not a list"))
    else if ids.Err? then Err(ids.error)
    else if !kind.VStr? then Err(TypeError("type is not a str"))
    else Ok(CodeFile(ids.value, filePath.value, entities, rawCode.value, cleaned.value,
                     docstrings.value, calls, imports.value, globals.items, kind.s))
  }

  /** The body shared by the three transformers: rebuild one found document. */
  function FromDocument(d: Dict): (r: Result<CodeFile>)
    ensures r.Ok? ==> AllRecords(r.value)
    ensures r.Ok? && "entities" !in d ==> r.value.entities == []
    ensures r.Ok? && "function_calls" !in d ==> r.value.function_calls == []
  {
    var es := Elements(GetOr(d, "entities", VList([])));
    if es.Err? then Err(es.error)
    else
      var entities := RebuildEach(es.value, BuildEntity);
      if entities.Err? then Err(entities.error)
      else
        var cs := Elements(GetOr(d, "function_calls", VList([])));
        if cs.Err? then Err(cs.error)
        else
          var calls := RebuildEach(cs.value, BuildCall);
          if calls.Err? then Err(calls.error)
          else FieldsFrom(d, entities.value, calls.value)
  }

  /** `if not document`: None or an empty dict. */
  predicate Falsy(doc: Option<Dict>)
  {
    doc.None? || doc.value == map[]
  }

  /** Rebuild a found document; a missing one takes the `log_error` path, which raises as written. */
  function FromFound(doc: Option<Dict>): (r: Result<Option<CodeFile>>)
    ensures Falsy(doc) ==> r == Err(LogErrorArity)
  {
    if Falsy(doc) then Err(LogErrorArity)
    else match FromDocument(doc.value)
      case Ok(cf) => Ok(Some(cf))
      case Err(e) => Err(e)
  }

  /** `FromFound` with the missing-document path returning None, as the function's contract says. */
  function FromFoundFixed(doc: Option<Dict>): (r: Result<Option<CodeFile>>)
    ensures Falsy(doc) ==> r == Ok(None)
    ensures !Falsy(doc) ==> r == FromFound(doc)
  {
    if Falsy(doc) then Ok(None) else FromFound(doc)
  }

  /**
   * `fetch_code_file_by_file_path(path)` as written. The query projects
   * onto `raw_code` alone, so a rebuilt file never carries its path, its
   * lists or its type from the store.
   */
  function FetchCodeFileByFilePath(store: Store, path: string): (r: Result<Option<CodeFile>>)
    ensures r.Ok? && r.value.Some? ==>
              var cf := r.value.value;
              && cf.file_path == None && cf.cleaned_code == None && cf.kind == CodeFileType
              && cf.entities == [] && cf.function_calls == [] && cf.docstrings == []
              && cf.imports == [] && cf.global_variables == [] && cf.embedding_ids == []
    ensures FirstFrom(store, "file_path", VStr(path), 0).None? ==> r == Err(LogErrorArity)
  {
    FromFound(FindOne(store, "file_path", VStr(path), RawCodeProjection))
  }

  /** `fetch_code_file_by_file_path(path)` answering None when nothing is stored under the path. */
  function FetchCodeFileByFilePathFixed(store: Store, path: string): (r: Result<Option<CodeFile>>)
    ensures FirstFrom(store, "file_path", VStr(path), 0).None? ==> r == Ok(None)
  {
    FromFoundFixed(FindOne(store, "file_path", VStr(path), RawCodeProjection))
  }

  /** `fetch_code_file_by_embedding_id(id)` as written: the first code document listing the id. */
  function FetchCodeFileByEmbeddingId(store: Store, id: int): (r: Result<Option<CodeFile>>)
    ensures FirstFrom(store, "embedding_ids", VInt(id), 0).None? ==> r == Err(LogErrorArity)
  {
    FromFound(FindOne(store, "embedding_ids", VInt(id), ToDictKeys))
  }

  /** `fetch_code_file_by_embedding_id(id)` answering None when no document lists the id. */
  function FetchCodeFileByEmbeddingIdFixed(store: Store, id: int): (r: Result<Option<CodeFile>>)
    ensures FirstFrom(store, "embedding_ids", VInt(id), 0).None? ==> r == Ok(None)
  {
    FromFoundFixed(FindOne(store, "embedding_ids", VInt(id), ToDictKeys))
  }

  /** Rebuild every document in order with `rebuild`; the first one that cannot be rebuilt raises. */
  function RebuildAll(docs: seq<Dict>, rebuild: Dict -> Result<CodeFile>): (r: Result<seq<CodeFile>>)
    ensures r.Ok? <==> forall i :: 0 <= i < |docs| ==> rebuild(docs[i]).Ok?
    ensures r.Ok? ==> |r.value| == |docs| && forall i :: 0 <= i < |docs| ==> rebuild(docs[i]) == Ok(r.value[i])
    decreases |docs|
  {
    if docs == [] then Ok([])
    else
      var front := RebuildAll(docs[..|docs| - 1], rebuild);
      var last := rebuild(docs[|docs| - 1]);
      if front.Err? then front
      else if last.Err? then Err(last.error)
      else Ok(front.value + [last.value])
  }

  /** `fetch_all_code_files()`: one CodeFile per stored code document, in store order. */
  method FetchAllCodeFiles(store: Store) returns (r: Result<seq<CodeFile>>)
    ensures r == RebuildAll(FindAll(store, ToDictKeys), FromDocument)
  {
    var documents := FindAll(store, ToDictKeys);
    var codeFiles: seq<CodeFile> := [];
    var i := 0;
    while i < |documents|
      invariant i <= |documents|
      invariant RebuildAll(documents[..i], FromDocument) == Ok(codeFiles)
    {
      assert documents[..i + 1][..i] == documents[..i];
      var cf := FromDocument(documents[i]);
      if cf.Err? {
        RebuildAllSticky(documents, FromDocument, i + 1);
        return Err(cf.error);
      }
      codeFiles := codeFiles + [cf.value];
      i := i + 1;
    }
    assert documents[..i] == documents;
    r := Ok(codeFiles);
  }

  /** Once a document cannot be rebuilt, later documents do not change the outcome. */
  lemma {:induction false} RebuildAllSticky(docs: seq<Dict>, rebuild: Dict -> Result<CodeFile>, i: nat)
    requires i <= |docs| && RebuildAll(docs[..i], rebuild).Err?
    ensures RebuildAll(docs, rebuild) == RebuildAll(docs[..i], rebuild)
    decreases |docs| - i
  {
    if i < |docs| {
      assert docs[..i + 1][..i] == docs[..i];
      RebuildAllSticky(docs, rebuild, i + 1);
    } else {
      assert docs[..i] == docs;
    }
  }

  // ---- round trip with `to_dict` ----

  /** Rebuilding the field dicts `to_dict` writes for records gives the records back. */
  lemma {:induction false} RebuildEntitiesRoundTrip(vs: seq<Value>)
    requires forall i :: 0 <= i < |vs| ==> vs[i].VEntity?
    ensures RebuildEach(AsDictEach(vs), BuildEntity) == Ok(vs)
    decreases |vs|
  {
    if vs != [] {
      EntityDictRoundTrip(vs[0].entity);
      AsDictEachTail(vs);
      RebuildEntitiesRoundTrip(vs[1..]);
      HeadTail(vs);
    }
  }

  lemma AsDictEachTail(vs: seq<Value>)
    requires vs != []
    ensures AsDictEach(vs)[1..] == AsDictEach(vs[1..])
  {
  }

  lemma HeadTail(vs: seq<Value>)
    requires vs != []
    ensures [vs[0]] + vs[1..] == vs
  {
  }

  lemma {:induction false} RebuildCallsRoundTrip(vs: seq<Value>)
    requires forall i :: 0 <= i < |vs| ==> vs[i].VCall?
    ensures RebuildEach(AsDictEach(vs), BuildCall) == Ok(vs)
    decreases |vs|
  {
    if vs != [] {
      CallDictRoundTrip(vs[0].call);
      AsDictEachTail(vs);
      RebuildCallsRoundTrip(vs[1..]);
      HeadTail(vs);
    }
  }

  /**
   * Round trip: a CodeFile whose entities and calls are records is rebuilt
   * exactly from its own `to_dict()`.
   */
  lemma DocumentRoundTrip(cf: CodeFile)
    requires AllRecords(cf)
    ensures FromDocument(ToDict(cf)) == Ok(cf)
  {
    var d := ToDict(cf);
    ToDictConvertsRecords(cf);
    ToDictCopiesLists(cf);
    ToDictCopiesScalars(cf);
    assert d["entities"] == VList(AsDictEach(cf.entities));
    assert d["function_calls"] == VList(AsDictEach(cf.function_calls));
    RebuildEntitiesRoundTrip(cf.entities);
    RebuildCallsRoundTrip(cf.function_calls);
  }

  /** The ten-key projection of a stored `to_dict()` is the whole document. */
  lemma ProjectToDict(cf: CodeFile)
    ensures Project(ToDict(cf), ToDictKeys) == ToDict(cf)
  {
    ToDictKeysExactly(cf);
  }

  /**
   * A CodeFile stored by `insert_code_file(cf.to_dict())` as the first code
   * document listing `id` comes back unchanged from the fetch by that id.
   */
  lemma FetchByEmbeddingIdRoundTrip(store: Store, i: nat, cf: CodeFile, id: int)
    requires AllRecords(cf) && cf.kind == CodeFileType && id in cf.embedding_ids
    requires i < |store| && store[i] == ToDict(cf)
    requires forall j :: 0 <= j < i ==> !Selected(store[j], "embedding_ids", VInt(id))
    ensures FetchCodeFileByEmbeddingId(store, id) == Ok(Some(cf))
  {
    FindsStored(store, i, cf, id);
    FoundToDict(cf);
  }

  lemma FoundToDict(cf: CodeFile)
    requires AllRecords(cf)
    ensures FromFound(Some(ToDict(cf))) == Ok(Some(cf))
  {
    DocumentRoundTrip(cf);
    assert "type" in ToDict(cf);
  }

  /** The stored `to_dict()` is found by any of its ids, whole. */
  lemma FindsStored(store: Store, i: nat, cf: CodeFile, id: int)
    requires cf.kind == CodeFileType && id in cf.embedding_ids
    requires i < |store| && store[i] == ToDict(cf)
    requires forall j :: 0 <= j < i ==> !Selected(store[j], "embedding_ids", VInt(id))
    ensures FindOne(store, "embedding_ids", VInt(id), ToDictKeys) == Some(ToDict(cf))
  {
    var ids := ToDict(cf)["embedding_ids"];
    assert ids == IntListValue(cf.embedding_ids);
    var k :| 0 <= k < |cf.embedding_ids| && cf.embedding_ids[k] == id;
    assert ids.items[k] == VInt(id);
    assert ToDict(cf)["type"] == VStr(CodeFileType);
    assert Selected(store[i], "embedding_ids", VInt(id));
    FirstIs(store, "embedding_ids", VInt(id), 0, i);
    ProjectToDict(cf);
  }

  lemma {:induction false} FirstIs(store: Store, key: string, want: Value, from: nat, i: nat)
    requires from <= i < |store| && Selected(store[i], key, want)
    requires forall j :: from <= j < i ==> !Selected(store[j], key, want)
    ensures FirstFrom(store, key, want, from) == Some(i)
    decreases i - from
  {
    if from < i {
      FirstIs(store, key, want, from + 1, i);
    }
  }

  /** Every stored document is the `to_dict()` of a CodeFile of records. */
  predicate StoresCodeFiles(store: Store, cfs: seq<CodeFile>)
  {
    && |store| == |cfs|
    && forall i :: 0 <= i < |cfs| ==> AllRecords(cfs[i]) && cfs[i].kind == CodeFileType && store[i] == ToDict(cfs[i])
  }

  /** Fetching everything from a store of `to_dict()` outputs gives the CodeFiles back, in order. */
  lemma {:induction false} FetchAllRoundTrip(store: Store, cfs: seq<CodeFile>)
    requires StoresCodeFiles(store, cfs)
    ensures RebuildAll(FindAll(store, ToDictKeys), FromDocument) == Ok(cfs)
    decreases |store|
  {
    if store != [] {
      var n := |store| - 1;
      assert StoresCodeFiles(store[..n], cfs[..n]);
      FetchAllRoundTrip(store[..n], cfs[..n]);
      FindAllToDict(store, cfs[n]);
      DocumentRoundTrip(cfs[n]);
      RebuildAllSnoc(FindAll(store[..n], ToDictKeys), store[n], FromDocument, cfs[..n], cfs[n]);
      SnocLast(cfs);
    }
  }

  /** A stored `to_dict()` output is selected, and projects to itself. */
  lemma FindAllToDict(store: Store, cf: CodeFile)
    requires store != [] && store[|store| - 1] == ToDict(cf) && cf.kind == CodeFileType
    ensures FindAll(store, ToDictKeys) == FindAll(store[..|store| - 1], ToDictKeys) + [store[|store| - 1]]
  {
    assert FieldMatches(ToDict(cf), "type", VStr(CodeFileType)) by {
      ToDictCopiesScalars(cf);
    }
    ProjectToDict(cf);
  }

  lemma RebuildAllSnoc(front: seq<Dict>, d: Dict, rebuild: Dict -> Result<CodeFile>, vs: seq<CodeFile>, x: CodeFile)
    requires RebuildAll(front, rebuild) == Ok(vs) && rebuild(d) == Ok(x)
    ensures RebuildAll(front + [d], rebuild) == Ok(vs + [x])
  {
    assert (front + [d])[..|front|] == front;
  }

  lemma SnocLast(s: seq<CodeFile>)
    requires s != []
    ensures s[..|s| - 1] + [s[|s| - 1]] == s
  {
  }

  /** As written, asking an empty store for any path or id raises; the fixed versions answer None. */
  lemma MissingDocumentRaises(path: string, id: int)
    ensures FetchCodeFileByFilePath([], path) == Err(LogErrorArity)
    ensures FetchCodeFileByEmbeddingId([], id) == Err(LogErrorArity)
    ensures FetchCodeFileByFilePathFixed([], path) == Ok(None)
    ensures FetchCodeFileByEmbeddingIdFixed([], id) == Ok(None)
  {
  }
}

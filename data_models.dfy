/**
 * The ingestion records: FunctionCall, CodeEntity, CodeFile (with `to_dict`),
 * DocumentationFile and IngestedData, and the Python values that flow through
 * the document store and the graph attributes.
 *
 * A dataclass's generated `__init__` is modelled as a function of the set of
 * keyword names the caller passes: an undeclared name or a missing required
 * field is a TypeError, a field not passed takes its default.
 * The Python field `type` is called `kind` here (`type` is a Dafny keyword);
 * the dictionary key stays "type".
 */
module DataModels {
  import opened Common

  /** A caller -> callee relationship at one call site. */
  datatype FunctionCall = FunctionCall(caller: string, callee: string, file_path: string, line_number: int)

  /** A function or class definition. */
  datatype CodeEntity = CodeEntity(
    name: string,
    kind: string,
    file_path: string,
    line_number: int,
    docstring: Option<string>,
    decorators: seq<string>,
    parents: seq<string>)

  /** A Python value: JSON-like data, or a dataclass instance of one of the two record types. */
  datatype Value =
    | VNone
    | VInt(i: int)
    | VStr(s: string)
    | VList(items: seq<Value>)
    | VDict(entries: map<string, Value>)
    | VEntity(entity: CodeEntity)
    | VCall(call: FunctionCall)

  type Dict = map<string, Value>

  /**
   * A parsed source file. `file_path`, `raw_code` and `cleaned_code` are
   * optional because the retriever fills them from `dict.get`, which yields
   * None for a missing key; `entities`, `function_calls` and
   * `global_variables` hold whatever the producer put there (records or dicts).
   */
  datatype CodeFile = CodeFile(
    embedding_ids: seq<int>,
    file_path: Option<string>,
    entities: seq<Value>,
    raw_code: Option<string>,
    cleaned_code: Option<string>,
    docstrings: seq<string>,
    function_calls: seq<Value>,
    imports: seq<string>,
    global_variables: seq<Value>,
    kind: string)

  datatype DocumentationFile = DocumentationFile(
    file_path: string,
    sections: seq<string>,
    raw_content: string,
    cleaned_content: Option<string>,
    api_references: string)

  datatype IngestedData = IngestedData(code_files: seq<CodeFile>, documentation_files: seq<DocumentationFile>)

  const CodeFileType := "CodeFile.class"

  const CodeFileFields: set<string> := {"embedding_ids", "file_path", "entities", "raw_code", "cleaned_code",
                                        "docstrings", "function_calls", "imports", "global_variables", "type"}
  const CodeFileRequired: set<string> := {"embedding_ids", "file_path"}

  const DocumentationFileFields: set<string> := {"file_path", "sections", "raw_content", "cleaned_content", "api_references"}
  const DocumentationFileRequired: set<string> := {"file_path"}

  const CodeEntityFields: set<string> := {"name", "type", "file_path", "line_number", "docstring", "decorators", "parents"}
  const CodeEntityRequired: set<string> := {"name", "type", "file_path", "line_number"}

  const FunctionCallFields: set<string> := {"caller", "callee", "file_path", "line_number"}

  /** The argument check of a generated dataclass `__init__`. */
  function KeywordCheck(given: set<string>, declared: set<string>, required: set<string>): (e: Option<Error>)
    ensures e.None? <==> required <= given <= declared
  {
    if !(given <= declared) then Some(TypeError("__init__() got an unexpected keyword argument"))
    else if !(required <= given) then Some(TypeError("__init__() missing a required argument"))
    else None
  }

  /**
   * `CodeFile(**kw)` where `given` is the set of keyword names and `args`
   * carries their values; fields not given take their defaults.
   */
  function NewCodeFile(given: set<string>, args: CodeFile): (r: Result<CodeFile>)
    ensures r.Ok? <==> CodeFileRequired <= given <= CodeFileFields
    ensures r.Ok? ==> r.value.embedding_ids == args.embedding_ids && r.value.file_path == args.file_path
    ensures r.Ok? && "entities" in given ==> r.value.entities == args.entities
    ensures r.Ok? && "raw_code" in given ==> r.value.raw_code == args.raw_code
    ensures r.Ok? && "cleaned_code" in given ==> r.value.cleaned_code == args.cleaned_code
    ensures r.Ok? && "docstrings" in given ==> r.value.docstrings == args.docstrings
    ensures r.Ok? && "function_calls" in given ==> r.value.function_calls == args.function_calls
    ensures r.Ok? && "imports" in given ==> r.value.imports == args.imports
    ensures r.Ok? && "global_variables" in given ==> r.value.global_variables == args.global_variables
    ensures r.Ok? && "type" in given ==> r.value.kind == args.kind
    ensures r.Ok? && given == CodeFileFields ==> r.value == args
  {
    match KeywordCheck(given, CodeFileFields, CodeFileRequired)
    case Some(e) => Err(e)
    case None =>
      Ok(CodeFile(
        args.embedding_ids,
        args.file_path,
        if "entities" in given then args.entities else [],
        if "raw_code" in given then args.raw_code else Some(""),
        if "cleaned_code" in given then args.cleaned_code else None,
        if "docstrings" in given then args.docstrings else [],
        if "function_calls" in given then args.function_calls else [],
        if "imports" in given then args.imports else [],
        if "global_variables" in given then args.global_variables else [],
        if "type" in given then args.kind else CodeFileType))
  }

  /** Every field but `embedding_ids` and `file_path` has a default; `type` defaults to "CodeFile.class". */
  lemma NewCodeFileDefaults(given: set<string>, args: CodeFile)
    requires CodeFileRequired <= given <= CodeFileFields
    ensures var cf := NewCodeFile(given, args).value;
      && ("entities" !in given ==> cf.entities == [])
      && ("raw_code" !in given ==> cf.raw_code == Some(""))
      && ("cleaned_code" !in given ==> cf.cleaned_code == None)
      && ("docstrings" !in given ==> cf.docstrings == [])
      && ("function_calls" !in given ==> cf.function_calls == [])
      && ("imports" !in given ==> cf.imports == [])
      && ("global_variables" !in given ==> cf.global_variables == [])
      && ("type" !in given ==> cf.kind == CodeFileType)
  {
  }

  /** `DocumentationFile(**kw)`: only the five declared fields are accepted. */
  function NewDocumentationFile(given: set<string>, args: DocumentationFile): (r: Result<DocumentationFile>)
    ensures r.Ok? <==> DocumentationFileRequired <= given <= DocumentationFileFields
    ensures r.Ok? ==> r.value.file_path == args.file_path
    ensures r.Ok? && given == DocumentationFileFields ==> r.value == args
    ensures r.Ok? && "sections" !in given ==> r.value.sections == []
    ensures r.Ok? && "raw_content" !in given ==> r.value.raw_content == ""
    ensures r.Ok? && "cleaned_content" !in given ==> r.value.cleaned_content == None
    ensures r.Ok? && "api_references" !in given ==> r.value.api_references == ""
  {
    match KeywordCheck(given, DocumentationFileFields, DocumentationFileRequired)
    case Some(e) => Err(e)
    case None =>
      Ok(DocumentationFile(
        args.file_path,
        if "sections" in given then args.sections else [],
        if "raw_content" in given then args.raw_content else "",
        if "cleaned_content" in given then args.cleaned_content else None,
        if "api_references" in given then args.api_references else ""))
  }

  /** `IngestedData()`: both lists start empty. */
  function NewIngestedData(): (d: IngestedData)
    ensures d.code_files == [] && d.documentation_files == []
  {
    IngestedData([], [])
  }

  // ---- conversions between typed fields and Python values ----

  function OptStrValue(o: Option<string>): Value
  {
    match o
    case None => VNone
    case Some(s) => VStr(s)
  }

  function StrListValue(xs: seq<string>): (v: Value)
    ensures v.VList? && |v.items| == |xs|
    ensures forall i :: 0 <= i < |xs| ==> v.items[i] == VStr(xs[i])
  {
    if xs == [] then VList([]) else VList([VStr(xs[0])] + StrListValue(xs[1..]).items)
  }

  function IntListValue(xs: seq<int>): (v: Value)
    ensures v.VList? && |v.items| == |xs|
    ensures forall i :: 0 <= i < |xs| ==> v.items[i] == VInt(xs[i])
  {
    if xs == [] then VList([]) else VList([VInt(xs[0])] + IntListValue(xs[1..]).items)
  }

  function AsStrs(items: seq<Value>): (r: Result<seq<string>>)
    ensures r.Ok? ==> StrListValue(r.value) == VList(items)
  {
    if items == [] then Ok([])
    else if !items[0].VStr? then Err(TypeError("expected a list of str"))
    else
      match AsStrs(items[1..])
      case Err(e) => Err(e)
      case Ok(rest) => Ok([items[0].s] + rest)
  }

  /** Reads back a list of strings; anything else is refused. */
  function AsStrList(v: Value): (r: Result<seq<string>>)
    ensures r.Ok? ==> StrListValue(r.value) == v
  {
    if v.VList? then AsStrs(v.items) else Err(TypeError("expected a list of str"))
  }

  function AsInts(items: seq<Value>): (r: Result<seq<int>>)
    ensures r.Ok? ==> IntListValue(r.value) == VList(items)
  {
    if items == [] then Ok([])
    else if !items[0].VInt? then Err(TypeError("expected a list of int"))
    else
      match AsInts(items[1..])
      case Err(e) => Err(e)
      case Ok(rest) => Ok([items[0].i] + rest)
  }

  function AsIntList(v: Value): (r: Result<seq<int>>)
    ensures r.Ok? ==> IntListValue(r.value) == v
  {
    if v.VList? then AsInts(v.items) else Err(TypeError("expected a list of int"))
  }

  function AsOptStr(v: Value): (r: Result<Option<string>>)
    ensures r.Ok? ==> OptStrValue(r.value) == v
  {
    match v
    case VNone => Ok(None)
    case VStr(s) => Ok(Some(s))
    case _ => Err(TypeError("expected str or None"))
  }

  lemma {:induction false} StrListRoundTrip(xs: seq<string>)
    ensures AsStrList(StrListValue(xs)) == Ok(xs)
    ensures AsStrs(StrListValue(xs).items) == Ok(xs)
    decreases |xs|
  {
    if xs != [] {
      StrListRoundTrip(xs[1..]);
      var items := StrListValue(xs).items;
      assert items[1..] == StrListValue(xs[1..]).items;
      assert xs == [xs[0]] + xs[1..];
    }
  }


  lemma {:induction false} IntListRoundTrip(xs: seq<int>)
    ensures AsIntList(IntListValue(xs)) == Ok(xs)
    ensures AsInts(IntListValue(xs).items) == Ok(xs)
    decreases |xs|
  {
    if xs != [] {
      IntListRoundTrip(xs[1..]);
      var items := IntListValue(xs).items;
      assert items[1..] == IntListValue(xs[1..]).items;
      assert xs == [xs[0]] + xs[1..];
    }
  }


  // ---- dataclasses.asdict and keyword construction from a dict ----

  /** `asdict(entity)`. */
  function EntityToDict(e: CodeEntity): Dict
  {
    map["name" := VStr(e.name), "type" := VStr(e.kind), "file_path" := VStr(e.file_path),
        "line_number" := VInt(e.line_number), "docstring" := OptStrValue(e.docstring),
        "decorators" := StrListValue(e.decorators), "parents" := StrListValue(e.parents)]
  }

  /** `asdict(call)`. */
  function CallToDict(c: FunctionCall): Dict
  {
    map["caller" := VStr(c.caller), "callee" := VStr(c.callee), "file_path" := VStr(c.file_path),
        "line_number" := VInt(c.line_number)]
  }

  function GetOr(d: Dict, key: string, default: Value): Value
  {
    if key in d then d[key] else default
  }

  /**
   * `CodeEntity(**d)`. Unknown or missing keys raise TypeError, as in Python;
   * a field of the wrong type is also refused here (Python would store it).
   */
  function EntityFromDict(d: Dict): (r: Result<CodeEntity>)
    ensures r.Ok? ==> CodeEntityRequired <= d.Keys <= CodeEntityFields
  {
    if KeywordCheck(d.Keys, CodeEntityFields, CodeEntityRequired).Some? then
      Err(KeywordCheck(d.Keys, CodeEntityFields, CodeEntityRequired).value)
    else if !(d["name"].VStr? && d["type"].VStr? && d["file_path"].VStr? && d["line_number"].VInt?) then
      Err(TypeError("CodeEntity field of unexpected type"))
    else
      var doc := AsOptStr(GetOr(d, "docstring", VNone));
      var decorators := AsStrList(GetOr(d, "decorators", VList([])));
      var parents := AsStrList(GetOr(d, "parents", VList([])));
      if doc.Err? then Err(doc.error)
      else if decorators.Err? then Err(decorators.error)
      else if parents.Err? then Err(parents.error)
      else Ok(CodeEntity(d["name"].s, d["type"].s, d["file_path"].s, d["line_number"].i,
                         doc.value, decorators.value, parents.value))
  }

  /** `FunctionCall(**d)`: all four fields are required. */
  function CallFromDict(d: Dict): (r: Result<FunctionCall>)
    ensures r.Ok? ==> d.Keys == FunctionCallFields
  {
    if KeywordCheck(d.Keys, FunctionCallFields, FunctionCallFields).Some? then
      Err(KeywordCheck(d.Keys, FunctionCallFields, FunctionCallFields).value)
    else if !(d["caller"].VStr? && d["callee"].VStr? && d["file_path"].VStr? && d["line_number"].VInt?) then
      Err(TypeError("FunctionCall field of unexpected type"))
    else Ok(FunctionCall(d["caller"].s, d["callee"].s, d["file_path"].s, d["line_number"].i))
  }

  /** `asdict` writes exactly the declared field names. */
  lemma RecordDictKeys(e: CodeEntity, c: FunctionCall)
    ensures EntityToDict(e).Keys == CodeEntityFields
    ensures CallToDict(c).Keys == FunctionCallFields
  {
  }

  lemma EntityDictRoundTrip(e: CodeEntity)
    ensures EntityFromDict(EntityToDict(e)) == Ok(e)
  {
    var d := EntityToDict(e);
    RecordDictKeys(e, FunctionCall("", "", "", 0));
    EntityFieldsAccepted(d);
    StrListRoundTrip(e.decorators);
    StrListRoundTrip(e.parents);
    assert AsOptStr(OptStrValue(e.docstring)) == Ok(e.docstring);
  }

  lemma EntityFieldsAccepted(d: Dict)
    requires d.Keys == CodeEntityFields
    ensures KeywordCheck(d.Keys, CodeEntityFields, CodeEntityRequired).None?
  {
  }

  lemma CallDictRoundTrip(c: FunctionCall)
    ensures CallFromDict(CallToDict(c)) == Ok(c)
  {
    var d := CallToDict(c);
    assert d.Keys == FunctionCallFields;
    assert d["caller"] == VStr(c.caller) && d["callee"] == VStr(c.callee);
    assert d["file_path"] == VStr(c.file_path) && d["line_number"] == VInt(c.line_number);
  }

  /** Building a CodeEntity from only its four required keys gives the defaults. */
  lemma EntityDefaults(name: string, kind: string, path: string, line: int)
    ensures EntityFromDict(map["name" := VStr(name), "type" := VStr(kind), "file_path" := VStr(path),
                                "line_number" := VInt(line)])
            == Ok(CodeEntity(name, kind, path, line, None, [], []))
  {
    var d := map["name" := VStr(name), "type" := VStr(kind), "file_path" := VStr(path), "line_number" := VInt(line)];
    assert d.Keys == CodeEntityRequired;
    StrListRoundTrip([]);
  }

  // ---- CodeFile.to_dict ----

  /** `asdict(x) if is_dataclass(x) else x`. */
  function AsDictIfRecord(v: Value): (r: Value)
    ensures v.VEntity? ==> r == VDict(EntityToDict(v.entity))
    ensures v.VCall? ==> r == VDict(CallToDict(v.call))
    ensures !v.VEntity? && !v.VCall? ==> r == v
  {
    match v
    case VEntity(e) => VDict(EntityToDict(e))
    case VCall(c) => VDict(CallToDict(c))
    case _ => v
  }

  function AsDictEach(vs: seq<Value>): (r: seq<Value>)
    ensures |r| == |vs|
    ensures forall i :: 0 <= i < |vs| ==> r[i] == AsDictIfRecord(vs[i])
  {
    if vs == [] then [] else [AsDictIfRecord(vs[0])] + AsDictEach(vs[1..])
  }

  const ToDictKeys: set<string> := {"file_path", "entities", "raw_code", "cleaned_code", "docstrings",
                                    "function_calls", "imports", "global_variables", "embedding_ids", "type"}

  /** `CodeFile.to_dict()`: the ten fields as a dict, records turned into field dicts. */
  function ToDict(cf: CodeFile): Dict
  {
    map["file_path" := OptStrValue(cf.file_path),
        "entities" := VList(AsDictEach(cf.entities)),
        "raw_code" := OptStrValue(cf.raw_code),
        "cleaned_code" := OptStrValue(cf.cleaned_code),
        "docstrings" := StrListValue(cf.docstrings),
        "function_calls" := VList(AsDictEach(cf.function_calls)),
        "imports" := StrListValue(cf.imports),
        "global_variables" := VList(cf.global_variables),
        "embedding_ids" := IntListValue(cf.embedding_ids),
        "type" := VStr(cf.kind)]
  }

  /** `to_dict` writes exactly the ten field names. */
  lemma ToDictKeysExactly(cf: CodeFile)
    ensures ToDict(cf).Keys == ToDictKeys
  {
  }

  /** The entity and call lists are copied element by element, each record turned into its field dict. */
  lemma ToDictConvertsRecords(cf: CodeFile)
    ensures "entities" in ToDict(cf) && ToDict(cf)["entities"].VList?
    ensures |ToDict(cf)["entities"].items| == |cf.entities|
    ensures forall i :: 0 <= i < |cf.entities| ==> ToDict(cf)["entities"].items[i] == AsDictIfRecord(cf.entities[i])
    ensures "function_calls" in ToDict(cf) && ToDict(cf)["function_calls"].VList?
    ensures |ToDict(cf)["function_calls"].items| == |cf.function_calls|
    ensures forall i :: 0 <= i < |cf.function_calls| ==>
              ToDict(cf)["function_calls"].items[i] == AsDictIfRecord(cf.function_calls[i])
  {
    var d := ToDict(cf);
    assert d["entities"] == VList(AsDictEach(cf.entities));
    assert d["function_calls"] == VList(AsDictEach(cf.function_calls));
  }

  /** Every element of a CodeFile's entity and call lists is a dataclass instance. */
  predicate AllRecords(cf: CodeFile)
  {
    && (forall i :: 0 <= i < |cf.entities| ==> cf.entities[i].VEntity?)
    && (forall i :: 0 <= i < |cf.function_calls| ==> cf.function_calls[i].VCall?)
  }

  /** The list fields other than entities and calls are copied into the dict unchanged. */
  lemma ToDictCopiesLists(cf: CodeFile)
    ensures AsStrList(ToDict(cf)["docstrings"]) == Ok(cf.docstrings)
    ensures AsStrList(ToDict(cf)["imports"]) == Ok(cf.imports)
    ensures AsIntList(ToDict(cf)["embedding_ids"]) == Ok(cf.embedding_ids)
    ensures ToDict(cf)["global_variables"] == VList(cf.global_variables)
  {
    var d := ToDict(cf);
    assert d["docstrings"] == StrListValue(cf.docstrings);
    assert d["imports"] == StrListValue(cf.imports);
    assert d["embedding_ids"] == IntListValue(cf.embedding_ids);
    StrListRoundTrip(cf.docstrings);
    StrListRoundTrip(cf.imports);
    IntListRoundTrip(cf.embedding_ids);
  }

  /** The scalar fields are copied into the dict unchanged. */
  lemma ToDictCopiesScalars(cf: CodeFile)
    ensures AsOptStr(ToDict(cf)["file_path"]) == Ok(cf.file_path)
    ensures AsOptStr(ToDict(cf)["raw_code"]) == Ok(cf.raw_code)
    ensures AsOptStr(ToDict(cf)["cleaned_code"]) == Ok(cf.cleaned_code)
    ensures ToDict(cf)["type"] == VStr(cf.kind)
  {
    var d := ToDict(cf);
    assert d["file_path"] == OptStrValue(cf.file_path);
    assert d["raw_code"] == OptStrValue(cf.raw_code);
    assert d["cleaned_code"] == OptStrValue(cf.cleaned_code);
    OptStrRoundTrip(cf.file_path);
    OptStrRoundTrip(cf.raw_code);
    OptStrRoundTrip(cf.cleaned_code);
  }

  lemma OptStrRoundTrip(o: Option<string>)
    ensures AsOptStr(OptStrValue(o)) == Ok(o)
  {
  }
}

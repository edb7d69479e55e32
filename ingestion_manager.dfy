/**
 * `IngestionManager` of `src/ingestion/ingestion_manager.py`: crawl a
 * directory, pick a parser by extension, and push every parsed record
 * through the vector index, the document store and the call graph.
 *
 * Per code file the writes come in a fixed order: the index call, the
 * `embedding_id` attribute, the store insert, the graph update, then the
 * append to the result. Any exception skips the rest of that file only;
 * nothing already written is undone. A documentation file is indexed and
 * then fails on `to_dict`, which `DocumentationFile` does not have.
 *
 * The indexer is whatever object the caller passes. The three indexer
 * classes of the repository are modelled with their actual signatures;
 * any other object is a pair of opaque replies.
 */
module IngestionManager {
  import opened Common
  import opened DataModels
  import opened EmbeddingUtils
  import opened Indexers
  import opened GraphdbUtils
  import opened GraphdbIndexer
  import opened FileCrawler
  import opened CodeParser
  import opened DocParser
  import opened CodefileRetriever

  /** What a parser hands back. */
  datatype Parsed = CodeResult(cf: CodeFile) | DocResult(doc: DocumentationFile) | NoRecord

  type Parser = string -> Result<Parsed>

  /** The object passed as `indexer`. */
  datatype IndexerRef =
    | CodeBert(code: ManagedIndexer)          // `CodeBERTIndexer`
    | DocFile(doc: ManagedIndexer)            // the `DocumentIndexer` of docfile_indexer.py
    | Metadata(meta: ModuleIndexer)           // the `DocumentIndexer` of metadata_indexer.py
    | DuckTyped(addCode: Option<string> -> Result<int>, addDocument: string -> Result<int>)

  /** `parse_code_file` behind the common parser signature. */
  function CodeParsed(r: Result<CodeFile>): Result<Parsed>
  {
    match r
    case Ok(cf) => Ok(CodeResult(cf))
    case Err(e) => Err(e)
  }

  /** `parse_doc_file` behind the common parser signature. */
  function DocParsed(r: Result<Option<DocumentationFile>>): Result<Parsed>
  {
    match r
    case Ok(Some(d)) => Ok(DocResult(d))
    case Ok(None) => Ok(NoRecord)
    case Err(e) => Err(e)
  }

  /** The ".py" entry of the registry: the module function `parse_code_file`. */
  function PyParse(src: Sources, path: string): Result<Parsed>
  {
    CodeParsed(ParseCodeFileResult(src, path))
  }

  /** The ".md" entry of the registry: the module function `parse_doc_file`. */
  function MdParse(src: Sources, path: string): Result<Parsed>
  {
    DocParsed(ParseDocFileResult(src.files, path))
  }

  function PyParseFixed(src: Sources, path: string): Result<Parsed>
  {
    CodeParsed(ParseCodeFileFixedResult(src, path))
  }

  function MdParseFixed(src: Sources, path: string): Result<Parsed>
  {
    DocParsed(ParseDocFileFixedResult(src.files, path))
  }

  /** The registry `__init__` installs: ".py" and ".md" only. */
  function AsWrittenParsers(src: Sources): (parsers: map<string, Parser>)
    ensures parsers.Keys == {".py", ".md"}
  {
    map[".py" := (path: string) => PyParse(src, path), ".md" := (path: string) => MdParse(src, path)]
  }

  /** The registry with both parsers corrected. */
  function FixedParsers(src: Sources): (parsers: map<string, Parser>)
    ensures parsers.Keys == {".py", ".md"}
  {
    map[".py" := (path: string) => PyParseFixed(src, path), ".md" := (path: string) => MdParseFixed(src, path)]
  }

  /** `f".{file.split('.')[-1]}"`: a dot and the text after the last dot of the whole path. */
  function ExtensionKey(path: string): (key: string)
    ensures |key| >= 1 && key[0] == '.' && '.' !in key[1..]
    ensures EndsWith(path, key[1..])
  {
    "." + AfterLast(path, '.')
  }

  /** `CodeBERTIndexer.add_code_to_index` also takes the FAISS manager. */
  const CodeBertArity := TypeError("add_code_to_index() missing 1 required positional argument: 'faiss_manager'")

  /** Both `DocumentIndexer` classes lack the method. */
  const NoAddCode := AttributeError("'DocumentIndexer' object has no attribute 'add_code_to_index'")

  /** `DocumentationFile` has no `to_dict`. */
  const NoDocToDict := AttributeError("'DocumentationFile' object has no attribute 'to_dict'")

  /** The answer of `indexer.add_code_to_index(code_file.raw_code)`: one argument, as written. */
  function IndexCodeReply(indexer: IndexerRef, text: Option<string>): (r: Result<int>)
    ensures indexer.CodeBert? ==> r == Err(CodeBertArity)
    ensures indexer.DocFile? || indexer.Metadata? ==> r == Err(NoAddCode)
    ensures indexer.DuckTyped? ==> r == indexer.addCode(text)
  {
    match indexer
    case CodeBert(_) => Err(CodeBertArity)
    case DocFile(_) => Err(NoAddCode)
    case Metadata(_) => Err(NoAddCode)
    case DuckTyped(addCode, _) => addCode(text)
  }

  /**
   * The record `insert_code_file(code_file.to_dict())` stores, as written:
   * the id went to an attribute `to_dict` does not read.
   */
  function StoredRecord(cf: CodeFile, id: int): CodeFile
  {
    cf
  }

  /** The record as evidently intended: the new id listed in `embedding_ids`. */
  function StoredRecordFixed(cf: CodeFile, id: int): (r: CodeFile)
    ensures r.embedding_ids == cf.embedding_ids + [id]
    ensures r == cf.(embedding_ids := r.embedding_ids)
  {
    cf.(embedding_ids := cf.embedding_ids + [id])
  }

  /** The part of the process the loop changes: the graph, the store and the result so far. */
  datatype World = World(graph: Graph, docs: Store, data: IngestedData)

  /** The writes for a parsed code file: store insert, graph update, then the append to the result. */
  function Record(w: World, cf: CodeFile, id: int): World
  {
    var docs := w.docs + [ToDict(StoredRecord(cf, id))];
    var p := Relate(w.graph, cf);
    if p.error.Some? then World(p.graph, docs, w.data)
    else World(p.graph, docs, w.data.(code_files := w.data.code_files + [cf]))
  }

  /** A parsed code file: nothing happens unless the index call answers. */
  function CodeStep(w: World, cf: CodeFile, indexer: IndexerRef): World
  {
    match IndexCodeReply(indexer, cf.raw_code)
    case Err(_) => w
    case Ok(id) => Record(w, cf, id)
  }

  /** One turn of the `for file in files` loop. */
  function IngestStep(w: World, path: string, parsers: map<string, Parser>, indexer: IndexerRef): World
  {
    var key := ExtensionKey(path);
    if key !in parsers then w
    else match parsers[key](path)
      case Ok(CodeResult(cf)) => CodeStep(w, cf, indexer)
      case _ => w
  }

  /** The whole loop over `files`, in order. */
  function IngestAll(w: World, files: seq<string>, parsers: map<string, Parser>, indexer: IndexerRef): World
    decreases |files|
  {
    if files == [] then w
    else IngestStep(IngestAll(w, files[..|files| - 1], parsers, indexer), files[|files| - 1], parsers, indexer)
  }

  /** The row `add_document_to_index(doc_file.raw_content)` appends, if the append succeeds. */
  function DocRowOf(d: DocumentationFile, encode: Encoder, dim: nat, width: nat): seq<Row>
  {
    if encode(d.raw_content).Ok? && |encode(d.raw_content).value| == dim && width == dim
    then [encode(d.raw_content).value] else []
  }

  /** The row a documentation file adds to the metadata indexer's index. */
  function DocRow(path: string, parsers: map<string, Parser>, encode: Encoder, dim: nat, width: nat): seq<Row>
  {
    var key := ExtensionKey(path);
    if key !in parsers then []
    else match parsers[key](path)
      case Ok(DocResult(d)) => DocRowOf(d, encode, dim, width)
      case _ => []
  }

  function DocRows(files: seq<string>, parsers: map<string, Parser>, encode: Encoder, dim: nat, width: nat): seq<Row>
    decreases |files|
  {
    if files == [] then []
    else DocRows(files[..|files| - 1], parsers, encode, dim, width) + DocRow(files[|files| - 1], parsers, encode, dim, width)
  }

  /** The document collection. */
  class DocumentStore {
    var docs: Store

    constructor (docs: Store)
      ensures this.docs == docs
    {
      this.docs := docs;
    }

    /** `insert_code_file(doc)`: appended at the end. */
    method InsertCodeFile(doc: Dict)
      modifies this
      ensures docs == old(docs) + [doc]
    {
      docs := docs + [doc];
    }
  }

  class IngestionManager {
    const rootDir: string
    const parsers: map<string, Parser>
    const indexer: IndexerRef
    /** The module-level collaborators: the document store and the graph cache. */
    const store: DocumentStore
    const graph: GraphModule

    constructor (rootDir: string, indexer: IndexerRef, src: Sources, store: DocumentStore, graph: GraphModule)
      ensures this.rootDir == rootDir && this.indexer == indexer && this.store == store && this.graph == graph
      ensures parsers == AsWrittenParsers(src)
    {
      this.rootDir := rootDir;
      this.parsers := AsWrittenParsers(src);
      this.indexer := indexer;
      this.store := store;
      this.graph := graph;
    }

    /** What the indexer may change: only the metadata indexer writes, through the shared index. */
    function IndexerFrame(): set<object>
    {
      if indexer.Metadata? then {indexer.meta, indexer.meta.shared, indexer.meta.shared.slot} else {}
    }

    /** A parsed code file: index it, record the id, store it, relate it, list it. */
    method IngestCode(cf: CodeFile, data: IngestedData) returns (next: IngestedData)
      requires graph.Valid()
      modifies store, graph
      ensures graph.Valid()
      ensures World(graph.Current(), store.docs, next) == CodeStep(World(old(graph.Current()), old(store.docs), data), cf, indexer)
    {
      next := data;
      var id := IndexCodeReply(indexer, cf.raw_code);
      if id.Err? {
        return;
      }
      // `code_file.embedding_id = embedding_id`: an attribute `to_dict` does not read
      store.InsertCodeFile(ToDict(StoredRecord(cf, id.value)));
      var err := AddCallerCalleeRelations(graph, cf);
      if err.None? {
        next := data.(code_files := data.code_files + [cf]);
      }
    }

    /** A parsed documentation file: indexed (by the metadata indexer only), then `to_dict` raises. */
    method IngestDoc(d: DocumentationFile)
      modifies IndexerFrame()
      ensures indexer.Metadata? ==>
                && indexer.meta.shared.Rows() == old(indexer.meta.shared.Rows()) + DocRowOf(d, indexer.meta.encode, indexer.meta.shared.dim, old(indexer.meta.shared.Width()))
                && indexer.meta.shared.Width() == old(indexer.meta.shared.Width())
                && indexer.meta.idCount == old(indexer.meta.idCount) + |DocRowOf(d, indexer.meta.encode, indexer.meta.shared.dim, old(indexer.meta.shared.Width()))|
    {
      if indexer.Metadata? {
        var id := indexer.meta.AddDocumentToIndex(d.raw_content);
      }
      // the other two indexers raise on the call; every path then raises NoDocToDict
    }

    /** One file: dispatch on the extension, parse, then the writes of its record. */
    method IngestFile(path: string, data: IngestedData) returns (next: IngestedData)
      requires graph.Valid()
      modifies store, graph, IndexerFrame()
      ensures graph.Valid()
      ensures World(graph.Current(), store.docs, next)
              == IngestStep(World(old(graph.Current()), old(store.docs), data), path, parsers, indexer)
      ensures indexer.Metadata? ==>
                && indexer.meta.shared.Rows() == old(indexer.meta.shared.Rows()) + DocRow(path, parsers, indexer.meta.encode, indexer.meta.shared.dim, old(indexer.meta.shared.Width()))
                && indexer.meta.shared.Width() == old(indexer.meta.shared.Width())
                && indexer.meta.idCount == old(indexer.meta.idCount) + |DocRow(path, parsers, indexer.meta.encode, indexer.meta.shared.dim, old(indexer.meta.shared.Width()))|
    {
      next := data;
      ghost var w := World(graph.Current(), store.docs, data);
      ghost var width := if indexer.Metadata? then indexer.meta.shared.Width() else 0;
      var key := ExtensionKey(path);
      if key !in parsers {
        // log_warning: no parser registered
        IngestStepSkips(w, path, parsers, indexer);
        if indexer.Metadata? {
          DocRowSkips(path, parsers, indexer.meta.encode, indexer.meta.shared.dim, width);
        }
        return;
      }
      var parsed := parsers[key](path);
      next := IngestParsed(path, parsed, data);
    }

    /** The rest of one file once its parser has answered `parsed`. */
    method IngestParsed(path: string, parsed: Result<Parsed>, data: IngestedData) returns (next: IngestedData)
      requires graph.Valid()
      requires ExtensionKey(path) in parsers && parsed == parsers[ExtensionKey(path)](path)
      modifies store, graph, IndexerFrame()
      ensures graph.Valid()
      ensures World(graph.Current(), store.docs, next)
              == IngestStep(World(old(graph.Current()), old(store.docs), data), path, parsers, indexer)
      ensures indexer.Metadata? ==>
                && indexer.meta.shared.Rows() == old(indexer.meta.shared.Rows()) + DocRow(path, parsers, indexer.meta.encode, indexer.meta.shared.dim, old(indexer.meta.shared.Width()))
                && indexer.meta.shared.Width() == old(indexer.meta.shared.Width())
                && indexer.meta.idCount == old(indexer.meta.idCount) + |DocRow(path, parsers, indexer.meta.encode, indexer.meta.shared.dim, old(indexer.meta.shared.Width()))|
    {
      next := data;
      ghost var w := World(graph.Current(), store.docs, data);
      ghost var width := if indexer.Metadata? then indexer.meta.shared.Width() else 0;
      if parsed.Err? || parsed.value.NoRecord? {
        // log_warning: failed to parse
        IngestStepSkips(w, path, parsers, indexer);
        if indexer.Metadata? {
          DocRowSkips(path, parsers, indexer.meta.encode, indexer.meta.shared.dim, width);
        }
      } else if parsed.value.DocResult? {
        IngestStepSkips(w, path, parsers, indexer);
        if indexer.Metadata? {
          DocRowParsed(path, parsers, indexer.meta.encode, indexer.meta.shared.dim, width, parsed.value.doc);
        }
        IngestDoc(parsed.value.doc);
      } else {
        IngestStepCode(w, path, parsers, indexer, parsed.value.cf);
        if indexer.Metadata? {
          DocRowSkips(path, parsers, indexer.meta.encode, indexer.meta.shared.dim, width);
        }
        next := IngestCode(parsed.value.cf, data);
      }
    }

    /** `ingest()`: every crawled file in order; the result lists only what got through every step. */
    method Ingest(walk: seq<WalkEntry>) returns (data: IngestedData)
      requires graph.Valid()
      modifies store, graph, IndexerFrame()
      ensures graph.Valid()
      ensures World(graph.Current(), store.docs, data)
              == IngestAll(World(old(graph.Current()), old(store.docs), NewIngestedData()),
                           Matches(walk, DefaultExtensions), parsers, indexer)
      ensures indexer.Metadata? ==>
                indexer.meta.shared.Rows() == old(indexer.meta.shared.Rows()) + DocRows(Matches(walk, DefaultExtensions), parsers, indexer.meta.encode,
                                                        indexer.meta.shared.dim, old(indexer.meta.shared.Width()))
      ensures indexer.Metadata? ==>
                indexer.meta.idCount == old(indexer.meta.idCount) + |DocRows(Matches(walk, DefaultExtensions), parsers, indexer.meta.encode,
                                                                 indexer.meta.shared.dim, old(indexer.meta.shared.Width()))|
    {
      var files := CrawlFiles(walk, None);
      data := IngestFiles(files, NewIngestedData());
    }

    /** The loop of `ingest()`: the files in order, from the state `data0` started with. */
    method IngestFiles(files: seq<string>, data0: IngestedData) returns (data: IngestedData)
      requires graph.Valid()
      modifies store, graph, IndexerFrame()
      ensures graph.Valid()
      ensures World(graph.Current(), store.docs, data)
              == IngestAll(World(old(graph.Current()), old(store.docs), data0), files, parsers, indexer)
      ensures indexer.Metadata? ==>
                indexer.meta.shared.Rows() == old(indexer.meta.shared.Rows()) + DocRows(files, parsers, indexer.meta.encode,
                                                        indexer.meta.shared.dim, old(indexer.meta.shared.Width()))
      ensures indexer.Metadata? ==>
                indexer.meta.idCount == old(indexer.meta.idCount) + |DocRows(files, parsers, indexer.meta.encode,
                                                                 indexer.meta.shared.dim, old(indexer.meta.shared.Width()))|
    {
      data := data0;
      ghost var w0 := World(graph.Current(), store.docs, data);
      ghost var meta := indexer.Metadata?;
      ghost var rows0 := if meta then indexer.meta.shared.Rows() else [];
      ghost var width0 := if meta then indexer.meta.shared.Width() else 0;
      ghost var ids0 := if meta then indexer.meta.idCount else 0;
      for i := 0 to |files|
        invariant graph.Valid()
        invariant World(graph.Current(), store.docs, data) == IngestAll(w0, files[..i], parsers, indexer)
        invariant meta ==> indexer.meta.shared.Width() == width0
        invariant meta ==> indexer.meta.shared.Rows() == rows0 + DocRows(files[..i], parsers, indexer.meta.encode, indexer.meta.shared.dim, width0)
        invariant meta ==> indexer.meta.idCount == ids0 + |DocRows(files[..i], parsers, indexer.meta.encode, indexer.meta.shared.dim, width0)|
      {
        data := IngestNext(files, i, data, w0, rows0, width0, ids0);
      }
      assert files[..|files|] == files;
    }

    /** One turn of the `ingest` loop, stated over the files done so far. */
    method IngestNext(files: seq<string>, i: nat, data: IngestedData, ghost w0: World, ghost rows0: seq<Row>, ghost width0: nat,
                      ghost ids0: int)
      returns (next: IngestedData)
      requires i < |files| && graph.Valid()
      requires World(graph.Current(), store.docs, data) == IngestAll(w0, files[..i], parsers, indexer)
      requires indexer.Metadata? ==> indexer.meta.shared.Width() == width0
      requires indexer.Metadata? ==>
                 indexer.meta.shared.Rows() == rows0 + DocRows(files[..i], parsers, indexer.meta.encode, indexer.meta.shared.dim, width0)
      requires indexer.Metadata? ==>
                 indexer.meta.idCount == ids0 + |DocRows(files[..i], parsers, indexer.meta.encode, indexer.meta.shared.dim, width0)|
      modifies store, graph, IndexerFrame()
      ensures graph.Valid()
      ensures World(graph.Current(), store.docs, next) == IngestAll(w0, files[..i + 1], parsers, indexer)
      ensures indexer.Metadata? ==> indexer.meta.shared.Width() == width0
      ensures indexer.Metadata? ==>
                indexer.meta.shared.Rows() == rows0 + DocRows(files[..i + 1], parsers, indexer.meta.encode, indexer.meta.shared.dim, width0)
      ensures indexer.Metadata? ==>
                indexer.meta.idCount == ids0 + |DocRows(files[..i + 1], parsers, indexer.meta.encode, indexer.meta.shared.dim, width0)|
    {
      IngestAllSnoc(w0, files, i, parsers, indexer);
      if indexer.Metadata? {
        DocRowsSnoc(rows0, indexer.meta.shared.Rows(), files, i, parsers, indexer.meta.encode, indexer.meta.shared.dim, width0);
      }
      next := IngestFile(files[i], data);
    }
  }

  /** The loop's prefix grows one file at a time. */
  lemma IngestAllSnoc(w: World, files: seq<string>, i: nat, parsers: map<string, Parser>, indexer: IndexerRef)
    requires i < |files|
    ensures IngestAll(w, files[..i + 1], parsers, indexer) == IngestStep(IngestAll(w, files[..i], parsers, indexer), files[i], parsers, indexer)
  {
    assert files[..i + 1][..i] == files[..i];
  }

  lemma DocRowsSnoc(rows0: seq<Row>, rows: seq<Row>, files: seq<string>, i: nat, parsers: map<string, Parser>,
                    encode: Encoder, dim: nat, width: nat)
    requires i < |files|
    requires rows == rows0 + DocRows(files[..i], parsers, encode, dim, width)
    ensures rows + DocRow(files[i], parsers, encode, dim, width) == rows0 + DocRows(files[..i + 1], parsers, encode, dim, width)
  {
    assert files[..i + 1][..i] == files[..i];
  }

  // ---- what the loop does, over every parser registry and indexer ----

  /** Ingesting two lists of files is ingesting the first, then the second: results keep crawl order. */
  lemma {:induction false} IngestAllAppend(w: World, fs: seq<string>, gs: seq<string>, parsers: map<string, Parser>,
                                           indexer: IndexerRef)
    ensures IngestAll(w, fs + gs, parsers, indexer) == IngestAll(IngestAll(w, fs, parsers, indexer), gs, parsers, indexer)
    decreases |gs|
  {
    if gs == [] {
      assert fs + gs == fs;
    } else {
      var front := gs[..|gs| - 1];
      assert (fs + gs)[..|fs + gs| - 1] == fs + front;
      IngestAllAppend(w, fs, front, parsers, indexer);
    }
  }

  /** No documentation file is ever added: `to_dict` raises on every one. */
  lemma {:induction false} NoDocumentationIngested(w: World, files: seq<string>, parsers: map<string, Parser>,
                                                   indexer: IndexerRef)
    ensures IngestAll(w, files, parsers, indexer).data.documentation_files == w.data.documentation_files
    decreases |files|
  {
    if files != [] {
      NoDocumentationIngested(w, files[..|files| - 1], parsers, indexer);
    }
  }

  /**
   * With any of the repository's own indexers the code path raises at the
   * index call, so nothing is stored, the graph is untouched and nothing is ingested.
   */
  lemma {:induction false} RepositoryIndexersChangeNothing(w: World, files: seq<string>, parsers: map<string, Parser>,
                                                           indexer: IndexerRef)
    requires !indexer.DuckTyped?
    ensures IngestAll(w, files, parsers, indexer) == w
    decreases |files|
  {
    if files != [] {
      RepositoryIndexersChangeNothing(w, files[..|files| - 1], parsers, indexer);
    }
  }

  /** The registry as written never yields a record: both parsers raise or return None. */
  lemma AsWrittenParsersYieldNoRecord(src: Sources, path: string)
    requires ExtensionKey(path) in AsWrittenParsers(src)
    ensures var r := AsWrittenParsers(src)[ExtensionKey(path)](path); r.Err? || r.value.NoRecord?
  {
    if ExtensionKey(path) == ".py" {
      ParseCodeFileAlwaysRaises(src, path);
    } else {
      ParseDocFileNeverReturnsRecord(src.files, path);
    }
  }

  /** As written, `ingest` writes nothing and returns empty lists, whatever the tree and the indexer. */
  lemma {:induction false} AsWrittenIngestsNothing(w: World, files: seq<string>, src: Sources, indexer: IndexerRef)
    ensures IngestAll(w, files, AsWrittenParsers(src), indexer) == w
    decreases |files|
  {
    if files != [] {
      AsWrittenIngestsNothing(w, files[..|files| - 1], src, indexer);
      var path := files[|files| - 1];
      if ExtensionKey(path) in AsWrittenParsers(src) {
        AsWrittenParsersYieldNoRecord(src, path);
      }
    }
  }

  /** Every code file in the result has its record in the store: one appears only after its insert. */
  ghost predicate ResultStored(w: World)
  {
    forall i :: 0 <= i < |w.data.code_files| ==> ToDict(w.data.code_files[i]) in w.docs
  }

  /** The store and the result only grow, and the result never lists an unstored file. */
  lemma {:induction false} IngestKeepsResultStored(w: World, files: seq<string>, parsers: map<string, Parser>,
                                                   indexer: IndexerRef)
    requires ResultStored(w)
    ensures ResultStored(IngestAll(w, files, parsers, indexer))
    ensures w.docs <= IngestAll(w, files, parsers, indexer).docs
    ensures w.data.code_files <= IngestAll(w, files, parsers, indexer).data.code_files
    decreases |files|
  {
    if files != [] {
      var v := IngestAll(w, files[..|files| - 1], parsers, indexer);
      IngestKeepsResultStored(w, files[..|files| - 1], parsers, indexer);
      StepKeepsResultStored(v, files[|files| - 1], parsers, indexer);
    }
  }

  lemma StepKeepsResultStored(w: World, path: string, parsers: map<string, Parser>, indexer: IndexerRef)
    requires ResultStored(w)
    ensures ResultStored(IngestStep(w, path, parsers, indexer))
    ensures w.docs <= IngestStep(w, path, parsers, indexer).docs
    ensures w.data.code_files <= IngestStep(w, path, parsers, indexer).data.code_files
  {
    var u := IngestStep(w, path, parsers, indexer);
    if u != w {
      var cf := parsers[ExtensionKey(path)](path).value.cf;
      assert u.docs == w.docs + [ToDict(cf)];
      forall i | 0 <= i < |u.data.code_files|
        ensures ToDict(u.data.code_files[i]) in u.docs
      {
        if i < |w.data.code_files| {
          assert u.data.code_files[i] == w.data.code_files[i];
        } else {
          assert u.data.code_files[i] == cf;
          assert u.docs[|w.docs|] == ToDict(cf);
        }
      }
    }
  }

  /**
   * A code file whose graph update raises is left out of the result, but
   * its record stays in the store and the graph keeps the partial update.
   */
  lemma GraphFailureKeepsRecord(w: World, path: string, parsers: map<string, Parser>, indexer: IndexerRef, cf: CodeFile)
    requires ExtensionKey(path) in parsers && parsers[ExtensionKey(path)](path) == Ok(CodeResult(cf))
    requires IndexCodeReply(indexer, cf.raw_code).Ok?
    requires Relate(w.graph, cf).error.Some?
    ensures IngestStep(w, path, parsers, indexer) == World(Relate(w.graph, cf).graph, w.docs + [ToDict(cf)], w.data)
  {
  }

  /**
   * With the corrected parser and an indexer that answers, a Python file
   * whose walk and graph update succeed is stored, related and listed, in that order.
   */
  lemma FixedCodeFileIngested(w: World, path: string, src: Sources, indexer: IndexerRef, cf: CodeFile)
    requires ExtensionKey(path) == ".py" && ParseCodeFileFixedResult(src, path) == Ok(cf)
    requires IndexCodeReply(indexer, cf.raw_code).Ok?
    requires Relate(w.graph, cf).error.None?
    ensures IngestStep(w, path, FixedParsers(src), indexer)
            == World(Relate(w.graph, cf).graph, w.docs + [ToDict(cf)], w.data.(code_files := w.data.code_files + [cf]))
  {
    var parsers := FixedParsers(src);
    assert parsers[ExtensionKey(path)](path) == Ok(CodeResult(cf)) by {
      assert parsers[".py"](path) == PyParseFixed(src, path);
    }
    IngestStepCode(w, path, parsers, indexer, cf);
  }

  /** The step for a path with no parser, a parse error, or no code file. */
  lemma IngestStepSkips(w: World, path: string, parsers: map<string, Parser>, indexer: IndexerRef)
    requires ExtensionKey(path) in parsers ==> !(parsers[ExtensionKey(path)](path).Ok? && parsers[ExtensionKey(path)](path).value.CodeResult?)
    ensures IngestStep(w, path, parsers, indexer) == w
  {
  }

  /** The row for a path whose parser yields a documentation file. */
  lemma DocRowParsed(path: string, parsers: map<string, Parser>, encode: Encoder, dim: nat, width: nat, d: DocumentationFile)
    requires ExtensionKey(path) in parsers && parsers[ExtensionKey(path)](path) == Ok(DocResult(d))
    ensures DocRow(path, parsers, encode, dim, width) == DocRowOf(d, encode, dim, width)
  {
  }

  /** No row for any other path. */
  lemma DocRowSkips(path: string, parsers: map<string, Parser>, encode: Encoder, dim: nat, width: nat)
    requires ExtensionKey(path) in parsers ==> !(parsers[ExtensionKey(path)](path).Ok? && parsers[ExtensionKey(path)](path).value.DocResult?)
    ensures DocRow(path, parsers, encode, dim, width) == []
  {
  }

  /** The step for a path whose parser yields a code file. */
  lemma IngestStepCode(w: World, path: string, parsers: map<string, Parser>, indexer: IndexerRef, cf: CodeFile)
    requires ExtensionKey(path) in parsers && parsers[ExtensionKey(path)](path) == Ok(CodeResult(cf))
    ensures IngestStep(w, path, parsers, indexer) == CodeStep(w, cf, indexer)
  {
  }

  /**
   * As written, the stored record does not list the id the index handed
   * out, so even a lookup that returns None when nothing matches finds
   * nothing under that id.
   */
  lemma StoredRecordLacksId(cf: CodeFile, id: int)
    requires id !in cf.embedding_ids
    ensures FetchCodeFileByEmbeddingIdFixed([ToDict(StoredRecord(cf, id))], id) == Ok(None)
  {
    var d := ToDict(cf);
    ToDictCopiesLists(cf);
    assert d["embedding_ids"] == IntListValue(cf.embedding_ids);
    assert !CodefileRetriever.Selected(d, "embedding_ids", VInt(id));
  }

  /** With the id recorded, the fetch by that id returns the stored file. */
  lemma StoredRecordFixedFound(cf: CodeFile, id: int)
    requires AllRecords(cf) && cf.kind == CodeFileType
    ensures FetchCodeFileByEmbeddingId([ToDict(StoredRecordFixed(cf, id))], id) == Ok(Some(StoredRecordFixed(cf, id)))
  {
    var r := StoredRecordFixed(cf, id);
    assert r.embedding_ids[|cf.embedding_ids|] == id;
    FetchByEmbeddingIdRoundTrip([ToDict(r)], 0, r, id);
  }
}

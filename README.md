# CodeCompass retrieval core in Dafny

CodeCompass indexes a Python project so that questions about it can be
answered from its own code and documentation. Ingestion crawls a directory,
parses `.py` files into `CodeFile` records (functions, classes, call sites,
imports, globals, docstrings) and `.md` files into `DocumentationFile`
records (headings, API references, cleaned text). It embeds the text into a
FAISS index, stores the records in a document store and draws a caller ->
callee graph. At query time the query processor cleans the question, guesses
the entities it names, classifies it and reformulates it. The retrievers
then fetch code files by path or embedding id and walk the call graph.

This project models that core:

| module | file | models |
|---|---|---|
| `Common` | common.dfy | the Python built-ins the core relies on (`str.strip`, `splitlines`, `join`, `lower`, `startswith`, `in`) and the exception kinds |
| `DataModels` | data_models.dfy | the dataclasses, their generated `__init__`, `asdict` and `CodeFile.to_dict` |
| `PyAst` | py_ast.dfy | the syntax tree and `ast.walk` |
| `CodeParser` | code_parser.dfy | `parse_code_file` |
| `Preprocess` | preprocess.dfy | `preprocess_code`, `extract_docstrings`, `preprocess_documentation`, `extract_sections` |
| `DocParser` | doc_parser.dfy | `parse_doc_file` and its regular expressions |
| `FileCrawler` | file_crawler.dfy | `crawl_files` |
| `EmbeddingUtils` | embedding_utils.dfy | the cached FAISS index, `add_embeddings_to_index`, `search_similar_vectors` and `FAISSManager` |
| `Indexers` | indexers.dfy | `CodeBERTIndexer`, both `DocumentIndexer` classes |
| `GraphdbUtils` | graphdb_utils.dfy | the cached networkx `DiGraph`, its networkx operations, and the dependency queries |
| `GraphdbIndexer` | graphdb_indexer.dfy | `add_caller_callee_relations` |
| `GraphdbRetriever` | graphdb_retriever.dfy | the graph retriever's queries: callees, callers, existence, a function's file, a call's line number, all functions and calls |
| `CodefileRetriever` | codefile_retriever.dfy | fetching code files from the store by path, by embedding id, or all of them |
| `IngestionManager` | ingestion_manager.dfy | `IngestionManager.ingest` (a class writing to the store, graph and index) |
| `QueryProcessor` | query_processor.dfy | the deterministic parts of `QueryProcessor`: cleaning, heuristics, classification, entity extraction, the fallbacks and the FAISS query built from the graph |

Code that updates objects in place (`IngestionManager`, `FAISSManager`,
`GraphDatabase`, the indexers, the document store) is written as classes
with `modifies` frames. Each method is proved against a function that says
what the new state is. Loops are methods with invariants tying them to the
function they compute. Recursive data and text processing are functions
with lemmas.

Python's exceptions are values: a `Result` that is either `Ok(value)` or
`Err(e)`, where `e` names the exception class (`TypeError`,
`AttributeError`, `ValueError`, ...). The file system and the parser are
inputs: a map from path to text and a function from text to a syntax tree.
So are `os.walk` (the sequence of directories it yields), `json.loads` and
the encoders (opaque functions from text to a vector).

## Model

| member | source | states |
|---|---|---|
| DataModels.KeywordCheck | src/ingestion/data_models.py:59-68 | a generated `__init__` accepts its keyword names exactly when every required field is given and no undeclared name is |
| DataModels.NewCodeFile | src/ingestion/data_models.py:59-68 | `CodeFile(**kw)` succeeds iff `embedding_ids` and `file_path` are given and nothing undeclared is; every given field keeps the value passed, so passing all ten gives the arguments back |
| DataModels.NewCodeFileDefaults | src/ingestion/data_models.py:61-68 | each field not passed takes its declared default: empty lists, "", None, and "CodeFile.class" for `type` |
| DataModels.NewDocumentationFile | src/ingestion/data_models.py:96-100 | `DocumentationFile(**kw)` succeeds iff `file_path` is given and only the five declared fields are; missing ones take their defaults |
| DataModels.NewIngestedData | src/ingestion/data_models.py:113-114 | `IngestedData()` starts with both lists empty |
| DataModels.EntityFromDict | src/ingestion/data_models.py:35-41 | `CodeEntity(**d)` accepts only dicts whose keys include the four required fields and are all declared |
| DataModels.EntityFieldsAccepted | src/ingestion/data_models.py:35-41 | a dict with exactly the declared entity fields passes the keyword check |
| DataModels.CallFromDict | src/ingestion/data_models.py:15-18 | `FunctionCall(**d)` needs exactly its four fields |
| DataModels.RecordDictKeys | src/ingestion/data_models.py:15-41 | `asdict` of an entity or a call writes exactly the declared field names |
| DataModels.EntityDictRoundTrip | src/ingestion/data_models.py:35-41 | rebuilding an entity from its `asdict` gives the same entity |
| DataModels.CallDictRoundTrip | src/ingestion/data_models.py:15-18 | rebuilding a call from its `asdict` gives the same call |
| DataModels.EntityDefaults | src/ingestion/data_models.py:39-41 | an entity built from its four required keys has no docstring, decorators or parents |
| DataModels.AsDictIfRecord | src/ingestion/data_models.py:73 | `asdict(x) if is_dataclass(x) else x`: records become their field dicts, anything else is kept |
| DataModels.AsDictEach | src/ingestion/data_models.py:73 | the list comprehension keeps length and converts element by element |
| DataModels.ToDictKeysExactly | src/ingestion/data_models.py:70-82 | `to_dict` writes exactly the ten keys |
| DataModels.ToDict | src/ingestion/data_models.py:70-82 | `to_dict` itself; stated by the `ToDict` lemmas |
| DataModels.ToDictConvertsRecords | src/ingestion/data_models.py:73-77 | the `entities` and `function_calls` entries are the lists with each record turned into its dict |
| DataModels.ToDictCopiesLists | src/ingestion/data_models.py:76-80 | `docstrings`, `imports`, `global_variables` and `embedding_ids` are copied and read back unchanged |
| DataModels.ToDictCopiesScalars | src/ingestion/data_models.py:72-81 | `file_path`, `raw_code`, `cleaned_code` and `type` are copied and read back unchanged |
| PyAst.Children | src/ingestion/code_parser.py:20 | a node's children are strictly smaller than the node, which makes the walk terminate |
| PyAst.Walk | src/ingestion/code_parser.py:20 | `ast.walk(n)` yields `n` first |
| PyAst.BfsMembers | src/ingestion/code_parser.py:20 | the breadth-first traversal of a queue reaches exactly the nodes within some queued node |
| PyAst.WalkMembers | src/ingestion/code_parser.py:20 | `x in ast.walk(n)` iff `x` is `n` or lies below it |
| PyAst.WithinTransitive | src/ingestion/code_parser.py:35 | lying below is transitive |
| PyAst.WalkTransitive | src/ingestion/code_parser.py:35 | a node reached by walking a node reached from `n` is reached from `n` |
| CodeParser.LabelOf | src/ingestion/code_parser.py:24 | a decorator or base gives a label iff it is a `Name` or an `Attribute`; any other node raises AttributeError |
| CodeParser.Labels | src/ingestion/code_parser.py:24 | the list of labels succeeds iff every node has one, and then holds each node's label in order |
| CodeParser.Qualify | src/ingestion/code_parser.py:62-63 | each imported name becomes `module.name`, in order |
| CodeParser.GlobalsOf | src/ingestion/code_parser.py:66-68 | one `{"name", "line_number"}` dict per plain-name target, in target order, each naming that target and the statement's line |
| CodeParser.TargetNames | src/ingestion/code_parser.py:67 | the names are exactly the ids of the targets that are `Name` nodes, never more than there are targets |
| CodeParser.TargetNamesAppend | src/ingestion/code_parser.py:67 | the names of two lists of targets are those of the first followed by those of the second |
| CodeParser.CollectCalls | src/ingestion/code_parser.py:35-43 | the inner walk loop returns the call sites `CallsIn` defines, or the AttributeError it raises |
| CodeParser.VisitNode | src/ingestion/code_parser.py:22-68 | the loop body does what `Step` defines for each node kind |
| CodeParser.CollectDefinitions | src/ingestion/code_parser.py:20-68 | the outer walk loop computes `Extract` of the walk; the first raise ends it |
| CodeParser.CallsIn | src/ingestion/code_parser.py:35-43 | the call sites of one `def`, as the inner walk records them; stated by the `CallsIn` lemmas |
| CodeParser.Step | src/ingestion/code_parser.py:22-68 | what the outer loop does with one node; stated by `StepEffect` |
| CodeParser.Extract | src/ingestion/code_parser.py:20-68 | the outer loop over the whole walk; stated by `ExtractPrefix`, `ExtractSticky` and the `Calls` lemmas |
| CodeParser.ParseCodeFileResult | src/ingestion/code_parser.py:4-82 | `parse_code_file` with its outcome as a value; stated by `ParseCodeFileAlwaysRaises` |
| CodeParser.CallsInSticky | src/ingestion/code_parser.py:35-43 | once the inner loop raises, the rest of the walk does not change the outcome |
| CodeParser.ExtractSticky | src/ingestion/code_parser.py:20-68 | once the outer loop raises, the rest of the walk does not change the outcome |
| CodeParser.EntityDocstrings | src/ingestion/code_parser.py:78 | the docstring list holds only non-empty docstrings |
| CodeParser.EntityValues | src/ingestion/code_parser.py:75 | the entity list holds each collected entity as a record, in order |
| CodeParser.ParseCodeFile | src/ingestion/code_parser.py:4-82 | `parse_code_file` as written, with call sites as plain dicts and no `embedding_ids` |
| CodeParser.ParseCodeFileAlwaysRaises | src/ingestion/code_parser.py:73-82 | as written every call raises: TypeError from the missing `embedding_ids`, or the walk's AttributeError |
| CodeParser.ExtractErrors | src/ingestion/code_parser.py:20-68 | only AttributeError escapes the walk loop |
| CodeParser.LabelsErrors | src/ingestion/code_parser.py:24 | the label comprehension raises only AttributeError |
| CodeParser.CallsInErrors | src/ingestion/code_parser.py:37 | the callee expression raises only AttributeError |
| CodeParser.ParseCodeFileFixed | src/ingestion/code_parser.py:73-82 | the corrected parser: `embedding_ids=[]` passed and call sites kept as `FunctionCall` records |
| CodeParser.ParseCodeFileFixedShape | src/ingestion/code_parser.py:73-82 | the corrected parser fails iff the walk raises; otherwise the CodeFile has the path, the text, no ids, no cleaned code, the default type and every collected entity, call, import and global |
| CodeParser.ExtractPrefix | src/ingestion/code_parser.py:20-68 | entities and call sites only grow along the walk |
| CodeParser.StepEffect | src/ingestion/code_parser.py:22-56 | a `def` adds one entity and its call sites, a class adds one entity, other nodes add neither |
| CodeParser.CallsInComplete | src/ingestion/code_parser.py:35-43 | every recordable call below a definition is recorded |
| CodeParser.CallsInSound | src/ingestion/code_parser.py:35-43 | every recorded call comes from a node below the definition |
| CodeParser.CallsSound | src/ingestion/code_parser.py:20-43 | every call site in the file's list comes from a call below some `def`, with that function as caller |
| CodeParser.CallsComplete | src/ingestion/code_parser.py:20-43 | every recordable call below every `def` in the walk is in the file's list with that function as caller |
| CodeParser.NestedCallRecordedForBoth | src/ingestion/code_parser.py:35-43 | a call inside a nested function is recorded for both the inner and the outer function |
| CodeParser.EntityDocstringsMatch | src/ingestion/code_parser.py:78 | the entities' docstrings are exactly what `extract_docstrings` collects from the same walk |
| CodeParser.FixedDocstringsMatch | src/ingestion/code_parser.py:78 | the corrected CodeFile's docstrings equal `extract_docstrings` of its text |
| CodeParser.CalledDecoratorRaises | src/ingestion/code_parser.py:24 | a `def` decorated by a call such as `@app.route("/")` makes the whole parse raise |
| Preprocess.RemoveComments | src/ingestion/preprocess.py:5 | the result holds no '#', is no longer than the input, and text without '#' is unchanged |
| Preprocess.CodePart | src/ingestion/preprocess.py:5 | on one line, `#.*` leaves the longest prefix without '#': the line is cut at its first '#' |
| Preprocess.RemoveCommentsKeeps | src/ingestion/preprocess.py:5 | text without '#' in front of the rest passes through unchanged |
| Preprocess.RemoveCommentsDrops | src/ingestion/preprocess.py:5 | a comment runs to the end of its line and no further: the line break and what follows are kept |
| Preprocess.RemoveCommentsLine | src/ingestion/preprocess.py:5 | a line's code part is kept and its comment dropped, and removal carries on after the line break |
| Preprocess.RemoveCommentsFirst | src/ingestion/preprocess.py:5 | removing comments from a line followed by more text gives the line's code part followed by the rest with its comments removed |
| Preprocess.RemoveCommentsVisible | src/ingestion/preprocess.py:5 | a character other than '#' in front of a text is kept in front of that text with its comments removed |
| Preprocess.RemoveCommentsLines | src/ingestion/preprocess.py:5 | over lines joined by '\n', removing comments keeps each line's code part, line for line |
| Preprocess.RemoveCommentsLinesStep | src/ingestion/preprocess.py:5 | one line more: the first line's code part, a '\n', then the code parts of the other lines |
| Preprocess.NonBlankStripped | src/ingestion/preprocess.py:8 | every kept line is stripped and non-empty, and no more lines are kept than given |
| Preprocess.NonBlankStrippedAppend | src/ingestion/preprocess.py:8 | the filter over two lists of lines is the filter of the first followed by that of the second, so line order is kept |
| Preprocess.NonBlankStrippedOne | src/ingestion/preprocess.py:8 | one line is kept, stripped, exactly when its stripped form is non-empty |
| Preprocess.NonBlankStrippedMembers | src/ingestion/preprocess.py:8 | a text is among the kept lines iff it is non-empty and the stripped form of some input line |
| Preprocess.SplitJoinNonBlank | src/ingestion/preprocess.py:8 | splitting lines joined by '\n' and filtering gives the filter of the lines themselves |
| Preprocess.NonBlankStrippedFixed | src/ingestion/preprocess.py:8 | lines that are already stripped and non-empty are kept as they are |
| Preprocess.PreprocessCodeShape | src/ingestion/preprocess.py:3-10 | cleaned code holds no '#' and its lines are the non-blank stripped lines of the comment-free text |
| Preprocess.PreprocessCodeIdempotent | src/ingestion/preprocess.py:3-10 | cleaning cleaned code changes nothing |
| Preprocess.PreprocessCode | src/ingestion/preprocess.py:3-10 | `preprocess_code` itself; what it computes is stated by the rows around it |
| Preprocess.PreprocessCodeLines | src/ingestion/preprocess.py:3-10 | cleaning lines joined by '\n' gives, joined by '\n', the stripped non-blank code parts of those lines, in order |
| Preprocess.CollapseWhitespace | src/ingestion/preprocess.py:29 | the result's only whitespace is single spaces, and its first character is a space iff the input starts with whitespace, else the same character |
| Preprocess.CollapseAppend | src/ingestion/preprocess.py:29 | text ending in a visible character is normalised independently of what follows it |
| Preprocess.CollapseLeadingRun | src/ingestion/preprocess.py:29 | a leading run of whitespace becomes exactly one space |
| Preprocess.CollapseRun | src/ingestion/preprocess.py:29 | a run of whitespace between two visible stretches becomes exactly one space, whatever its length or mix |
| Preprocess.CollapseEnds | src/ingestion/preprocess.py:29 | the result ends in a space iff the input ends in whitespace |
| Preprocess.CollapseNoSpace | src/ingestion/preprocess.py:29 | text without whitespace is unchanged |
| Preprocess.CollapseKeepsVisible | src/ingestion/preprocess.py:27-32 | normalising whitespace keeps every other character, in order |
| Preprocess.CollapseFixed | src/ingestion/preprocess.py:29 | normalised text is unchanged |
| Preprocess.PreprocessDocumentationIdempotent | src/ingestion/preprocess.py:27-32 | normalising twice is normalising once |
| Preprocess.PreprocessDocumentation | src/ingestion/preprocess.py:27-32 | `preprocess_documentation` itself; what it computes is stated by the rows around it |
| Preprocess.HeadingLines | src/ingestion/preprocess.py:36 | each section starts with '#' and is stripped, and there are no more sections than lines |
| Preprocess.HeadingLinesAppend | src/ingestion/preprocess.py:36 | sections of two lists of lines are those of the first followed by those of the second, so line order is kept |
| Preprocess.HeadingLinesOne | src/ingestion/preprocess.py:36 | one line gives its stripped self iff it starts with '#' (before stripping), else nothing |
| Preprocess.HeadingLinesMembers | src/ingestion/preprocess.py:36 | a text is a section iff it is the stripped form of some line that starts with '#' |
| Preprocess.ExtractSections | src/ingestion/preprocess.py:35-37 | `extract_sections` itself: the heading filter over `splitlines()` |
| Preprocess.Docstrings | src/ingestion/preprocess.py:18-20 | every collected docstring is non-empty |
| Preprocess.DocstringsNext | src/ingestion/preprocess.py:18-20 | each node of the walk adds its own docstring, if any, at the end |
| Preprocess.ExtractDocstrings | src/ingestion/preprocess.py:13-24 | the loop returns the docstrings of every `def` and class in walk order, and none for text that does not parse |
| DocParser.HeadingAt | src/ingestion/doc_parser.py:96 | a heading match ends after its start, and its title is non-empty and lies on one line |
| DocParser.HeadingsFrom | src/ingestion/doc_parser.py:96-100 | the titles `finditer` yields from a position on; stated by `HeadingsStripped`, `HeadingLine` and `SevenHashesNoHeading` |
| DocParser.HeadingsStripped | src/ingestion/doc_parser.py:96-100 | every section title is stripped and lies on one line |
| DocParser.SevenHashesNoHeading | src/ingestion/doc_parser.py:96 | a line that starts with seven '#' is not a heading |
| DocParser.HeadingLine | src/ingestion/doc_parser.py:96 | a line of 1 to 6 '#', a space or tab and a title gives that title, up to the end of the line |
| DocParser.InlineAt | src/ingestion/doc_parser.py:118 | an inline-code match yields a dotted name whose last part is non-empty and dot-free |
| DocParser.InlineRefsFrom | src/ingestion/doc_parser.py:118-120 | every inline reference found has that shape |
| DocParser.InlineAtQuoted | src/ingestion/doc_parser.py:118 | a name of the inline shape between two backticks is matched there, and the scan resumes after the closing backtick |
| DocParser.InlineRefsSkip | src/ingestion/doc_parser.py:119-120 | positions where no inline reference starts add nothing |
| DocParser.InlineRefsFirst | src/ingestion/doc_parser.py:119-120 | the first position with a match gives the first reference, and the scan resumes after it |
| DocParser.InlineRefQuotedFirst | src/ingestion/doc_parser.py:118-120 | in text with no backtick before a quoted reference, that reference is the first one found, and the scan resumes right after its closing backtick |
| DocParser.InlineRefAfterPlain | src/ingestion/doc_parser.py:118-120 | with no backtick before position `q` and a reference quoted at `q`, that reference is found first and the scan resumes after its closing backtick |
| DocParser.LinkAt | src/ingestion/doc_parser.py:123-124 | a match at a position is exactly a well-formed `[text](url)` there, ending after its ')'; stated by `LinkAtWellFormed` and `LinkAtLaidOut` |
| DocParser.LinkAtWellFormed | src/ingestion/doc_parser.py:123-124 | every `[text](url)` with non-empty text free of ']' and non-empty url free of ')' is matched, with that text and url, ending right after its ')' |
| DocParser.LinkAtLaidOut | src/ingestion/doc_parser.py:123-124 | every match is such a well-formed link and ends right after its ')' |
| DocParser.LinkRefsFrom | src/ingestion/doc_parser.py:123-129 | the kept links from a position on; stated by `LinkRefsSkip`, `LinkRefAfterPlain` and `LinkRefsSound` |
| DocParser.LinkRefsSkip | src/ingestion/doc_parser.py:123-124 | text without '[' holds no link: the scan passes over it and finds nothing there |
| DocParser.LinkRefAfterPlain | src/ingestion/doc_parser.py:123-129 | with no '[' before a well-formed link, that link is the first found: "text (url)" heads the result exactly when the url mentions "api" or "doc" in any case, and the scan resumes after its ')' |
| DocParser.LinkRefsFirst | src/ingestion/doc_parser.py:123-129 | the scan from the start reaches the first match unchanged and keeps it iff its url mentions "api" or "doc" |
| DocParser.LinkRefsSound | src/ingestion/doc_parser.py:123-129 | every reference found is "text (url)" for a link matched at or after the position whose url mentions "api" or "doc" |
| DocParser.OneApiLink | src/ingestion/doc_parser.py:123-129 | the text "[x](api)" gives exactly the reference "x (api)" |
| DocParser.LexLessTotal | src/ingestion/doc_parser.py:132 | Python's ordering of `str` is a strict total order |
| DocParser.LexLessTransitive | src/ingestion/doc_parser.py:132 | that order is transitive |
| DocParser.InsertSorted | src/ingestion/doc_parser.py:132 | inserting into a strictly sorted list keeps it strictly sorted and adds exactly the new element |
| DocParser.SortedUnique | src/ingestion/doc_parser.py:132 | `sorted(set(xs))` is strictly increasing and holds exactly the elements of `xs` |
| DocParser.SortedStrictDistinct | src/ingestion/doc_parser.py:132 | a strictly sorted list holds no element twice |
| DocParser.NoBlankLinesUnchanged | src/ingestion/doc_parser.py:136 | text without blank lines is left as it is |
| DocParser.CollapseBlankLinesKeepsVisible | src/ingestion/doc_parser.py:136 | collapsing blank lines only touches whitespace: every other character stays, in order |
| DocParser.CollapseBlankLines | src/ingestion/doc_parser.py:136 | `re.sub(r'\n\s*\n', '\n\n', raw)` itself; stated by the rows around it |
| DocParser.CollapseBlankRun | src/ingestion/doc_parser.py:136 | a line break, whitespace and a last line break after which no break follows in the run become exactly "\n\n" |
| DocParser.LastNewlineAt | src/ingestion/doc_parser.py:136 | the last line break of a range is the one no other line break follows in the range |
| DocParser.CollapseBlankKeep | src/ingestion/doc_parser.py:136 | a character that does not start a blank run is kept as it is |
| DocParser.ParseDocFileNeverReturnsRecord | src/ingestion/doc_parser.py:90-153 | as written the result is None exactly for a missing file or a text holding six backticks in a row, and otherwise a TypeError |
| DocParser.AsWrittenDocKeywordsRejected | src/ingestion/doc_parser.py:145-153 | the final construction passes `embedding_id` and `type`, which `DocumentationFile` does not declare |
| DocParser.ParseDocFileFixedRecord | src/ingestion/doc_parser.py:81-156 | corrected, every readable file without six backticks in a row gives its record: sections, text, cleaned text and the joined references |
| DocParser.NextHeading | src/ingestion/doc_parser.py:97-100 | one step of the heading scan moves forward and splits off exactly the titles found at that position |
| DocParser.CollectSections | src/ingestion/doc_parser.py:97-100 | the heading loop returns every title `finditer` finds |
| DocParser.NextInline | src/ingestion/doc_parser.py:119-120 | one step of the inline-code scan moves forward and splits off the references found there |
| DocParser.CollectInlineRefs | src/ingestion/doc_parser.py:119-120 | the inline-code loop returns every reference `finditer` finds |
| DocParser.NextLink | src/ingestion/doc_parser.py:124-129 | one step of the link scan moves forward and splits off the kept links found there |
| DocParser.CollectLinkRefs | src/ingestion/doc_parser.py:124-129 | the link loop appends every kept link to the references found so far |
| DocParser.ParseDocFile | src/ingestion/doc_parser.py:81-156 | `parse_doc_file` as written |
| DocParser.ParseDocFileResult | src/ingestion/doc_parser.py:81-156 | `parse_doc_file` with its outcome as a value; stated by `ParseDocFileNeverReturnsRecord` |
| FileCrawler.EffectiveExtensions | src/ingestion/file_crawler.py:4 | `extensions or [".py", ".md"]`: never empty, and a non-empty list given is used as it is |
| FileCrawler.PathJoin | src/ingestion/file_crawler.py:9 | the joined path ends with the file name |
| FileCrawler.CrawlFiles | src/ingestion/file_crawler.py:3-10 | the loops return the matches of every directory of the walk, in walk order |
| FileCrawler.CrawlDirectory | src/ingestion/file_crawler.py:7-9 | the inner loop appends the matching files of one directory, in order |
| FileCrawler.MatchesNext | src/ingestion/file_crawler.py:6-9 | each directory adds its own matches at the end |
| FileCrawler.MatchesInSound | src/ingestion/file_crawler.py:7-9 | every match of a directory joins it with one of its files that has a wanted extension |
| FileCrawler.MatchesInComplete | src/ingestion/file_crawler.py:7-9 | every file of a directory with a wanted extension is matched |
| FileCrawler.CrawlSound | src/ingestion/file_crawler.py:3-10 | every returned path joins a visited directory with a file in it that has a wanted extension |
| FileCrawler.CrawlComplete | src/ingestion/file_crawler.py:3-10 | every file of every visited directory with a wanted extension is returned |
| IngestionManager.ExtensionKey | src/ingestion/ingestion_manager.py:35-36 | the parser key is a dot followed by the text after the path's last dot, and the path ends with that text |
| IngestionManager.AsWrittenParsers | src/ingestion/ingestion_manager.py:16-19 | the registry has exactly the keys ".py" and ".md" |
| IngestionManager.FixedParsers | src/ingestion/ingestion_manager.py:16-19 | the registry with both parsers corrected has the same two keys |
| IngestionManager.IndexCodeReply | src/ingestion/ingestion_manager.py:42 | the one-argument index call raises TypeError on `CodeBERTIndexer`, AttributeError on either `DocumentIndexer`, and is the object's own answer otherwise |
| IngestionManager.StoredRecordFixed | src/ingestion/ingestion_manager.py:43-44 | the intended record lists the new id after the old ones and changes nothing else |
| IngestionManager.DocumentStore.InsertCodeFile | src/ingestion/ingestion_manager.py:44 | the inserted document is appended to the collection |
| IngestionManager.IngestionManager.constructor | src/ingestion/ingestion_manager.py:14-20 | the manager keeps its root and indexer and installs the ".py"/".md" registry |
| IngestionManager.IngestionManager.IngestCode | src/ingestion/ingestion_manager.py:40-46 | a code file is indexed, its record stored, the graph updated and the file appended, in that order; a raise stops the rest |
| IngestionManager.IngestionManager.IngestDoc | src/ingestion/ingestion_manager.py:49-54 | a documentation file is indexed (only the metadata indexer adds a row and bumps its counter, by the same one row) and then `to_dict` raises |
| IngestionManager.IngestionManager.IngestFile | src/ingestion/ingestion_manager.py:33-58 | one turn of the loop changes the graph, store and result as `IngestStep` defines, the index by the row `DocRow` defines, and the metadata indexer's counter by that many |
| IngestionManager.IngestionManager.IngestParsed | src/ingestion/ingestion_manager.py:39-54 | the rest of the turn once the parser has answered, with the same effect on graph, store, result, rows and counter |
| IngestionManager.IngestionManager.IngestNext | src/ingestion/ingestion_manager.py:32-58 | after file `i` the state is `IngestAll` of the files up to `i`, the rows are those `DocRows` lists and the counter has grown by as many |
| IngestionManager.IngestionManager.Ingest | src/ingestion/ingestion_manager.py:23-62 | `ingest()` processes every crawled file in order: the final state is `IngestAll` of the crawl, and the metadata indexer gains one row and one id per documentation file it managed to index |
| IngestionManager.IngestionManager.IngestFiles | src/ingestion/ingestion_manager.py:32-58 | the loop over the crawled files: the final state is `IngestAll` of the files from the starting state, and the metadata indexer gains the `DocRows` of those files and one id per row |
| IngestionManager.IngestAllSnoc | src/ingestion/ingestion_manager.py:32-58 | the loop's state grows one file at a time |
| IngestionManager.CodeStep | src/ingestion/ingestion_manager.py:40-46 | the writes of one parsed code file; stated by `GraphFailureKeepsRecord`, `StepKeepsResultStored` and `FixedCodeFileIngested` |
| IngestionManager.IngestStep | src/ingestion/ingestion_manager.py:33-58 | one turn of the loop; stated by `IngestStepSkips` and `IngestStepCode` |
| IngestionManager.IngestAll | src/ingestion/ingestion_manager.py:32-58 | the whole loop; stated by `IngestAllAppend` and `IngestKeepsResultStored` |
| IngestionManager.DocRowsSnoc | src/ingestion/ingestion_manager.py:32-58 | the index rows the loop adds grow by one file's row at a time |
| IngestionManager.IngestAllAppend | src/ingestion/ingestion_manager.py:32-58 | ingesting two lists is ingesting the first and then the second, so results keep crawl order |
| IngestionManager.NoDocumentationIngested | src/ingestion/ingestion_manager.py:49-54 | no documentation file is ever added to the result |
| IngestionManager.RepositoryIndexersChangeNothing | src/ingestion/ingestion_manager.py:42 | with any of the repository's own indexers nothing is stored, related or listed |
| IngestionManager.AsWrittenParsersYieldNoRecord | src/ingestion/ingestion_manager.py:16-19 | the registry as written never yields a record: both parsers raise or return None |
| IngestionManager.AsWrittenIngestsNothing | src/ingestion/ingestion_manager.py:23-62 | as written, `ingest` writes nothing and returns empty lists for any tree and indexer |
| IngestionManager.IngestKeepsResultStored | src/ingestion/ingestion_manager.py:40-46 | the store and the result only grow, and every listed code file has its record in the store |
| IngestionManager.StepKeepsResultStored | src/ingestion/ingestion_manager.py:40-46 | one turn keeps that invariant |
| IngestionManager.GraphFailureKeepsRecord | src/ingestion/ingestion_manager.py:44-46 | a file whose graph update raises is left out of the result, but its record stays stored and the graph keeps the partial update |
| IngestionManager.FixedCodeFileIngested | src/ingestion/ingestion_manager.py:40-46 | with the corrected parser and an indexer that answers, a Python file is stored, related and listed |
| IngestionManager.IngestStepSkips | src/ingestion/ingestion_manager.py:36-58 | a path with no parser, a parse error or no code file changes nothing |
| IngestionManager.IngestStepCode | src/ingestion/ingestion_manager.py:40-46 | a path whose parser yields a code file takes the code-file step |
| IngestionManager.DocRowParsed | src/ingestion/ingestion_manager.py:49-51 | a documentation file adds the row its text encodes to |
| IngestionManager.DocRowSkips | src/ingestion/ingestion_manager.py:36-51 | no other path adds a row |
| IngestionManager.StoredRecordLacksId | src/ingestion/ingestion_manager.py:43-44 | as written the stored record does not list the id the index returned, so a lookup by that id finds nothing |
| IngestionManager.StoredRecordFixedFound | src/ingestion/ingestion_manager.py:43-44 | with the id recorded, the lookup by that id returns the stored file |
| EmbeddingUtils.FlatIndex.constructor | src/utils/embedding_utils.py:23-25 | `faiss.IndexFlatL2(d)` is an empty index of width `d` |
| EmbeddingUtils.FlatIndex.Restore | src/utils/embedding_utils.py:30 | `faiss.read_index` gives the stored width and rows |
| EmbeddingUtils.FlatIndex.Reset | src/utils/embedding_utils.py:25 | a new index has the configured width and no rows |
| EmbeddingUtils.FlatIndex.Add | src/utils/embedding_utils.py:50 | `index.add` appends the rows of a matrix of the index's width in order; a non-array, a non-matrix or another width raises and leaves the rows as they were |
| EmbeddingUtils.FlatIndex.Search | src/utils/embedding_utils.py:63-64 | the library search unpacks a 2-D shape (AttributeError without a shape, ValueError for another rank), asserts the width and `k > 0`, and answers (labels, distances) of the first query |
| EmbeddingUtils.ExpandDims | src/utils/embedding_utils.py:77 | `np.expand_dims(q, axis=0)` makes a matrix of one row exactly from a vector or a list of numbers, and an array of another rank from anything else |
| EmbeddingUtils.FaissModule.constructor | src/utils/embedding_utils.py:11-15 | at import nothing is cached and the disk holds what a previous run left |
| EmbeddingUtils.FaissModule.Save | src/utils/embedding_utils.py:37-40 | saving writes the index's width and rows to disk |
| EmbeddingUtils.FaissModule.LoadFaissIndex | src/utils/embedding_utils.py:27-35 | loading reads the stored index, or creates an empty one of the configured width and saves it |
| EmbeddingUtils.FaissModule.GetIndex | src/utils/embedding_utils.py:17-21 | the first call loads; every call returns the same cached object, and later calls change nothing |
| EmbeddingUtils.FaissModule.AddEmbeddingsToIndex | src/utils/embedding_utils.py:42-51 | a non-array or a shape other than `(n, dim)` raises ValueError before the index is touched; otherwise the rows are appended and the index saved |
| EmbeddingUtils.FaissModule.SearchSimilarVectors | src/utils/embedding_utils.py:53-64 | a non-array or a query whose shape is not `(dim,)` raises ValueError; an index of another width or `k <= 0` fails the library's assertion; otherwise the answer is (indices, distances) in that order, and the index is unchanged |
| EmbeddingUtils.FaissManager.constructor | src/utils/embedding_utils.py:67-68 | the manager holds the module's cached index, loading it if needed |
| EmbeddingUtils.FaissManager.AddEmbeddings | src/utils/embedding_utils.py:70-74 | only the type is checked: a non-array raises ValueError, a wrong width fails in the library's add; success appends the rows and saves |
| EmbeddingUtils.FaissManager.Search | src/utils/embedding_utils.py:76-79 | no check of its own: a vector or a list of numbers of the index's width is searched; any other argument raises ValueError, another width or `k <= 0` fails the library's assertion |
| Indexers.ManagedIndexer.constructor | src/indexers/codefile_indexer.py:6-11 | an indexer starts with `id_count` at -1 and the default width 768 |
| Indexers.ManagedIndexer.AddToIndex | src/indexers/codefile_indexer.py:20-25 | one row appended, then the counter bumped and returned; a failed encode or append leaves counter and rows alone; while ids and rows are aligned, the returned id names the new row |
| Indexers.ModuleIndexer.constructor | src/indexers/metadata_indexer.py:7-12 | the metadata indexer starts with `id_count` at -1 |
| Indexers.ModuleIndexer.AddDocumentToIndex | src/indexers/metadata_indexer.py:21-26 | the row is shape-checked by the module function; a refused row keeps the counter; success appends it and returns the bumped counter |
| Indexers.ModuleIndexer.SearchSimilar | src/indexers/metadata_indexer.py:28-32 | the query is encoded and searched by the module function; the index is unchanged |
| Indexers.SoleWriterIds | src/indexers/codefile_indexer.py:20-25 | a fresh indexer over an empty index returns ids 0 and 1 for the rows at positions 0 and 1 |
| Indexers.ManagedIndexersCollide | src/indexers/docfile_indexer.py:20-25 | two managed indexers sharing the cached index both return id 0, so the second id names the other text's row |
| Indexers.ModuleIndexersCollide | src/indexers/metadata_indexer.py:21-26 | two metadata indexers over the process-wide index return overlapping ids |
| GraphdbUtils.EmptyGraph | src/utils/graphdb_utils.py:22-24 | `nx.DiGraph()` is a well-formed graph with no nodes and no edges |
| GraphdbUtils.GrowsTransitive | src/utils/graphdb_utils.py:43-46 | keeping every node and edge composes |
| GraphdbUtils.AddNode | src/indexers/graphdb_indexer.py:14-20 | `add_node` appends a new node with its attributes, or merges the attributes into an existing one; no other node and no edge changes |
| GraphdbUtils.SetNodeAttr | src/indexers/graphdb_indexer.py:29 | setting a node attribute changes that key of that node only |
| GraphdbUtils.SetEdgeAttr | src/indexers/graphdb_indexer.py:36 | setting an edge attribute changes that key of that edge only |
| GraphdbUtils.WithNode | src/utils/graphdb_utils.py:45 | a missing endpoint of `add_edge` becomes a node without attributes; an existing one is untouched |
| GraphdbUtils.PutEdge | src/utils/graphdb_utils.py:45 | a new edge is appended with its attributes; an existing one has them merged; no other edge changes |
| GraphdbUtils.AddEdge | src/utils/graphdb_utils.py:45 | `add_edge(u, v, **attrs)` adds exactly the missing endpoints and the edge, keeps every other attribute, and sets or merges the edge's |
| GraphdbUtils.AddNodeWellFormed | src/indexers/graphdb_indexer.py:14-20 | `add_node` keeps the graph consistent and removes nothing |
| GraphdbUtils.SetNodeAttrWellFormed | src/indexers/graphdb_indexer.py:29 | setting a node attribute keeps the graph consistent and removes nothing |
| GraphdbUtils.SetEdgeAttrWellFormed | src/indexers/graphdb_indexer.py:36 | setting an edge attribute keeps the graph consistent and removes nothing |
| GraphdbUtils.WithNodeWellFormed | src/utils/graphdb_utils.py:45 | adding a missing endpoint keeps the graph consistent |
| GraphdbUtils.PutEdgeWellFormed | src/utils/graphdb_utils.py:45 | adding an edge between existing nodes keeps the graph consistent |
| GraphdbUtils.AddEdgeWellFormed | src/utils/graphdb_utils.py:43-46 | `add_edge` keeps the graph consistent and removes nothing |
| GraphdbUtils.AddExistingEdge | src/utils/graphdb_utils.py:43-46 | re-adding an existing edge without attributes changes nothing |
| GraphdbUtils.Targets | src/utils/graphdb_utils.py:48-50 | the targets listed are exactly those of the node's out-edges |
| GraphdbUtils.Sources | src/utils/graphdb_utils.py:52-54 | the sources listed are exactly those of the node's in-edges |
| GraphdbUtils.Successors | src/utils/graphdb_utils.py:48-50 | `successors(n)` answers iff `n` is a node, listing exactly its out-neighbours; otherwise NetworkXError |
| GraphdbUtils.Predecessors | src/utils/graphdb_utils.py:52-54 | `predecessors(n)` answers iff `n` is a node, listing exactly its in-neighbours; otherwise NetworkXError |
| GraphdbUtils.EdgesFrom | src/utils/graphdb_utils.py:70-72 | grouping by source keeps exactly the edges leaving the listed nodes |
| GraphdbUtils.AllEdges | src/utils/graphdb_utils.py:70-72 | `list(graph.edges())` holds exactly the edges whose source is a node |
| GraphdbUtils.ListingsExact | src/utils/graphdb_utils.py:66-72 | in a consistent graph the node listing holds every node once and the edge listing every edge |
| GraphdbUtils.GraphModule.constructor | src/utils/graphdb_utils.py:11-14 | at import nothing is cached and the disk holds what a previous run pickled |
| GraphdbUtils.GraphModule.Save | src/utils/graphdb_utils.py:37-41 | saving writes the graph to disk |
| GraphdbUtils.GraphModule.LoadGraph | src/utils/graphdb_utils.py:26-35 | loading reads the stored graph, or creates an empty graph and saves it |
| GraphdbUtils.GraphModule.GetGraph | src/utils/graphdb_utils.py:16-20 | the first call loads; later calls return the cached graph |
| GraphdbUtils.GraphModule.AddDependency | src/utils/graphdb_utils.py:43-46 | the edge (and missing endpoints) is added to the cached graph, which is saved |
| GraphdbUtils.GraphModule.GetDependencies | src/utils/graphdb_utils.py:48-50 | the successors of the name, or NetworkXError |
| GraphdbUtils.GraphModule.GetDependents | src/utils/graphdb_utils.py:52-54 | the predecessors of the name, or NetworkXError |
| GraphdbUtils.GraphModule.EntityExists | src/utils/graphdb_utils.py:56-58 | true iff the name is a node |
| GraphdbUtils.GraphModule.ClearGraph | src/utils/graphdb_utils.py:60-64 | an empty graph replaces the cache and is saved |
| GraphdbUtils.GraphModule.GetAllEntities | src/utils/graphdb_utils.py:66-68 | every node, in insertion order |
| GraphdbUtils.GraphModule.GetAllDependencies | src/utils/graphdb_utils.py:70-72 | every edge, grouped by source in node order |
| GraphdbIndexer.EntityStep | src/indexers/graphdb_indexer.py:12-20 | an entity becomes a node with its attributes unless a node of that name exists; a non-record raises AttributeError and changes nothing |
| GraphdbIndexer.AppendLine | src/indexers/graphdb_indexer.py:36 | `setdefault("line_numbers", []).append(line)` appends the line, starting a new list when the key is missing; a non-list value raises |
| GraphdbIndexer.CallEndpoints | src/indexers/graphdb_indexer.py:27-32 | caller and callee are nodes whose `file_path` is the call's, whatever it was before; no other node and no edge changes |
| GraphdbIndexer.CallStep | src/indexers/graphdb_indexer.py:22-24 | a call-list element that is not a record raises AttributeError at `.caller` and changes nothing |
| GraphdbIndexer.CallStepEffect | src/indexers/graphdb_indexer.py:22-38 | one call makes its endpoints nodes with its file, makes the edge exist, and changes no other edge |
| GraphdbIndexer.EdgeKeptFrame | src/indexers/graphdb_indexer.py:35-36 | the append on an existing edge changes no node and no other edge |
| GraphdbIndexer.EdgeAddedFrame | src/indexers/graphdb_indexer.py:37-38 | adding a new edge between existing nodes changes no node and no other edge |
| GraphdbIndexer.CallStepLines | src/indexers/graphdb_indexer.py:35-38 | the call raises iff the edge's `line_numbers` is present and not a list; otherwise the call's line is appended to the edge's lines |
| GraphdbIndexer.AppendLineLines | src/indexers/graphdb_indexer.py:36 | the append leaves the edge holding its old lines then the new one |
| GraphdbIndexer.NewEdgeLines | src/indexers/graphdb_indexer.py:38 | a new edge holds just the call's line |
| GraphdbIndexer.AddEntitiesNext | src/indexers/graphdb_indexer.py:12-20 | the entity loop grows one element at a time and stops at the first raise |
| GraphdbIndexer.AddCallsNext | src/indexers/graphdb_indexer.py:22-38 | the call loop grows one element at a time and stops at the first raise |
| GraphdbIndexer.EntityLoop | src/indexers/graphdb_indexer.py:12-20 | the entity loop computes `AddEntities` |
| GraphdbIndexer.AddEntities | src/indexers/graphdb_indexer.py:12-20 | the entity loop as a function; stated by `AddEntitiesEffect` and `AddEntitiesSticky` |
| GraphdbIndexer.AddCalls | src/indexers/graphdb_indexer.py:22-38 | the call loop as a function; stated by `AddCallsLines` and `AddCallsSticky` |
| GraphdbIndexer.Relate | src/indexers/graphdb_indexer.py:6-38 | both loops in order; stated by `RelateWellFormed` |
| GraphdbIndexer.CallLoop | src/indexers/graphdb_indexer.py:22-38 | the call loop computes `AddCalls` |
| GraphdbIndexer.AddCallerCalleeRelations | src/indexers/graphdb_indexer.py:6-42 | the cached graph becomes the result of both loops, changed in place; it is saved only when neither raised |
| GraphdbIndexer.AddEntitiesSticky | src/indexers/graphdb_indexer.py:12-20 | once the entity loop has raised, later elements change nothing |
| GraphdbIndexer.AddCallsSticky | src/indexers/graphdb_indexer.py:22-38 | once the call loop has raised, later elements change nothing |
| GraphdbIndexer.EntityStepWellFormed | src/indexers/graphdb_indexer.py:12-20 | one entity step keeps the graph consistent and removes nothing |
| GraphdbIndexer.CallEndpointsWellFormed | src/indexers/graphdb_indexer.py:27-32 | adding the endpoints keeps the graph consistent and removes nothing |
| GraphdbIndexer.AppendLineWellFormed | src/indexers/graphdb_indexer.py:36 | the append keeps the graph consistent and removes nothing |
| GraphdbIndexer.CallStepWellFormed | src/indexers/graphdb_indexer.py:22-38 | one call step keeps the graph consistent and removes nothing |
| GraphdbIndexer.AddEntitiesWellFormed | src/indexers/graphdb_indexer.py:12-20 | the entity loop keeps the graph consistent and removes nothing |
| GraphdbIndexer.AddCallsWellFormed | src/indexers/graphdb_indexer.py:22-38 | the call loop keeps the graph consistent and removes nothing |
| GraphdbIndexer.RelateWellFormed | src/indexers/graphdb_indexer.py:6-42 | the whole update keeps the graph consistent and removes no node or edge, even when it raises part-way |
| GraphdbIndexer.AddEntitiesEffect | src/indexers/graphdb_indexer.py:12-20 | the entity loop touches no edge, keeps every existing node's attributes, and makes each entity a node |
| GraphdbIndexer.AppendedTransitive | src/indexers/graphdb_indexer.py:36 | appending lines twice is appending both lists in order |
| GraphdbIndexer.CallStepOnEdge | src/indexers/graphdb_indexer.py:22-38 | seen from any edge, one call appends that call's line if it is on that edge, and nothing otherwise |
| GraphdbIndexer.AddCallsLines | src/indexers/graphdb_indexer.py:22-38 | after a call loop that raised nothing, each edge's `line_numbers` is its old list followed by the lines of the calls on it, in call order |
| GraphdbRetriever.CallRecordsFile | src/retrievers/graphdb_retriever.py:12-16 | after one call is indexed, both caller and callee report the call's file |
| GraphdbRetriever.EntityRecordsFile | src/retrievers/graphdb_retriever.py:12-16 | after one entity is indexed, a new node reports its file and an existing node keeps the file it had |
| GraphdbRetriever.CallStepKeys | src/indexers/graphdb_indexer.py:35-38 | one call step only adds the key "line_numbers" to its edge |
| GraphdbRetriever.CallStepNoLineNumberKey | src/indexers/graphdb_indexer.py:22-38 | one call step never writes the key "line_number" |
| GraphdbRetriever.CallNoLineNumberKey | src/indexers/graphdb_indexer.py:22-38 | nor does one recorded call |
| GraphdbRetriever.AddCallsNoLineNumberKey | src/indexers/graphdb_indexer.py:22-38 | nor does the call loop |
| GraphdbRetriever.RelateNoLineNumberKey | src/indexers/graphdb_indexer.py:6-42 | indexing a file, raising or not, never writes the key "line_number" |
| GraphdbRetriever.AddDependencyNoLineNumberKey | src/utils/graphdb_utils.py:43-46 | nor does `add_dependency` |
| GraphdbRetriever.IndexedCallLineNumberIsNone | src/retrievers/graphdb_retriever.py:18-22 | as written, `get_call_line_number` answers None for every pair on any graph built by indexing into an empty graph |
| GraphdbRetriever.OneCallLineNumberIsNone | src/retrievers/graphdb_retriever.py:18-22 | after indexing one call into an empty graph the edge exists and holds the line under "line_numbers", yet the lookup answers None |
| GraphdbRetriever.RelateCallLineNumbers | src/retrievers/graphdb_retriever.py:18-22 | the corrected lookup lists an edge's old lines, then the lines of the file's calls on it, in call order |
| GraphdbRetriever.GetCallees | src/retrievers/graphdb_retriever.py:3-4 | the successors, and nothing changes but the first load |
| GraphdbRetriever.GetCallers | src/retrievers/graphdb_retriever.py:6-7 | the predecessors, and nothing changes but the first load |
| GraphdbRetriever.FunctionExists | src/retrievers/graphdb_retriever.py:9-10 | true iff the name is a node |
| GraphdbRetriever.GetFunctionFile | src/retrievers/graphdb_retriever.py:12-16 | the node's `file_path`; None when the node or the attribute is missing |
| GraphdbRetriever.GetCallLineNumber | src/retrievers/graphdb_retriever.py:18-22 | the edge's "line_number" attribute as written; None when there is no edge |
| GraphdbRetriever.FunctionFile | src/retrievers/graphdb_retriever.py:12-16 | the answer of `get_function_file` on a graph; stated by `GetFunctionFile` and `EntityRecordsFile` |
| GraphdbRetriever.CallLineNumber | src/retrievers/graphdb_retriever.py:18-22 | the lookup as written; stated by `IndexedCallLineNumberIsNone` |
| GraphdbRetriever.CallLineNumbers | src/retrievers/graphdb_retriever.py:18-22 | the corrected lookup; stated by `RelateCallLineNumbers` |
| GraphdbRetriever.GetAllFunctions | src/retrievers/graphdb_retriever.py:24-25 | every node |
| GraphdbRetriever.GetAllCallRelationships | src/retrievers/graphdb_retriever.py:27-28 | every edge |
| CodefileRetriever.Project | src/retrievers/codefile_retriever.py:13 | a projection keeps exactly the document's entries under the projected keys |
| CodefileRetriever.FirstFrom | src/retrievers/codefile_retriever.py:13 | `find_one` picks the first selected document: every earlier one is not selected, and None means none is |
| CodefileRetriever.FirstIs | src/retrievers/codefile_retriever.py:39 | a selected document with no selected one before it is the one `find_one` picks |
| CodefileRetriever.FindAll | src/utils/mongodb_utils.py:26-42 | `find` returns no more documents than are stored |
| CodefileRetriever.FindAllAppend | src/utils/mongodb_utils.py:42 | over two stretches of the store, `find` answers the first stretch's documents before the second's: results keep store order |
| CodefileRetriever.FindAllMembers | src/utils/mongodb_utils.py:28-42 | `find` answers exactly the projections of the documents typed "CodeFile.class" |
| CodefileRetriever.FindOne | src/utils/mongodb_utils.py:50-87 | `find_one` as a function; stated by `FirstFrom` and `FirstIs` |
| CodefileRetriever.Elements | src/retrievers/codefile_retriever.py:19-20 | iterating a stored list yields its items; None or a number raises |
| CodefileRetriever.BuildEntity | src/retrievers/codefile_retriever.py:19 | `CodeEntity(**e)` succeeds exactly when the entity constructor accepts the dict |
| CodefileRetriever.BuildCall | src/retrievers/codefile_retriever.py:20 | `FunctionCall(**fc)` succeeds exactly when the call constructor accepts the dict |
| CodefileRetriever.RebuildEach | src/retrievers/codefile_retriever.py:19-20 | the comprehension succeeds iff every element is a dict the constructor accepts, and then rebuilds each in order |
| CodefileRetriever.FieldsFrom | src/retrievers/codefile_retriever.py:22-33 | every field missing from the document takes the `get` default: None for path and code, empty lists, "CodeFile.class" for `type` |
| CodefileRetriever.FromDocument | src/retrievers/codefile_retriever.py:19-33 | a rebuilt file's entities and calls are records; missing lists give empty ones |
| CodefileRetriever.FromFound | src/retrievers/codefile_retriever.py:15-17 | a missing or empty document takes the `log_error` path, which raises TypeError as written |
| CodefileRetriever.FromFoundFixed | src/retrievers/codefile_retriever.py:15-17 | corrected, a missing document gives None; a found one is rebuilt as before |
| CodefileRetriever.FetchCodeFileByFilePath | src/retrievers/codefile_retriever.py:9-33 | the fetch by path projects onto `raw_code` alone, so a rebuilt file has no path, no lists and the default type; a missing path raises TypeError |
| CodefileRetriever.FetchCodeFileByFilePathFixed | src/retrievers/codefile_retriever.py:9-33 | corrected, a missing path gives None |
| CodefileRetriever.FetchCodeFileByEmbeddingId | src/retrievers/codefile_retriever.py:35-59 | the fetch by id rebuilds the first code document listing the id; none found raises TypeError as written |
| CodefileRetriever.FetchCodeFileByEmbeddingIdFixed | src/retrievers/codefile_retriever.py:35-59 | corrected, no document listing the id gives None |
| CodefileRetriever.RebuildAll | src/retrievers/codefile_retriever.py:67-83 | rebuilding every document succeeds iff each one can be rebuilt, and then gives one file per document in order |
| CodefileRetriever.RebuildAllSnoc | src/retrievers/codefile_retriever.py:68-83 | one more rebuilt document appends one more file |
| CodefileRetriever.FetchAllCodeFiles | src/retrievers/codefile_retriever.py:61-85 | the loop rebuilds every stored code document in store order; the first failure raises |
| CodefileRetriever.RebuildAllSticky | src/retrievers/codefile_retriever.py:68-83 | once a document cannot be rebuilt, later documents do not change the outcome |
| CodefileRetriever.RebuildEntitiesRoundTrip | src/retrievers/codefile_retriever.py:19 | rebuilding the entity dicts `to_dict` writes gives the entities back |
| CodefileRetriever.RebuildCallsRoundTrip | src/retrievers/codefile_retriever.py:20 | rebuilding the call dicts `to_dict` writes gives the calls back |
| CodefileRetriever.DocumentRoundTrip | src/retrievers/codefile_retriever.py:19-33 | a CodeFile of records is rebuilt exactly from its own `to_dict()` |
| CodefileRetriever.ProjectToDict | src/retrievers/codefile_retriever.py:65 | the ten-key projection of a stored `to_dict()` is the whole document |
| CodefileRetriever.FoundToDict | src/retrievers/codefile_retriever.py:45-59 | a found `to_dict()` is rebuilt to the same file |
| CodefileRetriever.FindsStored | src/retrievers/codefile_retriever.py:39 | the stored `to_dict()` is found, whole, by any of its ids |
| CodefileRetriever.FetchByEmbeddingIdRoundTrip | src/retrievers/codefile_retriever.py:35-59 | a file stored as the first code document listing an id comes back unchanged from the fetch by that id |
| CodefileRetriever.FindAllToDict | src/retrievers/codefile_retriever.py:65 | a stored `to_dict()` output is selected and projects to itself |
| CodefileRetriever.FetchAllRoundTrip | src/retrievers/codefile_retriever.py:61-85 | fetching everything from a store of `to_dict()` outputs gives the files back, in order |
| CodefileRetriever.MissingDocumentRaises | src/retrievers/codefile_retriever.py:15-17 | as written, an empty store makes both fetches raise; corrected, both answer None |
| QueryProcessor.AsciiOnly | src/query_processor/query_processor.py:33 | dropping non-ASCII characters leaves only ASCII and never lengthens the text |
| QueryProcessor.AsciiOnlyCounts | src/query_processor/query_processor.py:33 | each ASCII character is kept as often as it occurs, every other one dropped |
| QueryProcessor.AsciiOnlyAppend | src/query_processor/query_processor.py:33 | dropping distributes over concatenation, so the kept characters keep their order |
| QueryProcessor.AsciiOnlyKeepsAscii | src/query_processor/query_processor.py:33 | an all-ASCII text is unchanged |
| QueryProcessor.PreprocessQuery | src/query_processor/query_processor.py:27-34 | the preprocessed query is all ASCII |
| QueryProcessor.PreprocessAsciiQuery | src/query_processor/query_processor.py:27-34 | on an ASCII query `preprocess_query` is exactly `strip` |
| QueryProcessor.PreprocessMayLeaveEdgeSpace | src/query_processor/query_processor.py:32-33 | stripping before dropping can leave edge whitespace: "é x" becomes " x" |
| QueryProcessor.CleanResponse | src/query_processor/query_processor.py:36-44 | a reply with neither marker is returned unchanged and unstripped |
| QueryProcessor.CleanResponseStripped | src/query_processor/query_processor.py:40-44 | once either marker has been removed the reply is stripped |
| QueryProcessor.CleanFencedReply | src/query_processor/query_processor.py:36-44 | a reply fenced as "```json … ```" comes back as its stripped body |
| QueryProcessor.ClassifyQuery | src/query_processor/query_processor.py:80-90 | the class is one of "documentation", "code" and "hybrid" |
| QueryProcessor.ClassifyQueryCases | src/query_processor/query_processor.py:84-90 | "documentation" iff "doc" occurs in the lower-cased query; "code" iff it does not and a code keyword does |
| QueryProcessor.WordEnd | src/query_processor/query_processor.py:76-77 | the leading word run is maximal |
| QueryProcessor.Calls | src/query_processor/query_processor.py:76 | every match of the call pattern is a word followed by "()" |
| QueryProcessor.Capitalised | src/query_processor/query_processor.py:77 | every match of the capital pattern is a whole word of two or more characters opening with a capital |
| QueryProcessor.WordEndBefore | src/query_processor/query_processor.py:76-77 | a word run stops at a non-word character |
| QueryProcessor.CallsAppend | src/query_processor/query_processor.py:76 | the calls of two texts joined by a separator are the calls of each, in order |
| QueryProcessor.CallsWordStep | src/query_processor/query_processor.py:76 | the word at the head of a text is matched the same way with or without text after a separator |
| QueryProcessor.CallsAppendTail | src/query_processor/query_processor.py:76 | the calls of a text followed by a tail that opens with a separator are the calls of the text, then those of the rest of the tail |
| QueryProcessor.CallsWordCall | src/query_processor/query_processor.py:76 | a word followed by "()" stays one call, with the same text, when more text is appended |
| QueryProcessor.CallsWordPlain | src/query_processor/query_processor.py:76 | a word not followed by "()" stays no call when text opening with a separator is appended |
| QueryProcessor.CapitalisedAppend | src/query_processor/query_processor.py:77 | the capitalised words of two texts joined by a non-word character are those of each, in order |
| QueryProcessor.WordEndOfWord | src/query_processor/query_processor.py:76-77 | a word followed by a non-word character is one word run |
| QueryProcessor.CallOfWord | src/query_processor/query_processor.py:76 | a word followed by "()" is exactly one call |
| QueryProcessor.CapitalisedOfWord | src/query_processor/query_processor.py:77 | a lone word is one match exactly when it opens with a capital and has two or more characters |
| QueryProcessor.ExtractEntitiesHeuristic | src/query_processor/query_processor.py:71-78 | functions are call-shaped and modules capital-shaped, each in order of appearance |
| QueryProcessor.HeuristicExtraction | src/query_processor/query_processor.py:152-154 | the fallback dict has exactly the three keys and a valid classification |
| QueryProcessor.EntityChoice | src/query_processor/query_processor.py:110-113 | an entity is appended only with a type of "function" or "class" and a truthy name |
| QueryProcessor.EmptyNames | src/query_processor/query_processor.py:103 | the grouping starts with exactly the keys "function" and "class" |
| QueryProcessor.GroupNames | src/query_processor/query_processor.py:103-115 | the grouped names have exactly the keys "function" and "class" |
| QueryProcessor.GroupNamesRaises | src/query_processor/query_processor.py:109-113 | the loop raises exactly when one of the elements does |
| QueryProcessor.GroupNamesSnoc | src/query_processor/query_processor.py:109-113 | one more element is one more turn of the loop |
| QueryProcessor.GroupNamesSticky | src/query_processor/query_processor.py:109-113 | once an element has raised, later elements change nothing |
| QueryProcessor.FileEntitiesPrefix | src/query_processor/query_processor.py:105-107 | the entities of the first files come first |
| QueryProcessor.KindNames | src/query_processor/query_processor.py:112-113 | a kind's names are no more than the entities |
| QueryProcessor.GroupNamesOfRecords | src/query_processor/query_processor.py:103-115 | on dataclass entities the loop never raises, and each kind lists exactly its entities' non-empty names, in order |
| QueryProcessor.GroupNamesRecordStep | src/query_processor/query_processor.py:109-113 | one more dataclass entity keeps that correspondence |
| QueryProcessor.RecordKept | src/query_processor/query_processor.py:112-113 | a kept entity extends its kind's list |
| QueryProcessor.RecordSkipped | src/query_processor/query_processor.py:112 | a skipped entity changes nothing |
| QueryProcessor.KindNamesLast | src/query_processor/query_processor.py:112-113 | the last entity adds its name to its kind's list only |
| QueryProcessor.GroupNamesLast | src/query_processor/query_processor.py:109-113 | the last step appends the chosen name under its kind, or skips |
| QueryProcessor.NameAppended | src/query_processor/query_processor.py:113 | appending under one kind leaves the other kind's list as it was |
| QueryProcessor.AsDictEachLast | src/query_processor/query_processor.py:106-107 | `to_dict` of all but the last entity, and of the last one |
| QueryProcessor.RecordChoice | src/query_processor/query_processor.py:106-113 | a dataclass entity, as its field dict, is kept exactly when its kind is listed and its name is non-empty |
| QueryProcessor.ExtractEntityNames | src/query_processor/query_processor.py:92-115 | the loop over the files returns the grouping of every file's entities in file order, or the first error |
| QueryProcessor.GroupEntities | src/query_processor/query_processor.py:109-113 | the inner loop carries the grouping on over one file's entities |
| QueryProcessor.FileDictEntities | src/query_processor/query_processor.py:106-107 | a file's `to_dict()["entities"]` is its entity list converted element by element |
| QueryProcessor.FileEntitiesNext | src/query_processor/query_processor.py:105-107 | each file adds its entities at the end |
| QueryProcessor.GroupNamesNext | src/query_processor/query_processor.py:109-113 | one more entity of the current file is one more turn |
| QueryProcessor.RaisedInEntities | src/query_processor/query_processor.py:109-113 | an element that raises ends the loop with its error |
| QueryProcessor.RaisedInFile | src/query_processor/query_processor.py:105-113 | a file whose entities raise ends the whole loop with that error |
| QueryProcessor.FileEntitiesThrough | src/query_processor/query_processor.py:105-107 | the entities through file `i` are a prefix of all of them |
| QueryProcessor.Chars | src/query_processor/query_processor.py:257-260 | iterating a `str` yields its characters as one-character strings |
| QueryProcessor.JoinValue | src/query_processor/query_processor.py:257-260 | `", ".join` joins a list of strings, joins a string character by character, and raises otherwise |
| QueryProcessor.Templates | src/query_processor/query_processor.py:257-266 | the template dict has exactly the four query keys |
| QueryProcessor.FallbackReformulatedQueries | src/query_processor/query_processor.py:246-266 | the fallback answers with exactly the four query keys |
| QueryProcessor.FallbackDefaults | src/query_processor/query_processor.py:255-256 | with neither key present the default names "ModuleA, ModuleB" and "processData()" are used |
| QueryProcessor.FallbackEmptyListsKept | src/query_processor/query_processor.py:255-256 | a key that is present, even with an empty list, is used as it is |
| QueryProcessor.HeuristicFallback | src/query_processor/query_processor.py:246-266 | on the heuristic dict the templates list the heuristic names in order of appearance |
| QueryProcessor.FaissQueryText | src/query_processor/query_processor.py:271-276 | "Node: X" when there are no dependencies, otherwise "Node: X. Depends on: " and the joined names |
| QueryProcessor.FaissQueryOf | src/query_processor/query_processor.py:268-276 | the query string exists iff the name is a node of the graph |
| QueryProcessor.IndexedCallShowsInQuery | src/query_processor/query_processor.py:268-276 | once a call has been indexed, its caller's query string lists the callee under "Depends on" |
| QueryProcessor.BuildFaissQueryFromGraph | src/query_processor/query_processor.py:268-276 | the query string for the cached graph; nothing changes but the first load |
| QueryProcessor.FixQuotes | src/query_processor/query_processor.py:160 | every single quote becomes a double quote and nothing else changes |
| QueryProcessor.HasKey | src/query_processor/query_processor.py:169 | on a dict, `key in data` is key membership |
| QueryProcessor.HasKeys | src/query_processor/query_processor.py:169 | on a dict, `all(...)` holds iff every key is present |
| QueryProcessor.ExtractionFromReply | src/query_processor/query_processor.py:149-180 | a returned value is a dict with the three keys; an error is SystemExit, or TypeError/AttributeError from a non-dict reply |
| QueryProcessor.ExtractionFallsBack | src/query_processor/query_processor.py:149-173 | a failed call, an undecodable reply, or a dict missing a key gives the heuristic dict |
| QueryProcessor.ExtractionValidates | src/query_processor/query_processor.py:169-180 | a decoded dict with the three keys is returned as it is iff it names a function or a module, else SystemExit |
| QueryProcessor.GetExtractionFromGemini | src/query_processor/query_processor.py:117-180 | the names of every stored code file are gathered first: a failed fetch or grouping raises that error before any reply is read; otherwise the outcome is the reply's, as `ExtractionFromReply` states |
| QueryProcessor.EmptyHeuristicNotRejected | src/query_processor/query_processor.py:149-180 | only the LLM's answer is checked for names: the same empty lists pass from the heuristic and end the program from the LLM |
| QueryProcessor.NonDictReplyRaises | src/query_processor/query_processor.py:169-176 | a decoded number makes the key test raise TypeError; a list of the three key names passes it and then has no `get` |

## Left out

- The LLM calls (`call_gemini_api`, `get_reformulated_queries`, `process_query` and the script's `main`, src/query_processor/query_processor.py:46-69, 205-244, 278-350) are network I/O: the model takes the reply text, or `None` for a failed call, as an input.
- The API-key check at import time (src/query_processor/query_processor.py:21-25) reads the environment and is not modelled.
- `json.loads` is a parameter: a function from text to an optional decoded value, `None` standing for `JSONDecodeError`. Decoded booleans and floats have no case in `Value`: the model does not represent them, so a document whose JSON holds them is not modelled exactly.
- Printing and logging have no observable effect in the model, except where the logging call itself raises (`log_error` in the code-file retriever).
- The encoders (CodeBERT, sentence-transformers) are opaque functions from text to a vector. FAISS distance computations are a parameter of the search, which returns its own answer.
- The MongoDB helpers (src/utils/mongodb_utils.py) are modelled as a list of stored dicts with `insert_one`, `find_one` and `find` semantics. Connection handling and `insert_metadata` are not modelled.
- src/retrievers/docfile_retiever.py is not part of this model.
- `os.walk` is an input: the sequence of (directory, files) pairs it yields. A missing root is an empty walk. Symbolic links and ordering by the file system are not modelled.
- Text is a sequence of characters. `str.strip`, `\s` and `splitlines` know every Unicode whitespace character and line break; a regular expression's `.` and `$` stop only at `'\n'`, as Python's do. Only `\w` (read as `[A-Za-z0-9_]`, also where `\b` consults it) and `str.lower` are ASCII here: a non-ASCII letter or digit in a query is not a word character, and is not lower-cased.
- `ast.AsyncFunctionDef` has a node kind of its own, which the parser, like the source, does not collect from; `ast.AugAssign` and `ast.AnnAssign` are "other" nodes, which it does not collect from either.
- Persistence plumbing is not modelled: pickling the FAISS metadata, `faiss.write_index`, `os.makedirs`, the graph pickle file, config loading, logger setup, src/indexers/index_manager.py and scripts/initial_indexing.py.
- An indexer object of no repository class (`DuckTyped`) answers through two opaque functions; its own state is not modelled.
- `process_query` calls `search_similar` on a `CodeBERTIndexer`, which has no such method; this path lies in the LLM-driven part that is not modelled.
- Concurrency is not modelled. Every operation runs alone.
- CodeParser.ParseCodeFile: every path in the file map reads as UTF-8 text. A file that exists but cannot be read (UnicodeDecodeError, PermissionError, a directory) is not modelled; in the source that error escapes `parse_code_file`, which catches only SyntaxError and FileNotFoundError.
- DocParser.ParseDocFile: the same unreadable files are not modelled; `parse_doc_file` would answer None for them through its `except Exception`, as it does for a missing file.
- RemoveComments: the function's own contract states only that no '#' is left, that the text does not grow and that text without '#' is unchanged; what is kept, line by line, is proved by RemoveCommentsLine, RemoveCommentsFirst and RemoveCommentsLines beside it.
- NonBlankStripped: the function's own contract states only the shape of the kept lines; that they are exactly the stripped non-blank lines, in order, is proved by NonBlankStrippedAppend, NonBlankStrippedOne and NonBlankStrippedMembers beside it.
- CollapseWhitespace: the function's own contract states only the first character and that single spaces are the only whitespace left; that each maximal whitespace run becomes exactly one ' ' is proved by CollapseAppend, CollapseLeadingRun, CollapseRun and CollapseEnds beside it.
- HeadingLines: the function's own contract states only the shape of the sections; that they are every '#'-initial line, stripped, in order, is proved by HeadingLinesAppend, HeadingLinesOne and HeadingLinesMembers beside it.
- FindAll: the function's own contract states only a length bound; that it answers the projections of exactly the documents typed "CodeFile.class", in store order, is proved by FindAllAppend and FindAllMembers beside it.
- QueryProcessor.JoinValue: a dict argument is reported as TypeError, whereas Python joins the dict's keys.
- CodefileRetriever.FieldsFrom: a stored field of the wrong type is refused, whereas Python would store it unchecked.
- DataModels.EntityFromDict: a field of the wrong type is refused, whereas the generated `__init__` stores any value.
- DataModels.CallFromDict: a field of the wrong type is refused, whereas the generated `__init__` stores any value.
- IngestionManager.IndexCodeReply: `indexer.add_code_to_index(raw_code)` passes one argument where `CodeBERTIndexer` needs two. The call is modelled as written and raises TypeError; no corrected call is modelled, so the corrected ingestion path uses an indexer object of no repository class.

## Findings

| source | as written | input that shows it | evidently intended | confidence | as-written member | corrected member |
|---|---|---|---|---|---|---|
| src/ingestion/code_parser.py:73-82 | `CodeFile(...)` is built without `embedding_ids`, a field with no default | any readable, parsable file, e.g. the text `x = 1` | pass `embedding_ids=[]` so a record is returned | high (not executed) | CodeParser.ParseCodeFileAlwaysRaises | CodeParser.ParseCodeFileFixedShape |
| src/ingestion/doc_parser.py:145-153 | `DocumentationFile(...)` is given `embedding_id` and `type`, which the dataclass does not declare | any readable Markdown file without six backticks in a row, e.g. `# Title` | construct the record from its declared fields | high (not executed) | DocParser.AsWrittenDocKeywordsRejected | DocParser.ParseDocFileFixedRecord |
| src/retrievers/graphdb_retriever.py:21 | the lookup reads the edge key `line_number`, but src/indexers/graphdb_indexer.py:36-38 writes `line_numbers` | index one call from `a` to `b` at line 3 into an empty graph, then ask for the line of (`a`, `b`): `None` | read `line_numbers`, giving `[3]` | high (not executed) | GraphdbRetriever.OneCallLineNumberIsNone | GraphdbRetriever.RelateCallLineNumbers |
| src/retrievers/codefile_retriever.py:15-17 | `log_error(message)` is called with one argument, but it takes `(logger, message)` | fetch any path from an empty store: TypeError instead of `None` | log the miss and return `None` | high (not executed) | CodefileRetriever.MissingDocumentRaises | CodefileRetriever.FromFoundFixed |
| src/ingestion/ingestion_manager.py:43-44 | the index id is set as `embedding_id`, which `to_dict` does not write; the stored `embedding_ids` stays empty | ingest one code file whose index call answers 7, then fetch by embedding id 7: nothing is found | record the id in `embedding_ids` before storing | medium (not executed) | IngestionManager.StoredRecordLacksId | IngestionManager.StoredRecordFixedFound |

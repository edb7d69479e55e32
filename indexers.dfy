/**
 * The embedding-id allocators of `src/indexers/`.
 *
 * Each indexer encodes a text to one row, appends that row to the vector
 * index, and only then bumps its own counter `id_count` (which starts at -1)
 * and returns it. The encoder (a transformer model) is an opaque function
 * that may fail.
 *
 * The counter is per instance while the index is per process, so the
 * returned id names the new row's position only while the index started
 * empty and this instance has been its only writer (`Aligned`).
 */
module Indexers {
  import opened Common
  import opened EmbeddingUtils

  /** `encode_code` / `encode_document`: one text to one flat row, or an error. */
  type Encoder = string -> Result<Row>

  /**
   * `CodeBERTIndexer` (codefile_indexer.py) and the `DocumentIndexer` of
   * docfile_indexer.py: the same counter logic, writing through a
   * `FAISSManager`; they differ only in their encoder.
   */
  class ManagedIndexer {
    const encode: Encoder
    const embeddingDim: nat
    var idCount: int

    constructor (encode: Encoder, embeddingDim: nat := 768)
      ensures this.encode == encode && this.embeddingDim == embeddingDim && idCount == -1
    {
      this.encode := encode;
      this.embeddingDim := embeddingDim;
      idCount := -1;
    }

    /** Ids handed out so far correspond one to one with the rows of the index. */
    ghost predicate Aligned(manager: FaissManager)
      reads this, manager.index
    {
      |manager.index.rows| == idCount + 1
    }

    /**
     * `add_code_to_index(code, faiss_manager)` / `add_document_to_index(document, faiss_manager)`:
     * one row appended, then the counter bumped and returned. A failed encode
     * or append leaves the counter as it was.
     */
    method AddToIndex(text: string, manager: FaissManager) returns (r: Result<int>)
      modifies this, manager.index, manager.owner
      ensures manager.index.d == old(manager.index.d)
      ensures r.Ok? <==> encode(text).Ok? && |encode(text).value| == manager.index.d
      ensures encode(text).Err? ==> r == Err(encode(text).error)
      ensures encode(text).Ok? && |encode(text).value| != manager.index.d ==> r == Err(AssertionError("d == self.d"))
      ensures r.Ok? ==>
                r.value == old(idCount) + 1 && idCount == r.value
                && manager.index.rows == old(manager.index.rows) + [encode(text).value]
                && manager.owner.disk == Some(Snapshot(manager.index.d, manager.index.rows))
      ensures r.Err? ==> idCount == old(idCount) && manager.index.rows == old(manager.index.rows)
      ensures old(Aligned(manager)) ==> Aligned(manager)
      ensures r.Ok? && old(Aligned(manager)) ==> manager.index.rows[r.value] == encode(text).value
      ensures manager.owner.loaded == old(manager.owner.loaded)
    {
      var embedding := encode(text);
      if embedding.Err? {
        return Err(embedding.error);
      }
      var err := manager.AddEmbeddings(Matrix(|embedding.value|, [embedding.value]));
      if err.Some? {
        return Err(err.value);
      }
      idCount := idCount + 1;
      r := Ok(idCount);
    }
  }

  /**
   * The `DocumentIndexer` of metadata_indexer.py: writes through the module
   * function `add_embeddings_to_index`, so every row is shape-checked first.
   */
  class ModuleIndexer {
    const encode: Encoder
    const embeddingDim: nat
    const shared: FaissModule
    var idCount: int

    constructor (encode: Encoder, shared: FaissModule, embeddingDim: nat := 768)
      ensures this.encode == encode && this.shared == shared && this.embeddingDim == embeddingDim
      ensures idCount == -1
    {
      this.encode := encode;
      this.shared := shared;
      this.embeddingDim := embeddingDim;
      idCount := -1;
    }

    ghost predicate Aligned()
      reads this, shared, shared.slot
    {
      |shared.Rows()| == idCount + 1
    }

    /** `add_document_to_index(document)`: a row of the wrong width is refused and the counter kept. */
    method AddDocumentToIndex(document: string) returns (r: Result<int>)
      modifies this, shared, shared.slot
      ensures r.Ok? <==>
                encode(document).Ok? && |encode(document).value| == shared.dim && old(shared.Width()) == shared.dim
      ensures encode(document).Err? ==> r == Err(encode(document).error)
      ensures encode(document).Ok? && |encode(document).value| != shared.dim ==>
                r == Err(ValueError("Embeddings must have shape (n, dim)."))
      ensures r.Ok? ==>
                r.value == old(idCount) + 1 && idCount == r.value
                && shared.Rows() == old(shared.Rows()) + [encode(document).value]
      ensures r.Err? ==> idCount == old(idCount) && shared.Rows() == old(shared.Rows())
      ensures old(Aligned()) ==> Aligned()
      ensures r.Ok? && old(Aligned()) ==> shared.Rows()[r.value] == encode(document).value
      ensures shared.Width() == old(shared.Width())
    {
      var embedding := encode(document);
      if embedding.Err? {
        return Err(embedding.error);
      }
      var err := shared.AddEmbeddingsToIndex(Matrix(|embedding.value|, [embedding.value]));
      if err.Some? {
        return Err(err.value);
      }
      idCount := idCount + 1;
      r := Ok(idCount);
    }

    /** `search_similar(query, k=5)`: (indices, distances) exactly as the module search returns them. */
    method SearchSimilar(query: string, search: Searcher, k: int := 5) returns (r: Result<(seq<int>, seq<real>)>)
      modifies shared, shared.slot
      ensures encode(query).Err? ==> r == Err(encode(query).error)
      ensures encode(query).Ok? && |encode(query).value| != shared.dim ==>
                r == Err(ValueError("Query embedding must have shape (dim,)."))
      ensures encode(query).Ok? && |encode(query).value| == shared.dim && old(shared.Width()) == shared.dim && k <= 0 ==>
                r == Err(AssertionError("k > 0"))
      ensures r.Ok? <==>
                encode(query).Ok? && |encode(query).value| == shared.dim && old(shared.Width()) == shared.dim && k > 0
      ensures r.Ok? ==>
                r.value == (search(old(shared.Rows()), encode(query).value, k).1,
                            search(old(shared.Rows()), encode(query).value, k).0)
      ensures shared.Rows() == old(shared.Rows())
    {
      var embedding := encode(query);
      if embedding.Err? {
        return Err(embedding.error);
      }
      r := shared.SearchSimilarVectors(Vector(embedding.value), search, k);
    }
  }

  /**
   * A fresh indexer writing to an empty index is the only case where ids and
   * row positions agree: its first two ids are 0 and 1, at rows 0 and 1.
   */
  method SoleWriterIds(encode: Encoder, a: string, b: string) returns (first: Result<int>, second: Result<int>, rows: seq<Row>)
    requires encode(a).Ok? && |encode(a).value| == 768
    requires encode(b).Ok? && |encode(b).value| == 768
    ensures first == Ok(0) && second == Ok(1)
    ensures rows == [encode(a).value, encode(b).value]
  {
    var store := new FaissModule(768, None);
    var manager := new FaissManager(store);
    var indexer := new ManagedIndexer(encode);
    first := indexer.AddToIndex(a, manager);
    second := indexer.AddToIndex(b, manager);
    rows := manager.index.rows;
  }

  /**
   * Two managed indexers (say the code and the document indexer) write through
   * two managers into the one cached index: both hand out id 0, and the
   * second one's id 0 names the other text's row.
   */
  method ManagedIndexersCollide(encode: Encoder, a: string, b: string)
    returns (first: Result<int>, second: Result<int>, rows: seq<Row>)
    requires encode(a).Ok? && |encode(a).value| == 768
    requires encode(b).Ok? && |encode(b).value| == 768
    ensures first == Ok(0) && second == Ok(0)
    ensures rows == [encode(a).value, encode(b).value]
  {
    var store := new FaissModule(768, None);
    var m1 := new FaissManager(store);
    var m2 := new FaissManager(store);
    var x := new ManagedIndexer(encode);
    var y := new ManagedIndexer(encode);
    first := x.AddToIndex(a, m1);
    second := y.AddToIndex(b, m2);
    rows := m2.index.rows;
  }

  /** Two metadata indexers over the one process-wide index hand out overlapping ids. */
  method ModuleIndexersCollide(encode: Encoder, a: string, b: string)
    returns (first: Result<int>, second: Result<int>, rows: seq<Row>)
    requires encode(a).Ok? && |encode(a).value| == 768
    requires encode(b).Ok? && |encode(b).value| == 768
    ensures first == Ok(0) && second == Ok(0)
    ensures rows == [encode(a).value, encode(b).value]
  {
    var store := new FaissModule(768, None);
    var x := new ModuleIndexer(encode, store);
    var y := new ModuleIndexer(encode, store);
    first := x.AddDocumentToIndex(a);
    second := y.AddDocumentToIndex(b);
    rows := store.Rows();
  }
}

/**
 * The process-wide vector index of `src/utils/embedding_utils.py`.
 *
 * The index is a `faiss.IndexFlatL2`: a fixed row width and a sequence of
 * rows that only grows, one row per embedding, addressed by position. Only
 * its shape checks and its append are modelled; nearest-neighbour search is
 * floating-point work inside the library and is a parameter here.
 *
 * The module keeps one cached index (`_faiss_index`), loaded at most once,
 * and a snapshot on disk that every successful write refreshes.
 */
module EmbeddingUtils {
  import opened Common

  type Row = seq<real>

  /** What `isinstance(x, np.ndarray)` and `x.shape` reveal about an argument. */
  datatype NdArray =
    | NotAnArray                           // None, a string, nested lists, ...
    | NumberList(items: Row)               // a plain Python list of numbers
    | Vector(entries: Row)                 // shape (n,)
    | Matrix(width: nat, rows: seq<Row>)   // shape (len(rows), width)
    | Other(ndim: nat)                     // 0-d, 3-d and more, or 1-d of non-numbers

  /** `isinstance(x, np.ndarray)`. */
  predicate IsNdArray(x: NdArray)
  {
    !(x.NotAnArray? || x.NumberList?)
  }

  /** A numpy matrix is rectangular. */
  predicate Rectangular(x: NdArray)
  {
    x.Matrix? ==> forall i :: 0 <= i < |x.rows| ==> |x.rows[i]| == x.width
  }

  /** The numbers of a one-dimensional numeric query, array or list alike. */
  function QueryRow(q: NdArray): Option<Row>
  {
    match q
    case Vector(e) => Some(e)
    case NumberList(e) => Some(e)
    case _ => None
  }

  /**
   * `np.expand_dims(x, axis=0)`: the argument is first made an array (a list
   * of numbers becomes a vector, anything else not an array a 1-d object
   * array) and then given a leading axis of length one.
   */
  function ExpandDims(x: NdArray): (r: NdArray)
    ensures IsNdArray(r) && Rectangular(r)
    ensures r.Matrix? <==> QueryRow(x).Some?
    ensures r.Matrix? ==> r.rows == [QueryRow(x).value]
  {
    match x
    case NotAnArray => Other(1)
    case NumberList(e) => Matrix(|e|, [e])
    case Vector(e) => Matrix(|e|, [e])
    case Matrix(_, _) => Other(3)
    case Other(n) => Other(n + 1)
  }

  /** The single-query search of the library: first rows of (distances, labels). */
  type Searcher = (seq<Row>, Row, nat) -> (seq<real>, seq<int>)

  /** What `faiss.write_index` leaves at the configured index path. */
  datatype Snapshot = Snapshot(dim: nat, rows: seq<Row>)

  /** A `faiss.IndexFlatL2`. */
  class FlatIndex {
    var d: nat
    var rows: seq<Row>

    /** Every stored row has the index's width. */
    ghost predicate Valid()
      reads this
    {
      forall i :: 0 <= i < |rows| ==> |rows[i]| == d
    }

    constructor (d: nat)
      ensures this.d == d && rows == [] && Valid()
    {
      this.d := d;
      rows := [];
    }

    /** `faiss.read_index(path)`: the stored width and rows. */
    method Restore(s: Snapshot)
      modifies this
      ensures d == s.dim && rows == s.rows
    {
      d := s.dim;
      rows := s.rows;
    }

    /** `faiss.IndexFlatL2(d)`: an empty index of width `d`. */
    method Reset(d: nat)
      modifies this
      ensures this.d == d && rows == []
    {
      this.d := d;
      rows := [];
    }

    /**
     * `index.add(x)`: the library unpacks `n, d = x.shape` (AttributeError
     * for a non-array, ValueError for any shape that is not 2-D) and asserts
     * the width, then appends the rows in order.
     */
    method Add(x: NdArray) returns (err: Option<Error>)
      requires Rectangular(x)
      modifies this
      ensures d == old(d)
      ensures x.Matrix? && x.width == d ==> err == None && rows == old(rows) + x.rows
      ensures !(x.Matrix? && x.width == d) ==> err.Some? && rows == old(rows)
      ensures !IsNdArray(x) ==> err == Some(AttributeError("object has no attribute 'shape'"))
      ensures x.Matrix? && x.width != d ==> err == Some(AssertionError("d == self.d"))
      ensures old(Valid()) ==> Valid()
    {
      match x
      case NotAnArray =>
        err := Some(AttributeError("object has no attribute 'shape'"));
      case NumberList(_) =>
        err := Some(AttributeError("object has no attribute 'shape'"));
      case Matrix(w, xs) =>
        if w != d {
          err := Some(AssertionError("d == self.d"));
        } else {
          rows := rows + xs;
          err := None;
        }
      case _ =>
        err := Some(ValueError("shape is not (n, d)"));
    }

    /**
     * `index.search(x, k)`, read at the first query: the library unpacks
     * `n, d = x.shape` and asserts `d == self.d` and `k > 0`; the caller's
     * `[0]` needs at least one query row.
     */
    method Search(q: NdArray, k: int, search: Searcher) returns (r: Result<(seq<int>, seq<real>)>)
      ensures !IsNdArray(q) ==> r == Err(AttributeError("object has no attribute 'shape'"))
      ensures IsNdArray(q) && !q.Matrix? ==> r == Err(ValueError("shape is not (n, d)"))
      ensures q.Matrix? && q.width != d ==> r == Err(AssertionError("d == self.d"))
      ensures q.Matrix? && q.width == d && k <= 0 ==> r == Err(AssertionError("k > 0"))
      ensures q.Matrix? && q.width == d && k > 0 && q.rows == [] ==>
                r == Err(IndexError("index 0 is out of bounds for axis 0 with size 0"))
      ensures r.Ok? <==> q.Matrix? && q.width == d && k > 0 && q.rows != []
      ensures r.Ok? ==> r.value == (search(rows, q.rows[0], k).1, search(rows, q.rows[0], k).0)
    {
      if !IsNdArray(q) {
        r := Err(AttributeError("object has no attribute 'shape'"));
      } else if !q.Matrix? {
        r := Err(ValueError("shape is not (n, d)"));
      } else if q.width != d {
        r := Err(AssertionError("d == self.d"));
      } else if k <= 0 {
        r := Err(AssertionError("k > 0"));
      } else if q.rows == [] {
        r := Err(IndexError("index 0 is out of bounds for axis 0 with size 0"));
      } else {
        var (distances, labels) := search(rows, q.rows[0], k);
        r := Ok((labels, distances));
      }
    }
  }

  /**
   * The module's global state: the configured dimension, the cache and the
   * file on disk. `_faiss_index` is set once, to one index object, and never
   * replaced; that object is `slot`, allocated with the module and filled by
   * the first load, and `loaded` says whether `_faiss_index` is set yet.
   */
  class FaissModule {
    const dim: nat
    const slot: FlatIndex
    var loaded: bool
    var disk: Option<Snapshot>

    /** Module import: nothing cached yet; `disk` is whatever a previous run left. */
    constructor (dim: nat, disk: Option<Snapshot>)
      ensures this.dim == dim && !loaded && this.disk == disk
      ensures fresh(slot)
    {
      this.dim := dim;
      slot := new FlatIndex(dim);
      loaded := false;
      this.disk := disk;
    }

    /** The rows the process sees: the cached index's, or else what a load would give. */
    function Rows(): seq<Row>
      reads this, slot
    {
      if loaded then slot.rows else if disk.Some? then disk.value.rows else []
    }

    /** The width of the index the process works with. */
    function Width(): nat
      reads this, slot
    {
      if loaded then slot.d else if disk.Some? then disk.value.dim else dim
    }

    /** `save_faiss_index(index)`. */
    method Save(index: FlatIndex)
      modifies this
      ensures disk == Some(Snapshot(index.d, index.rows)) && loaded == old(loaded)
    {
      disk := Some(Snapshot(index.d, index.rows));
    }

    /** `load_faiss_index()`: read the stored index, or create, save and return an empty one. */
    method LoadFaissIndex() returns (index: FlatIndex)
      modifies this, slot
      ensures index == slot && loaded == old(loaded)
      ensures old(disk).Some? ==> index.d == old(disk).value.dim && index.rows == old(disk).value.rows
      ensures old(disk).Some? ==> disk == old(disk)
      ensures old(disk).None? ==> index.d == dim && index.rows == [] && disk == Some(Snapshot(dim, []))
    {
      index := slot;
      if disk.Some? {
        index.Restore(disk.value);
      } else {
        index.Reset(dim);
        Save(index);
      }
    }

    /** `_get_faiss_index()`: load once, then always hand back the same object. */
    method GetIndex() returns (index: FlatIndex)
      modifies this, slot
      ensures index == slot && loaded
      ensures old(loaded) ==> unchanged(slot) && disk == old(disk)
      ensures index.d == old(Width()) && index.rows == old(Rows())
      ensures !old(loaded) && old(disk).None? ==> disk == Some(Snapshot(dim, []))
      ensures old(disk).Some? ==> disk == old(disk)
    {
      if !loaded {
        var _ := LoadFaissIndex();
        loaded := true;
      }
      index := slot;
    }

    /**
     * `add_embeddings_to_index(x)`: a non-array, a non-2-D array and a row
     * width other than the configured dimension are refused before the index
     * is touched; otherwise the rows are appended and the index saved.
     */
    method AddEmbeddingsToIndex(x: NdArray) returns (err: Option<Error>)
      requires Rectangular(x)
      modifies this, slot
      ensures !IsNdArray(x) ==> err == Some(ValueError("Embeddings must be a numpy array."))
      ensures IsNdArray(x) && !(x.Matrix? && x.width == dim) ==>
                err == Some(ValueError("Embeddings must have shape (n, dim)."))
      ensures !(x.Matrix? && x.width == dim) ==> unchanged(this) && unchanged(slot)
      ensures x.Matrix? && x.width == dim && old(Width()) == dim ==>
                err == None && loaded && Rows() == old(Rows()) + x.rows
                && disk == Some(Snapshot(dim, Rows()))
      ensures x.Matrix? && x.width == dim && old(Width()) != dim ==>
                err == Some(AssertionError("d == self.d")) && loaded && Rows() == old(Rows())
      ensures Width() == old(Width())
    {
      if !IsNdArray(x) {
        return Some(ValueError("Embeddings must be a numpy array."));
      }
      if !(x.Matrix? && x.width == dim) {
        return Some(ValueError("Embeddings must have shape (n, dim)."));
      }
      var index := GetIndex();
      err := index.Add(x);
      if err.None? {
        Save(index);
      }
    }

    /**
     * `search_similar_vectors(q, k)`: any query whose shape is not `(dim,)`
     * is refused; the answer is (indices, distances), in that order.
     */
    method SearchSimilarVectors(q: NdArray, search: Searcher, k: int := 5) returns (r: Result<(seq<int>, seq<real>)>)
      modifies this, slot
      ensures !IsNdArray(q) ==> r == Err(ValueError("Query embedding must be a numpy array."))
      ensures IsNdArray(q) && !(q.Vector? && |q.entries| == dim) ==>
                r == Err(ValueError("Query embedding must have shape (dim,)."))
      ensures !(q.Vector? && |q.entries| == dim) ==> unchanged(this) && unchanged(slot)
      ensures q.Vector? && |q.entries| == dim && old(Width()) != dim ==> r == Err(AssertionError("d == self.d"))
      ensures q.Vector? && |q.entries| == dim && old(Width()) == dim && k <= 0 ==> r == Err(AssertionError("k > 0"))
      ensures r.Ok? <==> q.Vector? && |q.entries| == dim && old(Width()) == dim && k > 0
      ensures r.Ok? ==> r.value == (search(old(Rows()), q.entries, k).1, search(old(Rows()), q.entries, k).0)
      ensures Rows() == old(Rows()) && Width() == old(Width())
    {
      if !IsNdArray(q) {
        return Err(ValueError("Query embedding must be a numpy array."));
      }
      if !(q.Vector? && |q.entries| == dim) {
        return Err(ValueError("Query embedding must have shape (dim,)."));
      }
      var index := GetIndex();
      r := index.Search(ExpandDims(q), k, search);
    }
  }

  /** `FAISSManager`: a handle on the module's cached index. */
  class FaissManager {
    const owner: FaissModule
    const index: FlatIndex

    constructor (owner: FaissModule)
      modifies owner, owner.slot
      ensures this.owner == owner && index == owner.slot && owner.loaded
      ensures index.d == old(owner.Width()) && index.rows == old(owner.Rows())
    {
      this.owner := owner;
      var index := owner.GetIndex();
      this.index := index;
    }

    /**
     * `add_embeddings(x)`: only the type is checked here; shape errors come
     * from the library's own add. Success appends the rows and saves.
     */
    method AddEmbeddings(x: NdArray) returns (err: Option<Error>)
      requires Rectangular(x)
      modifies index, owner
      ensures index.d == old(index.d)
      ensures !IsNdArray(x) ==> err == Some(ValueError("Embeddings must be a numpy array."))
      ensures x.Matrix? && x.width == index.d ==>
                err == None && index.rows == old(index.rows) + x.rows
                && owner.disk == Some(Snapshot(index.d, index.rows))
      ensures !(x.Matrix? && x.width == index.d) ==> err.Some? && index.rows == old(index.rows) && unchanged(owner)
      ensures x.Matrix? && x.width != index.d ==> err == Some(AssertionError("d == self.d"))
      ensures owner.loaded == old(owner.loaded)
      ensures old(index.Valid()) ==> index.Valid()
    {
      if !IsNdArray(x) {
        return Some(ValueError("Embeddings must be a numpy array."));
      }
      err := index.Add(x);
      if err.None? {
        owner.Save(index);
      }
    }

    /**
     * `search(q, k)`: no check of its own. `np.expand_dims` turns a vector or
     * a list of numbers into one query row; any other argument reaches the
     * library's shape unpacking with a rank other than two.
     */
    method Search(q: NdArray, search: Searcher, k: int := 5) returns (r: Result<(seq<int>, seq<real>)>)
      ensures QueryRow(q).None? ==> r == Err(ValueError("shape is not (n, d)"))
      ensures QueryRow(q).Some? && |QueryRow(q).value| != index.d ==> r == Err(AssertionError("d == self.d"))
      ensures QueryRow(q).Some? && |QueryRow(q).value| == index.d && k <= 0 ==> r == Err(AssertionError("k > 0"))
      ensures r.Ok? <==> QueryRow(q).Some? && |QueryRow(q).value| == index.d && k > 0
      ensures r.Ok? ==>
                r.value == (search(index.rows, QueryRow(q).value, k).1, search(index.rows, QueryRow(q).value, k).0)
    {
      r := index.Search(ExpandDims(q), k, search);
    }
  }
}

/**
 * The ingestion side of src/vector/create_index.py: the per-document columns
 * (id, text, source) and the insertion of the five columns into the collection
 * in contiguous batches of ten rows. Embedding models and the Milvus client are
 * not modelled; the collection only records the batches it is given.
 */
module CreateIndex {
  import opened Outcomes
  import opened PyDict
  import opened Documents
  import VectorUtils

  // ----- get_required_data -----

  /** The id of a document: its `chunk_id` if it has one, else its `id`. */
  function DocId(d: Document): (r: Result<Meta>)
    ensures "chunk_id" in Keys(d.meta) ==> r == Ok(Get(d.meta, "chunk_id").value)
    ensures "chunk_id" !in Keys(d.meta) ==> r == MetaAt(d.meta, "id")
  {
    match Get(d.meta, "chunk_id")
    case Some(v) => Ok(v)
    case None => MetaAt(d.meta, "id")
  }

  /** The row of one document: id, text and source, or the `KeyError` it raises. */
  function Row(d: Document): Result<(Meta, string, Meta)>
  {
    var id :- DocId(d);
    var source :- MetaAt(d.meta, "source");
    Ok((id, d.text, source))
  }

  /** Document i is the first one whose row fails, with exception e. */
  predicate FirstFailure(docs: seq<Document>, i: int, e: Exception)
  {
    && 0 <= i < |docs|
    && Row(docs[i]) == Err(e)
    && forall k :: 0 <= k < i ==> Row(docs[k]).Ok?
  }

  /**
   * `get_required_data`: three lists as long as the input whose i-th entries
   * come from the i-th document; otherwise the `KeyError` of the first
   * document without an id or a source.
   */
  method GetRequiredData(docs: seq<Document>) returns (r: Result<(seq<Meta>, seq<string>, seq<Meta>)>)
    ensures r.Ok? <==> forall i :: 0 <= i < |docs| ==> Row(docs[i]).Ok?
    ensures r.Ok? ==>
      var (ids, texts, sources) := r.value;
      && |ids| == |texts| == |sources| == |docs|
      && forall i :: 0 <= i < |docs| ==> Row(docs[i]) == Ok((ids[i], texts[i], sources[i]))
    ensures r.Err? ==> exists i :: FirstFailure(docs, i, r.error)
  {
    var ids, texts, sources := [], [], [];
    for i := 0 to |docs|
      invariant |ids| == |texts| == |sources| == i
      invariant forall k :: 0 <= k < i ==> Row(docs[k]) == Ok((ids[k], texts[k], sources[k]))
    {
      var docId: Meta;
      var chunkId := MetaAt(docs[i].meta, "chunk_id");
      if chunkId.Ok? {
        docId := chunkId.value;
      } else {
        var id := MetaAt(docs[i].meta, "id");
        if id.Err? {
          assert FirstFailure(docs, i, id.error);
          return Err(id.error);
        }
        docId := id.value;
      }
      var text := docs[i].text;
      var source := MetaAt(docs[i].meta, "source");
      if source.Err? {
        assert DocId(docs[i]) == Ok(docId);
        assert FirstFailure(docs, i, source.error);
        return Err(source.error);
      }
      ids := ids + [docId];
      texts := texts + [text];
      sources := sources + [source.value];
    }
    return Ok((ids, texts, sources));
  }

  /** A chunk made by the vector preprocessing is identified by its chunk id. */
  lemma ChunkRowId(doc: Document, splitter: Splitter, i: nat)
    requires i < |VectorUtils.Split(splitter, doc.text)|
    ensures DocId(VectorUtils.ChunkDoc(doc, splitter)[i]) == Ok(Str(VectorUtils.ChunkId(doc, i)))
  {
    VectorUtils.ChunkDocMeta(doc, splitter, i, "id");
  }

  /** So the rows of two chunks of one document have different ids. */
  lemma ChunkRowIdsDistinct(doc: Document, splitter: Splitter, i: nat, j: nat)
    requires i < j < |VectorUtils.Split(splitter, doc.text)|
    ensures DocId(VectorUtils.ChunkDoc(doc, splitter)[i]) != DocId(VectorUtils.ChunkDoc(doc, splitter)[j])
  {
    ChunkRowId(doc, splitter, i);
    ChunkRowId(doc, splitter, j);
    VectorUtils.ChunkIdsDistinct(doc, i, j);
  }

  // ----- batch_ingestion -----

  type DenseVector = seq<real>
  type SparseVector = map<nat, real>

  /** The five columns `batch_ingestion` inserts, in the collection's field order. */
  datatype Columns = Columns(ids: seq<Meta>, texts: seq<string>, sources: seq<Meta>, dense: seq<DenseVector>, sparse: seq<SparseVector>)

  const BatchSize := 10

  /** Python's `s[a:b]` for `0 <= a <= b`: the bounds are clamped to the length. */
  function PySlice<T>(s: seq<T>, a: nat, b: nat): (r: seq<T>)
    requires a <= b
  {
    if |s| <= a then [] else if |s| <= b then s[a..] else s[a..b]
  }

  /** The same bounds applied to every column. */
  function SliceColumns(c: Columns, a: nat, b: nat): Columns
    requires a <= b
  {
    Columns(PySlice(c.ids, a, b), PySlice(c.texts, a, b), PySlice(c.sources, a, b), PySlice(c.dense, a, b), PySlice(c.sparse, a, b))
  }

  function Min(a: nat, b: nat): nat
  {
    if a <= b then a else b
  }

  /** `total_batches`: the ceiling of the row count over the batch size. */
  function TotalBatches(n: nat): nat
  {
    (n + BatchSize - 1) / BatchSize
  }

  /** The batches of one column of n rows: batch k holds rows 10k up to 10k + 10, or to the end. */
  function ColumnBatches<T>(col: seq<T>, n: nat): (r: seq<seq<T>>)
    ensures |r| == TotalBatches(n)
  {
    seq(TotalBatches(n), k requires 0 <= k < TotalBatches(n) => PySlice(col, BatchSize * k, Min(BatchSize * k + BatchSize, n)))
  }

  /** The batches, in order: batch k is the k-th batch of every column, the bounds set by the ids. */
  function Batches(c: Columns): (r: seq<Columns>)
    ensures |r| == TotalBatches(|c.ids|)
  {
    var n := |c.ids|;
    seq(TotalBatches(n), k requires 0 <= k < TotalBatches(n) =>
      Columns(ColumnBatches(c.ids, n)[k], ColumnBatches(c.texts, n)[k], ColumnBatches(c.sources, n)[k],
        ColumnBatches(c.dense, n)[k], ColumnBatches(c.sparse, n)[k]))
  }

  /** The vector collection, as the sequence of batches inserted into it. */
  class Collection {
    var inserted: seq<Columns>

    constructor ()
      ensures inserted == []
    {
      inserted := [];
    }

    /** `collection.insert`. */
    method Insert(batch: Columns)
      modifies this
      ensures inserted == old(inserted) + [batch]
    {
      inserted := inserted + [batch];
    }
  }

  /** `batch_ingestion`: every batch inserted, in order, and nothing else. */
  method BatchIngestion(collection: Collection, c: Columns)
    modifies collection
    ensures collection.inserted == old(collection.inserted) + Batches(c)
  {
    var n := |c.ids|;
    var start := 0;
    ghost var k := 0;
    while start < n
      invariant start == BatchSize * k && k <= TotalBatches(n)
      invariant start < n ==> k < TotalBatches(n)
      invariant start >= n ==> k == TotalBatches(n)
      invariant collection.inserted == old(collection.inserted) + Batches(c)[..k]
      decreases n - start
    {
      var end := Min(start + BatchSize, n);
      collection.Insert(SliceColumns(c, start, end));
      BatchAt(c, k);
      assert Batches(c)[..k + 1] == Batches(c)[..k] + [SliceColumns(c, start, end)];
      start := start + BatchSize;
      k := k + 1;
    }
    assert Batches(c)[..k] == Batches(c);
  }

  /** Batch k cuts all five columns at the same bounds: rows 10k up to 10k + 10, or to the end. */
  lemma BatchAt(c: Columns, k: nat)
    requires k < TotalBatches(|c.ids|)
    ensures Batches(c)[k] == SliceColumns(c, BatchSize * k, Min(BatchSize * k + BatchSize, |c.ids|))
  {
    var n := |c.ids|;
    assert ColumnBatches(c.ids, n)[k] == PySlice(c.ids, BatchSize * k, Min(BatchSize * k + BatchSize, n));
    assert ColumnBatches(c.texts, n)[k] == PySlice(c.texts, BatchSize * k, Min(BatchSize * k + BatchSize, n));
    assert ColumnBatches(c.sources, n)[k] == PySlice(c.sources, BatchSize * k, Min(BatchSize * k + BatchSize, n));
    assert ColumnBatches(c.dense, n)[k] == PySlice(c.dense, BatchSize * k, Min(BatchSize * k + BatchSize, n));
    assert ColumnBatches(c.sparse, n)[k] == PySlice(c.sparse, BatchSize * k, Min(BatchSize * k + BatchSize, n));
  }

  /** No rows, no insert. */
  lemma NoRowsNoBatches(c: Columns)
    requires c.ids == []
    ensures Batches(c) == []
  {
  }

  /** Batch k starts inside the rows. */
  lemma BatchStart(n: nat, k: nat)
    requires k < TotalBatches(n)
    ensures BatchSize * k < n
  {
  }

  /** Every batch has between one and ten ids, and all but the last exactly ten. */
  lemma BatchSizes(c: Columns, k: nat)
    requires k < |Batches(c)|
    ensures 1 <= |Batches(c)[k].ids| <= BatchSize
    ensures k < |Batches(c)| - 1 ==> |Batches(c)[k].ids| == BatchSize
  {
    BatchStart(|c.ids|, k);
    assert Batches(c)[k].ids == ColumnBatches(c.ids, |c.ids|)[k];
    assert ColumnBatches(c.ids, |c.ids|)[k] == PySlice(c.ids, BatchSize * k, Min(BatchSize * k + BatchSize, |c.ids|));
    if k < |Batches(c)| - 1 {
      BatchStart(|c.ids|, k + 1);
    }
  }

  /** The first k batches of a column, concatenated, are the column up to row 10k. */
  lemma {:induction false} BatchesConcat<T>(col: seq<T>, n: nat, k: nat)
    requires k <= TotalBatches(n)
    ensures Flatten(ColumnBatches(col, n)[..k]) == PySlice(col, 0, Min(BatchSize * k, n))
  {
    if k > 0 {
      var parts := ColumnBatches(col, n);
      BatchesConcat(col, n, k - 1);
      assert parts[..k] == parts[..k - 1] + [parts[k - 1]];
      FlattenSnoc(parts[..k - 1], parts[k - 1]);
      BatchStart(n, k - 1);
      SliceSplit(col, BatchSize * (k - 1), Min(BatchSize * k, n));
    }
  }

  lemma SliceSplit<T>(col: seq<T>, a: nat, b: nat)
    requires a <= b
    ensures PySlice(col, 0, a) + PySlice(col, a, b) == PySlice(col, 0, b)
  {
  }

  /**
   * Concatenating a column's batches gives back the column (cut to the number
   * of ids, all lists being that long).
   */
  lemma BatchesReassemble(c: Columns)
    ensures Flatten(ColumnBatches(c.ids, |c.ids|)) == c.ids
    ensures Flatten(ColumnBatches(c.texts, |c.ids|)) == PySlice(c.texts, 0, |c.ids|)
    ensures Flatten(ColumnBatches(c.sources, |c.ids|)) == PySlice(c.sources, 0, |c.ids|)
    ensures Flatten(ColumnBatches(c.dense, |c.ids|)) == PySlice(c.dense, 0, |c.ids|)
    ensures Flatten(ColumnBatches(c.sparse, |c.ids|)) == PySlice(c.sparse, 0, |c.ids|)
  {
    ColumnReassemble(c.ids, |c.ids|);
    ColumnReassemble(c.texts, |c.ids|);
    ColumnReassemble(c.sources, |c.ids|);
    ColumnReassemble(c.dense, |c.ids|);
    ColumnReassemble(c.sparse, |c.ids|);
  }

  lemma ColumnReassemble<T>(col: seq<T>, n: nat)
    ensures Flatten(ColumnBatches(col, n)) == PySlice(col, 0, n)
  {
    var t := TotalBatches(n);
    BatchesConcat(col, n, t);
    assert ColumnBatches(col, n)[..t] == ColumnBatches(col, n);
  }
}

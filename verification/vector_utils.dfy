/**
 * The preprocessing of src/vector/utils.py, which prepares documents for the
 * vector store. It differs from src/utils/utils.py in four ways: every node
 * document gets an id `node_<n>_<uuid>` from a module-level counter that the
 * conversion advances once per document; the long threshold is 1500 and tables
 * are dropped; a chunk keeps all of its parent's metadata and adds `chunk_id`
 * and `parent_id`; and the splitter uses size 512 with overlap 64.
 *
 * The uuid draws, the PDF parser, the node parser and the text splitter are
 * parameters.
 */
module VectorUtils {
  import opened Outcomes
  import opened PyStr
  import opened PyDict
  import opened Documents

  const LongChunkSize := 1500
  const ChunkSize := 512
  const ChunkOverlap := 64

  /** `uuid.uuid4()` as drawn for the document the counter numbers `n`. */
  type Uuids = nat -> string

  type Loader = string -> seq<Document>
  type NodeParser = seq<Document> -> (seq<ParsedNode>, seq<ParsedNode>)

  /** The module-level `idx = [0]`: one cell the conversion increments in place. */
  class IdCounter {
    var value: nat

    constructor ()
      ensures value == 0
    {
      value := 0;
    }
  }

  // ----- ids -----

  /** `f"node_{n}_{uuid}"`. */
  function NodeId(n: nat, uuid: string): string
  {
    "node_" + NatToDecimal(n) + "_" + uuid
  }

  /** The length of the run of decimal digits `t` starts with. */
  function DigitRun(t: string): (r: nat)
    ensures r <= |t|
  {
    if t == [] || !('0' <= t[0] <= '9') then 0 else 1 + DigitRun(t[1..])
  }

  lemma {:induction false} DigitsEndAt(digits: string, rest: string)
    requires forall i :: 0 <= i < |digits| ==> '0' <= digits[i] <= '9'
    ensures DigitRun(digits + "_" + rest) == |digits|
  {
    if digits != [] {
      assert (digits + "_" + rest)[1..] == digits[1..] + "_" + rest;
      DigitsEndAt(digits[1..], rest);
    }
  }

  /** The counter part of an id determines the id's number, whatever the uuids. */
  lemma NodeIdInjective(a: nat, b: nat, u: string, v: string)
    requires NodeId(a, u) == NodeId(b, v)
    ensures a == b
  {
    var da, db := NatToDecimal(a), NatToDecimal(b);
    var t := NodeId(a, u)[5..];
    assert t == da + "_" + u;
    assert t == db + "_" + v;
    DigitsEndAt(da, u);
    DigitsEndAt(db, v);
    assert da == t[..|da|] == db;
    DecimalRoundTrip(a);
    DecimalRoundTrip(b);
  }

  // ----- nodes to documents -----

  /** The document of one node, numbered `n`. */
  function VectorDoc(node: ParsedNode, isTable: bool, source: string, n: nat, uuid: string): Document
  {
    Document(node.text, [
      ("id", Str(NodeId(n, uuid))),
      ("start_char_idx", node.start),
      ("end_char_idx", node.end),
      ("is_table", Flag(isTable)),
      ("source", Str(source))])
  }

  lemma VectorDocMeta(node: ParsedNode, isTable: bool, source: string, n: nat, uuid: string)
    ensures Get(VectorDoc(node, isTable, source, n, uuid).meta, "id") == Some(Str(NodeId(n, uuid)))
    ensures Get(VectorDoc(node, isTable, source, n, uuid).meta, "is_table") == Some(Flag(isTable))
    ensures Get(VectorDoc(node, isTable, source, n, uuid).meta, "source") == Some(Str(source))
  {
    var m := VectorDoc(node, isTable, source, n, uuid).meta;
    var tail := [("is_table", Flag(isTable)), ("source", Str(source))];
    assert m[1..][1..][1..] == tail;
    assert "id"[1] != "is_table"[1] && "start_char_idx"[0] != "is_table"[0] && "end_char_idx"[0] != "is_table"[0];
    assert Get(m, "is_table") == Get(m[1..], "is_table") == Get(m[1..][1..], "is_table") == Get(tail, "is_table");
    assert "id"[0] != "source"[0] && "start_char_idx"[1] != "source"[1] && "end_char_idx"[0] != "source"[0];
    assert "is_table"[0] != "source"[0];
    assert Get(m, "source") == Get(m[1..], "source") == Get(m[1..][1..], "source") == Get(tail, "source") == Get(tail[1..], "source");
  }

  /** The k-th document of a conversion that starts numbering at `c`. */
  function ConvertedAt(texts: seq<ParsedNode>, objects: seq<ParsedNode>, source: string, c: nat, uuids: Uuids, k: nat): Document
    requires k < |texts| + |objects|
  {
    if k < |texts| then VectorDoc(texts[k], false, source, c + k, uuids(c + k))
    else VectorDoc(objects[k - |texts|], true, source, c + k, uuids(c + k))
  }

  /** The documents of the text nodes, then of the objects, numbered from `c` on. */
  function Converted(texts: seq<ParsedNode>, objects: seq<ParsedNode>, source: string, c: nat, uuids: Uuids): seq<Document>
  {
    seq(|texts| + |objects|, k requires 0 <= k < |texts| + |objects| => ConvertedAt(texts, objects, source, c, uuids, k))
  }

  /**
   * `convert_nodes_to_documents`: one document per node, text nodes first; the
   * k-th is numbered with the counter's value on entry plus k, and the counter
   * ends advanced by the number of documents.
   */
  method ConvertNodesToDocuments(counter: IdCounter, texts: seq<ParsedNode>, objects: seq<ParsedNode>, source: string, uuids: Uuids)
    returns (docs: seq<Document>)
    modifies counter
    ensures counter.value == old(counter.value) + |texts| + |objects|
    ensures docs == Converted(texts, objects, source, old(counter.value), uuids)
  {
    ghost var c := counter.value;
    ghost var all := Converted(texts, objects, source, c, uuids);
    docs := [];
    for i := 0 to |texts|
      invariant counter.value == c + i
      invariant docs == all[..i]
    {
      var n := counter.value;
      var docId := uuids(n);
      var doc := VectorDoc(texts[i], false, source, n, docId);
      assert all[..i + 1] == all[..i] + [doc];
      docs := docs + [doc];
      counter.value := n + 1;
    }
    for i := 0 to |objects|
      invariant counter.value == c + |texts| + i
      invariant docs == all[..|texts| + i]
    {
      var n := counter.value;
      var docId := uuids(n);
      var doc := VectorDoc(objects[i], true, source, n, docId);
      assert all[..|texts| + i + 1] == all[..|texts| + i] + [doc];
      docs := docs + [doc];
      counter.value := n + 1;
    }
    assert all[..|all|] == all;
  }

  /**
   * The k-th converted document has id number `c + k`, so the ids of one
   * conversion are distinct, and it is flagged as a table exactly when it
   * comes from an object node.
   */
  lemma ConvertedMeta(texts: seq<ParsedNode>, objects: seq<ParsedNode>, source: string, c: nat, uuids: Uuids)
    ensures var docs := Converted(texts, objects, source, c, uuids);
      && |docs| == |texts| + |objects|
      && forall k :: 0 <= k < |docs| ==>
        && Get(docs[k].meta, "id") == Some(Str(NodeId(c + k, uuids(c + k))))
        && Get(docs[k].meta, "is_table") == Some(Flag(k >= |texts|))
  {
    var docs := Converted(texts, objects, source, c, uuids);
    forall k | 0 <= k < |docs|
      ensures Get(docs[k].meta, "id") == Some(Str(NodeId(c + k, uuids(c + k))))
      ensures Get(docs[k].meta, "is_table") == Some(Flag(k >= |texts|))
    {
      if k < |texts| {
        VectorDocMeta(texts[k], false, source, c + k, uuids(c + k));
      } else {
        VectorDocMeta(objects[k - |texts|], true, source, c + k, uuids(c + k));
      }
    }
  }

  // ----- long and short documents -----

  predicate Flagged(d: Document)
  {
    "is_table" in Keys(d.meta)
  }

  predicate AllFlagged(docs: seq<Document>)
  {
    forall i :: 0 <= i < |docs| ==> Flagged(docs[i])
  }

  predicate IsTable(d: Document)
  {
    Truthy(MetaGet(d.meta, "is_table", Null))
  }

  /** Non-tables are long above 1500 characters; tables are neither long nor short. */
  predicate IsLong(d: Document)
  {
    !IsTable(d) && |d.text| > LongChunkSize
  }

  predicate IsShort(d: Document)
  {
    !IsTable(d) && |d.text| <= LongChunkSize
  }

  function LongDocs(docs: seq<Document>): (r: seq<Document>)
    ensures |r| <= |docs|
  {
    if docs == [] then []
    else LongDocs(docs[..|docs| - 1]) + (if IsLong(docs[|docs| - 1]) then [docs[|docs| - 1]] else [])
  }

  function ShortDocs(docs: seq<Document>): (r: seq<Document>)
    ensures |r| <= |docs|
  {
    if docs == [] then []
    else ShortDocs(docs[..|docs| - 1]) + (if IsShort(docs[|docs| - 1]) then [docs[|docs| - 1]] else [])
  }

  function NonTables(docs: seq<Document>): seq<Document>
  {
    if docs == [] then []
    else NonTables(docs[..|docs| - 1]) + (if IsTable(docs[|docs| - 1]) then [] else [docs[|docs| - 1]])
  }

  /**
   * `further_split_long_docs`: `KeyError` when a document has no table flag;
   * otherwise the long non-tables and the short non-tables, in input order;
   * tables are in neither list.
   */
  method FurtherSplitLongDocs(docs: seq<Document>) returns (r: Result<(seq<Document>, seq<Document>)>)
    ensures r.Ok? <==> AllFlagged(docs)
    ensures r.Err? ==> r.error == KeyError("is_table")
    ensures r.Ok? ==> r.value == (LongDocs(docs), ShortDocs(docs))
  {
    var long, short := [], [];
    for i := 0 to |docs|
      invariant forall k :: 0 <= k < i ==> Flagged(docs[k])
      invariant long == LongDocs(docs[..i]) && short == ShortDocs(docs[..i])
    {
      assert docs[..i + 1][..i] == docs[..i];
      var isTable := MetaAt(docs[i].meta, "is_table");
      if isTable.Err? {
        return Err(isTable.error);
      }
      if !Truthy(isTable.value) {
        if |docs[i].text| > LongChunkSize {
          long := long + [docs[i]];
        } else {
          short := short + [docs[i]];
        }
      }
    }
    assert docs[..|docs|] == docs;
    return Ok((long, short));
  }

  /** The two lists partition the non-tables, and no table is kept. */
  lemma SplitDropsTables(docs: seq<Document>)
    ensures multiset(LongDocs(docs)) + multiset(ShortDocs(docs)) == multiset(NonTables(docs))
    ensures forall d :: d in LongDocs(docs) ==> IsLong(d)
    ensures forall d :: d in ShortDocs(docs) ==> IsShort(d)
    ensures forall d :: d in docs && IsTable(d) ==> d !in LongDocs(docs) && d !in ShortDocs(docs)
  {
    SplitPartition(docs);
    LongAreLong(docs);
    ShortAreShort(docs);
  }

  lemma {:induction false} SplitPartition(docs: seq<Document>)
    ensures multiset(LongDocs(docs)) + multiset(ShortDocs(docs)) == multiset(NonTables(docs))
  {
    if docs != [] {
      SplitPartition(docs[..|docs| - 1]);
    }
  }

  lemma {:induction false} LongAreLong(docs: seq<Document>)
    ensures forall d :: d in LongDocs(docs) ==> IsLong(d)
  {
    if docs != [] {
      LongAreLong(docs[..|docs| - 1]);
    }
  }

  lemma {:induction false} ShortAreShort(docs: seq<Document>)
    ensures forall d :: d in ShortDocs(docs) ==> IsShort(d)
  {
    if docs != [] {
      ShortAreShort(docs[..|docs| - 1]);
    }
  }

  // ----- chunking -----

  function Split(splitter: Splitter, text: string): seq<string>
  {
    splitter(ChunkSize, ChunkOverlap, text)
  }

  /** The parent id a chunk records: the parent's `id`, or "" when it has none. */
  function ParentId(doc: Document): Meta
  {
    MetaGet(doc.meta, "id", Str(""))
  }

  /** `f"{parent_id}_{i}"`. */
  function ChunkId(doc: Document, i: nat): string
  {
    Render(ParentId(doc)) + "_" + NatToDecimal(i)
  }

  /** `chunk_doc`: one document per chunk; its metadata is the parent's with `chunk_id` and `parent_id` set. */
  function ChunkDoc(doc: Document, splitter: Splitter): (r: seq<Document>)
    ensures |r| == |Split(splitter, doc.text)|
  {
    var chunks := Split(splitter, doc.text);
    seq(|chunks|, i requires 0 <= i < |chunks| =>
      Document(chunks[i], Set(Set(doc.meta, "chunk_id", Str(ChunkId(doc, i))), "parent_id", ParentId(doc))))
  }

  /** Each chunk holds its text, its chunk id and its parent id, and every other key of the parent. */
  lemma ChunkDocMeta(doc: Document, splitter: Splitter, i: nat, k: string)
    requires i < |Split(splitter, doc.text)|
    ensures ChunkDoc(doc, splitter)[i].text == Split(splitter, doc.text)[i]
    ensures Get(ChunkDoc(doc, splitter)[i].meta, "chunk_id") == Some(Str(ChunkId(doc, i)))
    ensures Get(ChunkDoc(doc, splitter)[i].meta, "parent_id") == Some(ParentId(doc))
    ensures k != "chunk_id" && k != "parent_id" ==> Get(ChunkDoc(doc, splitter)[i].meta, k) == Get(doc.meta, k)
  {
    var m1 := Set(doc.meta, "chunk_id", Str(ChunkId(doc, i)));
    GetSetSame(doc.meta, "chunk_id", Str(ChunkId(doc, i)));
    GetSetOther(m1, "parent_id", ParentId(doc), "chunk_id");
    GetSetSame(m1, "parent_id", ParentId(doc));
    if k != "chunk_id" && k != "parent_id" {
      GetSetOther(m1, "parent_id", ParentId(doc), k);
      GetSetOther(doc.meta, "chunk_id", Str(ChunkId(doc, i)), k);
    }
  }

  /** Different chunks of one document have different chunk ids. */
  lemma ChunkIdsDistinct(doc: Document, i: nat, j: nat)
    requires i != j
    ensures ChunkId(doc, i) != ChunkId(doc, j)
  {
    var p := Render(ParentId(doc)) + "_";
    if ChunkId(doc, i) == ChunkId(doc, j) {
      assert p + NatToDecimal(i) == p + NatToDecimal(j);
      assert NatToDecimal(i) == (p + NatToDecimal(i))[|p|..];
      assert NatToDecimal(j) == (p + NatToDecimal(j))[|p|..];
      DecimalRoundTrip(i);
      DecimalRoundTrip(j);
    }
  }

  /** The chunks of the long documents, in order. */
  function ChunkAll(long: seq<Document>, splitter: Splitter): seq<Document>
  {
    if long == [] then [] else ChunkAll(long[..|long| - 1], splitter) + ChunkDoc(long[|long| - 1], splitter)
  }

  /** The number of chunks is the sum of the splitter's chunk counts. */
  lemma {:induction false} ChunkAllLength(long: seq<Document>, splitter: Splitter)
    ensures |ChunkAll(long, splitter)| == TotalLength(seq(|long|, i requires 0 <= i < |long| => Split(splitter, long[i].text)))
  {
    var parts := seq(|long|, i requires 0 <= i < |long| => Split(splitter, long[i].text));
    if long != [] {
      var init := long[..|long| - 1];
      var initParts := seq(|init|, i requires 0 <= i < |init| => Split(splitter, init[i].text));
      ChunkAllLength(init, splitter);
      assert parts == initParts + [Split(splitter, long[|long| - 1].text)];
      TotalLengthSnoc(initParts, Split(splitter, long[|long| - 1].text));
    }
  }

  lemma {:induction false} TotalLengthSnoc<T>(lists: seq<seq<T>>, x: seq<T>)
    ensures TotalLength(lists + [x]) == TotalLength(lists) + |x|
  {
    if lists != [] {
      assert (lists + [x])[1..] == lists[1..] + [x];
      TotalLengthSnoc(lists[1..], x);
    } else {
      assert TotalLength([x]) == |x| + TotalLength<T>([]);
    }
  }

  /** `recursive_chunk_documents`: `short_docs` is extended in place with every long document's chunks and returned. */
  method RecursiveChunkDocuments(long: seq<Document>, short: DocumentList, splitter: Splitter) returns (r: DocumentList)
    modifies short
    ensures r == short
    ensures short.items == old(short.items) + ChunkAll(long, splitter)
  {
    for i := 0 to |long|
      invariant short.items == old(short.items) + ChunkAll(long[..i], splitter)
    {
      assert long[..i + 1][..i] == long[..i];
      short.Extend(ChunkDoc(long[i], splitter));
    }
    assert long[..|long|] == long;
    return short;
  }

  // ----- the whole pipeline -----

  const MissingInput := ValueError("Either data_folder or doc_list must be provided")

  /** The final documents: the short non-tables, then the chunks of the long ones. */
  function FinalDocs(docs: seq<Document>, splitter: Splitter): Result<seq<Document>>
  {
    if !AllFlagged(docs) then Err(KeyError("is_table"))
    else Ok(ShortDocs(docs) + ChunkAll(LongDocs(docs), splitter))
  }

  /**
   * `get_final_docs`: `ValueError` exactly when neither a document list nor a
   * data folder is given; a given document list is used and the pickles are
   * not read; otherwise the documents are read from the folder.
   */
  method GetFinalDocs(dataFolder: Option<string>, docList: Option<seq<Document>>, readPickles: string -> seq<Document>, splitter: Splitter)
    returns (r: Result<seq<Document>>)
    ensures r == Err(MissingInput) <==> dataFolder.None? && docList.None?
    ensures docList.Some? ==> r == FinalDocs(docList.value, splitter)
    ensures docList.None? && dataFolder.Some? ==> r == FinalDocs(readPickles(dataFolder.value), splitter)
  {
    var docs: seq<Document>;
    if docList.None? {
      if dataFolder.None? {
        return Err(MissingInput);
      }
      docs := readPickles(dataFolder.value);
    } else {
      docs := docList.value;
    }
    var split := FurtherSplitLongDocs(docs);
    if split.Err? {
      return Err(split.error);
    }
    var short := new DocumentList(split.value.1);
    var chunked := RecursiveChunkDocuments(split.value.0, short, splitter);
    return Ok(chunked.items);
  }

  /** Every document of the final list that is not a chunk is a short non-table of the input. */
  lemma FinalDocsShape(docs: seq<Document>, splitter: Splitter)
    requires FinalDocs(docs, splitter).Ok?
    ensures var r := FinalDocs(docs, splitter).value;
      && |r| == |ShortDocs(docs)| + |ChunkAll(LongDocs(docs), splitter)|
      && forall i :: 0 <= i < |ShortDocs(docs)| ==> r[i] in docs && IsShort(r[i])
  {
    SplitDropsTables(docs);
    ShortDocsIn(docs);
  }

  lemma {:induction false} ShortDocsIn(docs: seq<Document>)
    ensures forall d :: d in ShortDocs(docs) ==> d in docs
  {
    if docs != [] {
      ShortDocsIn(docs[..|docs| - 1]);
      assert forall d :: d in docs[..|docs| - 1] ==> d in docs;
    }
  }

  // ----- parsing a folder -----

  /** The documents of one PDF file, numbered from `c` on. */
  function ParsedFile(name: string, c: nat, load: Loader, nodes: NodeParser, uuids: Uuids): seq<Document>
  {
    var parsed := nodes(CleanFirst(load(name)));
    Converted(parsed.0, parsed.1, ModifiedFileName(name), c, uuids)
  }

  /**
   * The per-file document lists of the PDF files among `files`, in listing
   * order, numbered from `c0` on, and the counter after the last one.
   */
  function ParsedFiles(files: seq<string>, c0: nat, load: Loader, nodes: NodeParser, uuids: Uuids): (r: (seq<seq<Document>>, nat))
  {
    if files == [] then ([], c0)
    else
      var init := ParsedFiles(files[..|files| - 1], c0, load, nodes, uuids);
      var name := files[|files| - 1];
      if EndsWith(name, ".pdf") then
        var docs := ParsedFile(name, init.1, load, nodes, uuids);
        (init.0 + [docs], init.1 + |docs|)
      else init
  }

  /**
   * `parse_docs` over the listed file names: files not ending in ".pdf" are
   * skipped; each PDF's pages are loaded, the first six cleaned, the nodes
   * converted with the shared counter, and the lists flattened.
   */
  method ParseDocs(counter: IdCounter, files: seq<string>, load: Loader, nodes: NodeParser, uuids: Uuids) returns (docs: seq<Document>)
    modifies counter
    ensures docs == Flatten(ParsedFiles(files, old(counter.value), load, nodes, uuids).0)
    ensures counter.value == ParsedFiles(files, old(counter.value), load, nodes, uuids).1
  {
    ghost var c0 := counter.value;
    var allDocs: seq<seq<Document>> := [];
    for i := 0 to |files|
      invariant allDocs == ParsedFiles(files[..i], c0, load, nodes, uuids).0
      invariant counter.value == ParsedFiles(files[..i], c0, load, nodes, uuids).1
    {
      var name := files[i];
      if !EndsWith(name, ".pdf") {
        ParsedFilesSkip(files, i, c0, load, nodes, uuids);
        continue;
      }
      var finalDocs := ParsePdf(counter, name, load, nodes, uuids);
      ParsedFilesPdf(files, i, c0, load, nodes, uuids, finalDocs);
      allDocs := allDocs + [finalDocs];
    }
    assert files[..|files|] == files;
    docs := Flatten(allDocs);
  }

  /** A name that is not a PDF's adds nothing. */
  lemma ParsedFilesSkip(files: seq<string>, i: nat, c0: nat, load: Loader, nodes: NodeParser, uuids: Uuids)
    requires i < |files| && !EndsWith(files[i], ".pdf")
    ensures ParsedFiles(files[..i + 1], c0, load, nodes, uuids) == ParsedFiles(files[..i], c0, load, nodes, uuids)
  {
    assert files[..i + 1][..i] == files[..i];
  }

  /** A PDF adds its documents and advances the counter by their number. */
  lemma ParsedFilesPdf(files: seq<string>, i: nat, c0: nat, load: Loader, nodes: NodeParser, uuids: Uuids, docs: seq<Document>)
    requires i < |files| && EndsWith(files[i], ".pdf")
    requires docs == ParsedFile(files[i], ParsedFiles(files[..i], c0, load, nodes, uuids).1, load, nodes, uuids)
    ensures ParsedFiles(files[..i + 1], c0, load, nodes, uuids).0 == ParsedFiles(files[..i], c0, load, nodes, uuids).0 + [docs]
    ensures ParsedFiles(files[..i + 1], c0, load, nodes, uuids).1 == ParsedFiles(files[..i], c0, load, nodes, uuids).1 + |docs|
  {
    assert files[..i + 1][..i] == files[..i];
  }

  /** The loop body of `parse_docs` for one PDF: load its pages, clean the first six, parse, and convert with the shared counter. */
  method ParsePdf(counter: IdCounter, name: string, load: Loader, nodes: NodeParser, uuids: Uuids) returns (finalDocs: seq<Document>)
    modifies counter
    ensures finalDocs == ParsedFile(name, old(counter.value), load, nodes, uuids)
    ensures counter.value == old(counter.value) + |finalDocs|
  {
    var source := ModifiedFileName(name);
    var loaded := load(name);
    var pages := new Document[|loaded|](k requires 0 <= k < |loaded| => loaded[k]);
    assert pages[..] == loaded;
    CleanFirstPages(pages);
    var parsed := nodes(pages[..]);
    finalDocs := ConvertNodesToDocuments(counter, parsed.0, parsed.1, source, uuids);
  }

  /**
   * Over a whole folder the counter advances by the number of documents, and
   * the k-th document's id is numbered `c0 + k`: no two documents share an id.
   */
  lemma {:induction false} ParsedIds(files: seq<string>, c0: nat, load: Loader, nodes: NodeParser, uuids: Uuids)
    ensures var r := ParsedFiles(files, c0, load, nodes, uuids);
      && r.1 == c0 + |Flatten(r.0)|
      && forall k :: 0 <= k < |Flatten(r.0)| ==> Get(Flatten(r.0)[k].meta, "id") == Some(Str(NodeId(c0 + k, uuids(c0 + k))))
  {
    if files != [] {
      var init := ParsedFiles(files[..|files| - 1], c0, load, nodes, uuids);
      ParsedIds(files[..|files| - 1], c0, load, nodes, uuids);
      var name := files[|files| - 1];
      if EndsWith(name, ".pdf") {
        var parsed := nodes(CleanFirst(load(name)));
        var docs := ParsedFile(name, init.1, load, nodes, uuids);
        FlattenSnoc(init.0, docs);
        ConvertedMeta(parsed.0, parsed.1, ModifiedFileName(name), init.1, uuids);
        var all := Flatten(init.0) + docs;
        forall k | |Flatten(init.0)| <= k < |all|
          ensures Get(all[k].meta, "id") == Some(Str(NodeId(c0 + k, uuids(c0 + k))))
        {
          assert all[k] == docs[k - |Flatten(init.0)|];
        }
      }
    }
  }

  /** Two documents of one parse never share an id. */
  lemma ParsedIdsDistinct(files: seq<string>, c0: nat, load: Loader, nodes: NodeParser, uuids: Uuids, i: nat, j: nat)
    requires i < j < |Flatten(ParsedFiles(files, c0, load, nodes, uuids).0)|
    ensures var docs := Flatten(ParsedFiles(files, c0, load, nodes, uuids).0);
      Get(docs[i].meta, "id") != Get(docs[j].meta, "id")
  {
    ParsedIds(files, c0, load, nodes, uuids);
    if NodeId(c0 + i, uuids(c0 + i)) == NodeId(c0 + j, uuids(c0 + j)) {
      NodeIdInjective(c0 + i, c0 + j, uuids(c0 + i), uuids(c0 + j));
    }
  }

  /** Every parsed document carries the table flag, so the split of a parse never raises. */
  lemma {:induction false} ParsedFlagged(files: seq<string>, c0: nat, load: Loader, nodes: NodeParser, uuids: Uuids)
    ensures AllFlagged(Flatten(ParsedFiles(files, c0, load, nodes, uuids).0))
  {
    if files != [] {
      var init := ParsedFiles(files[..|files| - 1], c0, load, nodes, uuids);
      ParsedFlagged(files[..|files| - 1], c0, load, nodes, uuids);
      var name := files[|files| - 1];
      if EndsWith(name, ".pdf") {
        var parsed := nodes(CleanFirst(load(name)));
        var docs := ParsedFile(name, init.1, load, nodes, uuids);
        FlattenSnoc(init.0, docs);
        var all := Flatten(init.0) + docs;
        ConvertedMeta(parsed.0, parsed.1, ModifiedFileName(name), init.1, uuids);
        assert docs == Converted(parsed.0, parsed.1, ModifiedFileName(name), init.1, uuids);
        forall i | 0 <= i < |all| ensures Flagged(all[i]) {
          if i < |Flatten(init.0)| {
            assert all[i] == Flatten(init.0)[i];
          } else {
            var k := i - |Flatten(init.0)|;
            assert all[i] == docs[k];
            assert Get(docs[k].meta, "is_table") == Some(Flag(k >= |parsed.0|));
            assert "is_table" in Keys(docs[k].meta);
          }
        }
        assert ParsedFiles(files, c0, load, nodes, uuids).0 == init.0 + [docs];
      } else {
        assert ParsedFiles(files, c0, load, nodes, uuids) == init;
      }
    }
  }

  /**
   * `parse_and_process_docs`: parse the folder, then split and chunk the
   * result; since every parsed document is flagged, it never fails.
   */
  method ParseAndProcessDocs(counter: IdCounter, files: seq<string>, load: Loader, nodes: NodeParser, uuids: Uuids, splitter: Splitter)
    returns (r: seq<Document>)
    modifies counter
    ensures Ok(r) == FinalDocs(Flatten(ParsedFiles(files, old(counter.value), load, nodes, uuids).0), splitter)
    ensures counter.value == ParsedFiles(files, old(counter.value), load, nodes, uuids).1
  {
    ghost var c0 := counter.value;
    var docs := ParseDocs(counter, files, load, nodes, uuids);
    ParsedFlagged(files, c0, load, nodes, uuids);
    var res := GetFinalDocs(None, Some(docs), _ => [], splitter);
    return res.value;
  }
}

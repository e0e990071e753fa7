/**
 * The preprocessing of src/utils/utils.py: parsed PDF nodes become documents
 * (text nodes first, then tables), documents longer than 2000 characters that
 * are not tables are split again, and the chunks are appended to the short
 * documents.
 *
 * The PDF parser, the node parser, coreference resolution and the text
 * splitter are parameters.
 */
module DocUtils {
  import opened Outcomes
  import opened PyStr
  import opened PyDict
  import opened Documents

  const LongChunkSize := 2000
  const ChunkSize := 1024
  const ChunkOverlap := 128

  /** Coreference resolution of a node's text. */
  type Coref = string -> string

  /** What the PDF parser returns for a file, and what the node parser makes of the pages. */
  type Loader = string -> seq<Document>
  type NodeParser = seq<Document> -> (seq<ParsedNode>, seq<ParsedNode>)

  // ----- nodes to documents -----

  /** The document made of one node. */
  function NodeDoc(node: ParsedNode, isTable: bool, source: string, coref: Coref): Document
  {
    Document(Lower(coref(node.text)), [("is_table", Flag(isTable)), ("source", Str(source))])
  }

  /** Each node's document carries exactly the table flag and the source. */
  lemma NodeDocMeta(node: ParsedNode, isTable: bool, source: string, coref: Coref)
    ensures Keys(NodeDoc(node, isTable, source, coref).meta) == ["is_table", "source"]
    ensures Get(NodeDoc(node, isTable, source, coref).meta, "is_table") == Some(Flag(isTable))
    ensures Get(NodeDoc(node, isTable, source, coref).meta, "source") == Some(Str(source))
  {
  }

  /** The documents of the text nodes, then those of the objects. */
  function Converted(texts: seq<ParsedNode>, objects: seq<ParsedNode>, source: string, coref: Coref): seq<Document>
  {
    seq(|texts| + |objects|, k requires 0 <= k < |texts| + |objects| =>
      if k < |texts| then NodeDoc(texts[k], false, source, coref) else NodeDoc(objects[k - |texts|], true, source, coref))
  }

  /** `convert_nodes_to_documents`: one document per node, text nodes first, all with the given source. */
  method ConvertNodesToDocuments(texts: seq<ParsedNode>, objects: seq<ParsedNode>, source: string, coref: Coref)
    returns (docs: seq<Document>)
    ensures |docs| == |texts| + |objects|
    ensures forall k :: 0 <= k < |texts| ==> docs[k] == NodeDoc(texts[k], false, source, coref)
    ensures forall k :: 0 <= k < |objects| ==> docs[|texts| + k] == NodeDoc(objects[k], true, source, coref)
    ensures docs == Converted(texts, objects, source, coref)
  {
    docs := [];
    for i := 0 to |texts|
      invariant |docs| == i
      invariant forall k :: 0 <= k < i ==> docs[k] == NodeDoc(texts[k], false, source, coref)
    {
      docs := docs + [NodeDoc(texts[i], false, source, coref)];
    }
    for i := 0 to |objects|
      invariant |docs| == |texts| + i
      invariant forall k :: 0 <= k < |texts| ==> docs[k] == NodeDoc(texts[k], false, source, coref)
      invariant forall k :: 0 <= k < i ==> docs[|texts| + k] == NodeDoc(objects[k], true, source, coref)
    {
      docs := docs + [NodeDoc(objects[i], true, source, coref)];
    }
  }

  // ----- long and short documents -----

  predicate Flagged(d: Document)
  {
    "is_table" in Keys(d.meta)
  }

  predicate AllFlagged(docs: seq<Document>)
  {
    forall i :: 0 <= i < |docs| ==> Flagged(docs[i])
  }

  /** A document goes to the long list when it is not a table and has more than 2000 characters. */
  predicate IsLong(d: Document)
  {
    !Truthy(MetaGet(d.meta, "is_table", Null)) && |d.text| > LongChunkSize
  }

  function LongDocs(docs: seq<Document>): (r: seq<Document>)
    ensures |r| <= |docs|
  {
    if docs == [] then []
    else LongDocs(docs[..|docs| - 1]) + (if IsLong(docs[|docs| - 1]) then [docs[|docs| - 1]] else [])
  }

  function ShortDocs(docs: seq<Document>): (r: seq<Document>)
    ensures |r| <= |docs|
  {
    if docs == [] then []
    else ShortDocs(docs[..|docs| - 1]) + (if IsLong(docs[|docs| - 1]) then [] else [docs[|docs| - 1]])
  }

  /**
   * `further_split_long_docs`: `KeyError` when a document has no table flag;
   * otherwise the long documents and the others (tables included), each list
   * in input order.
   */
  method FurtherSplitLongDocs(docs: seq<Document>) returns (r: Result<(seq<Document>, seq<Document>)>)
    ensures r.Ok? <==> AllFlagged(docs)
    ensures r.Err? ==> r.error == KeyError("is_table")
    ensures r.Ok? ==> r.value == (LongDocs(docs), ShortDocs(docs))
  {
    var long, short := [], [];
    for i := 0 to |docs|
      invariant forall k :: 0 <= k < i ==> Flagged(docs[k])
      invariant long == LongDocs(docs[..i]) && short == ShortDocs(docs[..i])
    {
      assert docs[..i + 1][..i] == docs[..i];
      var isTable := MetaAt(docs[i].meta, "is_table");
      if isTable.Err? {
        return Err(isTable.error);
      }
      if !Truthy(isTable.value) {
        if |docs[i].text| > LongChunkSize {
          long := long + [docs[i]];
        } else {
          short := short + [docs[i]];
        }
      } else {
        short := short + [docs[i]];
      }
    }
    assert docs[..|docs|] == docs;
    return Ok((long, short));
  }

  /**
   * The split is a partition that keeps the order: every document lands in
   * exactly one list, the long list holds the long non-tables, the short list
   * everything else, tables included.
   */
  lemma {:induction false} SplitPartition(docs: seq<Document>)
    ensures multiset(LongDocs(docs)) + multiset(ShortDocs(docs)) == multiset(docs)
    ensures forall d :: d in LongDocs(docs) ==> IsLong(d)
    ensures forall d :: d in ShortDocs(docs) ==> !IsLong(d)
    ensures forall d :: d in docs && Truthy(MetaGet(d.meta, "is_table", Null)) ==> d in ShortDocs(docs)
  {
    if docs != [] {
      var init := docs[..|docs| - 1];
      SplitPartition(init);
      assert docs == init + [docs[|docs| - 1]];
    }
  }

  // ----- chunking -----

  /** The splitter of `recursive_chunk_documents`, with its default size and overlap. */
  function Split(splitter: Splitter, text: string): seq<string>
  {
    splitter(ChunkSize, ChunkOverlap, text)
  }

  /**
   * `chunk_doc`: one document per chunk, with the parent's table flag and its
   * source ("" when it has none). The flag is read once per chunk, so a
   * document without one raises `KeyError` only when it has chunks.
   */
  function ChunkDoc(doc: Document, splitter: Splitter): (r: Result<seq<Document>>)
    ensures r.Err? <==> Split(splitter, doc.text) != [] && !Flagged(doc)
    ensures r.Err? ==> r.error == KeyError("is_table")
    ensures r.Ok? ==> |r.value| == |Split(splitter, doc.text)|
  {
    var chunks := Split(splitter, doc.text);
    if chunks == [] then Ok([])
    else
      var isTable :- MetaAt(doc.meta, "is_table");
      var source := MetaGet(doc.meta, "source", Str(""));
      Ok(seq(|chunks|, i requires 0 <= i < |chunks| => Document(chunks[i], [("is_table", isTable), ("source", source)])))
  }

  /** The i-th chunk document holds the i-th chunk, the parent's table flag and its source. */
  lemma ChunkDocContents(doc: Document, splitter: Splitter)
    requires ChunkDoc(doc, splitter).Ok?
    ensures var r := ChunkDoc(doc, splitter).value;
      forall i :: 0 <= i < |r| ==>
        && r[i].text == Split(splitter, doc.text)[i]
        && Keys(r[i].meta) == ["is_table", "source"]
        && Get(r[i].meta, "is_table") == Get(doc.meta, "is_table")
        && Get(r[i].meta, "source") == Some(MetaGet(doc.meta, "source", Str("")))
  {
  }

  /**
   * The chunks of the long documents in order, as far as `chunk_doc` gets:
   * the documents appended before a failure, and the failure if there is one.
   */
  function ChunkAll(long: seq<Document>, splitter: Splitter): (r: (seq<Document>, Option<Exception>))
  {
    if long == [] then ([], None)
    else
      var prev := ChunkAll(long[..|long| - 1], splitter);
      if prev.1.Some? then prev
      else
        match ChunkDoc(long[|long| - 1], splitter)
        case Err(e) => (prev.0, Some(e))
        case Ok(chunks) => (prev.0 + chunks, None)
  }

  /** Without a failure, the appended texts are the splitter's chunks of each long document in turn. */
  lemma {:induction false} ChunkAllTexts(long: seq<Document>, splitter: Splitter)
    requires ChunkAll(long, splitter).1.None?
    ensures Texts(ChunkAll(long, splitter).0) == Flatten(seq(|long|, i requires 0 <= i < |long| => Split(splitter, long[i].text)))
  {
    var parts := seq(|long|, i requires 0 <= i < |long| => Split(splitter, long[i].text));
    if long != [] {
      var init := long[..|long| - 1];
      var initParts := seq(|init|, i requires 0 <= i < |init| => Split(splitter, init[i].text));
      ChunkAllTexts(init, splitter);
      var last := long[|long| - 1];
      var chunks := ChunkDoc(last, splitter).value;
      assert parts == initParts + [Split(splitter, last.text)];
      FlattenSnoc(initParts, Split(splitter, last.text));
      TextsAppend(ChunkAll(init, splitter).0, chunks);
      ChunkDocContents(last, splitter);
      assert Texts(chunks) == Split(splitter, last.text);
    }
  }

  function Texts(docs: seq<Document>): (r: seq<string>)
    ensures |r| == |docs| && forall i :: 0 <= i < |docs| ==> r[i] == docs[i].text
  {
    seq(|docs|, i requires 0 <= i < |docs| => docs[i].text)
  }

  lemma TextsAppend(a: seq<Document>, b: seq<Document>)
    ensures Texts(a + b) == Texts(a) + Texts(b)
  {
  }

  /**
   * `recursive_chunk_documents`: `short_docs` is extended in place with the
   * chunks of each long document in turn and returned; a failing `chunk_doc`
   * leaves the chunks appended before it.
   */
  method RecursiveChunkDocuments(long: seq<Document>, short: DocumentList, splitter: Splitter) returns (r: Result<DocumentList>)
    modifies short
    ensures short.items == old(short.items) + ChunkAll(long, splitter).0
    ensures r.Ok? <==> ChunkAll(long, splitter).1.None?
    ensures r.Ok? ==> r.value == short
    ensures r.Err? ==> r.error == ChunkAll(long, splitter).1.value
  {
    for i := 0 to |long|
      invariant ChunkAll(long[..i], splitter).1.None?
      invariant short.items == old(short.items) + ChunkAll(long[..i], splitter).0
    {
      ChunkAllNext(long, splitter, i);
      var chunks := ChunkDoc(long[i], splitter);
      if chunks.Err? {
        return Err(chunks.error);
      }
      short.Extend(chunks.value);
    }
    assert long[..|long|] == long;
    return Ok(short);
  }

  /** One more long document: its chunks are appended, or its failure ends the list. */
  lemma ChunkAllNext(long: seq<Document>, splitter: Splitter, i: nat)
    requires i < |long| && ChunkAll(long[..i], splitter).1.None?
    ensures ChunkDoc(long[i], splitter).Err? ==>
      ChunkAll(long, splitter) == (ChunkAll(long[..i], splitter).0, Some(ChunkDoc(long[i], splitter).error))
    ensures ChunkDoc(long[i], splitter).Ok? ==>
      ChunkAll(long[..i + 1], splitter) == (ChunkAll(long[..i], splitter).0 + ChunkDoc(long[i], splitter).value, None)
  {
    assert long[..i + 1][..i] == long[..i];
    if ChunkDoc(long[i], splitter).Err? {
      ChunkAllStops(long, splitter, i + 1);
    }
  }

  /** Once `chunk_doc` fails, nothing more is appended. */
  lemma {:induction false} ChunkAllStops(long: seq<Document>, splitter: Splitter, i: nat)
    requires i <= |long| && ChunkAll(long[..i], splitter).1.Some?
    ensures ChunkAll(long, splitter) == ChunkAll(long[..i], splitter)
    decreases |long| - i
  {
    if i < |long| {
      assert long[..i + 1][..i] == long[..i];
      ChunkAllStops(long, splitter, i + 1);
    } else {
      assert long[..i] == long;
    }
  }

  // ----- the whole pipeline -----

  const MissingInput := ValueError("Either data_folder or doc_list must be provided")

  /** The final documents of a document list: the short ones, then the chunks of the long ones. */
  function FinalDocs(docs: seq<Document>, splitter: Splitter): Result<seq<Document>>
  {
    if !AllFlagged(docs) then Err(KeyError("is_table"))
    else
      var chunked := ChunkAll(LongDocs(docs), splitter);
      if chunked.1.Some? then Err(chunked.1.value) else Ok(ShortDocs(docs) + chunked.0)
  }

  /**
   * `get_final_docs`: `ValueError` exactly when neither a document list nor a
   * data folder is given; a given document list is used and the pickles are
   * not read; otherwise the documents are read from the folder.
   */
  method GetFinalDocs(dataFolder: Option<string>, docList: Option<seq<Document>>, readPickles: string -> seq<Document>, splitter: Splitter)
    returns (r: Result<seq<Document>>)
    ensures r == Err(MissingInput) <==> dataFolder.None? && docList.None?
    ensures docList.Some? ==> r == FinalDocs(docList.value, splitter)
    ensures docList.None? && dataFolder.Some? ==> r == FinalDocs(readPickles(dataFolder.value), splitter)
  {
    var docs: seq<Document>;
    if docList.None? {
      if dataFolder.None? {
        return Err(MissingInput);
      }
      docs := readPickles(dataFolder.value);
    } else {
      docs := docList.value;
    }
    FinalDocsNotMissing(docs, splitter);
    var split := FurtherSplitLongDocs(docs);
    if split.Err? {
      return Err(split.error);
    }
    var short := new DocumentList(split.value.1);
    var chunked := RecursiveChunkDocuments(split.value.0, short, splitter);
    if chunked.Err? {
      return Err(chunked.error);
    }
    return Ok(short.items);
  }

  /** The pipeline never raises the missing-input error itself. */
  lemma FinalDocsNotMissing(docs: seq<Document>, splitter: Splitter)
    ensures FinalDocs(docs, splitter) != Err(MissingInput)
  {
    var chunked := ChunkAll(LongDocs(docs), splitter);
    if AllFlagged(docs) && chunked.1.Some? {
      ChunkAllKeyError(LongDocs(docs), splitter);
    }
  }

  /** A long document comes from the input, so when the input is flagged so are the long documents. */
  lemma {:induction false} LongDocsFlagged(docs: seq<Document>)
    requires AllFlagged(docs)
    ensures AllFlagged(LongDocs(docs))
  {
    if docs != [] {
      LongDocsFlagged(docs[..|docs| - 1]);
    }
  }

  /** Chunking flagged documents never fails. */
  lemma {:induction false} ChunkAllFlagged(long: seq<Document>, splitter: Splitter)
    requires AllFlagged(long)
    ensures ChunkAll(long, splitter).1.None?
  {
    if long != [] {
      ChunkAllFlagged(long[..|long| - 1], splitter);
    }
  }

  /**
   * The whole pipeline fails exactly when some input document has no table
   * flag: the failure `chunk_doc` could raise is never reached, because the
   * split already read every flag.
   */
  lemma FinalDocsOkIff(docs: seq<Document>, splitter: Splitter)
    ensures FinalDocs(docs, splitter).Ok? <==> AllFlagged(docs)
  {
    if AllFlagged(docs) {
      LongDocsFlagged(docs);
      ChunkAllFlagged(LongDocs(docs), splitter);
    }
  }

  /** `chunk_doc` only ever raises `KeyError`. */
  lemma {:induction false} ChunkAllKeyError(long: seq<Document>, splitter: Splitter)
    requires ChunkAll(long, splitter).1.Some?
    ensures ChunkAll(long, splitter).1.value == KeyError("is_table")
  {
    if long != [] && ChunkAll(long[..|long| - 1], splitter).1.Some? {
      ChunkAllKeyError(long[..|long| - 1], splitter);
    }
  }

  /** The documents of one PDF file: pages loaded, the first six cleaned, nodes parsed and converted. */
  function ParsedFile(name: string, load: Loader, nodes: NodeParser, coref: Coref): seq<Document>
  {
    var parsed := nodes(CleanFirst(load(name)));
    Converted(parsed.0, parsed.1, ModifiedFileName(name), coref)
  }

  /** The per-file document lists of the PDF files among `files`, in listing order. */
  function ParsedFiles(files: seq<string>, load: Loader, nodes: NodeParser, coref: Coref): seq<seq<Document>>
  {
    if files == [] then []
    else
      var init := ParsedFiles(files[..|files| - 1], load, nodes, coref);
      var name := files[|files| - 1];
      if EndsWith(name, ".pdf") then init + [ParsedFile(name, load, nodes, coref)] else init
  }

  /**
   * `parse_docs` over the listed file names: files not ending in ".pdf" are
   * skipped; each PDF's documents are built in listing order and the lists
   * are flattened.
   */
  method ParseDocs(files: seq<string>, load: Loader, nodes: NodeParser, coref: Coref) returns (docs: seq<Document>)
    ensures docs == Flatten(ParsedFiles(files, load, nodes, coref))
  {
    var allDocs: seq<seq<Document>> := [];
    for i := 0 to |files|
      invariant allDocs == ParsedFiles(files[..i], load, nodes, coref)
    {
      assert files[..i + 1][..i] == files[..i];
      var name := files[i];
      if !EndsWith(name, ".pdf") {
        continue;
      }
      var source := ModifiedFileName(name);
      var loaded := load(name);
      var pages := new Document[|loaded|](k requires 0 <= k < |loaded| => loaded[k]);
      assert pages[..] == loaded;
      CleanFirstPages(pages);
      var parsed := nodes(pages[..]);
      var finalDocs := ConvertNodesToDocuments(parsed.0, parsed.1, source, coref);
      allDocs := allDocs + [finalDocs];
    }
    assert files[..|files|] == files;
    docs := Flatten(allDocs);
  }

  /** Every parsed document names, as its source, the mangled name of a listed PDF file. */
  lemma {:induction false} ParsedSources(files: seq<string>, load: Loader, nodes: NodeParser, coref: Coref)
    ensures forall d :: d in Flatten(ParsedFiles(files, load, nodes, coref)) ==>
      exists f :: f in files && EndsWith(f, ".pdf") && Get(d.meta, "source") == Some(Str(ModifiedFileName(f)))
  {
    if files != [] {
      var init := files[..|files| - 1];
      var name := files[|files| - 1];
      ParsedSources(init, load, nodes, coref);
      if EndsWith(name, ".pdf") {
        FlattenSnoc(ParsedFiles(init, load, nodes, coref), ParsedFile(name, load, nodes, coref));
      }
      forall d | d in Flatten(ParsedFiles(files, load, nodes, coref))
        ensures exists f :: f in files && EndsWith(f, ".pdf") && Get(d.meta, "source") == Some(Str(ModifiedFileName(f)))
      {
        if d in Flatten(ParsedFiles(init, load, nodes, coref)) {
          var f :| f in init && EndsWith(f, ".pdf") && Get(d.meta, "source") == Some(Str(ModifiedFileName(f)));
          assert f in files;
        } else {
          ParsedFileSources(name, load, nodes, coref);
          assert name in files;
        }
      }
    }
  }

  /** Every document of one file has that file's mangled name as its source, and a table flag. */
  lemma ParsedFileSources(name: string, load: Loader, nodes: NodeParser, coref: Coref)
    ensures forall d :: d in ParsedFile(name, load, nodes, coref) ==> Get(d.meta, "source") == Some(Str(ModifiedFileName(name)))
    ensures forall d :: d in ParsedFile(name, load, nodes, coref) ==> Flagged(d)
  {
    var parsed := nodes(CleanFirst(load(name)));
    var docs := ParsedFile(name, load, nodes, coref);
    forall d | d in docs ensures Get(d.meta, "source") == Some(Str(ModifiedFileName(name))) && Flagged(d) {
      var k :| 0 <= k < |docs| && docs[k] == d;
      if k < |parsed.0| {
        NodeDocMeta(parsed.0[k], false, ModifiedFileName(name), coref);
      } else {
        NodeDocMeta(parsed.1[k - |parsed.0|], true, ModifiedFileName(name), coref);
      }
    }
  }

  /** Every parsed document carries the table flag. */
  lemma {:induction false} ParsedFlagged(files: seq<string>, load: Loader, nodes: NodeParser, coref: Coref)
    ensures AllFlagged(Flatten(ParsedFiles(files, load, nodes, coref)))
  {
    if files != [] {
      var init := ParsedFiles(files[..|files| - 1], load, nodes, coref);
      ParsedFlagged(files[..|files| - 1], load, nodes, coref);
      var name := files[|files| - 1];
      if EndsWith(name, ".pdf") {
        var docs := ParsedFile(name, load, nodes, coref);
        FlattenSnoc(init, docs);
        ParsedFileSources(name, load, nodes, coref);
        var all := Flatten(init) + docs;
        forall i | 0 <= i < |all| ensures Flagged(all[i]) {
          if i < |Flatten(init)| {
            assert all[i] == Flatten(init)[i];
          } else {
            assert all[i] == docs[i - |Flatten(init)|];
          }
        }
        assert ParsedFiles(files, load, nodes, coref) == init + [docs];
      }
    }
  }

  /**
   * `parse_and_process_docs`: parse the folder, then split and chunk the
   * result; since every parsed document is flagged, it never fails.
   */
  method ParseAndProcessDocs(files: seq<string>, load: Loader, nodes: NodeParser, coref: Coref, splitter: Splitter)
    returns (r: seq<Document>)
    ensures Ok(r) == FinalDocs(Flatten(ParsedFiles(files, load, nodes, coref)), splitter)
  {
    var docs := ParseDocs(files, load, nodes, coref);
    ParsedFlagged(files, load, nodes, coref);
    FinalDocsOkIff(docs, splitter);
    var res := GetFinalDocs(None, Some(docs), _ => [], splitter);
    return res.value;
  }
}

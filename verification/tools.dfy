/**
 * The context formatting of src/chatbot/tools.py: the hits of a hybrid search
 * are rendered one block each, "Source: <doc_source>\nContext: <text>", and the
 * blocks are joined with a blank line. The search itself (embeddings, Milvus,
 * reranking) is a parameter.
 */
module Tools {
  import opened Outcomes
  import opened PyStr

  /** One row of the first result list, with the output fields `doc_id`, `text` and `doc_source`. */
  datatype Hit = Hit(docId: string, text: string, docSource: string)

  /** `collection.hybrid_search` with its fixed requests, as a function of the query: the first result list. */
  type Search = string -> seq<Hit>

  const SourceTag := "Source: "
  const ContextTag := "\nContext: "
  const Separator := "\n\n"

  /** The block of one hit. */
  function Block(h: Hit): string
  {
    SourceTag + h.docSource + ContextTag + h.text
  }

  function Blocks(hits: seq<Hit>): (r: seq<string>)
    ensures |r| == |hits|
  {
    seq(|hits|, i requires 0 <= i < |hits| => Block(hits[i]))
  }

  /** The context handed to the model: the blocks in hit order, separated by blank lines. */
  function Context(hits: seq<Hit>): string
  {
    Join(Separator, Blocks(hits))
  }

  // ----- reading a block back -----

  /** The index of the first newline of `s`, or `|s|` when there is none. */
  function FirstNewline(s: string): (r: nat)
    ensures r <= |s|
    ensures forall i :: 0 <= i < r ==> s[i] != '\n'
    ensures r < |s| ==> s[r] == '\n'
  {
    if s == [] || s[0] == '\n' then 0 else 1 + FirstNewline(s[1..])
  }

  /** The source and the text of a block, when it has the block's shape. */
  function ParseBlock(b: string): Option<(string, string)>
  {
    if |b| < |SourceTag| || b[..|SourceTag|] != SourceTag then None
    else
      var rest := b[|SourceTag|..];
      var j := FirstNewline(rest);
      if |rest| - j < |ContextTag| || rest[j..j + |ContextTag|] != ContextTag then None
      else Some((rest[..j], rest[j + |ContextTag|..]))
  }

  /** A block gives back its hit's source and text, as long as the source has no newline. */
  lemma ParseBlockRoundTrip(h: Hit)
    requires forall i :: 0 <= i < |h.docSource| ==> h.docSource[i] != '\n'
    ensures ParseBlock(Block(h)) == Some((h.docSource, h.text))
  {
    var b := Block(h);
    var rest := h.docSource + ContextTag + h.text;
    assert b[..|SourceTag|] == SourceTag && b[|SourceTag|..] == rest;
    FirstNewlineAt(h.docSource, ContextTag + h.text);
    assert rest == h.docSource + (ContextTag + h.text);
    assert rest[|h.docSource|..|h.docSource| + |ContextTag|] == ContextTag;
    assert rest[..|h.docSource|] == h.docSource;
    assert rest[|h.docSource| + |ContextTag|..] == h.text;
  }

  lemma {:induction false} FirstNewlineAt(a: string, b: string)
    requires forall i :: 0 <= i < |a| ==> a[i] != '\n'
    requires b != [] && b[0] == '\n'
    ensures FirstNewline(a + b) == |a|
  {
    if a != [] {
      assert (a + b)[1..] == a[1..] + b;
      FirstNewlineAt(a[1..], b);
    }
  }

  // ----- the joined context -----

  /** The context is empty exactly when there are no hits: every block is non-empty. */
  lemma ContextEmptyIff(hits: seq<Hit>)
    ensures Context(hits) == "" <==> hits == []
  {
    if hits != [] {
      JoinNonEmpty(Blocks(hits));
    }
  }

  lemma {:induction false} JoinNonEmpty(parts: seq<string>)
    requires parts != [] && parts[0] != []
    ensures |Join(Separator, parts)| >= |parts[0]|
    ensures Join(Separator, parts)[..|parts[0]|] == parts[0]
  {
    if |parts| > 1 {
      assert Join(Separator, parts) == parts[0] + (Separator + Join(Separator, parts[1..]));
    }
  }

  /** Adding a hit adds its block, after a blank line unless it is the first. */
  lemma ContextSnoc(hits: seq<Hit>, h: Hit)
    ensures Context(hits + [h]) == if hits == [] then Block(h) else Context(hits) + Separator + Block(h)
  {
    assert Blocks(hits + [h]) == Blocks(hits) + [Block(h)];
    if hits != [] {
      JoinSnoc(Separator, Blocks(hits), Block(h));
    }
  }

  /** The context starts with the first hit's block. */
  lemma ContextStartsWithFirst(hits: seq<Hit>)
    requires hits != []
    ensures |Context(hits)| >= |Block(hits[0])|
    ensures Context(hits)[..|Block(hits[0])|] == Block(hits[0])
  {
    JoinNonEmpty(Blocks(hits));
  }

  /**
   * The loop of `retrieve_db`: one block per hit, in order, then the join. The
   * result is the context of the hits, and empty exactly when there are none.
   */
  method FormatHits(hits: seq<Hit>) returns (r: string)
    ensures r == Context(hits)
    ensures r == "" <==> hits == []
  {
    var context: seq<string> := [];
    for i := 0 to |hits|
      invariant context == Blocks(hits[..i])
    {
      assert Blocks(hits[..i + 1]) == Blocks(hits[..i]) + [Block(hits[i])];
      context := context + [Block(hits[i])];
    }
    assert hits[..|hits|] == hits;
    r := Join(Separator, context);
    ContextEmptyIff(hits);
  }

  /** `DBRetrieval`: the vector-store retrieval tool. */
  class DBRetrieval {
    var name: string
    var description: string

    /** The base tool's name and description, then overridden by the retrieval tool's own. */
    constructor ()
      ensures name == "Retrieve from Vector DB"
      ensures description == "Retrieves context from a conventional Vector DB, given a queries."
    {
      name := "BaseTool";
      description := "Base class for all tools";
      name := "Retrieve from Vector DB";
      description := "Retrieves context from a conventional Vector DB, given a queries.";
    }

    /** `retrieve_db`: the formatted context of the hits for the query. */
    method RetrieveDb(search: Search, query: string) returns (r: string)
      ensures r == Context(search(query))
      ensures r == "" <==> search(query) == []
    {
      var hits := search(query);
      r := FormatHits(hits);
    }

    /** `retrieve_db_async`: the same search and the same formatting as `retrieve_db`. */
    method RetrieveDbAsync(search: Search, query: string) returns (r: string)
      ensures r == Context(search(query))
      ensures r == "" <==> search(query) == []
    {
      var hits := search(query);
      r := FormatHits(hits);
    }
  }
}

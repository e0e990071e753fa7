/**
 * src/vector/query_index.py: a hybrid search over the vector store whose hits
 * are formatted exactly as the retrieval tool formats them.
 */
module QueryIndex {
  import opened Tools

  /** `hybrid_search`: the context of the hits for the query, "" when there are none. */
  method HybridSearch(search: Search, query: string) returns (r: string)
    ensures r == Context(search(query))
    ensures r == "" <==> search(query) == []
  {
    var hits := search(query);
    r := FormatHits(hits);
  }
}

# agent-visualiser, modelled in Dafny

agent-visualiser is a diabetes question-answering chatbot. A request is answered by a small
agent workflow:

- two retrieval agents read the query, one searching a Milvus vector store and one a
  knowledge graph;
- an answer-generation agent writes an answer from the two contexts;
- a grader scores the answer on relevance, completeness, coherence and correctness;
- a router decides whether the answer is good. If it is not, a web search and a
  refinement agent run, and the grading agent is called again.

A Chainlit front end streams the run's events into the chat. An offline pipeline turns
PDFs into documents and chunks, and ingests them into the vector store in batches.

This project models, sequentially and deterministically, the logic the repository itself
contains on top of its libraries:

- **State and agents** (`graph_state.dfy`, `input.dfy`, `agents.dfy`).
  - The request state is a dictionary with eight keys.
  - Each agent returns a sparse patch.
  - The grading agent overwrites four keys of the shared `metrics`/`reasons` dictionaries in
    place. It is modelled twice: on values, and on heap objects that a shallow copy shares.
  - The router `decide_metrics_agent` is modelled as written and as intended.
- **Workflows** (`workflow.dfy`). A builder class records `add_node`/`add_edge`/
  `add_conditional_edges` calls. The three workflows come out as edge tables.
- **Running a workflow** (`scheduler.dfy`, `runs.dfy`).
  - The graph runtime is a library, not part of the repository. The model states the
    behaviour the workflows rely on: a ready queue, a join barrier in front of
    `generate_answer`, a path map that raises on an unknown label, and fuel for the
    uncapped refinement loop.
  - On top of that, every run's node order is proved, together with what each of the two
    routers makes of it.
- **Preprocessing** (`documents.dfy`, `doc_utils.dfy`, `vector_utils.dfy`).
  - Table-of-contents removal.
  - PDF name filtering and mangling.
  - The "first six pages" cleaning loop.
  - Node-to-document conversion, including the global id counter of the vector variant.
  - The long/short split: 2000 characters with tables kept as short, or 1500 characters
    with tables dropped.
  - Chunk metadata.
  - The in-place extension of the short list.
  - `get_final_docs`.
- **Ingestion** (`create_index.dfy`). Extracting the id/text/source columns, and
  `batch_ingestion`'s contiguous batches of ten rows.
- **Context formatting** (`tools.dfy`, `query_index.dfy`). Hits become
  `Source: …\nContext: …` blocks joined by blank lines.
- **Front end** (`ui_utils.dfy`, `app.py` in `app.dfy`).
  - Source-file matching.
  - Context and agent-type lookups.
  - Metrics formatting.
  - The UI's grading decision.
  - `handle_messages`' cells.
  - `on_message`'s event fold.

The foreign calls are parameters of the model, never implementations:

- the language model, the three searches, the PDF and node parsers, and coreference;
- the text splitter, `uuid4` and the directory listing;
- the streamed events of a run.

Python dictionaries are association lists (`PyDict`), so they keep insertion order. Python
exceptions are `Err` values of a `Result`.

Two thresholds disagree:

- The intended router (`Agents.Decision`) rejects a score `<= 7` (src/chatbot/agents.py:193). As written, the router rejects nothing (see "## Findings").
- The front end's decision rejects a score `< 7` (utils.py:93).

`UiUtils.UiRejectImpliesRouterRejects` and `UiUtils.UiAcceptsSeven` compare the front end with the intended router. `UiUtils.AsWrittenAcceptsWhatUiRejects` and `UiUtils.UiRejectsFive` compare it with the router as written. On scores 5, 8, 8, 8, the front end rejects the answer and clears it, while the router as written says "good".

## Model

| member | source | states |
|---|---|---|
| `Agents.RetrieveVector` | src/chatbot/agents.py:48-49 | Succeeds exactly when the state holds a string query and the vector search of that query succeeds. The patch then has the single key `db_context`, holding the search result for the query. |
| `Agents.RetrieveKg` | src/chatbot/agents.py:68-70 | Succeeds exactly when the query is readable and the graph search succeeds. The patch is `{kg_context: result for the query}` and nothing else. |
| `Agents.RetrieveWeb` | src/chatbot/agents.py:89-91 | Succeeds exactly when the query is readable and the web search succeeds. The patch is `{websearch_context: result for the query}` and nothing else. |
| `Agents.GenerateAnswer` | src/chatbot/agents.py:109-117 | The model is called with the query and `db_context + kg_context`: db first, no separator. The patch holds only `answer`, set to the model's response. It fails when any of the three fields is missing or the call fails. |
| `Agents.Refine` | src/chatbot/agents.py:172-176 | The patch holds only `answer`. After the merge, the state's answer is the refined text: the old answer is replaced, not extended. |
| `Agents.FourOf` | src/chatbot/agents.py:141-142 | The four metric values are read in the order relevance, completeness, coherence, correctness. The read succeeds exactly when all four keys are present. |
| `Agents.Grade` | src/chatbot/agents.py:136-151 | Succeeds exactly when the query and answer are readable, the tool succeeds, its reply has `evaluation` and `reasoning` with all four metric keys each, and the state holds both dictionaries. The patch then holds exactly `metrics` and `reasons`, each the state's dictionary with the four keys overwritten. |
| `Agents.GradeMissingEvaluation` | src/chatbot/agents.py:138-139 | A reply without `evaluation` makes the grading agent raise `KeyError('evaluation')`. |
| `Agents.OverwriteGet` | src/chatbot/agents.py:145-146 | After the four-key assignment, each metric key holds its new value, and every other key holds exactly what it held before. |
| `Agents.GradeOverwritesFourKeys` | src/chatbot/agents.py:144-146 | After a successful grading is merged, the four metric keys of `metrics` and `reasons` hold the tool's scores and reasons. Every other key of both dictionaries is unchanged. |
| `Agents.GradeInPlace` | src/chatbot/agents.py:136-151 | On the heap view, the grading agent mutates the state's two dictionary objects. The returned patch refers to those very objects. Afterwards, state and patch read as the value-view `Grade` result merged into the old state. On failure nothing is written. |
| `Agents.WriteGrade` | src/chatbot/agents.py:144-151 | The two tuple assignments update the shared dictionaries. The patch holds the same two objects, and the new state is the old one with that patch merged. |
| `Agents.OverwriteInPlace` | src/chatbot/agents.py:145 | The four `d[k] = v` assignments leave `d` equal to the old contents with the four keys overwritten. |
| `Agents.MetricList` | src/chatbot/agents.py:190 | The four scores are read from `state["metrics"]` in fixed order, absent ones standing for the default `""`. The read fails only when the state has no metrics dictionary. |
| `Agents.DecisionAsWrittenAlwaysGood` | src/chatbot/agents.py:192-195 | As written, the loop answers "good" whenever every score is present. It never answers "not good enough". A missing score raises `TypeError`. |
| `Agents.DecisionGoodIff` | src/chatbot/agents.py:192-195 | The intended loop answers "good" exactly when every score is present and above 7: 7 fails and 8 passes. |
| `Agents.DecisionNotGoodIff` | src/chatbot/agents.py:192-195 | With every score present, the intended loop answers "not good enough" exactly when some score is at most 7. |
| `Agents.DecisionNotGoodWitness` | src/chatbot/agents.py:192-195 | The intended loop answers "not good enough" only when some present score is at most 7. |
| `Agents.DecisionsAgreeIff` | src/chatbot/agents.py:190-195 | With every score present, the as-written and intended routers agree exactly when all scores are above 7. |
| `Agents.RouterDefectWitness` | src/chatbot/agents.py:193-194 | On scores 7, 8, 8, 8 the as-written router says "good" and the intended one says "not good enough". On 8, 8, 8, 8 the intended one says "good". |
| `Agents.DecideMetricsAgent` | src/chatbot/agents.py:178-195 | The loop as written computes the as-written decision. Whenever it returns, it returns "good". |
| `Agents.DecideMetricsAgentIntended` | src/chatbot/agents.py:178-195 | The loop with the `return` restored computes the intended decision. Its answer is always "good" or "not good enough". |
| `Agents.RouteAsWrittenAfterGrade` | src/chatbot/agents.py:190-195 | After any successful grading, all four scores are present, so the as-written router says "good". |
| `Agents.RouteAfterGrade` | src/chatbot/agents.py:190-195 | After a successful grading, the intended router decides on exactly the four scores the tool returned. |
| `GraphState.GetText` | src/chatbot/agents.py:109-111 | `state[k]` for a string field succeeds exactly when the key holds a string, and yields that string. Otherwise it raises. |
| `GraphState.DefaultDict.SetItem` | src/chatbot/agents.py:145 | `d[k] = v` overwrites the value of a present key in place, or appends the new key. |
| `PyDict.GetSetSame` | src/chatbot/agents.py:145-146 | After `d[k] = v`, `d.get(k)` is `v`. |
| `PyDict.GetSetOther` | src/chatbot/agents.py:145-146 | After `d[k] = v`, every other key keeps its value. |
| `PyDict.SetUnique` | src/chatbot/agents.py:145-146 | Assignment keeps the dictionary's keys distinct. |
| `Input.DefaultLookup` | src/chatbot/input.py:9-10 | A `defaultdict(str)` lookup yields the stored value, or `""` for an absent key. |
| `Input.BaseInputs` | src/chatbot/input.py:3-12 | `BASE_INPUTS` has exactly eight keys. Every string field is `""`. `metrics` and `reasons` are empty, so every metric is absent and every reason looks up as `""`. |
| `Input.CreateBaseInputs` | src/chatbot/input.py:3-12 | Building `BASE_INPUTS` allocates two fresh, empty dictionary objects. The heap state reads as `BaseInputs()`. |
| `Input.BaseSnapshot` | src/chatbot/input.py:3-12 | A heap state with the eight keys, empty strings and two empty dictionaries reads as `BASE_INPUTS`. |
| `App.InitialInputs` | app.py:38-39 | The run's input has the keys of `BASE_INPUTS` plus `query`, and `query` holds the message text. |
| `App.InitialInputsShallow` | app.py:38-39 | The copy is shallow. Every key but `query` holds exactly what `BASE_INPUTS` holds, including the same dictionary objects. So the run starts from `BASE_INPUTS`' current contents with only the query replaced, and the grading agent's in-place writes persist into later requests. |
| `App.FirstRunInputs` | app.py:38-39 | While `BASE_INPUTS` is untouched, the first run starts from the base state with the query set and empty metrics. |
| `App.OnMessage` | app.py:41-100 | The handler's loop computes the event fold. It then sends `"Final Chosen Answer: \n\n" + final_answer` last, and the streamed message shows the fold's content. |
| `App.RunAnswer` | app.py:48-58 | `first` stays up exactly until the first "messages" event. `final_answer` is the concatenation, in arrival order, of the chunks whose node is not `grader`. The message content is the header, added once at the first "messages" event, followed by `final_answer`. |
| `App.StepAnswer` | app.py:52-58 | One event keeps content equal to header-once plus answer. A grader chunk still opens the header but appends nothing. |
| `App.SkippedUpdate` | app.py:63-70 | An "updates" event whose three context lookups are all falsy changes nothing. |
| `App.ContextUpdate` | app.py:72-98 | An update with a context sends the context under the first of vector, KG and web-search labels that reported (never the grading agent). The insulin PDF message follows. The answer is unchanged. |
| `Workflow.StateGraph.constructor` | src/chatbot/workflow.py:25 | A new builder has no nodes, edges, joins or conditional edges. |
| `Workflow.StateGraph.AddNode` | src/chatbot/workflow.py:27-32 | `add_node` appends one node and changes nothing else. |
| `Workflow.StateGraph.AddEdge` | src/chatbot/workflow.py:34-35 | `add_edge` with one start appends one plain edge and changes nothing else. |
| `Workflow.StateGraph.AddJoinEdge` | src/chatbot/workflow.py:37 | `add_edge` with a list of starts appends one join edge and changes nothing else. |
| `Workflow.StateGraph.SetEntryPoint` | src/chatbot/workflow.py:74 | `set_entry_point(n)` appends the plain edge START → n and changes nothing else. |
| `Workflow.StateGraph.AddConditionalEdges` | src/chatbot/workflow.py:40-47 | Appends the source and its label map and changes nothing else. |
| `Workflow.StateGraph.Compile` | src/chatbot/workflow.py:53 | The compiled graph is exactly the declarations collected. |
| `Workflow.GetFullGraph` | src/chatbot/workflow.py:16-55 | The builder calls produce the full table: six nodes, the START fan-out, one join, the grading agent branch and the loop edges. |
| `Workflow.GetVectorGraph` | src/chatbot/workflow.py:57-95 | The builder calls produce the vector-only table. |
| `Workflow.GetKgGraph` | src/chatbot/workflow.py:97-135 | The builder calls produce the KG-only table. |
| `Workflow.WorkflowsWellFormed` | src/chatbot/workflow.py:16-135 | In every workflow the node ids are distinct and every endpoint is a declared node. START is never a target and END never a source. |
| `Workflow.FullStartSuccessors` | src/chatbot/workflow.py:34-35 | In the full graph, START leads to exactly `search_vector_db` and `search_kg_db`, in that order. |
| `Workflow.FullJoinIntoGenerate` | src/chatbot/workflow.py:37 | `generate_answer` has no plain incoming edge. Its only join has the two retrieval nodes as sources, and they are its only predecessors. |
| `Workflow.GraderRouting` | src/chatbot/workflow.py:38-47 | In every workflow: `generate_answer → grader` is its only, unconditional edge; `grader` has no plain edge and exactly the router's label map. |
| `Workflow.GraderPathLabels` | src/chatbot/workflow.py:43-46 | The label map has exactly two labels: "good" → END and "not good enough" → `websearch`. |
| `Workflow.EndOnlyFromGrader` | src/chatbot/workflow.py:40-47 | In each graph, END is reached from `grader` and from nothing else. |
| `Workflow.SingleEntry` | src/chatbot/workflow.py:74-76 | The vector-only and KG-only graphs have one entry node. It leads to `generate_answer` alone, and they have no join. |
| `Workflow.SameTail` | src/chatbot/workflow.py:78-91 | From `generate_answer` on, all three graphs have the same edges. |
| `Workflow.EdgeRank` | src/chatbot/workflow.py:34-51 | Every edge strictly climbs a fixed ranking unless both ends are loop nodes. The loop edges are exactly grader → websearch → refine_answer → grader. |
| `Workflow.LoopEdgesPresent` | src/chatbot/workflow.py:45-51 | The three loop edges exist in every graph. |
| `Workflow.ClosedWalksStayInLoop` | src/chatbot/workflow.py:49-51 | Every vertex of a closed walk lies on the grading agent/websearch/refine_answer loop: it is the only cycle. |
| `Scheduler.Execute` | src/chatbot/workflow.py:7-14 | Each node runs its registered agent, and a successful patch writes exactly that node's keys. |
| `Scheduler.FireJoins` | src/chatbot/workflow.py:37 | A join fires only a declared join target, and only consumes arrivals. |
| `Scheduler.Follow` | src/chatbot/workflow.py:40-47 | A node without a router wakes nothing. In the three workflows only `grader` routes: "good" wakes nothing (END), "not good enough" wakes `websearch`, a router error propagates, and any other label raises `KeyError`. |
| `Scheduler.Step` | src/chatbot/workflow.py:34-51 | One step runs the head of the queue with its agent, merges the patch into the state, and records the visit. |
| `Scheduler.Run` | src/chatbot/workflow.py:49-51 | A run takes at most `fuel` steps. It runs out of fuel only with work still queued, and finishes only with an empty queue. |
| `Scheduler.InitShaped` | src/chatbot/workflow.py:34-35 | The first configuration of each workflow satisfies the run invariant. |
| `Scheduler.InitReady` | src/chatbot/workflow.py:34-35 | Initially, exactly the workflow's retrieval nodes are ready, in edge order. |
| `Scheduler.FullWakeAtBarrier` | src/chatbot/workflow.py:37 | In the full graph, finishing a retrieval queues `generate_answer` exactly when the other retrieval has already arrived. |
| `Scheduler.FireBarrier` | src/chatbot/workflow.py:37 | The full graph's join fires once both retrievals have arrived, and consumes both arrivals. |
| `Scheduler.StepShaped` | src/chatbot/workflow.py:34-51 | Every successful step keeps the run invariant: node order, barrier bookkeeping, and the routing decisions so far. |
| `Scheduler.RunInvariant` | src/chatbot/workflow.py:34-51 | Every configuration a run reaches keeps the run invariant. Every visit ran its agent on the state the previous visit left. |
| `Runs.Reached` | src/chatbot/workflow.py:16-55 | From the initial configuration, every run of each workflow keeps both invariants. |
| `Runs.RunShape` | src/chatbot/workflow.py:34-51 | Each run visits the retrievals, then `generate_answer` exactly once, then grader, websearch, refine_answer in turn. Every grader visit that more work followed was routed "not good enough". A run that finishes ends on a grader routed "good". |
| `Runs.BarrierBeforeGenerate` | src/chatbot/workflow.py:37 | In the full workflow, `generate_answer` runs third, on a state that already holds both the vector and the KG context for the query. |
| `Runs.RetrievalsMerged` | src/chatbot/workflow.py:34-37 | After the two retrievals of a faithful trace, both contexts are in the state. |
| `Runs.AsWrittenGradesOnce` | src/chatbot/agents.py:190-195 | With the as-written router, no run takes more than two steps after the retrievals, so `grader` runs at most once and the refinement loop never runs. A finished run's node sequence is the retrievals, `generate_answer`, `grader`. With that much fuel, a run never runs out of fuel. |
| `Runs.NoSecondGrade` | src/chatbot/agents.py:144-195 | Every grader visit leaves a state the as-written router calls "good". |
| `Runs.IntendedRun` | src/chatbot/workflow.py:40-51 | With the intended router, a finished run ends on four scores above 7. Every earlier grader visit found a score of at most 7. |
| `Runs.RetrievalOrderIrrelevant` | src/chatbot/workflow.py:34-35 | The two concurrent retrievals read only the query and write different keys. Either order gives the same patches and the same state, so the sequential model loses nothing. |
| `Documents.MetaAt` | src/utils/utils.py:140 | `metadata[k]` succeeds exactly when `k` is a key, and raises `KeyError(k)` otherwise. |
| `Documents.MetaGet` | src/utils/utils.py:157 | `metadata.get(k, default)` is the stored value when present, else the default. |
| `PyStr.Strip` | src/utils/utils.py:40 | `strip()` returns a slice of the text whose cut-off ends are all whitespace. The result neither starts nor ends with whitespace. |
| `Documents.TableOfContentsStripped` | src/utils/utils.py:40 | The cleaned text neither starts nor ends with whitespace. |
| `Documents.TocKeptWithoutHash` | src/utils/utils.py:38-39 | Text with no `#` is left unchanged, so a marker with no later `#` is kept. |
| `Documents.TocKeptWithoutMarker` | src/utils/utils.py:38-39 | Text without "TABLE OF CONTENTS" is left unchanged. |
| `Documents.TocSectionRemoved` | src/utils/utils.py:38-39 | The first marker is deleted with everything up to, not including, the next `#`, across newlines. The text before it is kept and the scan resumes after that `#`. |
| `Documents.TocPrefixKept` | src/utils/utils.py:38-39 | A prefix in which no marker starts is kept verbatim. |
| `Documents.StemOf` | src/utils/utils.py:100 | `splitext(name)[0]` is a prefix of the name. |
| `Documents.ModifiedFileName` | src/utils/utils.py:100 | The mangled name is as long as the stem and contains no space. |
| `Documents.SourceNameOfPdf` | src/utils/utils.py:94-100 | For a `.pdf` name, the source is the name without ".pdf", lower-cased, with every space turned into "_". |
| `Documents.PdfStem` | src/utils/utils.py:100 | The stem of a `.pdf` name is the name without its last four characters. |
| `Documents.CleanFirst` | src/utils/utils.py:105-108 | Pages 0 to 5 get their table of contents removed, and all later pages are unchanged. Metadata is never changed. |
| `Documents.CleanFirstPages` | src/utils/utils.py:105-108 | The in-place loop leaves the page array equal to `CleanFirst` of its old contents. Six pages are cleaned because the `idx > 4` break follows the assignment. |
| `Documents.FlattenSnoc` | src/utils/utils.py:121 | Flattening one more list appends its items. |
| `Documents.FlattenLength` | src/utils/utils.py:121 | The flattened list is as long as all the lists together. |
| `Documents.DocumentList.Extend` | src/utils/utils.py:176 | `extend` appends the given documents to the list in place. |
| `DocUtils.NodeDocMeta` | src/utils/utils.py:57-63 | Each node document's metadata is exactly `is_table` then `source`, with the given flag and source. |
| `DocUtils.ConvertNodesToDocuments` | src/utils/utils.py:42-77 | There are `len(text)+len(objects)` documents. Text nodes come first with `is_table` False, then objects with `is_table` True, all with the given source. |
| `DocUtils.FurtherSplitLongDocs` | src/utils/utils.py:137-148 | Raises `KeyError` exactly when some document lacks the table flag. Otherwise it returns the long documents and the rest. |
| `DocUtils.SplitPartition` | src/utils/utils.py:137-148 | The split is a partition, as a multiset. The long list holds non-tables over 2000 characters; the short list holds everything else, every table included. |
| `DocUtils.ChunkDoc` | src/utils/utils.py:150-161 | There is one document per chunk. `KeyError` arises exactly when there are chunks and the parent has no table flag. |
| `DocUtils.ChunkDocContents` | src/utils/utils.py:150-161 | The i-th chunk document holds the i-th chunk. Its metadata is exactly `is_table` (the parent's) and `source` (the parent's, or ""). |
| `DocUtils.ChunkAllTexts` | src/utils/utils.py:175-176 | The appended texts are the splitter's chunks of each long document, in order. |
| `DocUtils.RecursiveChunkDocuments` | src/utils/utils.py:163-178 | `short_docs` is extended in place with the chunks of each long document in turn, and that same list is returned. A failure leaves the chunks appended before it. |
| `DocUtils.ChunkAllKeyError` | src/utils/utils.py:156 | Chunking can only fail with `KeyError('is_table')`. |
| `DocUtils.GetFinalDocs` | src/utils/utils.py:180-188 | `ValueError` arises exactly when both arguments are missing. A given `doc_list` wins over the folder; otherwise the pickles of the folder are used. |
| `DocUtils.FinalDocsNotMissing` | src/utils/utils.py:180-188 | Splitting and chunking never raise the missing-input error. |
| `DocUtils.FinalDocsOkIff` | src/utils/utils.py:186-188 | Processing a list fails exactly when some document has no table flag. |
| `DocUtils.ParseDocs` | src/utils/utils.py:82-121 | Only names ending ".pdf" are parsed. Their documents are built in listing order and flattened. |
| `DocUtils.ParsedSources` | src/utils/utils.py:94-121 | Every parsed document's source is the mangled name of some listed `.pdf` file. |
| `DocUtils.ParsedFileSources` | src/utils/utils.py:100-114 | Every document of one file has that file's mangled name as its source, and a table flag. |
| `DocUtils.ParsedFlagged` | src/utils/utils.py:114-121 | Every parsed document carries the table flag. |
| `DocUtils.ParseAndProcessDocs` | src/utils/utils.py:190-198 | Parsing then processing never fails, and gives the final documents of the parsed list. |
| `VectorUtils.IdCounter.constructor` | src/vector/utils.py:20 | The global counter starts at 0. |
| `VectorUtils.NodeIdInjective` | src/vector/utils.py:41 | Two ids `node_{n}_{uuid}` that are equal have the same counter value, whatever the uuids. |
| `VectorUtils.VectorDocMeta` | src/vector/utils.py:38-47 | A node document has id `node_{n}_{uuid}`, the given table flag and the given source. |
| `VectorUtils.ConvertNodesToDocuments` | src/vector/utils.py:22-67 | There is one document per node, text nodes first. The k-th document is numbered with the entry counter plus k, and the counter advances by exactly the number of documents. |
| `VectorUtils.ConvertedMeta` | src/vector/utils.py:34-67 | The k-th document's id is numbered c+k, and it is a table exactly when it comes from an object node. |
| `VectorUtils.FurtherSplitLongDocs` | src/vector/utils.py:117-126 | Raises `KeyError` exactly when a flag is missing. Otherwise it returns the long and short non-tables, in input order. |
| `VectorUtils.SplitDropsTables` | src/vector/utils.py:117-126 | The two lists partition the non-tables, as a multiset: above 1500 characters is long, at most 1500 is short. No table is in either list. |
| `VectorUtils.ChunkDoc` | src/vector/utils.py:128-140 | There is one document per chunk. |
| `VectorUtils.ChunkDocMeta` | src/vector/utils.py:128-140 | The i-th chunk holds the i-th text, `chunk_id` = parent id + "_" + i, and `parent_id` = parent id ("" when absent). Every other key is as in the parent. |
| `VectorUtils.ChunkIdsDistinct` | src/vector/utils.py:135 | Different chunks of one document get different chunk ids. |
| `VectorUtils.ChunkAllLength` | src/vector/utils.py:154-155 | The number of chunks appended is the sum of the splitter's chunk counts. |
| `VectorUtils.RecursiveChunkDocuments` | src/vector/utils.py:142-157 | `short_docs` is extended in place with every long document's chunks, and that same list is returned. |
| `VectorUtils.GetFinalDocs` | src/vector/utils.py:159-167 | `ValueError` arises exactly when both arguments are missing. A given `doc_list` wins; otherwise the pickles are read. |
| `VectorUtils.FinalDocsShape` | src/vector/utils.py:165-167 | The final list is the short non-tables of the input followed by the chunks. |
| `VectorUtils.ParseDocs` | src/vector/utils.py:72-101 | PDFs only, in listing order, flattened. The shared counter ends advanced past every document. |
| `VectorUtils.ParsePdf` | src/vector/utils.py:79-95 | One PDF is loaded, its first six pages cleaned in place, its nodes parsed and converted. The counter advances by the number of documents. |
| `VectorUtils.ParsedIds` | src/vector/utils.py:72-101 | Over a folder, the counter advances by the number of documents, and the k-th document's id is numbered `c0 + k`. |
| `VectorUtils.ParsedIdsDistinct` | src/vector/utils.py:94-101 | No two documents of one parse share an id. |
| `VectorUtils.ParsedFlagged` | src/vector/utils.py:94-101 | Every parsed document carries the table flag. |
| `VectorUtils.ParseAndProcessDocs` | src/vector/utils.py:169-177 | Parsing then processing never fails. The counter ends where the parse leaves it. |
| `PyStr.DecimalRoundTrip` | src/vector/utils.py:41 | The decimal rendering of a counter value reads back as that value. |
| `CreateIndex.DocId` | src/vector/create_index.py:20-23 | The id is `chunk_id` when present, else `id` (raising `KeyError` when neither exists). |
| `CreateIndex.GetRequiredData` | src/vector/create_index.py:15-32 | The three lists are as long as the input, and position i comes from document i. Otherwise the `KeyError` of the first document lacking an id or a source. |
| `CreateIndex.ChunkRowId` | src/vector/create_index.py:20-21 | A vector chunk is identified by its chunk id. |
| `CreateIndex.ChunkRowIdsDistinct` | src/vector/create_index.py:20-23 | Two chunks of one document get different row ids. |
| `CreateIndex.Collection.Insert` | src/vector/create_index.py:65 | `insert` records one batch after the earlier ones. |
| `CreateIndex.BatchIngestion` | src/vector/create_index.py:45-66 | The collection receives exactly the ceil(n/10) batches, in order, and nothing else. |
| `CreateIndex.BatchAt` | src/vector/create_index.py:62-64 | Batch k cuts all five columns at the same bounds: rows 10k up to min(10k+10, n). |
| `CreateIndex.NoRowsNoBatches` | src/vector/create_index.py:62 | With no rows, nothing is inserted. |
| `CreateIndex.BatchSizes` | src/vector/create_index.py:62-64 | Every batch has 1 to 10 rows, and all but the last exactly 10. |
| `CreateIndex.BatchesReassemble` | src/vector/create_index.py:46-64 | Concatenating the batches of each column gives back the column, cut to the number of ids. |
| `Tools.FormatHits` | src/chatbot/tools.py:62-68 | The loop's result is the hits' blocks joined by blank lines, in hit order. It is "" exactly when there are no hits. |
| `Tools.ContextEmptyIff` | src/chatbot/tools.py:62-68 | The context is empty exactly when there are no hits. |
| `Tools.ContextSnoc` | src/chatbot/tools.py:62-68 | One more hit appends its block, after "\n\n" unless it is the first. |
| `Tools.ContextStartsWithFirst` | src/chatbot/tools.py:66-68 | The context starts with the first hit's block. |
| `Tools.ParseBlockRoundTrip` | src/chatbot/tools.py:66 | A block `Source: s\nContext: t` gives back `s` and `t` when `s` has no newline. |
| `PyStr.JoinAppend` | src/chatbot/tools.py:68 | Joining two non-empty lists puts exactly one separator between their joins. |
| `Tools.DBRetrieval.constructor` | src/chatbot/tools.py:21-24 | The retrieval tool's name and description override the base tool's. |
| `Tools.DBRetrieval.RetrieveDb` | src/chatbot/tools.py:26-68 | `retrieve_db` returns the context of the search hits for the query, "" exactly when there are none. |
| `Tools.DBRetrieval.RetrieveDbAsync` | src/chatbot/tools.py:70-112 | `retrieve_db_async` formats the same hits exactly as `retrieve_db` does. |
| `QueryIndex.HybridSearch` | src/vector/query_index.py:4-38 | `hybrid_search` formats its hits exactly as `DBRetrieval.retrieve_db` does, "" exactly when there are none. |
| `UiUtils.GetSourceFiles` | utils.py:4-18 | The four substring tests in turn give the catalogue entries the content mentions. |
| `UiUtils.SourceFilesSpec` | utils.py:4-18 | The result is a subsequence of the fixed four-entry catalogue, in catalogue order, each entry at most once. An entry is included exactly when its test holds; for example, insulin needs "diabetes_treatment__insulin", or both "diabetes" and "insulin". |
| `UiUtils.RetrievedContextFirst` | utils.py:62-65 | The context is truthy exactly when some lookup is, and then it is the first truthy lookup: vector, then KG, then web. A missing node counts as absent. |
| `UiUtils.AgentTypePriority` | utils.py:78-83 | The agent type is the first of vector > KG > websearch > grader that reported, and None when none did. |
| `UiUtils.GetMetrics` | utils.py:67-76 | The text has one `**Name**: **n/10**\nReason\n\n` block per metric, and the scores are listed, both in dictionary order. A missing reason reads as "". It raises `AttributeError` exactly when there is no grader patch, the patch has no metrics, or there is a metric but no reasons dictionary. |
| `UiUtils.FormatMetrics` | utils.py:71-76 | The loop builds one block and one score per metric, in order. It fails with `AttributeError` exactly when there is a metric to explain but no reasons dictionary. |
| `UiUtils.MetricsTextAppend` | utils.py:74 | Each added metric appends exactly its block. |
| `UiUtils.MetricsTextEmptyIff` | utils.py:68-76 | The evaluation text is empty exactly when there are no metrics. |
| `UiUtils.GraderDecision` | utils.py:91-96 | The decision is "not good enough" exactly when some score is below 7, and then `final_answer[0]` is reset to "". Otherwise the answer is untouched. |
| `UiUtils.UiRejectImpliesRouterRejects` | utils.py:92-94 | When the UI rejects, the intended router rejects. When the intended router accepts, the UI accepts. |
| `UiUtils.UiAcceptsSeven` | utils.py:93 | A score of 7 is accepted by the UI and rejected by the intended router. |
| `UiUtils.AsWrittenAcceptsWhatUiRejects` | utils.py:91-96 | The router as written says "good" on any scores the front end shows, so it disagrees with the intended router on every set the front end rejects. |
| `UiUtils.UiRejectsFive` | utils.py:93 | On scores 5, 8, 8, 8, the front end rejects while the router as written says "good". |
| `UiUtils.RetrieverMessages` | utils.py:101-110 | With a context, it sends the context under the agent's name, then one PDF message per mentioned source (none for web search). Without a context, it sends only the notice. |
| `UiUtils.HandleUpdates` | utils.py:46-60 | A grader update shows the evaluation and the decision, clearing the answer on rejection. A retriever update shows its context. Any other update shows nothing. |
| `UiUtils.HandleMessages` | utils.py:28-44 | One call updates the four cells exactly as the step function says. |
| `UiUtils.HandleAllFromStart` | utils.py:31-44 | From fresh flags: the first call drops its chunk, and `first_answer` never comes back. Every later non-grader chunk extends both the message and `final_answer`. `first_grade` is down exactly when a grader chunk came after the first call. |

## Left out

- The agents' tools are parameters (`Agents.Tools`). src/chatbot/agents.py:5 imports six tool classes from src/chatbot/tools.py, but that file defines only `BaseTool` and `DBRetrieval`, so the tool module the agents use is not part of this model. `Agents.RetrieveVector`'s search is not connected to `Tools.DBRetrieval.RetrieveDb`.
- Agents.RetrieveWeb: src/chatbot/agents.py:90 awaits `self.tool.invoke(...)`, while lines 48, 69 and 138 call `invoke` without `await`. The model takes the tool's result to be whatever the awaited call yields. It does not model the `TypeError` that awaiting a plain string would raise. Agents.Refine (agents.py:175) is modelled the same way.
- Tools.FormatHits: the searches at src/chatbot/tools.py:46-57 and src/vector/query_index.py:14-27 pass `limit=3`. The model's search parameter may return any number of hits, so it does not promise at most three blocks. This also applies to QueryIndex.HybridSearch.
- The graph runtime (`compile`, `astream`) is an external library. Its behaviour is modelled sequentially (`Scheduler`): the two START retrievals run one after the other, vector first, and `Runs.RetrievalOrderIrrelevant` shows that the order does not matter. Streaming and concurrency are not modelled.
- `Scheduler.Run`: the refinement loop has no bound in the code, so a run is given fuel. A run that would loop forever is seen only as running out of fuel.
- The language model, the three search tools (`tool.invoke`), Milvus `hybrid_search`, embeddings, LlamaParse, spaCy coreference and `RecursiveCharacterTextSplitter` are foreign code. They are function parameters.
- `uuid.uuid4()` is a parameter giving one string per counter value, and `os.listdir` is the given list of names. Pickle writing and reading (`read_pickles`), `make_dir`, `print` and `alive_bar` are I/O and are left out. `read_pickles` is the parameter `readPickles`.
- `PyStr.Lower`: `str.lower` is modelled on ASCII letters only. `PyStr.Capitalize` has the same restriction. Unicode case mapping is not modelled.
- `Agents.MetricList`: a `defaultdict(str)` read of an absent metric also inserts `""` into the shared dictionary. The model does not record that insertion, because the comparison right after it raises `TypeError`.
- app.py imports `graph` from the workflow module, which defines only `full_graph`, `vector_graph` and `kg_graph`. `App` takes the run's events as a parameter and does not choose among the three graphs.
- Chainlit calls are not modelled, only the content and elements of what is sent: `set_starters`, `on_chat_start`, `send_answer_header`, `send_grader_header`, `get_source_elements`, `get_context_element`, `cl.Message(...).send()/update()`.
- `get_tool`/`StructuredTool`, the Streamlit scripts, the FastAPI app in src/app.py, Milvus index management and the Neo4j graph build and query are not part of this model.

## Findings

| source | as written | input that shows it | evidently intended | confidence | as-written member | corrected member |
|---|---|---|---|---|---|---|
| src/chatbot/agents.py:194 | The "not good enough" branch is a bare string expression, not a `return`. The loop falls through and the router answers "good" for every graded answer, so websearch and refinement never run. | metrics relevance 7, completeness 8, coherence 8, correctness 8 | Return "not good enough" as soon as a score is at most 7. | high; not executed | `Agents.DecideMetricsAgent` (with `Agents.RouterDefectWitness`, `Agents.DecisionAsWrittenAlwaysGood`, `Runs.AsWrittenGradesOnce`) | `Agents.DecideMetricsAgentIntended` (with `Agents.DecisionGoodIff`, `Agents.DecisionNotGoodIff`, `Runs.IntendedRun`) |

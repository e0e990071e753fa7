/**
 * The chat front end's helpers in utils.py: reading the graph's "updates"
 * events (which agent spoke, what context it retrieved, the grading agent's metrics),
 * the PDF sources a context mentions, the grading agent decision shown to the user,
 * and the cells `handle_messages` updates for each streamed answer chunk.
 *
 * An "updates" event maps each node that finished to the patch it returned.
 * Chainlit's message and element calls are not modelled; what they are sent is.
 */
module UiUtils {
  import opened Outcomes
  import opened PyStr
  import opened PyDict
  import opened GraphState
  import Workflow
  import Agents

  /** One "updates" event: node name to the patch that node returned. */
  type Update = Dict<Patch>

  // ----- get_source_files -----

  datatype SourceFile = SourceFile(name: string, path: string)

  /** The four PDFs the front end knows, in the order they are checked. */
  const Catalogue: seq<SourceFile> := [
    SourceFile("Diabetes Treatment_ Insulin", "src/pdfs/Diabetes Treatment_ Insulin.pdf"),
    SourceFile("Diabetes Medications", "src/pdfs/Diabetes Medications.pdf"),
    SourceFile("Diabetic Foot Ulcer_ Symptoms and Treatment", "src/pdfs/Diabetic Foot Ulcer_ Symptoms and Treatment.pdf"),
    SourceFile("managing-pre-diabetes-(updated-on-27-jul-2021)c2bfc77474154c2abf623156a4b93002",
      "src/pdfs/managing-pre-diabetes-(updated-on-27-jul-2021)c2bfc77474154c2abf623156a4b93002.pdf")]

  /** The substring test that selects catalogue entry i. */
  predicate Mentions(content: string, i: nat)
    requires i < |Catalogue|
  {
    if i == 0 then Contains(content, "diabetes_treatment__insulin") || (Contains(content, "diabetes") && Contains(content, "insulin"))
    else if i == 1 then Contains(content, "diabetes_medications") || Contains(content, "diabetes medications")
    else if i == 2 then Contains(content, "diabetic_foot_ulcer__symptoms_and_treatment") || (Contains(content, "diabetic") && Contains(content, "foot"))
    else Contains(content, "managing-pre-diabetes") || Contains(content, "managing pre-diabetes")
  }

  /** Which catalogue entries the content mentions. */
  function Flags(content: string): (r: seq<bool>)
    ensures |r| == |Catalogue| && forall i :: 0 <= i < |Catalogue| ==> r[i] == Mentions(content, i)
  {
    seq(|Catalogue|, i requires 0 <= i < |Catalogue| => Mentions(content, i))
  }

  /** The indices, among the first n, whose flag is set, in increasing order. */
  function SelectedIndices(flags: seq<bool>, n: nat): seq<nat>
    requires n <= |flags|
  {
    if n == 0 then [] else SelectedIndices(flags, n - 1) + (if flags[n - 1] then [n - 1] else [])
  }

  /** The items, among the first n, whose flag is set, in their order. */
  function Selected<T>(items: seq<T>, flags: seq<bool>, n: nat): seq<T>
    requires n <= |flags| == |items|
  {
    if n == 0 then [] else Selected(items, flags, n - 1) + (if flags[n - 1] then [items[n - 1]] else [])
  }

  /** The catalogue entries the content mentions. */
  function Mentioned(content: string): seq<SourceFile>
  {
    Selected(Catalogue, Flags(content), |Catalogue|)
  }

  /** `get_source_files`: the four tests in turn, each appending its entry when it holds. */
  method GetSourceFiles(content: string) returns (lst: seq<SourceFile>)
    ensures lst == Mentioned(content)
  {
    ghost var flags := Flags(content);
    lst := [];
    if Contains(content, "diabetes_treatment__insulin") || (Contains(content, "diabetes") && Contains(content, "insulin")) {
      lst := lst + [Catalogue[0]];
    }
    assert flags[0] == Mentions(content, 0) && lst == Selected(Catalogue, flags, 1);
    if Contains(content, "diabetes_medications") || Contains(content, "diabetes medications") {
      lst := lst + [Catalogue[1]];
    }
    assert flags[1] == Mentions(content, 1) && lst == Selected(Catalogue, flags, 2);
    if Contains(content, "diabetic_foot_ulcer__symptoms_and_treatment") || (Contains(content, "diabetic") && Contains(content, "foot")) {
      lst := lst + [Catalogue[2]];
    }
    assert flags[2] == Mentions(content, 2) && lst == Selected(Catalogue, flags, 3);
    if Contains(content, "managing-pre-diabetes") || Contains(content, "managing pre-diabetes") {
      lst := lst + [Catalogue[3]];
    }
    assert flags[3] == Mentions(content, 3);
  }

  /** The selected indices increase strictly, stay below n, and are exactly those whose flag is set. */
  lemma {:induction false} SelectedIndicesSpec(flags: seq<bool>, n: nat)
    requires n <= |flags|
    ensures var idx := SelectedIndices(flags, n);
      && (forall a, b :: 0 <= a < b < |idx| ==> idx[a] < idx[b])
      && (forall k :: 0 <= k < |idx| ==> idx[k] < n)
      && (forall i :: 0 <= i < n ==> (i in idx <==> flags[i]))
  {
    if n > 0 {
      SelectedIndicesSpec(flags, n - 1);
    }
  }

  /** The k-th item selected is the item at the k-th selected index. */
  lemma {:induction false} SelectedAtIndices<T>(items: seq<T>, flags: seq<bool>, n: nat)
    requires n <= |flags| == |items|
    ensures |Selected(items, flags, n)| == |SelectedIndices(flags, n)|
    ensures forall k :: 0 <= k < |SelectedIndices(flags, n)| ==>
      SelectedIndices(flags, n)[k] < |items| && Selected(items, flags, n)[k] == items[SelectedIndices(flags, n)[k]]
  {
    if n > 0 {
      SelectedAtIndices(items, flags, n - 1);
      SelectedIndicesSpec(flags, n - 1);
    }
  }

  lemma CatalogueDistinct()
    ensures forall i, j :: 0 <= i < j < |Catalogue| ==> Catalogue[i] != Catalogue[j]
  {
    assert |Catalogue[0].name| == 27 && |Catalogue[1].name| == 20;
    assert |Catalogue[2].name| == 43 && |Catalogue[3].name| == 78;
  }

  /**
   * Selecting from distinct items gives a subsequence in their order: the
   * k-th item selected sits at an index that grows with k, each item is
   * selected exactly when its flag is set, and none twice.
   */
  lemma SelectedSpec<T>(items: seq<T>, flags: seq<bool>)
    requires |flags| == |items|
    requires forall i, j :: 0 <= i < j < |items| ==> items[i] != items[j]
    ensures var r, idx := Selected(items, flags, |items|), SelectedIndices(flags, |items|);
      && |r| == |idx|
      && (forall k :: 0 <= k < |idx| ==> idx[k] < |items| && r[k] == items[idx[k]])
      && (forall a, b :: 0 <= a < b < |idx| ==> idx[a] < idx[b])
    ensures forall i :: 0 <= i < |items| ==> (items[i] in Selected(items, flags, |items|) <==> flags[i])
    ensures forall a, b :: 0 <= a < b < |Selected(items, flags, |items|)| ==> Selected(items, flags, |items|)[a] != Selected(items, flags, |items|)[b]
  {
    var idx := SelectedIndices(flags, |items|);
    var r := Selected(items, flags, |items|);
    SelectedIndicesSpec(flags, |items|);
    SelectedAtIndices(items, flags, |items|);
    forall i | 0 <= i < |items| ensures items[i] in r <==> flags[i] {
      if flags[i] {
        var k :| 0 <= k < |idx| && idx[k] == i;
        assert r[k] == items[i];
      }
      if items[i] in r {
        var k :| 0 <= k < |r| && r[k] == items[i];
        assert idx[k] == i;
      }
    }
  }

  /**
   * `get_source_files` lists a subsequence of the catalogue in its order,
   * each entry exactly when its test holds, and none twice.
   */
  lemma SourceFilesSpec(content: string)
    ensures var r, idx := Mentioned(content), SelectedIndices(Flags(content), |Catalogue|);
      && |r| == |idx|
      && (forall k :: 0 <= k < |idx| ==> idx[k] < |Catalogue| && r[k] == Catalogue[idx[k]])
      && (forall a, b :: 0 <= a < b < |idx| ==> idx[a] < idx[b])
    ensures forall i :: 0 <= i < |Catalogue| ==> (Catalogue[i] in Mentioned(content) <==> Mentions(content, i))
    ensures forall a, b :: 0 <= a < b < |Mentioned(content)| ==> Mentioned(content)[a] != Mentioned(content)[b]
  {
    CatalogueDistinct();
    SelectedSpec(Catalogue, Flags(content));
  }

  // ----- lookups on an update -----

  /** Python truthiness of a state value. */
  predicate TruthyValue(v: Value)
  {
    match v
    case Text(s) => s != ""
    case Scores(d) => d != []
    case Notes(d) => d != []
  }

  predicate Truthy(o: Option<Value>)
  {
    o.Some? && TruthyValue(o.value)
  }

  /** `update.get(node)` is truthy: the node finished and returned a non-empty patch. */
  predicate Reported(update: Update, node: Workflow.Node)
  {
    var p := Get(update, Workflow.NodeName(node));
    p.Some? && p.value != map[]
  }

  /** `update.get(node, {}).get(key)`. */
  function NodeValue(update: Update, node: Workflow.Node, key: Key): Option<Value>
  {
    match Get(update, Workflow.NodeName(node))
    case None => None
    case Some(p) => if key in p then Some(p[key]) else None
  }

  /** The three context lookups, in the order they are tried. */
  function ContextLookups(update: Update): seq<Option<Value>>
  {
    [NodeValue(update, Workflow.SearchVectorDb, DbContext),
     NodeValue(update, Workflow.SearchKgDb, KgContext),
     NodeValue(update, Workflow.Websearch, WebsearchContext)]
  }

  /** `get_retrieved_context`: the Python `or` of the three lookups. */
  function RetrievedContext(update: Update): Option<Value>
  {
    var l := ContextLookups(update);
    if Truthy(l[0]) then l[0] else if Truthy(l[1]) then l[1] else l[2]
  }

  /** Entry i of the list is the first truthy one. */
  predicate FirstTruthy(l: seq<Option<Value>>, i: int)
  {
    0 <= i < |l| && Truthy(l[i]) && forall j :: 0 <= j < i ==> !Truthy(l[j])
  }

  /**
   * The retrieved context is truthy exactly when one of the three lookups is,
   * and then it is the first truthy one: vector store, then graph, then web.
   */
  lemma RetrievedContextFirst(update: Update)
    ensures Truthy(RetrievedContext(update)) <==> exists i :: 0 <= i < 3 && Truthy(ContextLookups(update)[i])
    ensures Truthy(RetrievedContext(update)) ==> exists i :: FirstTruthy(ContextLookups(update), i) && RetrievedContext(update) == ContextLookups(update)[i]
  {
    var l := ContextLookups(update);
    if Truthy(l[0]) {
      assert FirstTruthy(l, 0);
    } else if Truthy(l[1]) {
      assert FirstTruthy(l, 1);
    } else if Truthy(l[2]) {
      assert FirstTruthy(l, 2);
    }
  }

  /** The nodes `get_agent_type` tests, in order, and the names it gives them. */
  const AgentNodes: seq<Workflow.Node> := [Workflow.SearchVectorDb, Workflow.SearchKgDb, Workflow.Websearch, Workflow.Grader]
  const AgentLabels: seq<string> := ["Vector DB Retriever Agent", "KG DB Retriever Agent", "Websearch Agent", "Grader Agent"]
  const GraderLabel := "Grader Agent"

  /** Node i of the list reported, and none before it did. */
  predicate FirstReported(update: Update, i: int)
  {
    0 <= i < |AgentNodes| && Reported(update, AgentNodes[i]) && forall j :: 0 <= j < i ==> !Reported(update, AgentNodes[j])
  }

  /** `get_agent_type`. */
  function AgentType(update: Update): Option<string>
  {
    if Reported(update, Workflow.SearchVectorDb) then Some(AgentLabels[0])
    else if Reported(update, Workflow.SearchKgDb) then Some(AgentLabels[1])
    else if Reported(update, Workflow.Websearch) then Some(AgentLabels[2])
    else if Reported(update, Workflow.Grader) then Some(AgentLabels[3])
    else None
  }

  /** The agent named is the first of vector store, graph, web search and grader that reported; none when none did. */
  lemma AgentTypePriority(update: Update)
    ensures AgentType(update).None? <==> forall i :: 0 <= i < 4 ==> !Reported(update, AgentNodes[i])
    ensures AgentType(update).Some? ==> exists i :: FirstReported(update, i) && AgentType(update) == Some(AgentLabels[i])
  {
    if Reported(update, Workflow.SearchVectorDb) {
      assert AgentNodes[0] == Workflow.SearchVectorDb;
    } else if Reported(update, Workflow.SearchKgDb) {
      assert AgentNodes[1] == Workflow.SearchKgDb;
    } else if Reported(update, Workflow.Websearch) {
      assert AgentNodes[2] == Workflow.Websearch;
    } else if Reported(update, Workflow.Grader) {
      assert AgentNodes[3] == Workflow.Grader;
    }
  }

  // ----- get_metrics -----

  /** `reasons.get(metric, '')`. */
  function ReasonOf(reasons: Dict<string>, metric: string): string
  {
    match Get(reasons, metric)
    case Some(r) => r
    case None => ""
  }

  /** The line block one metric contributes. */
  function MetricBlock(metric: string, num: int, reasons: Dict<string>): string
  {
    "**" + Capitalize(metric) + "**: **" + IntToDecimal(num) + "/10**\n" + Capitalize(ReasonOf(reasons, metric)) + "\n\n"
  }

  /** The evaluation text: one block per metric, in the dictionary's order. */
  function MetricsText(metrics: Dict<int>, reasons: Dict<string>): string
  {
    if metrics == [] then ""
    else MetricsText(metrics[..|metrics| - 1], reasons) + MetricBlock(metrics[|metrics| - 1].0, metrics[|metrics| - 1].1, reasons)
  }

  const NoneGet := AttributeError("'NoneType' object has no attribute 'get'")
  const NoneItems := AttributeError("'NoneType' object has no attribute 'items'")

  /** `update.get('grader').get(key)` for the two dictionaries. */
  function GraderMetrics(update: Update): Result<Option<Dict<int>>>
  {
    match Get(update, Workflow.NodeName(Workflow.Grader))
    case None => Err(NoneGet)
    case Some(p) => Ok(if Metrics in p && p[Metrics].Scores? then Some(p[Metrics].scores) else None)
  }

  function GraderReasons(update: Update): Option<Dict<string>>
  {
    match Get(update, Workflow.NodeName(Workflow.Grader))
    case None => None
    case Some(p) => if Reasons in p && p[Reasons].Notes? then Some(p[Reasons].notes) else None
  }

  /**
   * `get_metrics`: the evaluation text and the scores, both in the metrics
   * dictionary's order. It raises `AttributeError` when there is no grader
   * patch, no metrics in it, or (once there is a metric to explain) no reasons.
   */
  method GetMetrics(update: Update) returns (r: Result<(string, seq<int>)>)
    ensures r.Ok? <==> (GraderMetrics(update).Ok? && GraderMetrics(update).value.Some?
                        && (GraderMetrics(update).value.value == [] || GraderReasons(update).Some?))
    ensures r.Ok? ==> r.value == (MetricsText(GraderMetrics(update).value.value, ReasonsOrEmpty(GraderReasons(update))),
                                  Values(GraderMetrics(update).value.value))
    ensures r == GraderMetricsOutcome(update)
  {
    var grader := Get(update, Workflow.NodeName(Workflow.Grader));
    if grader.None? {
      return Err(NoneGet);
    }
    var p := grader.value;
    if !(Metrics in p && p[Metrics].Scores?) {
      return Err(NoneItems);
    }
    var reasons := if Reasons in p && p[Reasons].Notes? then Some(p[Reasons].notes) else None;
    r := FormatMetrics(p[Metrics].scores, reasons);
  }

  function ReasonsOrEmpty(reasons: Option<Dict<string>>): Dict<string>
  {
    if reasons.Some? then reasons.value else []
  }

  /**
   * The loop of `get_metrics`: one block and one score per metric, in order;
   * reading the reasons of the first metric fails when there are none.
   */
  method FormatMetrics(metrics: Dict<int>, reasons: Option<Dict<string>>) returns (r: Result<(string, seq<int>)>)
    ensures r.Ok? <==> metrics == [] || reasons.Some?
    ensures r.Ok? ==> r.value == (MetricsText(metrics, ReasonsOrEmpty(reasons)), Values(metrics))
    ensures r.Err? ==> r.error == NoneGet
  {
    var text := "";
    var scores: seq<int> := [];
    for i := 0 to |metrics|
      invariant text == MetricsText(metrics[..i], ReasonsOrEmpty(reasons))
      invariant scores == Values(metrics[..i])
      invariant i > 0 ==> reasons.Some?
    {
      if reasons.None? {
        return Err(NoneGet);
      }
      var metric, num := metrics[i].0, metrics[i].1;
      MetricsPrefixStep(metrics, ReasonsOrEmpty(reasons), i);
      text := text + MetricBlock(metric, num, reasons.value);
      scores := scores + [num];
    }
    assert metrics[..|metrics|] == metrics;
    return Ok((text, scores));
  }

  lemma MetricsPrefixStep(metrics: Dict<int>, reasons: Dict<string>, i: nat)
    requires i < |metrics|
    ensures MetricsText(metrics[..i + 1], reasons) == MetricsText(metrics[..i], reasons) + MetricBlock(metrics[i].0, metrics[i].1, reasons)
    ensures Values(metrics[..i + 1]) == Values(metrics[..i]) + [metrics[i].1]
  {
    assert metrics[..i + 1] == metrics[..i] + [metrics[i]];
    MetricsTextAppend(metrics[..i], reasons, metrics[i].0, metrics[i].1);
  }

  /** The text holds one block per metric, in order: it grows by one block per added metric. */
  lemma MetricsTextAppend(metrics: Dict<int>, reasons: Dict<string>, metric: string, num: int)
    ensures MetricsText(metrics + [(metric, num)], reasons) == MetricsText(metrics, reasons) + MetricBlock(metric, num, reasons)
  {
    assert (metrics + [(metric, num)])[..|metrics|] == metrics;
  }

  /** The evaluation text is empty exactly when there are no metrics. */
  lemma {:induction false} MetricsTextEmptyIff(metrics: Dict<int>, reasons: Dict<string>)
    ensures MetricsText(metrics, reasons) == "" <==> metrics == []
  {
    if metrics != [] {
      var last := metrics[|metrics| - 1];
      assert MetricBlock(last.0, last.1, reasons)[0] == '*';
    }
  }

  // ----- the grading agent decision shown to the user -----

  const UiGood := "The answer is good enough."
  const UiNotGood := "The answer is not good enough. Extra context from a Websearch is required."

  /** The front end rejects an answer when some score is below 7 (7 itself passes). */
  predicate SomeBelow7(scores: seq<int>)
  {
    exists i :: 0 <= i < |scores| && scores[i] < 7
  }

  /** The one-element list `final_answer`, shared with the stream consumer. */
  class AnswerCell {
    var value: string

    constructor (v: string)
      ensures value == v
    {
      value := v;
    }
  }

  /**
   * The decision loop of `send_agent_message` for the grading agent: "not good
   * enough" exactly when some score is below 7, and then the accumulated
   * answer is cleared; otherwise it is left alone.
   */
  method GraderDecision(scores: seq<int>, finalAnswer: AnswerCell) returns (decision: string)
    modifies finalAnswer
    ensures decision == (if SomeBelow7(scores) then UiNotGood else UiGood)
    ensures finalAnswer.value == (if SomeBelow7(scores) then "" else old(finalAnswer.value))
  {
    decision := UiGood;
    for i := 0 to |scores|
      invariant forall k :: 0 <= k < i ==> scores[k] >= 7
      invariant finalAnswer.value == old(finalAnswer.value)
    {
      if scores[i] < 7 {
        decision := UiNotGood;
        finalAnswer.value := "";
        break;
      }
    }
  }

  /** The scores as the router reads them, every one present. */
  function Present(scores: seq<int>): (r: seq<Option<int>>)
    ensures |r| == |scores| && Agents.AllPresent(r)
  {
    seq(|scores|, i requires 0 <= i < |scores| => Some(scores[i]))
  }

  /**
   * Whenever the front end rejects an answer, the intended router does too;
   * the converse fails exactly at a score of 7, which the router rejects and
   * the front end accepts.
   */
  lemma UiRejectImpliesRouterRejects(scores: seq<int>)
    ensures SomeBelow7(scores) ==> Agents.Decision(Present(scores)) == Ok(Agents.NotGoodEnough)
    ensures Agents.Decision(Present(scores)) == Ok(Agents.Good) ==> !SomeBelow7(scores)
  {
    Agents.DecisionNotGoodIff(Present(scores));
    Agents.DecisionGoodIff(Present(scores));
    if SomeBelow7(scores) {
      var i :| 0 <= i < |scores| && scores[i] < 7;
      assert Present(scores)[i].value <= 7;
    }
  }

  lemma UiAcceptsSeven()
    ensures !SomeBelow7([7, 8, 8, 8])
    ensures Agents.Decision(Present([7, 8, 8, 8])) == Ok(Agents.NotGoodEnough)
  {
    assert Present([7, 8, 8, 8]) == [Some(7), Some(8), Some(8), Some(8)];
  }

  /**
   * The router as written accepts every set of scores the front end can show,
   * so whatever the front end rejects (clearing the accumulated answer), the
   * run still ends on that answer.
   */
  lemma AsWrittenAcceptsWhatUiRejects(scores: seq<int>)
    ensures Agents.DecisionAsWritten(Present(scores)) == Ok(Agents.Good)
    ensures SomeBelow7(scores) ==> Agents.DecisionAsWritten(Present(scores)) != Agents.Decision(Present(scores))
  {
    Agents.DecisionAsWrittenAlwaysGood(Present(scores));
    UiRejectImpliesRouterRejects(scores);
  }

  /** On scores 5, 8, 8, 8 the front end rejects while the router as written says "good". */
  lemma UiRejectsFive()
    ensures SomeBelow7([5, 8, 8, 8])
    ensures Agents.DecisionAsWritten(Present([5, 8, 8, 8])) == Ok(Agents.Good)
  {
    assert [5, 8, 8, 8][0] < 7;
    AsWrittenAcceptsWhatUiRejects([5, 8, 8, 8]);
  }

  // ----- send_agent_message for the retrievers -----

  /** What one `cl.Message(...).send()` shows: its content and its element. */
  datatype Element = NoElement | TextElement(name: string, content: Value) | PdfElement(name: string, path: string)
  datatype Sent = Sent(content: string, element: Element)

  const WebsearchLabel := "Websearch Agent"

  /**
   * The messages `send_agent_message` sends for a retriever: the context
   * beside the agent's name and one message per PDF the context mentions
   * (none for the web search), or a notice when there is no context.
   */
  method RetrieverMessages(agentType: string, context: Option<Value>) returns (sent: seq<Sent>)
    ensures sent == RetrieverSent(agentType, context)
    ensures !Truthy(context) <==> |sent| == 1 && sent[0].element == NoElement
  {
    if Truthy(context) {
      sent := [Sent(agentType, TextElement(agentType, context.value))];
      var sources: seq<SourceFile> := [];
      if agentType != WebsearchLabel && context.value.Text? {
        sources := GetSourceFiles(context.value.s);
      }
      for i := 0 to |sources|
        invariant sent == [Sent(agentType, TextElement(agentType, context.value))] + PdfMessages(sources[..i])
      {
        assert sources[..i + 1] == sources[..i] + [sources[i]];
        sent := sent + [Sent(sources[i].name, PdfElement(sources[i].name, sources[i].path))];
      }
      assert sources[..|sources|] == sources;
    } else {
      sent := [Sent("No context available for " + agentType, NoElement)];
    }
  }

  function PdfMessages(files: seq<SourceFile>): (r: seq<Sent>)
    ensures |r| == |files|
  {
    seq(|files|, i requires 0 <= i < |files| => Sent(files[i].name, PdfElement(files[i].name, files[i].path)))
  }

  /** The two messages the grading agent branch of `send_agent_message` sends: the evaluation, then the decision. */
  function GraderMessages(text: string, decision: string): seq<Sent>
  {
    [Sent("", TextElement("Evaluation", Text(text))), Sent("", TextElement("Decision", Text(decision)))]
  }

  /**
   * `handle_updates`: a grader update shows its evaluation and decision (and
   * clears the answer when it rejects), a retriever update shows its context,
   * and an update from any other node shows nothing. Reading the metrics
   * fails as `get_metrics` does.
   */
  method HandleUpdates(update: Update, finalAnswer: AnswerCell) returns (r: Result<seq<Sent>>)
    modifies finalAnswer
    ensures AgentType(update) == Some(GraderLabel) ==>
      match GraderMetricsOutcome(update)
      case Err(e) => r == Err(e) && finalAnswer.value == old(finalAnswer.value)
      case Ok((text, scores)) =>
        && r == Ok(GraderMessages(text, if SomeBelow7(scores) then UiNotGood else UiGood))
        && finalAnswer.value == (if SomeBelow7(scores) then "" else old(finalAnswer.value))
    ensures AgentType(update).None? ==> r == Ok([]) && finalAnswer.value == old(finalAnswer.value)
    ensures AgentType(update).Some? && AgentType(update) != Some(GraderLabel) ==>
      && finalAnswer.value == old(finalAnswer.value)
      && r.Ok? && r.value == RetrieverSent(AgentType(update).value, RetrievedContext(update))
  {
    var agentType := AgentType(update);
    if agentType == Some(GraderLabel) {
      var metrics := GetMetrics(update);
      if metrics.Err? {
        return Err(metrics.error);
      }
      var decision := GraderDecision(metrics.value.1, finalAnswer);
      r := Ok(GraderMessages(metrics.value.0, decision));
    } else if agentType.Some? {
      var sent := RetrieverMessages(agentType.value, RetrievedContext(update));
      r := Ok(sent);
    } else {
      r := Ok([]);
    }
  }

  /** What `get_metrics` gives for an update, as a value. */
  function GraderMetricsOutcome(update: Update): Result<(string, seq<int>)>
  {
    match GraderMetrics(update)
    case Err(e) => Err(e)
    case Ok(None) => Err(NoneItems)
    case Ok(Some(metrics)) =>
      if metrics != [] && GraderReasons(update).None? then Err(NoneGet)
      else Ok((MetricsText(metrics, ReasonsOrEmpty(GraderReasons(update))), Values(metrics)))
  }

  /** The messages a retriever's context produces, as a value. */
  function RetrieverSent(agentType: string, context: Option<Value>): seq<Sent>
  {
    if !Truthy(context) then [Sent("No context available for " + agentType, NoElement)]
    else
      var files := if agentType != WebsearchLabel && context.value.Text? then Mentioned(context.value.s) else [];
      [Sent(agentType, TextElement(agentType, context.value))] + PdfMessages(files)
  }

  // ----- handle_messages -----

  /** The one-element lists `first_answer` and `first_grade`. */
  class FlagCell {
    var value: bool

    constructor (v: bool)
      ensures value == v
    {
      value := v;
    }
  }

  /** The answer message being streamed into. */
  class ChatMessage {
    var content: string

    constructor ()
      ensures content == ""
    {
      content := "";
    }
  }

  /** What `handle_messages` reads and writes, as values. */
  datatype Cells = Cells(firstAnswer: bool, firstGrade: bool, finalAnswer: string, content: string)

  predicate FromGrader(node: Option<string>)
  {
    node == Some(Workflow.NodeName(Workflow.Grader))
  }

  /** One call of `handle_messages` on the cells. */
  function HandleStep(c: Cells, chunk: string, node: Option<string>): Cells
  {
    if c.firstAnswer then c.(firstAnswer := false)
    else if !FromGrader(node) then c.(finalAnswer := c.finalAnswer + chunk, content := c.content + chunk)
    else if c.firstGrade then c.(firstGrade := false)
    else c
  }

  /**
   * `handle_messages`: the first call only opens the answer (its chunk is
   * dropped); later chunks from any node but the grading agent extend both the
   * message and the accumulated answer; the first grader chunk clears the
   * grader flag.
   */
  method HandleMessages(chunk: string, node: Option<string>, answerMessage: ChatMessage, firstAnswer: FlagCell, firstGrade: FlagCell, finalAnswer: AnswerCell)
    requires firstAnswer != firstGrade
    modifies answerMessage, firstAnswer, firstGrade, finalAnswer
    ensures Cells(firstAnswer.value, firstGrade.value, finalAnswer.value, answerMessage.content)
      == HandleStep(Cells(old(firstAnswer.value), old(firstGrade.value), old(finalAnswer.value), old(answerMessage.content)), chunk, node)
  {
    if firstAnswer.value {
      firstAnswer.value := false;
      return;
    }
    if !FromGrader(node) {
      answerMessage.content := answerMessage.content + chunk;
      finalAnswer.value := finalAnswer.value + chunk;
    } else if firstGrade.value {
      firstGrade.value := false;
    }
  }

  /** A stream of answer chunks, each with the node it came from. */
  type Chunks = seq<(string, Option<string>)>

  function HandleAll(c: Cells, chunks: Chunks): Cells
  {
    if chunks == [] then c else HandleStep(HandleAll(c, chunks[..|chunks| - 1]), chunks[|chunks| - 1].0, chunks[|chunks| - 1].1)
  }

  /** The chunks from nodes other than the grading agent, concatenated in arrival order. */
  function Answered(chunks: Chunks): string
  {
    if chunks == [] then ""
    else Answered(chunks[..|chunks| - 1]) + (if FromGrader(chunks[|chunks| - 1].1) then "" else chunks[|chunks| - 1].0)
  }

  predicate SomeGraderChunk(chunks: Chunks)
  {
    exists i :: 0 <= i < |chunks| && FromGrader(chunks[i].1)
  }

  /**
   * From fresh flags, after a non-empty stream the answer flag is down for
   * good; the first chunk is dropped and every later non-grader chunk is
   * appended to both the message and the answer; the grading agent flag is down
   * exactly when a grader chunk arrived after the first.
   */
  lemma {:induction false} HandleAllFromStart(f0: string, c0: string, chunks: Chunks)
    requires chunks != []
    ensures var c := HandleAll(Cells(true, true, f0, c0), chunks);
      && !c.firstAnswer
      && c.finalAnswer == f0 + Answered(chunks[1..])
      && c.content == c0 + Answered(chunks[1..])
      && (c.firstGrade <==> !SomeGraderChunk(chunks[1..]))
  {
    if |chunks| == 1 {
      assert chunks[1..] == [];
    } else {
      var init := chunks[..|chunks| - 1];
      HandleAllFromStart(f0, c0, init);
      var last := chunks[|chunks| - 1];
      assert chunks[1..] == init[1..] + [last];
      assert chunks[1..][..|chunks[1..]| - 1] == init[1..];
      if SomeGraderChunk(init[1..]) {
        var i :| 0 <= i < |init[1..]| && FromGrader(init[1..][i].1);
        assert chunks[1..][i] == init[1..][i];
      }
      if SomeGraderChunk(chunks[1..]) && !FromGrader(last.1) {
        var i :| 0 <= i < |chunks[1..]| && FromGrader(chunks[1..][i].1);
        assert i < |init[1..]| && init[1..][i] == chunks[1..][i];
      }
      if FromGrader(last.1) {
        assert chunks[1..][|chunks[1..]| - 1] == last;
      }
    }
  }
}

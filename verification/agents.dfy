/**
 * The agents: each node of the workflow reads a few fields of the state, calls
 * its collaborator (vector search, knowledge-graph search, web search, or the
 * language model in answer, grading or refinement mode) and returns a sparse
 * patch. The collaborators are parameters (`Tools`); any of them may raise.
 *
 * The routing function `decide_metrics_agent` is modelled twice: as written,
 * where the "not good enough" branch is an expression statement and the
 * function always answers "good", and as intended.
 */
module Agents {
  import opened Outcomes
  import opened PyDict
  import opened GraphState

  const MetricNames: seq<string> := ["relevance", "completeness", "coherence", "correctness"]

  const Good: string := "good"
  const NotGoodEnough: string := "not good enough"

  /** The grading tool's reply: an `evaluation` dict of scores and a `reasoning` dict, either possibly absent. */
  datatype GradeReply = GradeReply(evaluation: Option<Dict<int>>, reasoning: Option<Dict<string>>)

  /** The collaborators behind `tool.invoke`, as functions of their arguments. */
  datatype Tools = Tools(
    vectorSearch: string -> Result<string>,             // (query)
    kgSearch: string -> Result<string>,                 // (query)
    webSearch: string -> Result<string>,                // (query)
    generate: (string, string) -> Result<string>,       // (query, context)
    grade: (string, string) -> Result<GradeReply>,      // (query, answer)
    refine: (string, string, string) -> Result<string>) // (query, answer, websearch_context)

  // ----- retrieval agents -----

  /** `VectorDBRetrievalAgent.retrieve`: the vector search result for the query, under `db_context` alone. */
  function RetrieveVector(s: State, tools: Tools): (r: Result<Patch>)
    ensures r.Ok? <==> GetText(s, Query).Ok? && tools.vectorSearch(s[Query].s).Ok?
    ensures r.Ok? ==> r.value.Keys == {DbContext}
    ensures r.Ok? ==> r.value[DbContext] == Text(tools.vectorSearch(s[Query].s).value)
  {
    var query :- GetText(s, Query);
    var context :- tools.vectorSearch(query);
    Ok(map[DbContext := Text(context)])
  }

  /** `KGDBRetrievalAgent.retrieve`: the graph search result for the query, under `kg_context` alone. */
  function RetrieveKg(s: State, tools: Tools): (r: Result<Patch>)
    ensures r.Ok? <==> GetText(s, Query).Ok? && tools.kgSearch(s[Query].s).Ok?
    ensures r.Ok? ==> r.value.Keys == {KgContext}
    ensures r.Ok? ==> r.value[KgContext] == Text(tools.kgSearch(s[Query].s).value)
  {
    var query :- GetText(s, Query);
    var context :- tools.kgSearch(query);
    Ok(map[KgContext := Text(context)])
  }

  /** `WebSearchAgent.retrieve`: the web search result for the query, under `websearch_context` alone. */
  function RetrieveWeb(s: State, tools: Tools): (r: Result<Patch>)
    ensures r.Ok? <==> GetText(s, Query).Ok? && tools.webSearch(s[Query].s).Ok?
    ensures r.Ok? ==> r.value.Keys == {WebsearchContext}
    ensures r.Ok? ==> r.value[WebsearchContext] == Text(tools.webSearch(s[Query].s).value)
  {
    var query :- GetText(s, Query);
    var context :- tools.webSearch(query);
    Ok(map[WebsearchContext := Text(context)])
  }

  // ----- answer generation and refinement -----

  predicate ReadsAnswerInputs(s: State)
  {
    GetText(s, Query).Ok? && GetText(s, DbContext).Ok? && GetText(s, KgContext).Ok?
  }

  /**
   * `AnswerGenerationAgent.generate`: the model is given the query and the two
   * retrieved contexts concatenated, `db_context` first, with no separator; the
   * patch holds `answer` only.
   */
  function GenerateAnswer(s: State, tools: Tools): (r: Result<Patch>)
    ensures r.Ok? <==> ReadsAnswerInputs(s) && tools.generate(s[Query].s, s[DbContext].s + s[KgContext].s).Ok?
    ensures r.Ok? ==> r.value.Keys == {Answer}
    ensures r.Ok? ==> r.value[Answer] == Text(tools.generate(s[Query].s, s[DbContext].s + s[KgContext].s).value)
  {
    var query :- GetText(s, Query);
    var dbContext :- GetText(s, DbContext);
    var kgContext :- GetText(s, KgContext);
    var response :- tools.generate(query, dbContext + kgContext);
    Ok(map[Answer := Text(response)])
  }

  predicate ReadsRefineInputs(s: State)
  {
    GetText(s, Query).Ok? && GetText(s, Answer).Ok? && GetText(s, WebsearchContext).Ok?
  }

  /**
   * `AnswerRefineAgent.generate`: the patch holds `answer` only, set to the
   * refined text; once merged, the old answer is replaced, not extended.
   */
  function Refine(s: State, tools: Tools): (r: Result<Patch>)
    ensures r.Ok? <==> ReadsRefineInputs(s) && tools.refine(s[Query].s, s[Answer].s, s[WebsearchContext].s).Ok?
    ensures r.Ok? ==> r.value.Keys == {Answer}
    ensures r.Ok? ==> Apply(s, r.value)[Answer] == Text(tools.refine(s[Query].s, s[Answer].s, s[WebsearchContext].s).value)
  {
    var query :- GetText(s, Query);
    var answer :- GetText(s, Answer);
    var websearchContext :- GetText(s, WebsearchContext);
    var refined :- tools.refine(query, answer, websearchContext);
    Ok(map[Answer := Text(refined)])
  }

  // ----- grading -----

  /** The values of the four metric keys of `d`, in order; `KeyError` for the first one missing. */
  function FourOf<V>(d: Dict<V>): (r: Result<seq<V>>)
    ensures r.Ok? <==> forall i :: 0 <= i < 4 ==> Get(d, MetricNames[i]).Some?
    ensures r.Ok? ==> |r.value| == 4 && forall i :: 0 <= i < 4 ==> Get(d, MetricNames[i]) == Some(r.value[i])
  {
    var a :- GetOr(d, MetricNames[0]);
    var b :- GetOr(d, MetricNames[1]);
    var c :- GetOr(d, MetricNames[2]);
    var e :- GetOr(d, MetricNames[3]);
    Ok([a, b, c, e])
  }

  function GetOr<V>(d: Dict<V>, k: string): (r: Result<V>)
    ensures r.Ok? <==> Get(d, k).Some?
    ensures r.Ok? ==> Get(d, k) == Some(r.value)
  {
    match Get(d, k)
    case Some(v) => Ok(v)
    case None => Err(KeyError(k))
  }

  /** `d["relevance"], d["completeness"], d["coherence"], d["correctness"] = v`, left to right. */
  function Overwrite<V>(d: Dict<V>, v: seq<V>): Dict<V>
    requires |v| == 4
  {
    Set(Set(Set(Set(d, MetricNames[0], v[0]), MetricNames[1], v[1]), MetricNames[2], v[2]), MetricNames[3], v[3])
  }

  /** The four metric keys get the new values; every other key keeps its value, and its place. */
  lemma OverwriteGet<V>(d: Dict<V>, v: seq<V>, k: string)
    requires |v| == 4
    ensures k in MetricNames ==> Get(Overwrite(d, v), k) == Some(v[IndexOf(k)])
    ensures k !in MetricNames ==> Get(Overwrite(d, v), k) == Get(d, k)
  {
    var d1 := Set(d, MetricNames[0], v[0]);
    var d2 := Set(d1, MetricNames[1], v[1]);
    var d3 := Set(d2, MetricNames[2], v[2]);
    GetSetSame(d3, MetricNames[3], v[3]);
    GetSetSame(d2, MetricNames[2], v[2]);
    GetSetSame(d1, MetricNames[1], v[1]);
    GetSetSame(d, MetricNames[0], v[0]);
    if k != MetricNames[3] {
      GetSetOther(d3, MetricNames[3], v[3], k);
      if k != MetricNames[2] {
        GetSetOther(d2, MetricNames[2], v[2], k);
        if k != MetricNames[1] {
          GetSetOther(d1, MetricNames[1], v[1], k);
          if k != MetricNames[0] {
            GetSetOther(d, MetricNames[0], v[0], k);
          }
        }
      }
    }
  }

  function IndexOf(k: string): (i: nat)
    requires k in MetricNames
    ensures i < 4 && MetricNames[i] == k
  {
    if k == MetricNames[0] then 0
    else if k == MetricNames[1] then 1
    else if k == MetricNames[2] then 2
    else 3
  }

  /** The reply carries both dicts, each with all four metric keys. */
  predicate WellFormedReply(reply: GradeReply)
  {
    && reply.evaluation.Some? && FourOf(reply.evaluation.value).Ok?
    && reply.reasoning.Some? && FourOf(reply.reasoning.value).Ok?
  }

  /**
   * `AnswerGradingAgent.generate` in the value view: the grading tool's scores and
   * reasons overwrite the four metric keys of the state's `metrics` and `reasons`
   * dicts, and the patch holds both updated dicts. Any missing piece of the reply
   * raises `KeyError` before anything is written.
   */
  function Grade(s: State, tools: Tools): (r: Result<Patch>)
    ensures r.Ok? <==> && GetText(s, Query).Ok? && GetText(s, Answer).Ok?
                       && tools.grade(s[Query].s, s[Answer].s).Ok?
                       && WellFormedReply(tools.grade(s[Query].s, s[Answer].s).value)
                       && GetScores(s).Ok? && GetNotes(s).Ok?
    ensures r.Ok? ==> r.value.Keys == {Metrics, Reasons}
    ensures r.Ok? ==>
      var reply := tools.grade(s[Query].s, s[Answer].s).value;
      && r.value[Metrics] == Scores(Overwrite(s[Metrics].scores, FourOf(reply.evaluation.value).value))
      && r.value[Reasons] == Notes(Overwrite(s[Reasons].notes, FourOf(reply.reasoning.value).value))
  {
    var query :- GetText(s, Query);
    var answer :- GetText(s, Answer);
    var reply :- tools.grade(query, answer);
    if reply.evaluation.None? then Err(KeyError("evaluation"))
    else if reply.reasoning.None? then Err(KeyError("reasoning"))
    else
      var scores :- FourOf(reply.evaluation.value);
      var notes :- FourOf(reply.reasoning.value);
      var metrics :- GetScores(s);
      var reasons :- GetNotes(s);
      Ok(map[Metrics := Scores(Overwrite(metrics, scores)), Reasons := Notes(Overwrite(reasons, notes))])
  }

  /**
   * What grading does to the metrics: once the patch is merged, each of the four
   * metric keys holds the tool's score and every other key is unchanged; the
   * same holds of the reasons.
   */
  lemma {:induction false} GradeOverwritesFourKeys(s: State, tools: Tools, k: string)
    requires Grade(s, tools).Ok?
    ensures
      var reply := tools.grade(s[Query].s, s[Answer].s).value;
      var t := Apply(s, Grade(s, tools).value);
      && (k in MetricNames ==>
            Get(t[Metrics].scores, k) == Get(reply.evaluation.value, k) && Get(t[Reasons].notes, k) == Get(reply.reasoning.value, k))
      && (k !in MetricNames ==>
            Get(t[Metrics].scores, k) == Get(s[Metrics].scores, k) && Get(t[Reasons].notes, k) == Get(s[Reasons].notes, k))
  {
    var reply := tools.grade(s[Query].s, s[Answer].s).value;
    var ev := FourOf(reply.evaluation.value).value;
    var re := FourOf(reply.reasoning.value).value;
    OverwriteGet(s[Metrics].scores, ev, k);
    OverwriteGet(s[Reasons].notes, re, k);
  }

  /** A reply lacking `evaluation` makes the grading agent raise `KeyError('evaluation')`. */
  lemma GradeMissingEvaluation(s: State, tools: Tools)
    requires GetText(s, Query).Ok? && GetText(s, Answer).Ok?
    requires tools.grade(s[Query].s, s[Answer].s).Ok?
    requires tools.grade(s[Query].s, s[Answer].s).value.evaluation.None?
    ensures Grade(s, tools) == Err(KeyError("evaluation"))
  {
  }

  // ----- routing -----

  /**
   * `[state["metrics"]["relevance"], ..., state["metrics"]["correctness"]]`: the
   * four scores in that order; `None` stands for the `""` a `defaultdict(str)`
   * yields for an absent key.
   */
  function MetricList(s: State): (r: Result<seq<Option<int>>>)
    ensures r.Ok? <==> GetScores(s).Ok?
    ensures r.Ok? ==> |r.value| == 4
    ensures r.Ok? ==> forall i :: 0 <= i < 4 ==> r.value[i] == Get(s[Metrics].scores, MetricNames[i])
  {
    var m :- GetScores(s);
    Ok([Get(m, MetricNames[0]), Get(m, MetricNames[1]), Get(m, MetricNames[2]), Get(m, MetricNames[3])])
  }

  /** Comparing `""` with an integer raises `TypeError`. */
  const CompareError: Exception := TypeError("'<=' not supported between instances of 'str' and 'int'")

  /**
   * The loop of `decide_metrics_agent` as written: the comparison runs (and
   * raises on a missing score), but its branch only evaluates a string, so the
   * loop always falls through to `return "good"`.
   */
  function DecisionAsWritten(scores: seq<Option<int>>): Result<string>
  {
    if scores == [] then Ok(Good)
    else if scores[0].None? then Err(CompareError)
    else DecisionAsWritten(scores[1..])
  }

  /** The loop as intended: the first score `<= 7` returns "not good enough". */
  function Decision(scores: seq<Option<int>>): Result<string>
  {
    if scores == [] then Ok(Good)
    else if scores[0].None? then Err(CompareError)
    else if scores[0].value <= 7 then Ok(NotGoodEnough)
    else Decision(scores[1..])
  }

  predicate AllPresent(scores: seq<Option<int>>)
  {
    forall i :: 0 <= i < |scores| ==> scores[i].Some?
  }

  predicate AllAbove7(scores: seq<Option<int>>)
  {
    forall i :: 0 <= i < |scores| ==> scores[i].Some? && scores[i].value > 7
  }

  /** As written, the router answers "good" whenever every score is present, and never "not good enough". */
  lemma {:induction false} DecisionAsWrittenAlwaysGood(scores: seq<Option<int>>)
    ensures DecisionAsWritten(scores) == (if AllPresent(scores) then Ok(Good) else Err(CompareError))
  {
    if scores != [] {
      DecisionAsWrittenAlwaysGood(scores[1..]);
      if !AllPresent(scores) && scores[0].Some? {
        var i :| 0 <= i < |scores| && scores[i].None?;
        assert scores[1..][i - 1].None?;
      }
    }
  }

  /** As intended: "good" exactly when every score is present and above 7 (so 7 fails and 8 passes). */
  lemma {:induction false} DecisionGoodIff(scores: seq<Option<int>>)
    ensures Decision(scores) == Ok(Good) <==> AllAbove7(scores)
  {
    if scores != [] {
      DecisionGoodIff(scores[1..]);
      if AllAbove7(scores[1..]) && scores[0].Some? && scores[0].value > 7 {
        forall i | 0 <= i < |scores| ensures scores[i].Some? && scores[i].value > 7 {
          if i > 0 { assert scores[i] == scores[1..][i - 1]; }
        }
      }
    }
  }

  /** As intended, with every score present: "not good enough" exactly when some score is at most 7. */
  lemma {:induction false} DecisionNotGoodIff(scores: seq<Option<int>>)
    requires AllPresent(scores)
    ensures Decision(scores) == Ok(NotGoodEnough) <==> exists i :: 0 <= i < |scores| && scores[i].value <= 7
  {
    if scores != [] {
      assert AllPresent(scores[1..]);
      DecisionNotGoodIff(scores[1..]);
      if exists i :: 0 <= i < |scores[1..]| && scores[1..][i].value <= 7 {
        var i :| 0 <= i < |scores[1..]| && scores[1..][i].value <= 7;
        assert scores[i + 1].value <= 7;
      }
      if scores[0].value > 7 && exists i :: 0 <= i < |scores| && scores[i].value <= 7 {
        var i :| 0 <= i < |scores| && scores[i].value <= 7;
        assert scores[1..][i - 1].value <= 7;
      }
    }
  }

  /** As intended, "not good enough" is only answered for a score that is present and at most 7. */
  lemma {:induction false} DecisionNotGoodWitness(scores: seq<Option<int>>)
    requires Decision(scores) == Ok(NotGoodEnough)
    ensures exists i :: 0 <= i < |scores| && scores[i].Some? && scores[i].value <= 7
  {
    if scores[0].value > 7 {
      DecisionNotGoodWitness(scores[1..]);
      var i :| 0 <= i < |scores[1..]| && scores[1..][i].Some? && scores[1..][i].value <= 7;
      assert scores[i + 1] == scores[1..][i];
    }
  }

  /** The as-written and the intended router agree exactly when every score is above 7. */
  lemma DecisionsAgreeIff(scores: seq<Option<int>>)
    requires AllPresent(scores)
    ensures DecisionAsWritten(scores) == Decision(scores) <==> AllAbove7(scores)
  {
    DecisionAsWrittenAlwaysGood(scores);
    DecisionGoodIff(scores);
    DecisionNotGoodIff(scores);
    if !AllAbove7(scores) {
      var i :| 0 <= i < |scores| && !(scores[i].Some? && scores[i].value > 7);
    }
  }

  /** The input that shows the defect: a relevance of 7 is routed to END as written. */
  lemma RouterDefectWitness()
    ensures DecisionAsWritten([Some(7), Some(8), Some(8), Some(8)]) == Ok(Good)
    ensures Decision([Some(7), Some(8), Some(8), Some(8)]) == Ok(NotGoodEnough)
    ensures Decision([Some(8), Some(8), Some(8), Some(8)]) == Ok(Good)
  {
  }

  /** `decide_metrics_agent` as written, on a state. */
  function RouteAsWritten(s: State): Result<string>
  {
    var scores :- MetricList(s);
    DecisionAsWritten(scores)
  }

  /** `decide_metrics_agent` as intended, on a state. */
  function Route(s: State): Result<string>
  {
    var scores :- MetricList(s);
    Decision(scores)
  }

  /**
   * `decide_metrics_agent` as written: reads the four scores in order and loops
   * over them; the loop body cannot change the outcome except by raising.
   */
  method DecideMetricsAgent(s: State) returns (r: Result<string>)
    ensures r == RouteAsWritten(s)
    ensures r.Ok? ==> r.value == Good
  {
    var scores :- MetricList(s);
    var i := 0;
    while i < |scores|
      invariant 0 <= i <= |scores|
      invariant DecisionAsWritten(scores) == DecisionAsWritten(scores[i..])
    {
      assert scores[i..][1..] == scores[i + 1..];
      if scores[i].None? {
        return Err(CompareError);
      }
      // `if metric <= 7: "not good enough"` evaluates a string and discards it
      i := i + 1;
    }
    return Ok(Good);
  }

  /** `decide_metrics_agent` with the missing `return` restored. */
  method DecideMetricsAgentIntended(s: State) returns (r: Result<string>)
    ensures r == Route(s)
    ensures r.Ok? ==> r.value == Good || r.value == NotGoodEnough
  {
    var scores :- MetricList(s);
    var i := 0;
    while i < |scores|
      invariant 0 <= i <= |scores|
      invariant Decision(scores) == Decision(scores[i..])
    {
      assert scores[i..][1..] == scores[i + 1..];
      if scores[i].None? {
        return Err(CompareError);
      }
      if scores[i].value <= 7 {
        return Ok(NotGoodEnough);
      }
      i := i + 1;
    }
    return Ok(Good);
  }

  /** After a successful grading pass every score is present, so the as-written router answers "good". */
  lemma RouteAsWrittenAfterGrade(s: State, tools: Tools)
    requires Grade(s, tools).Ok?
    ensures RouteAsWritten(Apply(s, Grade(s, tools).value)) == Ok(Good)
  {
    var t := Apply(s, Grade(s, tools).value);
    var scores := MetricList(t).value;
    forall i | 0 <= i < 4 ensures scores[i].Some? {
      GradeOverwritesFourKeys(s, tools, MetricNames[i]);
    }
    DecisionAsWrittenAlwaysGood(scores);
  }

  /** After a successful grading pass the intended router decides on the tool's four scores. */
  lemma RouteAfterGrade(s: State, tools: Tools)
    requires Grade(s, tools).Ok?
    ensures
      var reply := tools.grade(s[Query].s, s[Answer].s).value;
      var fresh4 := FourOf(reply.evaluation.value).value;
      Route(Apply(s, Grade(s, tools).value)) == Decision([Some(fresh4[0]), Some(fresh4[1]), Some(fresh4[2]), Some(fresh4[3])])
  {
    var t := Apply(s, Grade(s, tools).value);
    var reply := tools.grade(s[Query].s, s[Answer].s).value;
    var fresh4 := FourOf(reply.evaluation.value).value;
    var scores := MetricList(t).value;
    forall i | 0 <= i < 4 ensures scores[i] == Some(fresh4[i]) {
      GradeOverwritesFourKeys(s, tools, MetricNames[i]);
    }
    assert scores == [Some(fresh4[0]), Some(fresh4[1]), Some(fresh4[2]), Some(fresh4[3])];
  }

  // ----- the grading agent on the heap view -----

  /**
   * `AnswerGradingAgent.generate` as the code runs it: the two dict objects of
   * the state are updated in place, and the returned patch holds those very
   * objects, so the state and the patch agree after the call. What the objects
   * hold afterwards is what the value-view `Grade` computes; on failure nothing
   * is written.
   */
  method GradeInPlace(live: LiveState, tools: Tools) returns (r: Result<LivePatch>)
    requires LiveWellTyped(live)
    modifies live[Metrics].scoreDict, live[Reasons].noteDict
    ensures r.Ok? <==> Grade(old(Snapshot(live)), tools).Ok?
    ensures r.Ok? ==> r.value == map[Metrics := live[Metrics], Reasons := live[Reasons]]
    ensures r.Ok? ==> Snapshot(r.value) == Grade(old(Snapshot(live)), tools).value
    ensures r.Ok? ==> Snapshot(live) == Apply(old(Snapshot(live)), Grade(old(Snapshot(live)), tools).value)
    ensures r.Err? ==> Snapshot(live) == old(Snapshot(live))
  {
    var s := Snapshot(live);
    // lines 136-142: every read of the state and of the reply happens before any write
    var g := Grade(s, tools);
    if g.Err? {
      return Err(g.error);
    }
    var reply := tools.grade(s[Query].s, s[Answer].s).value;
    var scores := FourOf(reply.evaluation.value).value;
    var notes := FourOf(reply.reasoning.value).value;
    var p := WriteGrade(live, scores, notes);
    r := Ok(p);
  }

  /** Lines 144-146 on the shared dictionary objects, returning the patch that refers to them. */
  method WriteGrade(live: LiveState, scores: seq<int>, notes: seq<string>) returns (p: LivePatch)
    requires LiveWellTyped(live) && |scores| == 4 && |notes| == 4
    modifies live[Metrics].scoreDict, live[Reasons].noteDict
    ensures p == map[Metrics := live[Metrics], Reasons := live[Reasons]]
    ensures Snapshot(p) == map[
      Metrics := Scores(Overwrite(old(live[Metrics].scoreDict.items), scores)),
      Reasons := Notes(Overwrite(old(live[Reasons].noteDict.items), notes))]
    ensures Snapshot(live) == Apply(old(Snapshot(live)), Snapshot(p))
  {
    SnapshotDenotes(live);
    ghost var m0, n0 := live[Metrics].scoreDict.items, live[Reasons].noteDict.items;
    var metrics := live[Metrics].scoreDict;
    var reasons := live[Reasons].noteDict;
    OverwriteInPlace(metrics, scores);
    OverwriteInPlace(reasons, notes);
    p := map[Metrics := ScoreDict(metrics), Reasons := NoteDict(reasons)];
    SnapshotOfDicts(metrics, reasons);
    SnapshotDenotes(live);
    DenoteUpdate(live, m0, n0, metrics.items, reasons.items);
  }

  /** The tuple assignment of line 145 (or 146) on a dict object. */
  method OverwriteInPlace<V>(d: DefaultDict<V>, v: seq<V>)
    requires |v| == 4
    modifies d
    ensures d.items == Overwrite(old(d.items), v)
  {
    d.SetItem(MetricNames[0], v[0]);
    d.SetItem(MetricNames[1], v[1]);
    d.SetItem(MetricNames[2], v[2]);
    d.SetItem(MetricNames[3], v[3]);
  }
}

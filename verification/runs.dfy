/**
 * What every run of the three workflows does, from the initial configuration:
 * the order of the nodes, the barrier before `generate_answer`, and what the
 * two routers make of the grading agent's scores.
 */
module Runs {
  import opened Outcomes
  import opened PyDict
  import opened GraphState
  import opened Agents
  import opened Workflow
  import opened Scheduler

  /** The invariants hold of the configuration a run from the start reaches. */
  lemma Reached(g: Graph, p: seq<Node>, router: Router, tools: Tools, s0: State, fuel: nat)
    requires Layout(g, p)
    ensures Shaped(p, router, s0, Run(g, router, tools, Init(g, s0), fuel).config)
    ensures Faithful(tools, s0, Run(g, router, tools, Init(g, s0), fuel).config.trace)
  {
    InitShaped(g, p, router, s0);
    RunInvariant(g, p, router, tools, s0, Init(g, s0), fuel);
  }

  /**
   * The node order of a trace: the retrievals, then `generate_answer` once,
   * then grader, websearch and refine_answer in turn, every grader visit that
   * more work followed having been routed to websearch.
   */
  predicate TraceShape(p: seq<Node>, router: Router, t: seq<Visit>)
  {
    && FollowsShape(p, t)
    && (forall i :: 0 <= i < |t| ==> (t[i].node == GenerateAnswer <==> i == |p|))
    && (forall i :: 0 <= i < |t| - 1 && t[i].node == Grader ==> router(t[i].after) == Ok(NotGoodEnough))
  }

  /** A finished configuration: its last visit was a grader whose router said "good", on the final state. */
  predicate FinishedOnGood(p: seq<Node>, router: Router, c: Config)
  {
    var t := c.trace;
    && |t| >= |p| + 2 && (|t| - |p| - 2) % 3 == 0
    && t[|t| - 1].node == Grader
    && c.state == t[|t| - 1].after
    && router(c.state) == Ok(Good)
  }

  /** What the invariant says of a configuration, finished or not. */
  lemma ShapedFacts(p: seq<Node>, router: Router, s0: State, c: Config)
    requires Retrievals(p) && Shaped(p, router, s0, c)
    ensures TraceShape(p, router, c.trace)
    ensures c.ready == [] ==> FinishedOnGood(p, router, c)
  {
    var t := c.trace;
    forall i | 0 <= i < |t| ensures t[i].node == GenerateAnswer <==> i == |p| {
      if i >= |p| {
        ShapeNext(p, i);
      }
    }
    if c.ready == [] {
      assert |t| >= |p|;
      assert ShapeAt(p, |t| - 1) == Grader;
    }
  }

  /**
   * Every run has the shape above; a run that finishes ends with a grader
   * whose router said "good".
   */
  lemma RunShape(g: Graph, p: seq<Node>, router: Router, tools: Tools, s0: State, fuel: nat, o: Outcome)
    requires Layout(g, p) && o == Run(g, router, tools, Init(g, s0), fuel)
    ensures TraceShape(p, router, o.config.trace)
    ensures o.Done? ==> FinishedOnGood(p, router, o.config)
  {
    Reached(g, p, router, tools, s0, fuel);
    ShapedFacts(p, router, s0, o.config);
  }

  /**
   * In the full workflow `generate_answer` starts only once both retrievals
   * have merged their results: the state it reads holds the vector and the
   * graph context for the query.
   */
  lemma BarrierBeforeGenerate(g: Graph, router: Router, tools: Tools, s0: State, fuel: nat, o: Outcome)
    requires Layout(g, [SearchVectorDb, SearchKgDb]) && GetText(s0, Query).Ok?
    requires o == Run(g, router, tools, Init(g, s0), fuel)
    ensures |o.config.trace| > 2 ==>
      && o.config.trace[2].node == GenerateAnswer
      && tools.vectorSearch(s0[Query].s).Ok? && tools.kgSearch(s0[Query].s).Ok?
      && DbContext in Before(s0, o.config.trace, 2) && KgContext in Before(s0, o.config.trace, 2)
      && Before(s0, o.config.trace, 2)[DbContext] == Text(tools.vectorSearch(s0[Query].s).value)
      && Before(s0, o.config.trace, 2)[KgContext] == Text(tools.kgSearch(s0[Query].s).value)
  {
    Reached(g, [SearchVectorDb, SearchKgDb], router, tools, s0, fuel);
    BarrierFacts(tools, s0, o.config.trace);
  }

  lemma BarrierFacts(tools: Tools, s0: State, t: seq<Visit>)
    requires GetText(s0, Query).Ok?
    requires FollowsShape([SearchVectorDb, SearchKgDb], t) && Faithful(tools, s0, t)
    ensures |t| > 2 ==>
      && t[2].node == GenerateAnswer
      && tools.vectorSearch(s0[Query].s).Ok? && tools.kgSearch(s0[Query].s).Ok?
      && DbContext in Before(s0, t, 2) && KgContext in Before(s0, t, 2)
      && Before(s0, t, 2)[DbContext] == Text(tools.vectorSearch(s0[Query].s).value)
      && Before(s0, t, 2)[KgContext] == Text(tools.kgSearch(s0[Query].s).value)
  {
    var p := [SearchVectorDb, SearchKgDb];
    if |t| > 2 {
      assert t[0].node == ShapeAt(p, 0) && t[1].node == ShapeAt(p, 1) && t[2].node == ShapeAt(p, 2);
      RetrievalsMerged(tools, s0, t);
    }
  }

  /** After the two retrievals of a faithful trace both contexts are in the state. */
  lemma RetrievalsMerged(tools: Tools, s0: State, t: seq<Visit>)
    requires GetText(s0, Query).Ok? && Faithful(tools, s0, t) && |t| >= 2
    requires t[0].node == SearchVectorDb && t[1].node == SearchKgDb
    ensures tools.vectorSearch(s0[Query].s).Ok? && tools.kgSearch(s0[Query].s).Ok?
    ensures DbContext in Before(s0, t, 2) && KgContext in Before(s0, t, 2)
    ensures Before(s0, t, 2)[DbContext] == Text(tools.vectorSearch(s0[Query].s).value)
    ensures Before(s0, t, 2)[KgContext] == Text(tools.kgSearch(s0[Query].s).value)
  {
    FaithfulAt(tools, s0, t, 0);
    FaithfulAt(tools, s0, t, 1);
    assert t[0].after[Query] == s0[Query];
  }

  /** As written, the router sends every graded answer to END: a finishing run visits the grading agent once. */
  lemma AsWrittenGradesOnce(g: Graph, p: seq<Node>, tools: Tools, s0: State, fuel: nat, o: Outcome)
    requires Layout(g, p) && o == Run(g, RouteAsWritten, tools, Init(g, s0), fuel)
    ensures |o.config.trace| <= |p| + 2
    ensures o.Done? ==> Visited(o.config.trace) == p + [GenerateAnswer, Grader]
    ensures fuel >= |p| + 2 ==> !o.OutOfFuel?
  {
    Reached(g, p, RouteAsWritten, tools, s0, fuel);
    AsWrittenGraded(tools, s0, o.config.trace);
    AsWrittenFacts(p, s0, o.config);
  }

  lemma AsWrittenFacts(p: seq<Node>, s0: State, c: Config)
    requires Retrievals(p) && Shaped(p, RouteAsWritten, s0, c) && GradedGood(c.trace)
    ensures |c.trace| <= |p| + 2
    ensures c.ready == [] ==> Visited(c.trace) == p + [GenerateAnswer, Grader]
    ensures |c.trace| == |p| + 2 ==> c.ready == []
  {
    var t := c.trace;
    if |t| > |p| + 1 {
      assert t[|p| + 1].node == ShapeAt(p, |p| + 1);
    }
    if c.ready == [] {
      ShapedFacts(p, RouteAsWritten, s0, c);
      forall i | 0 <= i < |t| ensures Visited(t)[i] == (p + [GenerateAnswer, Grader])[i] {
        assert t[i].node == ShapeAt(p, i);
      }
    }
  }

  /** Every grader visit left a state the as-written router calls "good". */
  predicate GradedGood(t: seq<Visit>)
  {
    forall i :: 0 <= i < |t| && t[i].node == Grader ==> RouteAsWritten(t[i].after) == Ok(Good)
  }

  lemma AsWrittenGraded(tools: Tools, s0: State, t: seq<Visit>)
    requires Faithful(tools, s0, t)
    ensures GradedGood(t)
  {
    forall i | 0 <= i < |t| && t[i].node == Grader ensures RouteAsWritten(t[i].after) == Ok(Good) {
      NoSecondGrade(tools, s0, t, i);
    }
  }

  /** A grader visit of a faithful trace leaves a state the as-written router calls "good". */
  lemma NoSecondGrade(tools: Tools, s0: State, t: seq<Visit>, i: nat)
    requires Faithful(tools, s0, t) && i < |t| && t[i].node == Grader
    ensures RouteAsWritten(t[i].after) == Ok(Good)
  {
    FaithfulAt(tools, s0, t, i);
    RouteAsWrittenAfterGrade(Before(s0, t, i), tools);
  }

  /**
   * With the intended router a finishing run ends on four scores above 7, and
   * every earlier grader visit found a score of at most 7.
   */
  lemma IntendedRun(g: Graph, p: seq<Node>, tools: Tools, s0: State, fuel: nat, o: Outcome)
    requires Layout(g, p) && o == Run(g, Route, tools, Init(g, s0), fuel)
    ensures o.Done? ==> MetricList(o.config.state).Ok? && AllAbove7(MetricList(o.config.state).value)
    ensures forall i :: 0 <= i < |o.config.trace| - 1 && o.config.trace[i].node == Grader ==>
      && MetricList(o.config.trace[i].after).Ok?
      && exists j :: 0 <= j < 4 && MetricList(o.config.trace[i].after).value[j].Some? && MetricList(o.config.trace[i].after).value[j].value <= 7
  {
    RunShape(g, p, Route, tools, s0, fuel, o);
    IntendedFacts(o.config.trace);
    if o.Done? {
      DecisionGoodIff(MetricList(o.config.state).value);
    }
  }

  lemma IntendedFacts(t: seq<Visit>)
    requires forall i :: 0 <= i < |t| - 1 && t[i].node == Grader ==> Route(t[i].after) == Ok(NotGoodEnough)
    ensures forall i :: 0 <= i < |t| - 1 && t[i].node == Grader ==>
      && MetricList(t[i].after).Ok?
      && exists j :: 0 <= j < 4 && MetricList(t[i].after).value[j].Some? && MetricList(t[i].after).value[j].value <= 7
  {
    forall i | 0 <= i < |t| - 1 && t[i].node == Grader
      ensures MetricList(t[i].after).Ok?
      ensures exists j :: 0 <= j < 4 && MetricList(t[i].after).value[j].Some? && MetricList(t[i].after).value[j].value <= 7
    {
      DecisionNotGoodWitness(MetricList(t[i].after).value);
    }
  }

  /**
   * The two retrievals of the full workflow read only the query and write
   * different keys, so running them in either order gives the same patches and
   * the same state: the sequential order of the model loses nothing.
   */
  lemma RetrievalOrderIrrelevant(s: State, tools: Tools)
    requires RetrieveVector(s, tools).Ok? && RetrieveKg(s, tools).Ok?
    ensures
      var pv := RetrieveVector(s, tools).value;
      var pk := RetrieveKg(s, tools).value;
      && RetrieveKg(Apply(s, pv), tools) == Ok(pk)
      && RetrieveVector(Apply(s, pk), tools) == Ok(pv)
      && Apply(Apply(s, pv), pk) == Apply(Apply(s, pk), pv)
  {
    var pv := RetrieveVector(s, tools).value;
    var pk := RetrieveKg(s, tools).value;
    assert Apply(s, pv)[Query] == s[Query] && Apply(s, pk)[Query] == s[Query];
    ApplyDisjointCommutes(s, pv, pk);
  }
}

/**
 * Running a compiled workflow, one node at a time.
 *
 * The runtime is an external library; what is modelled here is the behaviour
 * the three workflows rely on, stated sequentially. A configuration holds the
 * state, the queue of nodes ready to run, the nodes waiting at the join barrier
 * and the trace of the nodes run so far. One step runs the node at the head of
 * the queue, merges its patch, and queues what the node wakes: the targets of
 * its plain edges, the target of a join once all its sources have finished, and
 * the path its router picks. A label the path map does not hold raises
 * `KeyError`. The refinement loop has no bound in the code, so a run is given
 * fuel.
 */
module Scheduler {
  import opened Outcomes
  import opened PyDict
  import opened GraphState
  import opened Agents
  import opened Workflow

  /** The keys each node writes. */
  function Writes(n: Node): set<Key>
  {
    match n
    case SearchVectorDb => {DbContext}
    case SearchKgDb => {KgContext}
    case Websearch => {WebsearchContext}
    case GenerateAnswer => {Answer}
    case RefineAnswer => {Answer}
    case Grader => {Metrics, Reasons}
  }

  /** The action each node is registered with (workflow.py lines 7-14). */
  function Execute(n: Node, s: State, tools: Tools): (r: Result<Patch>)
    ensures r.Ok? ==> r.value.Keys == Writes(n)
  {
    match n
    case SearchVectorDb => RetrieveVector(s, tools)
    case SearchKgDb => RetrieveKg(s, tools)
    case Websearch => RetrieveWeb(s, tools)
    case GenerateAnswer => Agents.GenerateAnswer(s, tools)
    case Grader => Grade(s, tools)
    case RefineAnswer => Refine(s, tools)
  }

  /** A router: `decide_metrics_agent` as written, or as intended. */
  type Router = State -> Result<string>

  /** One finished node: which, what it wrote, and the state after the merge. */
  datatype Visit = Visit(node: Node, patch: Patch, after: State)

  datatype Config = Config(state: State, ready: seq<Node>, arrived: set<Node>, trace: seq<Visit>)

  datatype Outcome =
    | Done(config: Config)
    | OutOfFuel(config: Config)
    | Failed(config: Config, error: Exception)

  /** The nodes among some vertices, in order. */
  function NodesOf(vs: seq<Vertex>): (r: seq<Node>)
    ensures |r| <= |vs|
  {
    if vs == [] then []
    else (if vs[0].At? then [vs[0].node] else []) + NodesOf(vs[1..])
  }

  /** The configuration before the first step: the targets of START are ready. */
  function Init(g: Graph, s0: State): Config
  {
    Config(s0, NodesOf(Targets(g.edges, Start)), {}, [])
  }

  /**
   * The joins `js` fire in order; each one whose sources have all arrived
   * queues its target and consumes its sources' arrivals.
   */
  function FireJoins(js: seq<Join>, arrived: set<Node>): (r: (seq<Node>, set<Node>))
    ensures r.1 <= arrived
    ensures forall n :: n in r.0 ==> exists j :: j in js && j.target == n
  {
    if js == [] then ([], arrived)
    else
      assert forall j :: j in js <==> j == js[0] || j in js[1..];
      var sources := set m | m in js[0].sources;
      if sources <= arrived then
        var rest := FireJoins(js[1..], arrived - sources);
        ([js[0].target] + rest.0, rest.1)
      else
        FireJoins(js[1..], arrived)
  }

  /** What finishing `n` wakes without a router: its plain targets, then any join it completes. */
  function Wake(g: Graph, n: Node, arrived: set<Node>): (seq<Node>, set<Node>)
  {
    var plain := NodesOf(Targets(g.edges, At(n)));
    var js := JoinsFrom(g.joins, n);
    if js == [] then (plain, arrived)
    else
      var fired := FireJoins(js, arrived + {n});
      (plain + fired.0, fired.1)
  }

  /**
   * What `n`'s router wakes in the state `s`, if `n` has a router. In the
   * three workflows only `grader` routes: "good" leads to END and wakes
   * nothing, "not good enough" wakes `websearch`, and any other label raises
   * `KeyError`.
   */
  function Follow(g: Graph, router: Router, n: Node, s: State): (r: Result<seq<Node>>)
    ensures BranchOf(g.branches, n).None? ==> r == Ok([])
    ensures IsWorkflow(g) && n != Grader ==> r == Ok([])
    ensures IsWorkflow(g) && n == Grader && router(s).Err? ==> r == Err(router(s).error)
    ensures IsWorkflow(g) && n == Grader && router(s) == Ok(Good) ==> r == Ok([])
    ensures IsWorkflow(g) && n == Grader && router(s) == Ok(NotGoodEnough) ==> r == Ok([Websearch])
    ensures IsWorkflow(g) && n == Grader && router(s).Ok? && router(s).value != Good && router(s).value != NotGoodEnough
      ==> r == Err(KeyError(router(s).value))
  {
    RoutingOf(g, n);
    GraderPathLabels();
    match BranchOf(g.branches, n)
    case None => Ok([])
    case Some(paths) =>
      var choice :- router(s);
      match Get(paths, choice)
      case None => Err(KeyError(choice))
      case Some(w) => Ok(if w.At? then [w.node] else [])
  }

  /** Runs the head of the queue. */
  function Step(g: Graph, router: Router, tools: Tools, c: Config): (r: Result<Config>)
    requires c.ready != []
    ensures r.Ok? ==> Execute(c.ready[0], c.state, tools).Ok?
    ensures r.Ok? ==>
      var patch := Execute(c.ready[0], c.state, tools).value;
      && r.value.state == Apply(c.state, patch)
      && r.value.trace == c.trace + [Visit(c.ready[0], patch, r.value.state)]
  {
    var n := c.ready[0];
    var patch :- Execute(n, c.state, tools);
    var s' := Apply(c.state, patch);
    var woken := Wake(g, n, c.arrived);
    var routed :- Follow(g, router, n, s');
    Ok(Config(s', c.ready[1..] + woken.0 + routed, woken.1, c.trace + [Visit(n, patch, s')]))
  }

  /** Steps until the queue is empty, a node or router raises, or the fuel runs out. */
  function Run(g: Graph, router: Router, tools: Tools, c: Config, fuel: nat): (r: Outcome)
    ensures |r.config.trace| <= |c.trace| + fuel
    ensures r.OutOfFuel? ==> |r.config.trace| == |c.trace| + fuel && r.config.ready != []
    ensures r.Done? ==> r.config.ready == []
    decreases fuel
  {
    if c.ready == [] then Done(c)
    else if fuel == 0 then OutOfFuel(c)
    else
      match Step(g, router, tools, c)
      case Err(e) => Failed(c, e)
      case Ok(c') => Run(g, router, tools, c', fuel - 1)
  }

  function Visited(t: seq<Visit>): (r: seq<Node>)
    ensures |r| == |t| && forall i :: 0 <= i < |t| ==> r[i] == t[i].node
  {
    seq(|t|, i requires 0 <= i < |t| => t[i].node)
  }

  // ----- the shape of every run -----

  /** The retrieval nodes each workflow starts with. */
  predicate Layout(g: Graph, p: seq<Node>)
  {
    || (g == FullGraph() && p == [SearchVectorDb, SearchKgDb])
    || (g == VectorGraph() && p == [SearchVectorDb])
    || (g == KgGraph() && p == [SearchKgDb])
  }

  /** The node that runs `i`-th: the retrievals, `generate_answer`, then grader, websearch, refine_answer, round and round. */
  function ShapeAt(p: seq<Node>, i: nat): Node
  {
    if i < |p| then p[i]
    else if i == |p| then GenerateAnswer
    else [Grader, Websearch, RefineAnswer][(i - |p| - 1) % 3]
  }

  /** The trace follows the shape. */
  predicate FollowsShape(p: seq<Node>, t: seq<Visit>)
  {
    forall i :: 0 <= i < |t| ==> t[i].node == ShapeAt(p, i)
  }

  /** Every grader visit that more work followed was judged "not good enough". */
  predicate Judged(router: Router, t: seq<Visit>)
  {
    forall i :: 0 <= i < |t| - 1 && t[i].node == Grader ==> router(t[i].after) == Ok(NotGoodEnough)
  }

  /**
   * Before the retrievals are done the rest of them are queued and the
   * finished ones wait at the barrier; afterwards at most the next node of the
   * shape is queued, an empty queue means the last grader's router said "good",
   * and a queued node after a grader means it said "not good enough".
   */
  predicate Queued(p: seq<Node>, router: Router, c: Config)
  {
    var t := c.trace;
    && (|t| < |p| ==> c.ready == p[|t|..] && c.arrived == set n | n in p[..|t|])
    && (|t| >= |p| ==> c.arrived == {})
    && (|t| >= |p| && c.ready != [] ==> c.ready == [ShapeAt(p, |t|)])
    && (|t| >= |p| && c.ready == [] ==> |t| >= |p| + 2 && (|t| - |p| - 2) % 3 == 0 && router(c.state) == Ok(Good))
    && (|t| > |p| + 1 && t[|t| - 1].node == Grader && c.ready != [] ==> router(c.state) == Ok(NotGoodEnough))
  }

  /** The invariant of every configuration a run reaches. */
  predicate Shaped(p: seq<Node>, router: Router, s0: State, c: Config)
  {
    && FollowsShape(p, c.trace)
    && c.state == (if c.trace == [] then s0 else c.trace[|c.trace| - 1].after)
    && Queued(p, router, c)
    && Judged(router, c.trace)
  }

  lemma InitShaped(g: Graph, p: seq<Node>, router: Router, s0: State)
    requires Layout(g, p)
    ensures Shaped(p, router, s0, Init(g, s0))
  {
    InitReady(g, p);
    var c := Init(g, s0);
    assert c.ready == p[0..];
    assert p[..0] == [];
  }

  lemma InitReady(g: Graph, p: seq<Node>)
    requires Layout(g, p)
    ensures Init(g, map[]).ready == p
  {
    if g == FullGraph() {
      FullStartTargets();
    } else if g == VectorGraph() {
      VectorStartTargets();
    } else {
      KgStartTargets();
    }
  }

  lemma FullStartTargets()
    ensures NodesOf(Targets(FullGraph().edges, Start)) == [SearchVectorDb, SearchKgDb]
  {
    var vs := [At(SearchVectorDb), At(SearchKgDb)];
    FullStartSuccessors();
    assert vs[1..] == [At(SearchKgDb)];
    assert NodesOf(vs[1..]) == [SearchKgDb];
  }

  lemma VectorStartTargets()
    ensures NodesOf(Targets(VectorGraph().edges, Start)) == [SearchVectorDb]
  {
    assert Targets(VectorGraph().edges, Start) == [At(SearchVectorDb)];
    assert NodesOf([At(SearchVectorDb)]) == [SearchVectorDb];
  }

  lemma KgStartTargets()
    ensures NodesOf(Targets(KgGraph().edges, Start)) == [SearchKgDb]
  {
    assert Targets(KgGraph().edges, Start) == [At(SearchKgDb)];
    assert NodesOf([At(SearchKgDb)]) == [SearchKgDb];
  }

  // ----- the successor tables of the three workflows -----

  /** The plain-edge successors of `n` in the workflow whose retrievals are `p`. */
  function PlainNext(p: seq<Node>, n: Node): seq<Node>
  {
    if n == GenerateAnswer || n == RefineAnswer then [Grader]
    else if n == Websearch then [RefineAnswer]
    else if |p| == 1 && n == p[0] then [GenerateAnswer]
    else []
  }

  lemma PlainTargets(g: Graph, p: seq<Node>, n: Node)
    requires Layout(g, p)
    ensures NodesOf(Targets(g.edges, At(n))) == PlainNext(p, n)
  {
    if g == FullGraph() {
      FullPlain(n);
    } else if g == VectorGraph() {
      VectorPlain(n);
    } else {
      KgPlain(n);
    }
  }

  lemma FullPlain(n: Node)
    ensures NodesOf(Targets(FullGraph().edges, At(n))) == PlainNext([SearchVectorDb, SearchKgDb], n)
  {
    FullTargetsTable();
    NodesOfOne();
  }

  lemma VectorPlain(n: Node)
    ensures NodesOf(Targets(VectorGraph().edges, At(n))) == PlainNext([SearchVectorDb], n)
  {
    VectorTargetsTable();
    NodesOfOne();
  }

  lemma KgPlain(n: Node)
    ensures NodesOf(Targets(KgGraph().edges, At(n))) == PlainNext([SearchKgDb], n)
  {
    KgTargetsTable();
    NodesOfOne();
  }

  lemma NodesOfOne()
    ensures forall n :: NodesOf([At(n)]) == [n]
    ensures NodesOf([]) == []
  {
    forall n ensures NodesOf([At(n)]) == [n] {
      assert [At(n)][1..] == [];
    }
  }

  lemma FullTargetsTable()
    ensures Targets(FullGraph().edges, At(SearchKgDb)) == []
    ensures Targets(FullGraph().edges, At(SearchVectorDb)) == []
    ensures Targets(FullGraph().edges, At(GenerateAnswer)) == [At(Grader)]
    ensures Targets(FullGraph().edges, At(Grader)) == []
    ensures Targets(FullGraph().edges, At(Websearch)) == [At(RefineAnswer)]
    ensures Targets(FullGraph().edges, At(RefineAnswer)) == [At(Grader)]
  {
  }

  lemma VectorTargetsTable()
    ensures Targets(VectorGraph().edges, At(SearchKgDb)) == []
    ensures Targets(VectorGraph().edges, At(SearchVectorDb)) == [At(GenerateAnswer)]
    ensures Targets(VectorGraph().edges, At(GenerateAnswer)) == [At(Grader)]
    ensures Targets(VectorGraph().edges, At(Grader)) == []
    ensures Targets(VectorGraph().edges, At(Websearch)) == [At(RefineAnswer)]
    ensures Targets(VectorGraph().edges, At(RefineAnswer)) == [At(Grader)]
  {
  }

  lemma KgTargetsTable()
    ensures Targets(KgGraph().edges, At(SearchKgDb)) == [At(GenerateAnswer)]
    ensures Targets(KgGraph().edges, At(SearchVectorDb)) == []
    ensures Targets(KgGraph().edges, At(GenerateAnswer)) == [At(Grader)]
    ensures Targets(KgGraph().edges, At(Grader)) == []
    ensures Targets(KgGraph().edges, At(Websearch)) == [At(RefineAnswer)]
    ensures Targets(KgGraph().edges, At(RefineAnswer)) == [At(Grader)]
  {
  }

  /** What finishing `n` wakes, join included, in the workflow whose retrievals are `p`. */
  function WakeNext(p: seq<Node>, n: Node, arrived: set<Node>): (seq<Node>, set<Node>)
  {
    if |p| == 2 && n in p then
      var a := arrived + {n};
      if SearchKgDb in a && SearchVectorDb in a then ([GenerateAnswer], a - {SearchKgDb, SearchVectorDb})
      else ([], a)
    else (PlainNext(p, n), arrived)
  }

  lemma WakeTable(g: Graph, p: seq<Node>, n: Node, arrived: set<Node>)
    requires Layout(g, p)
    ensures Wake(g, n, arrived) == WakeNext(p, n, arrived)
  {
    PlainTargets(g, p, n);
    if g == FullGraph() {
      FullWake(n, arrived);
    } else {
      assert JoinsFrom(g.joins, n) == [];
    }
  }

  lemma FullWake(n: Node, arrived: set<Node>)
    ensures Wake(FullGraph(), n, arrived) == WakeNext([SearchVectorDb, SearchKgDb], n, arrived)
  {
    FullPlain(n);
    if n == SearchKgDb || n == SearchVectorDb {
      FullWakeAtBarrier(n, arrived);
    } else {
      assert JoinsFrom(FullGraph().joins, n) == [];
    }
  }

  lemma FullWakeAtBarrier(n: Node, arrived: set<Node>)
    requires n == SearchKgDb || n == SearchVectorDb
    ensures Wake(FullGraph(), n, arrived) == WakeNext([SearchVectorDb, SearchKgDb], n, arrived)
  {
    var j := Join([SearchKgDb, SearchVectorDb], GenerateAnswer);
    FullPlain(n);
    FullJoinsAt(n);
    WakeAtJoin(FullGraph(), n, arrived, [j]);
    FireBarrier(arrived + {n});
  }

  lemma FullJoinsAt(n: Node)
    requires n == SearchKgDb || n == SearchVectorDb
    ensures JoinsFrom(FullGraph().joins, n) == [Join([SearchKgDb, SearchVectorDb], GenerateAnswer)]
  {
  }

  /** A node with no plain edge and some joins wakes what its joins fire. */
  lemma WakeAtJoin(g: Graph, n: Node, arrived: set<Node>, js: seq<Join>)
    requires NodesOf(Targets(g.edges, At(n))) == [] && JoinsFrom(g.joins, n) == js && js != []
    ensures Wake(g, n, arrived) == FireJoins(js, arrived + {n})
  {
    assert [] + FireJoins(js, arrived + {n}).0 == FireJoins(js, arrived + {n}).0;
  }

  /** What `n`'s router wakes: only `grader` has one, and its two labels lead to END and `websearch`. */
  function FollowNext(router: Router, n: Node, s: State): Result<seq<Node>>
  {
    if n != Grader then Ok([])
    else
      match router(s)
      case Err(e) => Err(e)
      case Ok(choice) =>
        if choice == Good then Ok([])
        else if choice == NotGoodEnough then Ok([Websearch])
        else Err(KeyError(choice))
  }

  /** In the three workflows `grader` alone has a router, and it has the two-label path map. */
  lemma RoutingOf(g: Graph, n: Node)
    ensures IsWorkflow(g) ==> BranchOf(g.branches, n) == (if n == Grader then Some(GraderPaths) else None)
  {
    if IsWorkflow(g) {
      GraderRouting(g);
      if n != Grader {
        assert BranchOf(g.branches, n) == None;
      }
    }
  }

  /** The join of the full graph fires once both retrievals have arrived, and consumes both arrivals. */
  lemma FireBarrier(a: set<Node>)
    ensures FireJoins([Join([SearchKgDb, SearchVectorDb], GenerateAnswer)], a) ==
      if SearchKgDb in a && SearchVectorDb in a then ([GenerateAnswer], a - {SearchKgDb, SearchVectorDb}) else ([], a)
  {
    var js := [Join([SearchKgDb, SearchVectorDb], GenerateAnswer)];
    var sources := set m | m in js[0].sources;
    assert sources == {SearchKgDb, SearchVectorDb} by {
      assert SearchKgDb in js[0].sources && SearchVectorDb in js[0].sources;
    }
    assert js[1..] == [];
    if sources <= a {
      assert FireJoins(js, a) == ([GenerateAnswer] + [], a - sources);
      assert [GenerateAnswer] + [] == [GenerateAnswer];
      assert SearchKgDb in a && SearchVectorDb in a;
    } else {
      assert FireJoins(js, a) == ([], a);
    }
  }

  // ----- one step keeps the shape -----

  /** A successful step of a workflow, spelled out with its successor tables. */
  function Next(p: seq<Node>, router: Router, c: Config, patch: Patch): Config
    requires c.ready != []
  {
    var n := c.ready[0];
    var s' := Apply(c.state, patch);
    var w := WakeNext(p, n, c.arrived);
    var f := FollowNext(router, n, s');
    Config(s', c.ready[1..] + w.0 + (if f.Ok? then f.value else []), w.1, c.trace + [Visit(n, patch, s')])
  }

  lemma StepTable(g: Graph, p: seq<Node>, router: Router, tools: Tools, c: Config)
    requires Layout(g, p) && c.ready != [] && Step(g, router, tools, c).Ok?
    ensures
      var patch := Execute(c.ready[0], c.state, tools).value;
      && FollowNext(router, c.ready[0], Apply(c.state, patch)).Ok?
      && Step(g, router, tools, c).value == Next(p, router, c, patch)
  {
    var n := c.ready[0];
    var patch := Execute(n, c.state, tools).value;
    WakeTable(g, p, n, c.arrived);
    assert Follow(g, router, n, Apply(c.state, patch)) == FollowNext(router, n, Apply(c.state, patch));
  }

  /** The successor of each position of the shape after the retrievals. */
  lemma ShapeNext(p: seq<Node>, i: nat)
    requires 1 <= |p| <= 2 && i >= |p|
    ensures ShapeAt(p, i) == GenerateAnswer <==> i == |p|
    ensures ShapeAt(p, i) == GenerateAnswer ==> ShapeAt(p, i + 1) == Grader
    ensures ShapeAt(p, i) == Grader ==> ShapeAt(p, i + 1) == Websearch && (i + 1 - |p| - 2) % 3 == 0
    ensures ShapeAt(p, i) == Websearch ==> ShapeAt(p, i + 1) == RefineAnswer
    ensures ShapeAt(p, i) == RefineAnswer ==> ShapeAt(p, i + 1) == Grader
    ensures ShapeAt(p, i) != SearchKgDb && ShapeAt(p, i) != SearchVectorDb
  {
  }

  predicate Retrievals(p: seq<Node>)
  {
    p == [SearchVectorDb, SearchKgDb] || p == [SearchVectorDb] || p == [SearchKgDb]
  }

  /** A step keeps the invariant. */
  lemma StepShaped(g: Graph, p: seq<Node>, router: Router, tools: Tools, s0: State, c: Config)
    requires Layout(g, p) && Shaped(p, router, s0, c) && c.ready != [] && Step(g, router, tools, c).Ok?
    ensures Shaped(p, router, s0, Step(g, router, tools, c).value)
  {
    StepTable(g, p, router, tools, c);
    NextShaped(p, router, s0, c, Execute(c.ready[0], c.state, tools).value);
  }

  lemma NextShaped(p: seq<Node>, router: Router, s0: State, c: Config, patch: Patch)
    requires Retrievals(p) && Shaped(p, router, s0, c) && c.ready != []
    requires FollowNext(router, c.ready[0], Apply(c.state, patch)).Ok?
    ensures Shaped(p, router, s0, Next(p, router, c, patch))
  {
    var t := c.trace;
    if |t| < |p| {
      NextQueuedRetrieval(p, router, c, patch);
    } else {
      NextQueuedTail(p, router, c, patch);
    }
    NextFollowsShape(p, router, c, patch);
    NextJudged(p, router, c, patch);
  }

  /** The next node run is the next one of the shape. */
  lemma HeadFollowsShape(p: seq<Node>, router: Router, c: Config)
    requires Retrievals(p) && Queued(p, router, c) && c.ready != []
    ensures c.ready[0] == ShapeAt(p, |c.trace|)
  {
  }

  lemma NextFollowsShape(p: seq<Node>, router: Router, c: Config, patch: Patch)
    requires Retrievals(p) && Queued(p, router, c) && FollowsShape(p, c.trace) && c.ready != []
    ensures FollowsShape(p, Next(p, router, c, patch).trace)
  {
    HeadFollowsShape(p, router, c);
  }

  lemma NextJudged(p: seq<Node>, router: Router, c: Config, patch: Patch)
    requires Retrievals(p) && Queued(p, router, c) && Judged(router, c.trace) && c.ready != []
    requires FollowsShape(p, c.trace) && c.state == (if c.trace == [] then c.state else c.trace[|c.trace| - 1].after)
    ensures Judged(router, Next(p, router, c, patch).trace)
  {
    var t := c.trace;
    var t' := Next(p, router, c, patch).trace;
    forall i | 0 <= i < |t'| - 1 && t'[i].node == Grader ensures router(t'[i].after) == Ok(NotGoodEnough) {
      if i == |t| - 1 {
        assert t'[i] == t[i];
        // a grader is at position |p| + 1 or later
        assert i > |p|;
      }
    }
  }

  lemma NextQueuedRetrieval(p: seq<Node>, router: Router, c: Config, patch: Patch)
    requires Retrievals(p) && Queued(p, router, c) && c.ready != []
    requires |c.trace| < |p|
    ensures Queued(p, router, Next(p, router, c, patch))
  {
    var t := c.trace;
    var n := c.ready[0];
    assert n == p[|t|];
    var c' := Next(p, router, c, patch);
    var s' := c'.state;
    assert FollowNext(router, n, s') == Ok([]);
    if |p| == 2 && |t| == 0 {
      assert c'.ready == [SearchKgDb] + [] + [];
      assert c'.ready == p[1..];
      assert c'.arrived == {SearchVectorDb};
      assert p[..1] == [SearchVectorDb];
    } else if |p| == 2 {
      assert c.arrived == {SearchVectorDb} by {
        assert p[..1] == [SearchVectorDb];
      }
      assert c'.ready == [] + [GenerateAnswer] + [];
      assert c'.arrived == {};
    } else {
      assert c'.ready == [] + [GenerateAnswer] + [];
    }
  }

  lemma NextQueuedTail(p: seq<Node>, router: Router, c: Config, patch: Patch)
    requires Retrievals(p) && Queued(p, router, c) && c.ready != []
    requires FollowNext(router, c.ready[0], Apply(c.state, patch)).Ok?
    requires |c.trace| >= |p|
    ensures Queued(p, router, Next(p, router, c, patch))
  {
    HeadFollowsShape(p, router, c);
    ShapeNext(p, |c.trace|);
    if c.ready[0] == Grader {
      NextQueuedGrader(p, router, c, patch);
    } else {
      NextQueuedPlain(p, router, c, patch);
    }
  }

  lemma NextQueuedGrader(p: seq<Node>, router: Router, c: Config, patch: Patch)
    requires Retrievals(p) && Queued(p, router, c) && c.ready != []
    requires FollowNext(router, c.ready[0], Apply(c.state, patch)).Ok?
    requires |c.trace| >= |p| && c.ready[0] == Grader
    ensures Queued(p, router, Next(p, router, c, patch))
  {
    var t := c.trace;
    HeadFollowsShape(p, router, c);
    ShapeNext(p, |t|);
    assert c.ready == [Grader];
    var c' := Next(p, router, c, patch);
    var s' := c'.state;
    var f := FollowNext(router, Grader, s').value;
    assert PlainNext(p, Grader) == [];
    assert c'.ready == [] + [] + f;
    if router(s') == Ok(Good) {
      assert c'.ready == [];
    } else {
      assert router(s') == Ok(NotGoodEnough) && c'.ready == [Websearch];
    }
  }

  lemma NextQueuedPlain(p: seq<Node>, router: Router, c: Config, patch: Patch)
    requires Retrievals(p) && Queued(p, router, c) && c.ready != []
    requires |c.trace| >= |p| && c.ready[0] != Grader
    ensures Queued(p, router, Next(p, router, c, patch))
  {
    var t := c.trace;
    var n := c.ready[0];
    HeadFollowsShape(p, router, c);
    ShapeNext(p, |t|);
    assert c.ready == [n] && n !in p;
    var c' := Next(p, router, c, patch);
    assert FollowNext(router, n, c'.state) == Ok([]);
    assert c'.ready == [] + PlainNext(p, n) + [];
    assert c'.ready == [ShapeAt(p, |t| + 1)];
  }

  // ----- whole runs -----

  /** The state a visit started from. */
  function Before(s0: State, t: seq<Visit>, i: nat): State
    requires i <= |t|
  {
    if i == 0 then s0 else t[i - 1].after
  }

  /** The visit ran its node's agent on `before` and merged the patch it returned. */
  predicate Ran(tools: Tools, before: State, v: Visit)
  {
    Execute(v.node, before, tools) == Ok(v.patch) && v.after == Apply(before, v.patch)
  }

  /** Every visit of the trace ran on the state the previous visit left. */
  predicate Faithful(tools: Tools, s0: State, t: seq<Visit>)
    decreases |t|
  {
    t == [] || (Faithful(tools, s0, t[..|t| - 1]) && Ran(tools, Before(s0, t, |t| - 1), t[|t| - 1]))
  }

  /** The per-visit reading of `Faithful`. */
  lemma {:induction false} FaithfulAt(tools: Tools, s0: State, t: seq<Visit>, i: nat)
    requires Faithful(tools, s0, t) && i < |t|
    ensures Ran(tools, Before(s0, t, i), t[i])
    decreases |t|
  {
    if i < |t| - 1 {
      var u := t[..|t| - 1];
      FaithfulAt(tools, s0, u, i);
      assert u[i] == t[i];
      assert Before(s0, u, i) == Before(s0, t, i);
    }
  }

  lemma StepFaithful(g: Graph, router: Router, tools: Tools, s0: State, c: Config)
    requires c.ready != [] && Step(g, router, tools, c).Ok?
    requires Faithful(tools, s0, c.trace) && c.state == Before(s0, c.trace, |c.trace|)
    ensures Faithful(tools, s0, Step(g, router, tools, c).value.trace)
  {
    var patch := Execute(c.ready[0], c.state, tools).value;
    ExtendFaithful(tools, s0, c.trace, c.ready[0], patch);
  }

  lemma ExtendFaithful(tools: Tools, s0: State, t: seq<Visit>, n: Node, patch: Patch)
    requires Faithful(tools, s0, t)
    requires Execute(n, Before(s0, t, |t|), tools) == Ok(patch)
    ensures Faithful(tools, s0, t + [Visit(n, patch, Apply(Before(s0, t, |t|), patch))])
  {
    var t' := t + [Visit(n, patch, Apply(Before(s0, t, |t|), patch))];
    assert t'[..|t|] == t;
    assert Before(s0, t', |t|) == Before(s0, t, |t|);
  }

  /** Everything a run reaches keeps both invariants. */
  lemma RunInvariant(g: Graph, p: seq<Node>, router: Router, tools: Tools, s0: State, c: Config, fuel: nat)
    requires Layout(g, p) && Shaped(p, router, s0, c) && Faithful(tools, s0, c.trace)
    ensures Shaped(p, router, s0, Run(g, router, tools, c, fuel).config)
    ensures Faithful(tools, s0, Run(g, router, tools, c, fuel).config.trace)
  {
    var step := StepFn(g, router, tools);
    var inv := (d: Config) => Kept(p, router, tools, s0, d);
    forall d | inv(d) && d.ready != [] && step(d).Ok?
      ensures inv(step(d).value)
    {
      StepKept(g, p, router, tools, s0, d);
    }
    DriveKeeps(step, inv, c, fuel);
    RunDrive(g, router, tools, c, fuel);
    assert inv(Run(g, router, tools, c, fuel).config);
  }

  /** Both invariants at once. */
  predicate Kept(p: seq<Node>, router: Router, tools: Tools, s0: State, c: Config)
  {
    Shaped(p, router, s0, c) && Faithful(tools, s0, c.trace)
  }

  lemma StepKept(g: Graph, p: seq<Node>, router: Router, tools: Tools, s0: State, c: Config)
    requires Layout(g, p) && Kept(p, router, tools, s0, c) && c.ready != [] && Step(g, router, tools, c).Ok?
    ensures Kept(p, router, tools, s0, Step(g, router, tools, c).value)
  {
    StepShaped(g, p, router, tools, s0, c);
    StepFaithful(g, router, tools, s0, c);
  }

  /** The loop of `Run` over an arbitrary step function, so that its induction need not look inside a step. */
  ghost function Drive(step: Config -> Result<Config>, c: Config, fuel: nat): Outcome
    decreases fuel
  {
    if c.ready == [] then Done(c)
    else if fuel == 0 then OutOfFuel(c)
    else
      match step(c)
      case Err(e) => Failed(c, e)
      case Ok(c') => Drive(step, c', fuel - 1)
  }

  ghost function StepFn(g: Graph, router: Router, tools: Tools): Config -> Result<Config>
  {
    (c: Config) => if c.ready == [] then Ok(c) else Step(g, router, tools, c)
  }

  lemma {:induction false} RunDrive(g: Graph, router: Router, tools: Tools, c: Config, fuel: nat)
    ensures Run(g, router, tools, c, fuel) == Drive(StepFn(g, router, tools), c, fuel)
    decreases fuel
  {
    if c.ready != [] && fuel > 0 {
      var r := Step(g, router, tools, c);
      assert StepFn(g, router, tools)(c) == r;
      if r.Ok? {
        RunDrive(g, router, tools, r.value, fuel - 1);
      }
    }
  }

  /** What every step keeps, every run of the loop keeps. */
  lemma {:induction false} DriveKeeps(step: Config -> Result<Config>, inv: Config -> bool, c: Config, fuel: nat)
    requires forall d :: inv(d) && d.ready != [] && step(d).Ok? ==> inv(step(d).value)
    requires inv(c)
    ensures inv(Drive(step, c, fuel).config)
    decreases fuel
  {
    if c.ready != [] && fuel > 0 && step(c).Ok? {
      DriveKeeps(step, inv, step(c).value, fuel - 1);
    }
  }
}

/**
 * The three workflows of `src/chatbot/workflow.py`: a builder object receives
 * nodes, plain edges, one join edge and one conditional edge, and `compile`
 * freezes them into a graph. The graph is a table of node ids; the agents that
 * the nodes run are attached by the scheduler.
 *
 * `set_entry_point(x)` is the runtime's shorthand for an edge from START to `x`
 * and is modelled as such.
 */
module Workflow {
  import opened Outcomes
  import opened PyDict
  import Agents

  datatype Node = SearchKgDb | SearchVectorDb | GenerateAnswer | Grader | Websearch | RefineAnswer

  /** The name each node is registered under. */
  function NodeName(n: Node): string
  {
    match n
    case SearchKgDb => "search_kg_db"
    case SearchVectorDb => "search_vector_db"
    case GenerateAnswer => "generate_answer"
    case Grader => "grader"
    case Websearch => "websearch"
    case RefineAnswer => "refine_answer"
  }

  /** An endpoint of an edge: the two virtual vertices or a node. */
  datatype Vertex = Start | End | At(node: Node)

  /** A conditional edge: the source node and the router's label-to-target map. */
  datatype Branch = Branch(source: Node, paths: Dict<Vertex>)

  /** A join edge: the target runs once every source has finished. */
  datatype Join = Join(sources: seq<Node>, target: Node)

  datatype Graph = Graph(nodes: seq<Node>, edges: seq<(Vertex, Vertex)>, joins: seq<Join>, branches: seq<Branch>)

  /** The targets of the plain edges leaving `v`, in the order the edges were added. */
  function Targets(edges: seq<(Vertex, Vertex)>, v: Vertex): (r: seq<Vertex>)
    ensures |r| <= |edges|
  {
    if edges == [] then []
    else
      var rest := Targets(edges[1..], v);
      if edges[0].0 == v then [edges[0].1] + rest else rest
  }

  /** The targets are exactly the ends of the edges leaving `v`. */
  lemma {:induction false} TargetsMembers(edges: seq<(Vertex, Vertex)>, v: Vertex, w: Vertex)
    ensures w in Targets(edges, v) <==> (v, w) in edges
  {
    if edges != [] {
      TargetsMembers(edges[1..], v, w);
      assert (v, w) in edges <==> edges[0] == (v, w) || (v, w) in edges[1..];
    }
  }

  lemma {:induction false} TargetsAppend(a: seq<(Vertex, Vertex)>, b: seq<(Vertex, Vertex)>, v: Vertex)
    ensures Targets(a + b, v) == Targets(a, v) + Targets(b, v)
  {
    if a == [] {
      assert a + b == b;
    } else {
      assert (a + b)[0] == a[0] && (a + b)[1..] == a[1..] + b;
      TargetsAppend(a[1..], b, v);
    }
  }

  /** The join edges that `n` takes part in as a source, in the order they were added. */
  function JoinsFrom(joins: seq<Join>, n: Node): (r: seq<Join>)
    ensures forall j :: j in r <==> j in joins && n in j.sources
  {
    if joins == [] then []
    else
      var rest := JoinsFrom(joins[1..], n);
      assert forall j :: j in joins <==> j == joins[0] || j in joins[1..];
      if n in joins[0].sources then [joins[0]] + rest else rest
  }

  /** The label map of the conditional edge leaving `n`, if there is one. */
  function BranchOf(branches: seq<Branch>, n: Node): (r: Option<Dict<Vertex>>)
    ensures r.Some? <==> exists b :: b in branches && b.source == n
    ensures r.Some? ==> Branch(n, r.value) in branches
  {
    if branches == [] then None
    else if branches[0].source == n then Some(branches[0].paths)
    else
      assert forall b :: b in branches <==> b == branches[0] || b in branches[1..];
      BranchOf(branches[1..], n)
  }

  /** `w` may run after `u`: a plain edge, a join that `u` feeds, or a path of `u`'s router. */
  predicate Edge(g: Graph, u: Vertex, w: Vertex)
  {
    || (u, w) in g.edges
    || (u.At? && w.At? && exists j :: j in g.joins && u.node in j.sources && j.target == w.node)
    || (u.At? && exists b :: b in g.branches && b.source == u.node && w in Values(b.paths))
  }

  // ----- the builder -----

  /** `StateGraph(GraphState)`: the declarations collected so far. */
  class StateGraph {
    var nodes: seq<Node>
    var edges: seq<(Vertex, Vertex)>
    var joins: seq<Join>
    var branches: seq<Branch>

    constructor ()
      ensures nodes == [] && edges == [] && joins == [] && branches == []
    {
      nodes := [];
      edges := [];
      joins := [];
      branches := [];
    }

    /** `add_node(name, action)`. */
    method AddNode(n: Node)
      modifies this
      ensures nodes == old(nodes) + [n]
      ensures edges == old(edges) && joins == old(joins) && branches == old(branches)
    {
      nodes := nodes + [n];
    }

    /** `add_edge(start, end)` with a single start. */
    method AddEdge(u: Vertex, w: Vertex)
      modifies this
      ensures edges == old(edges) + [(u, w)]
      ensures nodes == old(nodes) && joins == old(joins) && branches == old(branches)
    {
      edges := edges + [(u, w)];
    }

    /** `add_edge([s1, s2, ...], end)`: a join edge. */
    method AddJoinEdge(sources: seq<Node>, w: Node)
      modifies this
      ensures joins == old(joins) + [Join(sources, w)]
      ensures nodes == old(nodes) && edges == old(edges) && branches == old(branches)
    {
      joins := joins + [Join(sources, w)];
    }

    /** `set_entry_point(n)`: an edge from START. */
    method SetEntryPoint(n: Node)
      modifies this
      ensures edges == old(edges) + [(Start, At(n))]
      ensures nodes == old(nodes) && joins == old(joins) && branches == old(branches)
    {
      AddEdge(Start, At(n));
    }

    /** `add_conditional_edges(source, router, path_map)`; the router is supplied when the graph runs. */
    method AddConditionalEdges(source: Node, paths: Dict<Vertex>)
      modifies this
      ensures branches == old(branches) + [Branch(source, paths)]
      ensures nodes == old(nodes) && edges == old(edges) && joins == old(joins)
    {
      branches := branches + [Branch(source, paths)];
    }

    /** `compile()`: the declarations, frozen. */
    method Compile() returns (g: Graph)
      ensures g == Graph(nodes, edges, joins, branches)
    {
      g := Graph(nodes, edges, joins, branches);
    }
  }

  // ----- the three tables -----

  /** The router's label map, the same in all three graphs (lines 40-47, 80-87, 120-127). */
  const GraderPaths: Dict<Vertex> := [(Agents.Good, End), (Agents.NotGoodEnough, At(Websearch))]

  /** The nodes shared by all three graphs after the retrieval stage. */
  const TailNodes: seq<Node> := [GenerateAnswer, Grader, Websearch, RefineAnswer]

  function FullGraph(): Graph
  {
    Graph(
      [SearchKgDb, SearchVectorDb, GenerateAnswer, Grader, Websearch, RefineAnswer],
      [(Start, At(SearchVectorDb)), (Start, At(SearchKgDb)), (At(GenerateAnswer), At(Grader)),
       (At(Websearch), At(RefineAnswer)), (At(RefineAnswer), At(Grader))],
      [Join([SearchKgDb, SearchVectorDb], GenerateAnswer)],
      [Branch(Grader, GraderPaths)])
  }

  function VectorGraph(): Graph
  {
    Graph(
      [SearchVectorDb, GenerateAnswer, Grader, Websearch, RefineAnswer],
      [(Start, At(SearchVectorDb)), (At(SearchVectorDb), At(GenerateAnswer)), (At(GenerateAnswer), At(Grader)),
       (At(Websearch), At(RefineAnswer)), (At(RefineAnswer), At(Grader))],
      [],
      [Branch(Grader, GraderPaths)])
  }

  function KgGraph(): Graph
  {
    Graph(
      [SearchKgDb, GenerateAnswer, Grader, Websearch, RefineAnswer],
      [(Start, At(SearchKgDb)), (At(SearchKgDb), At(GenerateAnswer)), (At(GenerateAnswer), At(Grader)),
       (At(Websearch), At(RefineAnswer)), (At(RefineAnswer), At(Grader))],
      [],
      [Branch(Grader, GraderPaths)])
  }

  /** `get_full_graph()`. */
  method GetFullGraph() returns (g: Graph)
    ensures g == FullGraph()
  {
    var builder := new StateGraph();
    builder.AddNode(SearchKgDb);
    builder.AddNode(SearchVectorDb);
    builder.AddNode(GenerateAnswer);
    builder.AddNode(Grader);
    builder.AddNode(Websearch);
    builder.AddNode(RefineAnswer);
    builder.AddEdge(Start, At(SearchVectorDb));
    builder.AddEdge(Start, At(SearchKgDb));
    builder.AddJoinEdge([SearchKgDb, SearchVectorDb], GenerateAnswer);
    builder.AddEdge(At(GenerateAnswer), At(Grader));
    builder.AddConditionalEdges(Grader, GraderPaths);
    builder.AddEdge(At(Websearch), At(RefineAnswer));
    builder.AddEdge(At(RefineAnswer), At(Grader));
    g := builder.Compile();
  }

  /** `get_vector_graph()`. */
  method GetVectorGraph() returns (g: Graph)
    ensures g == VectorGraph()
  {
    var builder := new StateGraph();
    builder.AddNode(SearchVectorDb);
    builder.AddNode(GenerateAnswer);
    builder.AddNode(Grader);
    builder.AddNode(Websearch);
    builder.AddNode(RefineAnswer);
    builder.SetEntryPoint(SearchVectorDb);
    builder.AddEdge(At(SearchVectorDb), At(GenerateAnswer));
    builder.AddEdge(At(GenerateAnswer), At(Grader));
    builder.AddConditionalEdges(Grader, GraderPaths);
    builder.AddEdge(At(Websearch), At(RefineAnswer));
    builder.AddEdge(At(RefineAnswer), At(Grader));
    g := builder.Compile();
  }

  /** `get_kg_graph()`. */
  method GetKgGraph() returns (g: Graph)
    ensures g == KgGraph()
  {
    var builder := new StateGraph();
    builder.AddNode(SearchKgDb);
    builder.AddNode(GenerateAnswer);
    builder.AddNode(Grader);
    builder.AddNode(Websearch);
    builder.AddNode(RefineAnswer);
    builder.SetEntryPoint(SearchKgDb);
    builder.AddEdge(At(SearchKgDb), At(GenerateAnswer));
    builder.AddEdge(At(GenerateAnswer), At(Grader));
    builder.AddConditionalEdges(Grader, GraderPaths);
    builder.AddEdge(At(Websearch), At(RefineAnswer));
    builder.AddEdge(At(RefineAnswer), At(Grader));
    g := builder.Compile();
  }

  // ----- properties of the tables -----

  predicate IsWorkflow(g: Graph)
  {
    g == FullGraph() || g == VectorGraph() || g == KgGraph()
  }

  /** Node ids are distinct, every endpoint is declared, START is never a target and END never a source. */
  predicate WellFormed(g: Graph)
  {
    && DistinctNodes(g.nodes)
    && EdgesDeclared(g)
    && JoinsDeclared(g)
    && BranchesDeclared(g)
  }

  predicate DistinctNodes(nodes: seq<Node>)
  {
    forall i, j :: 0 <= i < j < |nodes| ==> nodes[i] != nodes[j]
  }

  predicate EdgesDeclared(g: Graph)
  {
    forall e :: e in g.edges ==> e.0 != End && e.1 != Start && (e.0.At? ==> e.0.node in g.nodes) && (e.1.At? ==> e.1.node in g.nodes)
  }

  predicate JoinsDeclared(g: Graph)
  {
    forall j :: j in g.joins ==> j.target in g.nodes && forall n :: n in j.sources ==> n in g.nodes
  }

  predicate BranchesDeclared(g: Graph)
  {
    forall b :: b in g.branches ==> b.source in g.nodes && forall w :: w in Values(b.paths) ==> w != Start && (w.At? ==> w.node in g.nodes)
  }

  lemma WorkflowsWellFormed(g: Graph)
    requires IsWorkflow(g)
    ensures WellFormed(g)
  {
    WorkflowNodesDistinct(g);
    WorkflowEdgesDeclared(g);
    WorkflowJoinsDeclared(g);
    WorkflowBranchesDeclared(g);
  }

  lemma WorkflowJoinsDeclared(g: Graph)
    requires IsWorkflow(g)
    ensures JoinsDeclared(g)
  {
  }

  lemma WorkflowBranchesDeclared(g: Graph)
    requires IsWorkflow(g)
    ensures BranchesDeclared(g)
  {
    assert Values(GraderPaths) == [End, At(Websearch)];
  }

  lemma WorkflowNodesDistinct(g: Graph)
    requires IsWorkflow(g)
    ensures DistinctNodes(g.nodes)
  {
  }

  lemma WorkflowEdgesDeclared(g: Graph)
    requires IsWorkflow(g)
    ensures EdgesDeclared(g)
  {
    if g == FullGraph() {
      FullEdgesDeclared();
    } else if g == VectorGraph() {
      VectorEdgesDeclared();
    } else {
      KgEdgesDeclared();
    }
  }

  lemma FullEdgesDeclared()
    ensures EdgesDeclared(FullGraph())
  {
  }

  lemma VectorEdgesDeclared()
    ensures EdgesDeclared(VectorGraph())
  {
  }

  lemma KgEdgesDeclared()
    ensures EdgesDeclared(KgGraph())
  {
  }

  /** The full graph fans out from START to exactly the two retrieval nodes, vector first. */
  lemma FullStartSuccessors()
    ensures Targets(FullGraph().edges, Start) == [At(SearchVectorDb), At(SearchKgDb)]
    ensures forall w :: Edge(FullGraph(), Start, w) <==> w == At(SearchVectorDb) || w == At(SearchKgDb)
  {
  }

  /**
   * In the full graph `generate_answer` is the target of no plain edge and of
   * exactly one join, whose sources are the two retrieval nodes.
   */
  lemma FullJoinIntoGenerate()
    ensures forall u :: (u, At(GenerateAnswer)) !in FullGraph().edges
    ensures forall j :: j in FullGraph().joins && j.target == GenerateAnswer ==> multiset(j.sources) == multiset{SearchKgDb, SearchVectorDb}
    ensures forall u :: Edge(FullGraph(), u, At(GenerateAnswer)) <==> u == At(SearchKgDb) || u == At(SearchVectorDb)
  {
    assert Values(GraderPaths) == [End, At(Websearch)];
  }

  /**
   * `generate_answer` always continues to `grader` and has no router; `grader`
   * has a router whose labels are exactly "good" (to END) and "not good enough"
   * (to `websearch`), and no plain edge.
   */
  lemma GraderRouting(g: Graph)
    requires IsWorkflow(g)
    ensures forall w :: (At(GenerateAnswer), w) in g.edges <==> w == At(Grader)
    ensures BranchOf(g.branches, GenerateAnswer) == None
    ensures JoinsFrom(g.joins, GenerateAnswer) == [] && JoinsFrom(g.joins, Grader) == []
    ensures forall w :: (At(Grader), w) !in g.edges
    ensures BranchOf(g.branches, Grader) == Some(GraderPaths)
  {
  }

  /** The router's labels are exactly "good" (to END) and "not good enough" (to `websearch`). */
  lemma GraderPathLabels()
    ensures Keys(GraderPaths) == [Agents.Good, Agents.NotGoodEnough]
    ensures Get(GraderPaths, Agents.Good) == Some(End)
    ensures Get(GraderPaths, Agents.NotGoodEnough) == Some(At(Websearch))
    ensures forall name :: name != Agents.Good && name != Agents.NotGoodEnough ==> Get(GraderPaths, name) == None
  {
    assert Keys(GraderPaths) == [Agents.Good, Agents.NotGoodEnough];
  }

  /** In each graph, END is reached from `grader` and from nothing else. */
  lemma EndOnlyFromGrader(g: Graph)
    requires IsWorkflow(g)
    ensures forall u :: Edge(g, u, End) <==> u == At(Grader)
  {
    assert Values(GraderPaths) == [End, At(Websearch)];
  }

  /** The vector-only and KG-only graphs enter at their one retrieval node, which leads straight to `generate_answer`. */
  lemma SingleEntry(g: Graph, entry: Node)
    requires (g == VectorGraph() && entry == SearchVectorDb) || (g == KgGraph() && entry == SearchKgDb)
    ensures forall w :: Edge(g, Start, w) <==> w == At(entry)
    ensures forall w :: Edge(g, At(entry), w) <==> w == At(GenerateAnswer)
    ensures g.joins == []
  {
    assert Values(GraderPaths) == [End, At(Websearch)];
  }

  /** From `generate_answer` on, the three graphs have the same edges. */
  lemma SameTail(g: Graph, n: Node, w: Vertex)
    requires IsWorkflow(g) && n in TailNodes
    ensures Edge(g, At(n), w) <==> Edge(FullGraph(), At(n), w)
  {
  }

  // ----- the only cycle -----

  /** The nodes of the refinement loop. */
  predicate InLoop(v: Vertex)
  {
    v == At(Grader) || v == At(Websearch) || v == At(RefineAnswer)
  }

  /** A ranking of the vertices that every edge outside the loop strictly increases. */
  function Rank(v: Vertex): (r: nat)
    ensures InLoop(v) ==> r == 3
  {
    match v
    case Start => 0
    case At(SearchKgDb) => 1
    case At(SearchVectorDb) => 1
    case At(GenerateAnswer) => 2
    case At(_) => 3
    case End => 4
  }

  /** Every edge climbs the ranking unless it joins two loop nodes, and the loop edges are exactly the three of the cycle. */
  lemma EdgeRank(g: Graph, u: Vertex, w: Vertex)
    requires IsWorkflow(g) && Edge(g, u, w)
    ensures Rank(u) < Rank(w) || (InLoop(u) && InLoop(w))
    ensures InLoop(u) && InLoop(w) <==>
      (u, w) in [(At(Grader), At(Websearch)), (At(Websearch), At(RefineAnswer)), (At(RefineAnswer), At(Grader))]
  {
    if g == FullGraph() {
      EdgeRankIn(FullGraph(), u, w);
    } else if g == VectorGraph() {
      EdgeRankIn(VectorGraph(), u, w);
    } else {
      EdgeRankIn(KgGraph(), u, w);
    }
  }

  lemma EdgeRankIn(g: Graph, u: Vertex, w: Vertex)
    requires (g == FullGraph() || g == VectorGraph() || g == KgGraph()) && Edge(g, u, w)
    ensures Rank(u) < Rank(w) || (InLoop(u) && InLoop(w))
    ensures InLoop(u) && InLoop(w) <==>
      (u, w) in [(At(Grader), At(Websearch)), (At(Websearch), At(RefineAnswer)), (At(RefineAnswer), At(Grader))]
  {
    assert Values(GraderPaths) == [End, At(Websearch)];
    assert Edge(g, u, w) ==> (u, w) in g.edges || (u.At? && u.node in [SearchKgDb, SearchVectorDb] && w == At(GenerateAnswer)) || (u == At(Grader) && w in [End, At(Websearch)]);
  }

  /** The three loop edges are present in each graph. */
  lemma LoopEdgesPresent(g: Graph)
    requires IsWorkflow(g)
    ensures Edge(g, At(Grader), At(Websearch))
    ensures Edge(g, At(Websearch), At(RefineAnswer))
    ensures Edge(g, At(RefineAnswer), At(Grader))
  {
    assert Values(GraderPaths) == [End, At(Websearch)];
    assert Branch(Grader, GraderPaths) in g.branches;
  }

  /** A walk follows edges of `g` from vertex to vertex. */
  predicate Walk(g: Graph, w: seq<Vertex>)
  {
    forall i :: 0 <= i < |w| - 1 ==> Edge(g, w[i], w[i + 1])
  }

  /** Ranks that never drop from one vertex to the next never drop along the walk. */
  lemma {:induction false} RankMonotone(w: seq<Vertex>, i: nat, j: nat)
    requires forall k :: 0 <= k < |w| - 1 ==> Rank(w[k]) <= Rank(w[k + 1])
    requires i <= j < |w|
    ensures Rank(w[i]) <= Rank(w[j])
  {
    if i < j {
      RankMonotone(w, i, j - 1);
    }
  }

  /**
   * The only cycle is `grader -> websearch -> refine_answer -> grader`: every
   * vertex of a closed walk lies on it.
   */
  lemma {:induction false} ClosedWalksStayInLoop(g: Graph, w: seq<Vertex>)
    requires IsWorkflow(g) && Walk(g, w) && |w| >= 2 && w[0] == w[|w| - 1]
    ensures forall i :: 0 <= i < |w| ==> InLoop(w[i])
  {
    forall k | 0 <= k < |w| - 1 ensures Climbs(w[k], w[k + 1]) {
      EdgeRank(g, w[k], w[k + 1]);
    }
    ClosedClimbInLoop(w);
  }

  /** An edge climbs the ranking or stays in the loop. */
  predicate Climbs(u: Vertex, w: Vertex)
  {
    Rank(u) < Rank(w) || (InLoop(u) && InLoop(w))
  }

  /** A closed walk along edges that climb or stay in the loop never leaves the loop. */
  lemma {:induction false} ClosedClimbInLoop(w: seq<Vertex>)
    requires forall k :: 0 <= k < |w| - 1 ==> Climbs(w[k], w[k + 1])
    requires |w| >= 2 && w[0] == w[|w| - 1]
    ensures forall i :: 0 <= i < |w| ==> InLoop(w[i])
  {
    forall i | 0 <= i < |w| ensures InLoop(w[i]) {
      var k := if i < |w| - 1 then i else 0;
      assert w[k] == w[i];
      assert Climbs(w[k], w[k + 1]);
      if !InLoop(w[k]) {
        RankMonotone(w, 0, k);
        RankMonotone(w, k + 1, |w| - 1);
        assert false;
      }
    }
  }
}

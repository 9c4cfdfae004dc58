/**
  The pipeline's topology (src/graph.py): `Workflow.__init__` declares
  five nodes and seven edges on a StateGraph builder. Two two-node chains
  leave START, both end in Feedback_and_similarity, and that node leads
  to END.

  The analysis is over the declared edge list: successors and
  predecessors, readiness (a node may run once all its predecessors have
  run), acyclicity, reachability, orders of execution that respect
  readiness, and the superstep reading, in which a node runs in the step
  after one of its predecessors ran.
 */
module Graph {
  /** The nodes, including the builder's START and END markers. */
  datatype Node =
    | Start | JobSearching | ResumeTextExtractor | ExtractFieldsFromResume
    | ExtractFieldsFromJobDesc | FeedbackAndSimilarity | End

  /** The name a node is registered under. */
  function Name(n: Node): string {
    match n
    case Start => "__start__"
    case JobSearching => "job_searching_node"
    case ResumeTextExtractor => "resume_text_extractor"
    case ExtractFieldsFromResume => "extract_fields_from_resume"
    case ExtractFieldsFromJobDesc => "extract_fields_from_job_desc"
    case FeedbackAndSimilarity => "Feedback_and_similarity"
    case End => "__end__"
  }

  lemma NameInjective(a: Node, b: Node)
    requires Name(a) == Name(b)
    ensures a == b
  {
  }

  datatype Edge = Edge(from: Node, to: Node)

  /** The graph builder: the nodes and edges declared so far, in order. */
  class StateGraph {
    var nodes: seq<Node>
    var edges: seq<Edge>

    constructor ()
      ensures nodes == [] && edges == []
    {
      nodes := [];
      edges := [];
    }

    method AddNode(n: Node)
      modifies this
      ensures nodes == old(nodes) + [n] && edges == old(edges)
    {
      nodes := nodes + [n];
    }

    method AddEdge(a: Node, b: Node)
      modifies this
      ensures edges == old(edges) + [Edge(a, b)] && nodes == old(nodes)
    {
      edges := edges + [Edge(a, b)];
    }
  }

  /** The nodes in the order `Workflow.__init__` adds them. */
  const WorkflowNodes: seq<Node> :=
    [JobSearching, ResumeTextExtractor, ExtractFieldsFromResume, ExtractFieldsFromJobDesc, FeedbackAndSimilarity]

  /** The edges in the order `Workflow.__init__` adds them. */
  const WorkflowEdges: seq<Edge> := [
    Edge(Start, JobSearching),
    Edge(JobSearching, ExtractFieldsFromJobDesc),
    Edge(Start, ResumeTextExtractor),
    Edge(ResumeTextExtractor, ExtractFieldsFromResume),
    Edge(ExtractFieldsFromJobDesc, FeedbackAndSimilarity),
    Edge(ExtractFieldsFromResume, FeedbackAndSimilarity),
    Edge(FeedbackAndSimilarity, End)]

  /** The workflow: a builder that received exactly the declarations above. */
  class Workflow {
    var graph: StateGraph

    constructor ()
      ensures fresh(graph)
      ensures graph.nodes == WorkflowNodes && graph.edges == WorkflowEdges
    {
      var g := new StateGraph();
      g.AddNode(JobSearching);
      g.AddNode(ResumeTextExtractor);
      g.AddNode(ExtractFieldsFromResume);
      g.AddNode(ExtractFieldsFromJobDesc);
      g.AddNode(FeedbackAndSimilarity);
      g.AddEdge(Start, JobSearching);
      g.AddEdge(JobSearching, ExtractFieldsFromJobDesc);
      g.AddEdge(Start, ResumeTextExtractor);
      g.AddEdge(ResumeTextExtractor, ExtractFieldsFromResume);
      g.AddEdge(ExtractFieldsFromJobDesc, FeedbackAndSimilarity);
      g.AddEdge(ExtractFieldsFromResume, FeedbackAndSimilarity);
      g.AddEdge(FeedbackAndSimilarity, End);
      graph := g;
    }
  }

  /** Exactly five named nodes, all distinct, besides START and END. */
  lemma WorkflowNodeSet()
    ensures |WorkflowNodes| == 5
    ensures forall i, j :: 0 <= i < j < |WorkflowNodes| ==> WorkflowNodes[i] != WorkflowNodes[j]
    ensures forall n: Node :: n in WorkflowNodes <==> n != Start && n != End
  {
  }

  /** Every edge joins declared nodes (or START and END), and none enters START or leaves END. */
  lemma EdgesJoinDeclaredNodes(e: Edge)
    requires e in WorkflowEdges
    ensures e.from == Start || e.from in WorkflowNodes
    ensures e.to == End || e.to in WorkflowNodes
    ensures e.to != Start && e.from != End
  {
  }

  function Successors(n: Node): (s: set<Node>)
  {
    set e | e in WorkflowEdges && e.from == n :: e.to
  }

  function Predecessors(n: Node): (s: set<Node>)
  {
    set e | e in WorkflowEdges && e.to == n :: e.from
  }

  /** START opens exactly the two branches. */
  lemma StartSuccessors()
    ensures Successors(Start) == {JobSearching, ResumeTextExtractor}
    ensures Predecessors(Start) == {}
  {
    assert Edge(Start, JobSearching) == WorkflowEdges[0];
    assert Edge(Start, ResumeTextExtractor) == WorkflowEdges[2];
  }

  /** Each branch is a two-node chain. */
  lemma BranchesAreChains()
    ensures Successors(JobSearching) == {ExtractFieldsFromJobDesc}
    ensures Predecessors(JobSearching) == {Start}
    ensures Predecessors(ExtractFieldsFromJobDesc) == {JobSearching}
    ensures Successors(ResumeTextExtractor) == {ExtractFieldsFromResume}
    ensures Predecessors(ResumeTextExtractor) == {Start}
    ensures Predecessors(ExtractFieldsFromResume) == {ResumeTextExtractor}
  {
    assert Edge(Start, JobSearching) == WorkflowEdges[0];
    assert Edge(JobSearching, ExtractFieldsFromJobDesc) == WorkflowEdges[1];
    assert Edge(Start, ResumeTextExtractor) == WorkflowEdges[2];
    assert Edge(ResumeTextExtractor, ExtractFieldsFromResume) == WorkflowEdges[3];
  }

  /** The two chain ends are the only predecessors of the feedback node, which alone precedes END. */
  lemma FanIn()
    ensures Predecessors(FeedbackAndSimilarity) == {ExtractFieldsFromJobDesc, ExtractFieldsFromResume}
    ensures Successors(ExtractFieldsFromJobDesc) == {FeedbackAndSimilarity}
    ensures Successors(ExtractFieldsFromResume) == {FeedbackAndSimilarity}
    ensures Successors(FeedbackAndSimilarity) == {End}
    ensures Predecessors(End) == {FeedbackAndSimilarity}
    ensures Successors(End) == {}
  {
    assert Edge(ExtractFieldsFromJobDesc, FeedbackAndSimilarity) == WorkflowEdges[4];
    assert Edge(ExtractFieldsFromResume, FeedbackAndSimilarity) == WorkflowEdges[5];
    assert Edge(FeedbackAndSimilarity, End) == WorkflowEdges[6];
  }

  /** A node is ready once every predecessor has run. */
  predicate Ready(done: set<Node>, n: Node) {
    Predecessors(n) <= done
  }

  /** The join: the feedback node is ready exactly when both branch ends have run. */
  lemma FeedbackWaitsForBoth(done: set<Node>)
    ensures Ready(done, FeedbackAndSimilarity) <==> ExtractFieldsFromJobDesc in done && ExtractFieldsFromResume in done
  {
    FanIn();
  }

  // ---------------------------------------------------------------------
  // Acyclicity and reachability

  /** The depth of a node: every edge goes one or more levels deeper. */
  function Depth(n: Node): nat {
    match n
    case Start => 0
    case JobSearching => 1
    case ResumeTextExtractor => 1
    case ExtractFieldsFromJobDesc => 2
    case ExtractFieldsFromResume => 2
    case FeedbackAndSimilarity => 3
    case End => 4
  }

  lemma EdgesGoDeeper(e: Edge)
    requires e in WorkflowEdges
    ensures Depth(e.from) < Depth(e.to)
  {
  }

  /** A walk along declared edges. */
  predicate IsPath(p: seq<Node>) {
    |p| >= 1 && forall i :: 0 <= i < |p| - 1 ==> Edge(p[i], p[i + 1]) in WorkflowEdges
  }

  /** Along a path the depth grows by at least one per edge. */
  lemma {:induction false} PathGoesDeeper(p: seq<Node>)
    requires IsPath(p)
    ensures Depth(p[0]) + |p| - 1 <= Depth(p[|p| - 1])
  {
    if |p| > 1 {
      var init := p[..|p| - 1];
      assert IsPath(init) by {
        forall i | 0 <= i < |init| - 1 ensures Edge(init[i], init[i + 1]) in WorkflowEdges {
          assert init[i] == p[i] && init[i + 1] == p[i + 1];
        }
      }
      PathGoesDeeper(init);
      EdgesGoDeeper(Edge(p[|p| - 2], p[|p| - 1]));
    }
  }

  /** The graph is acyclic: no path of one or more edges returns to where it began, and none is longer than five nodes. */
  lemma Acyclic(p: seq<Node>)
    requires IsPath(p)
    ensures |p| >= 2 ==> p[0] != p[|p| - 1]
    ensures |p| <= 5
  {
    PathGoesDeeper(p);
  }

  ghost predicate Reaches(a: Node, b: Node) {
    exists p :: IsPath(p) && p[0] == a && p[|p| - 1] == b
  }

  /** A path from START to END through the given node. */
  function Through(n: Node): (p: seq<Node>)
    ensures IsPath(p) && p[0] == Start && p[|p| - 1] == End && n in p
  {
    assert Edge(Start, JobSearching) == WorkflowEdges[0];
    assert Edge(JobSearching, ExtractFieldsFromJobDesc) == WorkflowEdges[1];
    assert Edge(Start, ResumeTextExtractor) == WorkflowEdges[2];
    assert Edge(ResumeTextExtractor, ExtractFieldsFromResume) == WorkflowEdges[3];
    assert Edge(ExtractFieldsFromJobDesc, FeedbackAndSimilarity) == WorkflowEdges[4];
    assert Edge(ExtractFieldsFromResume, FeedbackAndSimilarity) == WorkflowEdges[5];
    assert Edge(FeedbackAndSimilarity, End) == WorkflowEdges[6];
    var jobBranch := [Start, JobSearching, ExtractFieldsFromJobDesc, FeedbackAndSimilarity, End];
    var resumeBranch := [Start, ResumeTextExtractor, ExtractFieldsFromResume, FeedbackAndSimilarity, End];
    match n
    case Start => jobBranch
    case JobSearching => jobBranch
    case ExtractFieldsFromJobDesc => jobBranch
    case ResumeTextExtractor => resumeBranch
    case ExtractFieldsFromResume => resumeBranch
    case FeedbackAndSimilarity => jobBranch
    case End => jobBranch
  }

  /** The seven nodes. */
  const AllNodes: seq<Node> :=
    [Start, JobSearching, ResumeTextExtractor, ExtractFieldsFromJobDesc, ExtractFieldsFromResume, FeedbackAndSimilarity, End]

  lemma InAllNodes(n: Node)
    ensures n in AllNodes
  {
    match n
    case Start => assert AllNodes[0] == n;
    case JobSearching => assert AllNodes[1] == n;
    case ResumeTextExtractor => assert AllNodes[2] == n;
    case ExtractFieldsFromJobDesc => assert AllNodes[3] == n;
    case ExtractFieldsFromResume => assert AllNodes[4] == n;
    case FeedbackAndSimilarity => assert AllNodes[5] == n;
    case End => assert AllNodes[6] == n;
  }

  /** Every node is reachable from START, and END is reachable from every node. */
  lemma EveryNodeIsOnAPath(n: Node)
    ensures Reaches(Start, n) && Reaches(n, End)
  {
    var p := Through(n);
    var i :| 0 <= i < |p| && p[i] == n;
    var head, tail := p[..i + 1], p[i..];
    assert IsPath(head) by {
      forall k | 0 <= k < |head| - 1 ensures Edge(head[k], head[k + 1]) in WorkflowEdges {
        assert head[k] == p[k] && head[k + 1] == p[k + 1];
      }
    }
    assert IsPath(tail) by {
      forall k | 0 <= k < |tail| - 1 ensures Edge(tail[k], tail[k + 1]) in WorkflowEdges {
        assert tail[k] == p[i + k] && tail[k + 1] == p[i + k + 1];
      }
    }
    assert head[0] == Start && head[|head| - 1] == n;
    assert tail[0] == n && tail[|tail| - 1] == End;
  }

  // ---------------------------------------------------------------------
  // Orders of execution

  /**
    A sequential run: every node exactly once, each after all its
    predecessors.
   */
  predicate ValidRun(order: seq<Node>) {
    && (forall i, j :: 0 <= i < j < |order| ==> order[i] != order[j])
    && (forall n: Node :: n in order)
    && (forall i, e :: 0 <= i < |order| && e in WorkflowEdges && e.to == order[i] ==> e.from in order[..i])
  }

  /** In a valid run each node is ready when it runs. */
  lemma ValidRunRunsReadyNodes(order: seq<Node>, i: nat)
    requires ValidRun(order) && i < |order|
    ensures Ready(set k | 0 <= k < i :: order[k], order[i])
  {
    forall m | m in Predecessors(order[i])
      ensures m in set k | 0 <= k < i :: order[k]
    {
      var e :| e in WorkflowEdges && e.to == order[i] && e.from == m;
      assert m in order[..i];
      var k :| 0 <= k < i && order[..i][k] == m;
      assert order[k] == m;
    }
  }

  /** Runs exist: the branches one step at a time, then the join, then END. */
  lemma SomeRunIsValid()
    ensures ValidRun(AllNodes)
  {
    var order := AllNodes;
    forall n: Node ensures n in order {
      InAllNodes(n);
    }
    forall i, e | 0 <= i < |order| && e in WorkflowEdges && e.to == order[i]
      ensures e.from in order[..i]
    {
      assert order[..i] == order[..7][..i];
      if i == 6 { assert order[..i][5] == FeedbackAndSimilarity; }
      if i == 5 { assert order[..i][3] == ExtractFieldsFromJobDesc && order[..i][4] == ExtractFieldsFromResume; }
      if i == 4 { assert order[..i][2] == ResumeTextExtractor; }
      if i == 3 { assert order[..i][1] == JobSearching; }
      if i == 1 || i == 2 { assert order[..i][0] == Start; }
    }
  }

  /** Where a node sits in a run. */
  lemma IndexOf(order: seq<Node>, n: Node) returns (i: nat)
    requires ValidRun(order)
    ensures i < |order| && order[i] == n
    ensures forall j :: 0 <= j < |order| && order[j] == n ==> j == i
  {
    assert n in order;
    i :| 0 <= i < |order| && order[i] == n;
  }

  /** In a valid run, a predecessor runs before its successor. */
  lemma PredecessorRunsFirst(order: seq<Node>, e: Edge, i: nat, j: nat)
    requires ValidRun(order) && e in WorkflowEdges
    requires i < |order| && j < |order| && order[i] == e.from && order[j] == e.to
    ensures i < j
  {
    assert e.from in order[..j];
    var k :| 0 <= k < j && order[..j][k] == e.from;
    assert order[k] == e.from;
  }

  /**
    Every valid run has seven steps, starts at START, ends at END, and
    runs the feedback node after both branch ends.
   */
  lemma ValidRunShape(order: seq<Node>)
    requires ValidRun(order)
    ensures |order| == 7
    ensures order[0] == Start && order[|order| - 1] == End
    ensures forall i, j :: (0 <= i < |order| && 0 <= j < |order| && order[j] == FeedbackAndSimilarity
                            && (order[i] == ExtractFieldsFromJobDesc || order[i] == ExtractFieldsFromResume)) ==> i < j
  {
    var all := set n | n in AllNodes;
    forall n: Node ensures n in all {
      InAllNodes(n);
    }
    assert |all| == 7 by {
      SomeRunIsValid();
      DistinctCount(AllNodes, all);
    }
    DistinctCount(order, all);
    var last := |order| - 1;
    if order[last] != End {
      var e :| e in WorkflowEdges && e.from == order[last];
      var j := IndexOf(order, e.to);
      PredecessorRunsFirst(order, e, last, j);
    }
    forall i, j | 0 <= i < |order| && 0 <= j < |order| && order[j] == FeedbackAndSimilarity
              && (order[i] == ExtractFieldsFromJobDesc || order[i] == ExtractFieldsFromResume)
      ensures i < j
    {
      PredecessorRunsFirst(order, Edge(order[i], FeedbackAndSimilarity), i, j);
    }
  }

  /** A duplicate-free sequence whose elements are exactly a set has the set's size. */
  lemma {:induction false} DistinctCount(s: seq<Node>, all: set<Node>)
    requires forall i, j :: 0 <= i < j < |s| ==> s[i] != s[j]
    requires forall n :: n in all <==> n in s
    ensures |s| == |all|
  {
    if s != [] {
      var init := s[..|s| - 1];
      var x := s[|s| - 1];
      forall n ensures n in all - {x} <==> n in init {
        if n in init {
          var k :| 0 <= k < |init| && init[k] == n;
          assert s[k] == n;
        }
        if n in s && n != x {
          var k :| 0 <= k < |s| && s[k] == n;
          assert init[k] == n;
        }
      }
      DistinctCount(init, all - {x});
    }
  }

  // ---------------------------------------------------------------------
  // Supersteps

  /** The nodes triggered by the ones that ran in a step: all their successors. */
  function Triggered(active: set<Node>): set<Node> {
    set e | e in WorkflowEdges && e.from in active :: e.to
  }

  /** The nodes that run in step k, starting from START. */
  function Superstep(k: nat): set<Node> {
    if k == 0 then {Start} else Triggered(Superstep(k - 1))
  }

  /** One node that ran triggers its successors. */
  lemma TriggeredOne(a: Node)
    ensures Triggered({a}) == Successors(a)
  {
  }

  /** Two nodes that ran together trigger the successors of both. */
  lemma TriggeredPair(a: Node, b: Node)
    ensures Triggered({a, b}) == Successors(a) + Successors(b)
  {
  }

  /** Step by step: the branch heads, the branch ends, the join, END, then nothing. */
  lemma SuperstepsOfWorkflow()
    ensures Superstep(1) == {JobSearching, ResumeTextExtractor}
    ensures Superstep(2) == {ExtractFieldsFromJobDesc, ExtractFieldsFromResume}
    ensures Superstep(3) == {FeedbackAndSimilarity}
    ensures Superstep(4) == {End}
    ensures Superstep(5) == {}
  {
    assert Superstep(1) == {JobSearching, ResumeTextExtractor} by {
      StartSuccessors();
      TriggeredOne(Start);
    }
    assert Superstep(2) == {ExtractFieldsFromJobDesc, ExtractFieldsFromResume} by {
      BranchesAreChains();
      TriggeredPair(JobSearching, ResumeTextExtractor);
    }
    assert Superstep(3) == {FeedbackAndSimilarity} by {
      FanIn();
      TriggeredPair(ExtractFieldsFromJobDesc, ExtractFieldsFromResume);
    }
    assert Superstep(4) == {End} by {
      FanIn();
      TriggeredOne(FeedbackAndSimilarity);
    }
    FanIn();
    TriggeredOne(End);
  }

  lemma {:induction false} LaterSuperstepsAreEmpty(k: nat)
    requires k >= 5
    ensures Superstep(k) == {}
  {
    if k == 5 {
      SuperstepsOfWorkflow();
    } else {
      LaterSuperstepsAreEmpty(k - 1);
    }
  }

  /**
    Under the superstep reading the feedback node runs once, in step 3,
    the step after both branch ends ran together: the two chains have the
    same length.
   */
  lemma FeedbackRunsOnceAfterBoth(k: nat)
    ensures FeedbackAndSimilarity in Superstep(k) <==> k == 3
    ensures Predecessors(FeedbackAndSimilarity) <= Superstep(2)
  {
    SuperstepsOfWorkflow();
    FanIn();
    if k >= 5 {
      LaterSuperstepsAreEmpty(k);
    }
  }
}

/**
  The workflow graph: six registered nodes between the synthetic START and END, the static
  edges in the order they are added, and one conditional edge leaving the risk gate. A pass
  runs in supersteps: every node whose predecessor ran in the previous superstep runs next,
  so a node with two predecessors in the same superstep runs once, after both.
 */
module Graph {

  import opened Results
  import opened Types
  import Routing

  datatype Node = Start | AnalystAgent | QuantAgent | CIOAgent | RiskAgent | HumanNode | ExecutionNode | End

  function NodeName(n: Node): string {
    match n
    case Start => "__start__"
    case AnalystAgent => "AnalystAgent"
    case QuantAgent => "QuantAgent"
    case CIOAgent => "CIOAgent"
    case RiskAgent => "RiskAgent"
    case HumanNode => "HumanNode"
    case ExecutionNode => "ExecutionNode"
    case End => "__end__"
  }

  /** The nodes added to the builder, one per step function. */
  const Registered: set<Node> := {AnalystAgent, QuantAgent, CIOAgent, RiskAgent, HumanNode, ExecutionNode}

  /** The registered node a name refers to, if any. */
  function NodeNamed(name: string): (r: Option<Node>)
    ensures r.Some? ==> r.value in Registered && NodeName(r.value) == name
    ensures forall n :: n in Registered && NodeName(n) == name ==> r == Some(n)
  {
    if name == "AnalystAgent" then Some(AnalystAgent)
    else if name == "QuantAgent" then Some(QuantAgent)
    else if name == "CIOAgent" then Some(CIOAgent)
    else if name == "RiskAgent" then Some(RiskAgent)
    else if name == "HumanNode" then Some(HumanNode)
    else if name == "ExecutionNode" then Some(ExecutionNode)
    else None
  }

  /** The unconditional edges, in the order they are added. */
  const StaticEdges: seq<(Node, Node)> := [
    (Start, AnalystAgent),
    (Start, QuantAgent),
    (AnalystAgent, CIOAgent),
    (QuantAgent, CIOAgent),
    (CIOAgent, RiskAgent),
    (HumanNode, ExecutionNode),
    (ExecutionNode, End)
  ]

  /** The one node with a conditional edge; its router is Routing.RouteCIODecision. */
  const BranchNode: Node := RiskAgent

  /** Every edge leaves START or a registered node and enters END or a registered node. */
  lemma EdgesWellFormed()
    ensures forall e :: e in StaticEdges ==> (e.0 == Start || e.0 in Registered) && (e.1 == End || e.1 in Registered)
    ensures BranchNode in Registered
    ensures forall e :: e in StaticEdges ==> e.1 != Start && e.0 != End
  {
  }

  /** Whatever name the router returns is a registered node: HumanNode or ExecutionNode. */
  lemma RouterTargetsRegistered(v: Verdict)
    requires Routing.RouteCIODecision(v).Success?
    ensures NodeNamed(Routing.RouteCIODecision(v).value).Some?
    ensures NodeNamed(Routing.RouteCIODecision(v).value).value in {HumanNode, ExecutionNode}
  {
  }

  /** Edges of the graph, counting the two targets the router can return. */
  predicate IsEdge(n: Node, m: Node) {
    (n, m) in StaticEdges || (n == BranchNode && m in {HumanNode, ExecutionNode})
  }

  function Predecessors(m: Node): set<Node> {
    set e | e in StaticEdges && e.1 == m :: e.0
  }

  /** The join waits on exactly the two fan-out agents; every other step has one static predecessor. */
  lemma Topology()
    ensures Predecessors(AnalystAgent) == {Start} && Predecessors(QuantAgent) == {Start}
    ensures Predecessors(CIOAgent) == {AnalystAgent, QuantAgent}
    ensures Predecessors(RiskAgent) == {CIOAgent}
    ensures Predecessors(ExecutionNode) == {HumanNode}
    ensures Predecessors(End) == {ExecutionNode}
  {
    assert StaticEdges[2].1 == CIOAgent && StaticEdges[3].1 == CIOAgent;
    assert StaticEdges[4].1 == RiskAgent;
    assert StaticEdges[5].1 == ExecutionNode;
    assert StaticEdges[6].1 == End;
    assert StaticEdges[0].1 == AnalystAgent && StaticEdges[1].1 == QuantAgent;
  }

  /** A topological rank: every edge leads to a strictly higher rank. */
  function Rank(n: Node): nat {
    match n
    case Start => 0
    case AnalystAgent => 1
    case QuantAgent => 1
    case CIOAgent => 2
    case RiskAgent => 3
    case HumanNode => 4
    case ExecutionNode => 5
    case End => 6
  }

  predicate IsPath(p: seq<Node>) {
    forall i :: 0 <= i < |p| - 1 ==> IsEdge(p[i], p[i + 1])
  }

  lemma EdgeRaisesRank(n: Node, m: Node)
    requires IsEdge(n, m)
    ensures Rank(n) < Rank(m)
  {
  }

  lemma {:induction false} PathRaisesRank(p: seq<Node>)
    requires IsPath(p) && |p| >= 2
    ensures Rank(p[0]) < Rank(p[|p| - 1])
    decreases |p|
  {
    EdgeRaisesRank(p[0], p[1]);
    if |p| > 2 {
      assert IsPath(p[1..]);
      PathRaisesRank(p[1..]);
    }
  }

  /** No path of one or more edges returns to where it started: the graph is acyclic. */
  lemma Acyclic(p: seq<Node>)
    requires IsPath(p) && |p| >= 2
    ensures p[0] != p[|p| - 1]
  {
    PathRaisesRank(p);
  }

  // ---------------------------------------------------------------- supersteps

  /** The nodes triggered by the superstep `active`, when the router picks `routed`. */
  function Next(active: set<Node>, routed: Node): set<Node> {
    Targets(StaticEdges, active) + (if BranchNode in active then {routed} else {})
  }

  /** The targets of the edges of `edges` that leave `active`. */
  function Targets(edges: seq<(Node, Node)>, active: set<Node>): set<Node> {
    if edges == [] then {}
    else (if edges[0].0 in active then {edges[0].1} else {}) + Targets(edges[1..], active)
  }

  /**
    `steps` is a run of the graph from START: each superstep holds exactly the nodes the
    previous one triggers, and the last triggers only END.
   */
  predicate IsRun(steps: seq<set<Node>>, routed: Node) {
    && |steps| > 0
    && steps[0] == Next({Start}, routed)
    && (forall i :: 0 <= i < |steps| - 1 ==> steps[i + 1] == Next(steps[i], routed))
    && Next(steps[|steps| - 1], routed) == {End}
  }

  /** The pass for each router decision, superstep by superstep. */
  function Schedule(routed: Node): seq<set<Node>> {
    [{AnalystAgent, QuantAgent}, {CIOAgent}, {RiskAgent}] +
    (if routed == HumanNode then [{HumanNode}, {ExecutionNode}] else [{ExecutionNode}])
  }

  /**
    Running the graph from START: the two fan-out agents share the first superstep, the CIO
    runs alone after both, then the risk gate, then HumanNode only when routed there, and
    ExecutionNode last.
   */
  lemma ScheduleIsRun(routed: Node)
    requires routed in {HumanNode, ExecutionNode}
    ensures IsRun(Schedule(routed), routed)
  {
    var steps := Schedule(routed);
    assert steps[0] == Next({Start}, routed) by { NextSteps(routed); }
    assert Next(steps[|steps| - 1], routed) == {End} by { NextSteps(routed); }
    forall i | 0 <= i < |steps| - 1
      ensures steps[i + 1] == Next(steps[i], routed)
    {
      StepFollows(routed, i);
    }
  }

  lemma StepFollows(routed: Node, i: nat)
    requires routed in {HumanNode, ExecutionNode}
    requires i < |Schedule(routed)| - 1
    ensures Schedule(routed)[i + 1] == Next(Schedule(routed)[i], routed)
  {
    var steps := Schedule(routed);
    if i == 0 {
      assert steps[1] == Next(steps[0], routed) by { NextSteps(routed); }
    } else if i == 1 {
      assert steps[2] == Next(steps[1], routed) by { NextSteps(routed); }
    } else if i == 2 {
      assert steps[3] == Next(steps[2], routed) by { NextSteps(routed); }
    } else {
      assert steps[4] == Next(steps[3], routed) by { NextSteps(routed); }
    }
  }

  /** One superstep at a time. */
  lemma NextSteps(routed: Node)
    ensures Next({Start}, routed) == {AnalystAgent, QuantAgent}
    ensures Next({AnalystAgent, QuantAgent}, routed) == {CIOAgent}
    ensures Next({CIOAgent}, routed) == {RiskAgent}
    ensures Next({RiskAgent}, routed) == {routed}
    ensures Next({HumanNode}, routed) == {ExecutionNode}
    ensures Next({ExecutionNode}, routed) == {End}
  {
    FanOutStep(routed);
    JoinStep(routed);
    TailSteps(routed);
  }

  lemma FanOutStep(routed: Node)
    ensures Next({Start}, routed) == {AnalystAgent, QuantAgent}
  {
  }

  lemma JoinStep(routed: Node)
    ensures Next({AnalystAgent, QuantAgent}, routed) == {CIOAgent}
    ensures Next({CIOAgent}, routed) == {RiskAgent}
    ensures Next({RiskAgent}, routed) == {routed}
  {
  }

  lemma TailSteps(routed: Node)
    ensures Next({HumanNode}, routed) == {ExecutionNode}
    ensures Next({ExecutionNode}, routed) == {End}
  {
  }

  /** END and the empty superstep trigger nothing. */
  lemma NothingAfterEnd(routed: Node)
    ensures Next({End}, routed) == {}
    ensures Next({}, routed) == {}
  {
  }

  /** The graph is deterministic once the router has decided: it has one run. */
  lemma {:induction false} RunIsUnique(steps: seq<set<Node>>, other: seq<set<Node>>, routed: Node)
    requires IsRun(steps, routed) && IsRun(other, routed)
    ensures steps == other
  {
    var n := if |steps| <= |other| then |steps| else |other|;
    SameUpTo(steps, other, routed, n);
    if |steps| != |other| {
      var (short, long) := if |steps| < |other| then (steps, other) else (other, steps);
      // the longer run goes on past a superstep that only triggers END
      assert long[|short|] == Next(short[|short| - 1], routed);
      DeadAfterEnd(long, routed, |short|);
    }
  }

  lemma {:induction false} SameUpTo(steps: seq<set<Node>>, other: seq<set<Node>>, routed: Node, n: nat)
    requires IsRun(steps, routed) && IsRun(other, routed)
    requires n <= |steps| && n <= |other|
    ensures steps[..n] == other[..n]
    decreases n
  {
    if n > 1 {
      SameUpTo(steps, other, routed, n - 1);
      assert steps[n - 2] == other[n - 2];
      assert steps[n - 1] == other[n - 1];
    }
  }

  /** A run never reaches a superstep of END alone before its last step ... */
  lemma {:induction false} DeadAfterEnd(steps: seq<set<Node>>, routed: Node, k: nat)
    requires IsRun(steps, routed) && k < |steps|
    ensures steps[k] != {End}
  {
    NothingAfterEnd(routed);
    if k < |steps| - 1 {
      EmptyForever(steps, routed, k + 1);
    }
  }

  /** ... nor an empty one. */
  lemma {:induction false} EmptyForever(steps: seq<set<Node>>, routed: Node, k: nat)
    requires IsRun(steps, routed) && k < |steps|
    ensures steps[k] != {}
    decreases |steps| - k
  {
    NothingAfterEnd(routed);
    if k < |steps| - 1 {
      EmptyForever(steps, routed, k + 1);
    }
  }

  /** The execution step runs in exactly one superstep, the last. */
  lemma ExecutionRunsOnceLast(routed: Node)
    requires routed in {HumanNode, ExecutionNode}
    ensures ExecutionNode in Schedule(routed)[|Schedule(routed)| - 1]
    ensures forall i :: 0 <= i < |Schedule(routed)| - 1 ==> ExecutionNode !in Schedule(routed)[i]
  {
  }

  /** HumanNode runs in some superstep exactly when the router chose it. */
  lemma HumanRunsIffRouted(routed: Node)
    requires routed in {HumanNode, ExecutionNode}
    ensures (exists i :: 0 <= i < |Schedule(routed)| && HumanNode in Schedule(routed)[i]) <==> routed == HumanNode
  {
    if routed == HumanNode {
      assert HumanNode in Schedule(routed)[3];
    }
  }

  /** The join runs strictly after every superstep in which a fan-out agent runs. */
  lemma JoinAfterFanOut(routed: Node)
    requires routed in {HumanNode, ExecutionNode}
    ensures forall i, j ::
              (0 <= i < |Schedule(routed)| && 0 <= j < |Schedule(routed)| &&
               (AnalystAgent in Schedule(routed)[i] || QuantAgent in Schedule(routed)[i]) &&
               CIOAgent in Schedule(routed)[j]) ==> i < j
    ensures exists j :: 0 <= j < |Schedule(routed)| && CIOAgent in Schedule(routed)[j]
  {
    assert CIOAgent in Schedule(routed)[1];
  }
}

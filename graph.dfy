/**
 * The agent graph (agents/graph.py): the routing after ingestion and after
 * guardrails, the two terminal nodes, the node and edge set `build_graph`
 * assembles, the cached compiled graph, and one run of the pipeline with the
 * parallel fan-out taken as a sequential merge.
 */
module AgentGraph {
  import opened Common
  import opened Config
  import opened Guardrails
  import opened PipelineState
  import IngestionStage
  import IntentStage
  import KnowledgeRetrievalStage
  import MemoryStage
  import ReasoningStage
  import ResponseSynthesisStage
  import GuardrailsStage

  datatype Node =
    | Start | Ingestion | Planner | IntentNode | RetrievalNode | MemoryNode
    | ReasoningNode | SynthesisNode | GuardrailsNode | ResponseNode | EscalateNode | End

  // ---------------------------------------------------------------------------
  // Routing and terminals

  /** Both routers: "escalate" when the state is escalated, else the next node of the normal path. */
  function EscalateOr(s: State, onward: string): (route: string)
    requires onward != "escalate"
    ensures route == "escalate" <==> Escalated(s)
    ensures route in {onward, "escalate"}
  {
    if Escalated(s) then "escalate" else onward
  }

  /** `_route_after_ingestion`. */
  function RouteAfterIngestion(s: State): string
  {
    EscalateOr(s, "planner")
  }

  /** `_route_after_guardrails`. */
  function RouteAfterGuardrails(s: State): string
  {
    EscalateOr(s, "response")
  }

  /** A passthrough node: its update is empty, so the state is unchanged. */
  function Passthrough(s: State): (u: State)
    ensures Merge(s, u) == s
  {
    MergeAssociative(s, Empty, Empty);
    Empty
  }

  /** `planner_agent`. */
  function PlannerAgent(s: State): State
  {
    Passthrough(s)
  }

  /** `_terminal_response`. */
  function TerminalResponse(s: State): State
  {
    Passthrough(s)
  }

  /** `_terminal_escalate`: keeps a non-empty final response, else sets the escalation message. */
  function TerminalEscalate(s: State): (u: State)
    ensures Truthy(s.finalResponse) ==> Merge(s, u) == s
    ensures Truthy(Merge(s, u).finalResponse)
    ensures !Truthy(s.finalResponse) ==> Merge(s, u) == s.(finalResponse := Some(GuardrailsStage.EscalatedMessage))
  {
    MergeAssociative(s, Empty, Empty);
    if Truthy(s.finalResponse) then Empty
    else Empty.(finalResponse := Some(GuardrailsStage.EscalatedMessage))
  }

  // ---------------------------------------------------------------------------
  // The graph `build_graph` assembles

  /** A compiled graph: its nodes, its plain edges (a list of sources joins them), and its conditional edges with their path maps. */
  datatype Graph = Graph(nodes: seq<Node>, edges: seq<(seq<Node>, Node)>, branches: seq<(Node, seq<(string, Node)>)>)

  /** The builder `build_graph` adds nodes and edges to. */
  class GraphBuilder {
    var nodes: seq<Node>
    var edges: seq<(seq<Node>, Node)>
    var branches: seq<(Node, seq<(string, Node)>)>

    constructor()
      ensures nodes == [] && edges == [] && branches == []
    {
      nodes := [];
      edges := [];
      branches := [];
    }

    method AddNode(n: Node)
      modifies this
      ensures nodes == old(nodes) + [n] && edges == old(edges) && branches == old(branches)
    {
      nodes := nodes + [n];
    }

    /** `add_edge(from, to)`; a list of sources waits for all of them. */
    method AddEdge(from: seq<Node>, to: Node)
      modifies this
      ensures edges == old(edges) + [(from, to)] && nodes == old(nodes) && branches == old(branches)
    {
      edges := edges + [(from, to)];
    }

    method AddConditionalEdges(source: Node, pathMap: seq<(string, Node)>)
      modifies this
      ensures branches == old(branches) + [(source, pathMap)] && nodes == old(nodes) && edges == old(edges)
    {
      branches := branches + [(source, pathMap)];
    }

    function Compile(): (g: Graph)
      reads this
      ensures g.nodes == nodes && g.edges == edges && g.branches == branches
    {
      Graph(nodes, edges, branches)
    }
  }

  const StageNodes: seq<Node> :=
    [Ingestion, Planner, IntentNode, RetrievalNode, MemoryNode, ReasoningNode, SynthesisNode, GuardrailsNode,
     ResponseNode, EscalateNode]

  const IngestionPaths: seq<(string, Node)> := [("planner", Planner), ("escalate", EscalateNode)]
  const GuardrailsPaths: seq<(string, Node)> := [("response", ResponseNode), ("escalate", EscalateNode)]

  const SupportEdges: seq<(seq<Node>, Node)> :=
    [([Start], Ingestion), ([Planner], IntentNode), ([Planner], RetrievalNode), ([Planner], MemoryNode),
     ([IntentNode, RetrievalNode, MemoryNode], ReasoningNode), ([ReasoningNode], SynthesisNode),
     ([SynthesisNode], GuardrailsNode), ([ResponseNode], End), ([EscalateNode], End)]

  const SupportBranches: seq<(Node, seq<(string, Node)>)> := [(Ingestion, IngestionPaths), (GuardrailsNode, GuardrailsPaths)]

  /** The ten `add_node` calls of `build_graph`. */
  method AddStageNodes(builder: GraphBuilder)
    modifies builder
    ensures builder.nodes == old(builder.nodes) + StageNodes
    ensures builder.edges == old(builder.edges) && builder.branches == old(builder.branches)
  {
    builder.AddNode(Ingestion);
    builder.AddNode(Planner);
    builder.AddNode(IntentNode);
    builder.AddNode(RetrievalNode);
    builder.AddNode(MemoryNode);
    builder.AddNode(ReasoningNode);
    builder.AddNode(SynthesisNode);
    builder.AddNode(GuardrailsNode);
    builder.AddNode(ResponseNode);
    builder.AddNode(EscalateNode);
  }

  /** The edges up to the fan-in at reasoning, with the branch after ingestion. */
  method AddFrontEdges(builder: GraphBuilder)
    modifies builder
    ensures builder.edges == old(builder.edges) + SupportEdges[..5]
    ensures builder.branches == old(builder.branches) + SupportBranches[..1]
    ensures builder.nodes == old(builder.nodes)
  {
    builder.AddEdge([Start], Ingestion);
    builder.AddConditionalEdges(Ingestion, IngestionPaths);
    builder.AddEdge([Planner], IntentNode);
    builder.AddEdge([Planner], RetrievalNode);
    builder.AddEdge([Planner], MemoryNode);
    builder.AddEdge([IntentNode, RetrievalNode, MemoryNode], ReasoningNode);
  }

  /** The edges from reasoning to the end, with the branch after guardrails. */
  method AddBackEdges(builder: GraphBuilder)
    modifies builder
    ensures builder.edges == old(builder.edges) + SupportEdges[5..]
    ensures builder.branches == old(builder.branches) + SupportBranches[1..]
    ensures builder.nodes == old(builder.nodes)
  {
    builder.AddEdge([ReasoningNode], SynthesisNode);
    builder.AddEdge([SynthesisNode], GuardrailsNode);
    builder.AddConditionalEdges(GuardrailsNode, GuardrailsPaths);
    builder.AddEdge([ResponseNode], End);
    builder.AddEdge([EscalateNode], End);
  }

  /** `build_graph`. */
  method BuildGraph() returns (g: Graph)
    ensures g == Graph(StageNodes, SupportEdges, SupportBranches)
  {
    var builder := new GraphBuilder();
    AddStageNodes(builder);
    AddFrontEdges(builder);
    AddBackEdges(builder);
    assert SupportEdges[..5] + SupportEdges[5..] == SupportEdges;
    assert SupportBranches[..1] + SupportBranches[1..] == SupportBranches;
    g := builder.Compile();
  }

  /** Whether `b` can run right after `a`: a plain edge from a list holding `a`, or a path-map target of `a`. */
  predicate Follows(g: Graph, a: Node, b: Node)
  {
    (exists i :: 0 <= i < |g.edges| && a in g.edges[i].0 && g.edges[i].1 == b)
    || (exists i, j :: 0 <= i < |g.branches| && 0 <= j < |g.branches[i].1| && g.branches[i].0 == a && g.branches[i].1[j].1 == b)
  }

  /** The position of a node in the pipeline's order. */
  function Rank(n: Node): nat
  {
    match n
    case Start => 0
    case Ingestion => 1
    case Planner => 2
    case IntentNode => 3
    case RetrievalNode => 3
    case MemoryNode => 3
    case ReasoningNode => 4
    case SynthesisNode => 5
    case GuardrailsNode => 6
    case ResponseNode => 7
    case EscalateNode => 7
    case End => 8
  }

  /** Every plain edge goes from lower to higher rank. */
  lemma {:induction false} EdgesForward(i: nat, a: Node)
    requires i < |SupportEdges| && a in SupportEdges[i].0
    ensures Rank(a) < Rank(SupportEdges[i].1)
  {
    if i == 4 {
      assert a == IntentNode || a == RetrievalNode || a == MemoryNode;
    } else {
      assert a == SupportEdges[i].0[0];
    }
  }

  /** Every edge of the graph moves forward in the pipeline order, so the graph has no cycle and every run ends. */
  lemma {:induction false} GraphAcyclic(a: Node, b: Node)
    requires Follows(Graph(StageNodes, SupportEdges, SupportBranches), a, b)
    ensures Rank(a) < Rank(b)
  {
    var g := Graph(StageNodes, SupportEdges, SupportBranches);
    if exists i :: 0 <= i < |g.edges| && a in g.edges[i].0 && g.edges[i].1 == b {
      var i :| 0 <= i < |g.edges| && a in g.edges[i].0 && g.edges[i].1 == b;
      EdgesForward(i, a);
    } else {
      var i, j :| 0 <= i < |g.branches| && 0 <= j < |g.branches[i].1| && g.branches[i].0 == a && g.branches[i].1[j].1 == b;
      assert j < 2;
    }
  }

  /** The planner fans out to exactly intent, retrieval and memory; reasoning waits for all three. */
  lemma {:induction false} FanOutAndJoin(n: Node)
    ensures Follows(Graph(StageNodes, SupportEdges, SupportBranches), Planner, n)
            <==> n == IntentNode || n == RetrievalNode || n == MemoryNode
    ensures forall i :: 0 <= i < |SupportEdges| && SupportEdges[i].1 == ReasoningNode ==>
              SupportEdges[i].0 == [IntentNode, RetrievalNode, MemoryNode]
  {
    var g := Graph(StageNodes, SupportEdges, SupportBranches);
    if n == IntentNode {
      assert Planner in g.edges[1].0 && g.edges[1].1 == n;
    } else if n == RetrievalNode {
      assert Planner in g.edges[2].0 && g.edges[2].1 == n;
    } else if n == MemoryNode {
      assert Planner in g.edges[3].0 && g.edges[3].1 == n;
    }
  }

  /** Each routing label is a key of its path map, and leads to the escalate terminal exactly when the state is escalated. */
  lemma {:induction false} RoutesInPathMaps(s: State)
    ensures exists j :: 0 <= j < |IngestionPaths| && IngestionPaths[j].0 == RouteAfterIngestion(s)
                        && (IngestionPaths[j].1 == EscalateNode <==> Escalated(s))
    ensures exists j :: 0 <= j < |GuardrailsPaths| && GuardrailsPaths[j].0 == RouteAfterGuardrails(s)
                        && (GuardrailsPaths[j].1 == EscalateNode <==> Escalated(s))
  {
    if Escalated(s) {
      assert IngestionPaths[1].0 == RouteAfterIngestion(s);
      assert GuardrailsPaths[1].0 == RouteAfterGuardrails(s);
    } else {
      assert IngestionPaths[0].0 == RouteAfterIngestion(s);
      assert GuardrailsPaths[0].0 == RouteAfterGuardrails(s);
    }
  }

  /** `get_graph`'s module-level cache. */
  class GraphCache {
    var graph: Option<Graph>
    /** How many times `build_graph` has run. */
    var builds: nat

    constructor()
      ensures graph == None && builds == 0
    {
      graph := None;
      builds := 0;
    }

    /** `get_graph`: builds on the first call only, and returns the same graph afterwards. */
    method GetGraph() returns (g: Graph)
      modifies this
      ensures g == Graph(StageNodes, SupportEdges, SupportBranches)
      ensures graph == Some(g)
      ensures old(graph).Some? ==> g == old(graph).value && builds == old(builds)
      ensures old(graph).None? ==> builds == old(builds) + 1
      requires graph.Some? ==> graph.value == Graph(StageNodes, SupportEdges, SupportBranches)
    {
      if graph.None? {
        var built := BuildGraph();
        graph := Some(built);
        builds := builds + 1;
      }
      g := graph.value;
    }
  }

  /** Any number of `get_graph` calls on a fresh cache builds once. */
  method GetGraphTwice() returns (g1: Graph, g2: Graph, builds: nat)
    ensures g1 == g2 && builds == 1
  {
    var cache := new GraphCache();
    g1 := cache.GetGraph();
    g2 := cache.GetGraph();
    builds := cache.builds;
  }

  // ---------------------------------------------------------------------------
  // One run

  /** The final state, the calls made in order, and the nodes run, step by step (the fan-out as one step). */
  datatype Run = Run(state: State, calls: seq<Call>, steps: seq<seq<Node>>)

  /** The three fan-out stages' updates merged into the planner's state. */
  function FanOut(s: State, sv: Services): State
  {
    Merge(Merge(Merge(s, IntentStage.IntentAgent(s, sv).update),
                KnowledgeRetrievalStage.KnowledgeRetrieval(s, sv).update),
          MemoryStage.MemoryAgent(s, sv).update)
  }

  function FanOutCalls(s: State, sv: Services): seq<Call>
  {
    IntentStage.IntentAgent(s, sv).calls + KnowledgeRetrievalStage.KnowledgeRetrieval(s, sv).calls
    + MemoryStage.MemoryAgent(s, sv).calls
  }

  /** From reasoning to the terminal node, on a state that was not escalated at ingestion. */
  function RunTail(s3: State, sv: Services): Run
  {
    var r := ReasoningStage.Reasoning(s3, sv);
    var s4 := Merge(s3, r.update);
    var y := ResponseSynthesisStage.ResponseSynthesis(s4, sv);
    var s5 := Merge(s4, y.update);
    var g := GuardrailsStage.GuardrailsAgent(s5, sv);
    var s6 := Merge(s5, g.update);
    if RouteAfterGuardrails(s6) == "escalate" then
      Run(Merge(s6, TerminalEscalate(s6)), r.calls + y.calls + g.calls,
          [[ReasoningNode], [SynthesisNode], [GuardrailsNode], [EscalateNode]])
    else
      Run(Merge(s6, TerminalResponse(s6)), r.calls + y.calls + g.calls,
          [[ReasoningNode], [SynthesisNode], [GuardrailsNode], [ResponseNode]])
  }

  /** The state after the ingestion stage. */
  function IngestedState(query: string, sessionId: Option<string>, sv: Services): State
  {
    var s0 := Initial(query, sessionId);
    Merge(s0, IngestionStage.Ingestion(s0, sv).update)
  }

  /** The state after the planner, on a run not escalated at ingestion. */
  function PlannedState(query: string, sessionId: Option<string>, sv: Services): State
  {
    var s1 := IngestedState(query, sessionId, sv);
    Merge(s1, PlannerAgent(s1))
  }

  /** One invocation of the compiled graph on a query and an optional session. */
  function RunGraph(query: string, sessionId: Option<string>, sv: Services): Run
  {
    var ing := IngestionStage.Ingestion(Initial(query, sessionId), sv);
    var s1 := IngestedState(query, sessionId, sv);
    if RouteAfterIngestion(s1) == "escalate" then
      Run(Merge(s1, TerminalEscalate(s1)), ing.calls, [[Ingestion], [EscalateNode]])
    else
      var s2 := PlannedState(query, sessionId, sv);
      var tail := RunTail(FanOut(s2, sv), sv);
      Run(tail.state, ing.calls + FanOutCalls(s2, sv) + tail.calls,
          [[Ingestion], [Planner], [IntentNode, RetrievalNode, MemoryNode]] + tail.steps)
  }

  // ---------------------------------------------------------------------------
  // Properties of a run

  /** The three fan-out stages write one key each, so their updates are pairwise disjoint. */
  lemma {:induction false} FanOutDisjoint(s: State, sv: Services)
    ensures var i := IntentStage.IntentAgent(s, sv).update;
            var k := KnowledgeRetrievalStage.KnowledgeRetrieval(s, sv).update;
            var m := MemoryStage.MemoryAgent(s, sv).update;
            Disjoint(i, k) && Disjoint(i, m) && Disjoint(k, m)
  {
  }

  /** Merging the fan-out updates in any order gives the same state. */
  lemma {:induction false} FanOutOrderFree(s: State, sv: Services)
    ensures var i := IntentStage.IntentAgent(s, sv).update;
            var k := KnowledgeRetrievalStage.KnowledgeRetrieval(s, sv).update;
            var m := MemoryStage.MemoryAgent(s, sv).update;
            && FanOut(s, sv) == Merge(Merge(Merge(s, k), i), m)
            && FanOut(s, sv) == Merge(Merge(Merge(s, i), m), k)
            && FanOut(s, sv) == Merge(Merge(Merge(s, k), m), i)
            && FanOut(s, sv) == Merge(Merge(Merge(s, m), i), k)
            && FanOut(s, sv) == Merge(Merge(Merge(s, m), k), i)
  {
    var i := IntentStage.IntentAgent(s, sv).update;
    var k := KnowledgeRetrievalStage.KnowledgeRetrieval(s, sv).update;
    var m := MemoryStage.MemoryAgent(s, sv).update;
    FanOutDisjoint(s, sv);
    MergeCommutes(s, i, k);
    MergeCommutes(Merge(s, i), k, m);
    MergeCommutes(Merge(s, k), i, m);
    MergeCommutes(s, k, m);
    MergeCommutes(s, i, m);
    MergeCommutes(Merge(s, m), i, k);
  }

  /** No stage between ingestion and guardrails writes `escalate` or `final_response`. */
  lemma {:induction false} MiddleStagesKeepFlags(s: State, sv: Services)
    ensures FanOut(s, sv).escalate == s.escalate && FanOut(s, sv).finalResponse == s.finalResponse
    ensures ReasoningStage.Reasoning(s, sv).update.escalate.None?
    ensures ReasoningStage.Reasoning(s, sv).update.finalResponse.None?
    ensures ResponseSynthesisStage.ResponseSynthesis(s, sv).update.escalate.None?
    ensures ResponseSynthesisStage.ResponseSynthesis(s, sv).update.finalResponse.None?
  {
  }

  /** The guardrails stage always writes a non-empty final response. */
  lemma {:induction false} GuardrailsSetsFinal(s: State, sv: Services)
    ensures Truthy(GuardrailsStage.GuardrailsAgent(s, sv).update.finalResponse)
    ensures !Escalated(s) && GuardrailsStage.GuardrailsAgent(s, sv).update.escalate.None? ==>
              GuardrailsStage.DraftOf(s) == ""
  {
  }

  /** The state the guardrails stage leaves, from reasoning on. */
  function GuardedState(s3: State, sv: Services): State
  {
    var s4 := Merge(s3, ReasoningStage.Reasoning(s3, sv).update);
    var s5 := Merge(s4, ResponseSynthesisStage.ResponseSynthesis(s4, sv).update);
    Merge(s5, GuardrailsStage.GuardrailsAgent(s5, sv).update)
  }

  /** From reasoning on, the guardrails stage leaves a non-empty final response. */
  lemma {:induction false} GuardedStateAnswered(s3: State, sv: Services)
    requires !Escalated(s3)
    ensures Truthy(GuardedState(s3, sv).finalResponse)
    ensures RunTail(s3, sv).state == Merge(GuardedState(s3, sv), if RouteAfterGuardrails(GuardedState(s3, sv)) == "escalate"
                                                             then TerminalEscalate(GuardedState(s3, sv))
                                                             else TerminalResponse(GuardedState(s3, sv)))
    ensures RunTail(s3, sv).steps == [[ReasoningNode], [SynthesisNode], [GuardrailsNode],
                                      if RouteAfterGuardrails(GuardedState(s3, sv)) == "escalate"
                                      then [EscalateNode] else [ResponseNode]]
  {
    var s4 := Merge(s3, ReasoningStage.Reasoning(s3, sv).update);
    var s5 := Merge(s4, ResponseSynthesisStage.ResponseSynthesis(s4, sv).update);
    GuardrailsSetsFinal(s5, sv);
  }

  /** The terminal node keeps a non-empty final response, and the escalate terminal is taken exactly on an escalated state. */
  lemma {:induction false} TerminalSpec(s6: State)
    requires Truthy(s6.finalResponse)
    ensures var route := RouteAfterGuardrails(s6);
            var done := Merge(s6, if route == "escalate" then TerminalEscalate(s6) else TerminalResponse(s6));
            && Truthy(done.finalResponse)
            && (route == "escalate" <==> Escalated(done))
  {
  }

  /**
   * From reasoning on, on a state not escalated: the run ends at the escalate
   * terminal exactly when the final state is escalated, and the final
   * response is never empty.
   */
  lemma {:induction false} RunTailSpec(s3: State, sv: Services)
    requires !Escalated(s3)
    ensures var t := RunTail(s3, sv);
            && Truthy(t.state.finalResponse)
            && |t.steps| == 4
            && (t.steps[3] == [EscalateNode] <==> Escalated(t.state))
            && (t.steps[3] == [EscalateNode] || t.steps[3] == [ResponseNode])
  {
    GuardedStateAnswered(s3, sv);
    TerminalSpec(GuardedState(s3, sv));
  }

  /**
   * A query that ingestion escalates goes straight to the escalate terminal:
   * the input policy check is the only call (no LLM, retrieval or memory
   * call), and the answer is the escalation message.
   */
  lemma {:induction false} EscalatedIngestionSkipsStages(query: string, sessionId: Option<string>, sv: Services)
    requires IngestionStage.Ingestion(Initial(query, sessionId), sv).update.escalate == Some(true)
    ensures var run := RunGraph(query, sessionId, sv);
            && run.steps == [[Ingestion], [EscalateNode]]
            && run.calls == IngestionStage.Ingestion(Initial(query, sessionId), sv).calls
            && |run.calls| == 1 && run.calls[0].PolicyCall?
            && run.state.finalResponse == Some(GuardrailsStage.EscalatedMessage)
            && Escalated(run.state)
  {
  }

  /** A run not escalated at ingestion ends as its tail from reasoning on does. */
  lemma {:induction false} LateRunIsTail(query: string, sessionId: Option<string>, sv: Services)
    requires !Escalated(IngestedState(query, sessionId, sv))
    ensures var run := RunGraph(query, sessionId, sv);
            var tail := RunTail(FanOut(PlannedState(query, sessionId, sv), sv), sv);
            && !Escalated(FanOut(PlannedState(query, sessionId, sv), sv))
            && run.state == tail.state
            && |run.steps| == 3 + |tail.steps| && run.steps[3..] == tail.steps
  {
    MiddleStagesKeepFlags(PlannedState(query, sessionId, sv), sv);
  }

  /**
   * Every run ends with a non-empty final response, and at the escalate
   * terminal exactly when the final state is escalated.
   */
  lemma {:induction false} RunEndsAnswered(query: string, sessionId: Option<string>, sv: Services)
    ensures var run := RunGraph(query, sessionId, sv);
            && Truthy(run.state.finalResponse)
            && (run.steps[|run.steps| - 1] == [EscalateNode] <==> Escalated(run.state))
  {
    var s0 := Initial(query, sessionId);
    if IngestionStage.Ingestion(s0, sv).update.escalate == Some(true) {
      EscalatedIngestionSkipsStages(query, sessionId, sv);
    } else {
      LateRunIsTail(query, sessionId, sv);
      var run := RunGraph(query, sessionId, sv);
      var tail := RunTail(FanOut(PlannedState(query, sessionId, sv), sv), sv);
      RunTailSpec(FanOut(PlannedState(query, sessionId, sv), sv), sv);
      assert run.steps[|run.steps| - 1] == run.steps[3..][3] == tail.steps[3];
    }
  }

  /**
   * With the policy tool of the guardrails layer, a query moderation flags
   * never reaches the LLM: the run stops after ingestion.
   */
  lemma {:induction false} FlaggedInputNeverReachesLlm(query: string, sessionId: Option<string>, sv: Services,
                                                     apiKey: Option<string>, settings: Option<Settings>,
                                                     service: ModerationService, search: RegexSearch)
    requires forall t, c :: sv.policy(t, c) == PolicyCheck(t, c, None, apiKey, settings, service, search)
    requires var text := IngestionStage.CheckedText(IngestionStage.RawQuery(Initial(query, sessionId)));
             var mod := CallModerationApi(text, ResolveKey(apiKey, settings), service);
             mod.Some? && mod.value.flagged
    ensures var run := RunGraph(query, sessionId, sv);
            run.steps == [[Ingestion], [EscalateNode]] && forall c :: c in run.calls ==> !IsLlmCall(c)
  {
    IngestionStage.UnsafeInputEscalates(Initial(query, sessionId), sv, apiKey, settings, service, search);
    EscalatedIngestionSkipsStages(query, sessionId, sv);
  }
}

/** The agent's routing graph (`get_graph` in backend/src/agent.py): a state-graph
    builder that records nodes and edges, the run order those edges give, and the
    `tools_condition` routing function. */
module AgentGraph {
  import opened Wrappers
  import opened Messages

  const Start := "__start__"
  const End := "__end__"
  const MemoryCheck := "memory_check"
  const QueryOrRespondNode := "query_or_respond"
  const ToolsNode := "tools"
  const GenerateNode := "generate"

  /** `tools_condition`: to the tools node when the last message is an AI message
      that requests at least one tool, otherwise to the end. It raises on a state
      without messages, which never reaches it: `query_or_respond` always adds one. */
  function ToolsCondition(messages: seq<Message>): (route: string)
    requires messages != []
    ensures route == ToolsNode || route == End
    ensures route == ToolsNode <==> messages[|messages| - 1].Ai? && |messages[|messages| - 1].toolCalls| > 0
  {
    var last := messages[|messages| - 1];
    if last.Ai? && |last.toolCalls| > 0 then ToolsNode else End
  }

  /** A conditional edge: the route a function returns, looked up in `pathMap`. */
  datatype Branch = Branch(source: string, pathMap: map<string, string>)

  /** What the builder has recorded. */
  datatype Graph = Graph(nodes: seq<string>, edges: seq<(string, string)>, branches: seq<Branch>)

  /** The target of the first plain edge leaving `from`. */
  function EdgeTarget(edges: seq<(string, string)>, from: string): (t: Option<string>)
    ensures t.Some? ==> (from, t.value) in edges
    ensures t.None? ==> forall i :: 0 <= i < |edges| ==> edges[i].0 != from
  {
    if edges == [] then None
    else if edges[0].0 == from then Some(edges[0].1)
    else EdgeTarget(edges[1..], from)
  }

  /** The target the first conditional edge of `from` gives to `route`. */
  function BranchTarget(branches: seq<Branch>, from: string, route: string): Option<string> {
    if branches == [] then None
    else if branches[0].source == from then
      (if route in branches[0].pathMap then Some(branches[0].pathMap[route]) else None)
    else BranchTarget(branches[1..], from, route)
  }

  /** The node that runs after `from` when the routing function returns `route`. */
  function Next(g: Graph, from: string, route: string): Option<string> {
    match EdgeTarget(g.edges, from)
    case Some(t) => Some(t)
    case None => BranchTarget(g.branches, from, route)
  }

  /** The nodes visited from `at` until the end, at most `fuel` of them. */
  function Walk(g: Graph, at: string, route: string, fuel: nat): (r: seq<string>)
    ensures |r| <= fuel
    ensures End !in r
    decreases fuel
  {
    if fuel == 0 || at == End then []
    else
      [at] + match Next(g, at, route)
             case Some(n) => Walk(g, n, route, fuel - 1)
             case None => []
  }

  /** The nodes one invocation runs, from the entry point, when the conditional
      routing returns `route`. */
  function Run(g: Graph, route: string): seq<string> {
    match EdgeTarget(g.edges, Start)
    case Some(first) => Walk(g, first, route, |g.nodes|)
    case None => []
  }

  /** `StateGraph(State)`: a builder whose methods record the graph. */
  class StateGraph {
    var nodes: seq<string>
    var edges: seq<(string, string)>
    var branches: seq<Branch>

    constructor ()
      ensures nodes == [] && edges == [] && branches == []
    {
      nodes, edges, branches := [], [], [];
    }

    function Value(): Graph
      reads this
    {
      Graph(nodes, edges, branches)
    }

    /** `add_node(name, action)`. */
    method AddNode(name: string)
      modifies this
      ensures nodes == old(nodes) + [name]
      ensures edges == old(edges) && branches == old(branches)
    {
      nodes := nodes + [name];
    }

    /** `set_entry_point(name)`: an edge from the start. */
    method SetEntryPoint(name: string)
      modifies this
      ensures edges == old(edges) + [(Start, name)]
      ensures nodes == old(nodes) && branches == old(branches)
    {
      edges := edges + [(Start, name)];
    }

    /** `add_edge(from, to)`. */
    method AddEdge(from: string, to: string)
      modifies this
      ensures edges == old(edges) + [(from, to)]
      ensures nodes == old(nodes) && branches == old(branches)
    {
      edges := edges + [(from, to)];
    }

    /** `add_conditional_edges(source, path, pathMap)`. */
    method AddConditionalEdges(source: string, pathMap: map<string, string>)
      modifies this
      ensures branches == old(branches) + [Branch(source, pathMap)]
      ensures nodes == old(nodes) && edges == old(edges)
    {
      branches := branches + [Branch(source, pathMap)];
    }
  }

  /** `get_graph`: four nodes; every run starts at the memory check and goes on to
      `query_or_respond`; from there it ends unless the model asked for tools, in
      which case the tools run and then `generate`, and the run ends. */
  method GetGraph() returns (g: StateGraph)
    ensures fresh(g)
    ensures g.nodes == [MemoryCheck, QueryOrRespondNode, ToolsNode, GenerateNode]
    ensures Run(g.Value(), End) == [MemoryCheck, QueryOrRespondNode]
    ensures Run(g.Value(), ToolsNode) == [MemoryCheck, QueryOrRespondNode, ToolsNode, GenerateNode]
  {
    g := new StateGraph();
    g.AddNode(MemoryCheck);
    g.AddNode(QueryOrRespondNode);
    g.AddNode(ToolsNode);
    g.AddNode(GenerateNode);
    g.SetEntryPoint(MemoryCheck);
    g.AddEdge(MemoryCheck, QueryOrRespondNode);
    g.AddConditionalEdges(QueryOrRespondNode, map[End := End, ToolsNode := ToolsNode]);
    g.AddEdge(ToolsNode, GenerateNode);
    g.AddEdge(GenerateNode, End);
    RunsOfAgentGraph(g.Value());
  }

  /** The runs of the graph `get_graph` records, route by route. */
  lemma RunsOfAgentGraph(v: Graph)
    requires v.nodes == [MemoryCheck, QueryOrRespondNode, ToolsNode, GenerateNode]
    requires v.edges == [(Start, MemoryCheck), (MemoryCheck, QueryOrRespondNode), (ToolsNode, GenerateNode), (GenerateNode, End)]
    requires v.branches == [Branch(QueryOrRespondNode, map[End := End, ToolsNode := ToolsNode])]
    ensures Run(v, End) == [MemoryCheck, QueryOrRespondNode]
    ensures Run(v, ToolsNode) == [MemoryCheck, QueryOrRespondNode, ToolsNode, GenerateNode]
  {
    AgentEdges(v.edges);
    AgentBranches(v.branches);
    assert Walk(v, GenerateNode, ToolsNode, 1) == [GenerateNode];
    assert Walk(v, ToolsNode, ToolsNode, 2) == [ToolsNode, GenerateNode];
    assert Walk(v, QueryOrRespondNode, ToolsNode, 3) == [QueryOrRespondNode, ToolsNode, GenerateNode];
    assert Walk(v, QueryOrRespondNode, End, 3) == [QueryOrRespondNode];
  }

  /** Routed by `tools_condition` on the messages after `query_or_respond`, a run
      of the agent graph starts with the memory check and `query_or_respond`,
      reaches the tools exactly when the last message requests a tool, runs
      `generate` exactly when the tools ran, and then ends with it. */
  lemma AgentGraphRouting(v: Graph, messages: seq<Message>)
    requires v.nodes == [MemoryCheck, QueryOrRespondNode, ToolsNode, GenerateNode]
    requires v.edges == [(Start, MemoryCheck), (MemoryCheck, QueryOrRespondNode), (ToolsNode, GenerateNode), (GenerateNode, End)]
    requires v.branches == [Branch(QueryOrRespondNode, map[End := End, ToolsNode := ToolsNode])]
    requires messages != []
    ensures var r := Run(v, ToolsCondition(messages));
      && |r| >= 2 && r[0] == MemoryCheck && r[1] == QueryOrRespondNode
      && (ToolsNode in r <==> messages[|messages| - 1].Ai? && messages[|messages| - 1].toolCalls != [])
      && (GenerateNode in r <==> ToolsNode in r)
      && (ToolsNode in r ==> r[|r| - 1] == GenerateNode)
  {
    RunsOfAgentGraph(v);
    assert MemoryCheck[0] == 'm' && QueryOrRespondNode[0] == 'q' && ToolsNode[0] == 't' && GenerateNode[0] == 'g';
  }

  lemma AgentEdges(e: seq<(string, string)>)
    requires e == [(Start, MemoryCheck), (MemoryCheck, QueryOrRespondNode), (ToolsNode, GenerateNode), (GenerateNode, End)]
    ensures EdgeTarget(e, Start) == Some(MemoryCheck)
    ensures EdgeTarget(e, MemoryCheck) == Some(QueryOrRespondNode)
    ensures EdgeTarget(e, QueryOrRespondNode) == None
    ensures EdgeTarget(e, ToolsNode) == Some(GenerateNode)
    ensures EdgeTarget(e, GenerateNode) == Some(End)
  {
    assert MemoryCheck[0] == 'm' && QueryOrRespondNode[0] == 'q' && ToolsNode[0] == 't' && GenerateNode[0] == 'g';
    assert Start[0] == '_';
    assert e[1..][1..][1..] == [(GenerateNode, End)];
    assert e[1..][1..] == [(ToolsNode, GenerateNode), (GenerateNode, End)];
    assert EdgeTarget(e[1..][1..][1..], GenerateNode) == Some(End);
    assert EdgeTarget(e[1..][1..], GenerateNode) == Some(End);
    assert EdgeTarget(e[1..], GenerateNode) == Some(End);
    assert EdgeTarget(e[1..][1..], ToolsNode) == Some(GenerateNode);
    assert EdgeTarget(e[1..], ToolsNode) == Some(GenerateNode);
  }

  lemma AgentBranches(b: seq<Branch>)
    requires b == [Branch(QueryOrRespondNode, map[End := End, ToolsNode := ToolsNode])]
    ensures BranchTarget(b, QueryOrRespondNode, End) == Some(End)
    ensures BranchTarget(b, QueryOrRespondNode, ToolsNode) == Some(ToolsNode)
  {
  }
}

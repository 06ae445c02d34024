/** The execution graph: four nodes run as a state machine. Execution enters
    at `tool`; the route the tool agent records picks the next node (`merge`
    for the summary and search tools, `action` for the action tool); `action`
    always continues to `merge`, and `merge` leads to the end. */
module Graph {
  import opened Wrappers
  import opened Agents

  /** The graph's nodes; `EndNode` is the exit, which runs nothing. */
  datatype Node = ToolNode | ActionNode | MergeNode | EndNode

  /** Where execution begins. */
  const Entry: Node := ToolNode

  /** The conditional edges out of `tool`, keyed by the recorded route. */
  const ConditionalEdges: map<string, Node> :=
    map["summary_tool" := MergeNode, "search_tool" := MergeNode, "action_tool" := ActionNode]

  /** A point of execution: the node about to run and the state it receives. */
  datatype Config = Config(at: Node, state: AgentState)

  /** The longest number of steps left from a node; every edge lowers it. */
  function Rank(n: Node): nat {
    match n
    case ToolNode => 3
    case ActionNode => 2
    case MergeNode => 1
    case EndNode => 0
  }

  /** Runs the node at `c` and follows its outgoing edge. `None` means no node
      follows: execution has left the graph, or the route named no edge (which
      the lemma below shows cannot happen). */
  function Step(c: Config, execute: string -> ToolResponse): (r: Option<Config>)
    ensures r.Some? ==> Rank(r.value.at) < Rank(c.at)
    ensures r.None? <==> c.at == EndNode
  {
    match c.at
    case ToolNode =>
      var s := ToolAgent(c.state, execute);
      EdgesCoverRoutes();
      if s.route in ConditionalEdges then Some(Config(ConditionalEdges[s.route], s)) else None
    case ActionNode => Some(Config(MergeNode, ActionAgent(c.state)))
    case MergeNode => Some(Config(EndNode, MergeAgent(c.state)))
    case EndNode => None
  }

  /** What each node does: `tool` runs the tool agent, `action` hands the
      state to `merge` unchanged, and `merge` runs the merge agent and leaves
      the graph. */
  lemma StepEffect(c: Config, execute: string -> ToolResponse)
    ensures c.at == ToolNode ==> Step(c, execute).value.state == ToolAgent(c.state, execute)
    ensures c.at == ActionNode ==> Step(c, execute) == Some(Config(MergeNode, c.state))
    ensures c.at == MergeNode ==> Step(c, execute) == Some(Config(EndNode, MergeAgent(c.state)))
  {
    EdgesCoverRoutes();
  }

  /** The conditional edges have an entry for exactly the labels the tool
      agent can write, so dispatch out of `tool` never gets stuck. */
  lemma EdgesCoverRoutes()
    ensures ConditionalEdges.Keys == RouteNames
    ensures forall r: Route :: r.Name() in ConditionalEdges
  {
    forall r: Route
      ensures r.Name() in ConditionalEdges
    {
      match r
      case SummaryTool =>
      case SearchTool =>
      case ActionTool =>
    }
  }

  /** Out of `tool`, the summary and search routes go straight to `merge` and
      the action route goes to `action`. */
  lemma ToolDispatch(s: AgentState, execute: string -> ToolResponse)
    ensures var t := ToolAgent(s, execute);
      && (t.route == "summary_tool" || t.route == "search_tool" ==>
            Step(Config(ToolNode, s), execute) == Some(Config(MergeNode, t)))
      && (t.route == "action_tool" ==>
            Step(Config(ToolNode, s), execute) == Some(Config(ActionNode, t)))
  {
  }

  /** The record of a run: the nodes visited in order, and the state that
      leaves the graph. */
  datatype Trace = Trace(visited: seq<Node>, final: AgentState)

  /** A path run from `start`: it begins at `start` (unless that is the
      exit), is no longer than the rank of `start`, visits nodes in strictly
      falling rank, so never revisits one, and never runs the exit. */
  predicate IsPathFrom(v: seq<Node>, start: Node) {
    && |v| <= Rank(start)
    && (start != EndNode ==> |v| > 0 && v[0] == start)
    && (forall i :: 0 < i < |v| ==> Rank(v[i - 1]) > Rank(v[i]))
    && (forall i :: 0 <= i < |v| ==> v[i] != EndNode)
  }

  lemma PrependToPath(n: Node, next: Node, rest: seq<Node>)
    requires n != EndNode && Rank(next) < Rank(n)
    requires IsPathFrom(rest, next)
    ensures IsPathFrom([n] + rest, n)
  {
    var v := [n] + rest;
    assert forall k :: 0 < k < |v| ==> v[k] == rest[k - 1];
  }

  /** Runs from `c` until execution leaves the graph; the nodes it visits form
      a path from `c`'s node. */
  function Run(c: Config, execute: string -> ToolResponse): (t: Trace)
    ensures IsPathFrom(t.visited, c.at)
    decreases Rank(c.at)
  {
    if c.at == EndNode then Trace([], c.state)
    else
      var next := Step(c, execute).value;
      var rest := Run(next, execute);
      PrependToPath(c.at, next.at, rest.visited);
      Trace([c.at] + rest.visited, rest.final)
  }

  /** The compiled graph's `invoke`: a run from the entry node. */
  function Invoke(s: AgentState, execute: string -> ToolResponse): (t: Trace)
    ensures t.final == MergeAgent(ToolAgent(s, execute))
    ensures ToolAgent(s, execute).route == "action_tool" ==> t.visited == [ToolNode, ActionNode, MergeNode]
    ensures ToolAgent(s, execute).route != "action_tool" ==> t.visited == [ToolNode, MergeNode]
  {
    RunFromTool(s, execute);
    Run(Config(Entry, s), execute)
  }

  lemma RunFromTool(s: AgentState, execute: string -> ToolResponse)
    ensures var a := ToolAgent(s, execute);
      Run(Config(ToolNode, s), execute)
        == if a.route == "action_tool" then Trace([ToolNode, ActionNode, MergeNode], MergeAgent(a))
           else Trace([ToolNode, MergeNode], MergeAgent(a))
  {
    var c0 := Config(ToolNode, s);
    var a := ToolAgent(s, execute);
    ToolDispatch(s, execute);
    if a.route == "action_tool" {
      RunFromAction(a, execute);
    } else {
      RunFromMerge(a, execute);
    }
  }

  lemma RunFromMerge(s: AgentState, execute: string -> ToolResponse)
    ensures Run(Config(MergeNode, s), execute) == Trace([MergeNode], MergeAgent(s))
  {
    var atEnd := Config(EndNode, MergeAgent(s));
    assert Step(Config(MergeNode, s), execute) == Some(atEnd);
    assert Run(atEnd, execute) == Trace([], atEnd.state);
  }

  lemma RunFromAction(s: AgentState, execute: string -> ToolResponse)
    ensures Run(Config(ActionNode, s), execute) == Trace([ActionNode, MergeNode], MergeAgent(s))
  {
    assert Step(Config(ActionNode, s), execute) == Some(Config(MergeNode, s));
    RunFromMerge(s, execute);
  }

  /** Every run ends within three node visits, visits `merge` exactly once and
      as its last node, and visits no node twice. */
  lemma RunShape(s: AgentState, execute: string -> ToolResponse)
    ensures var v := Invoke(s, execute).visited;
      && 2 <= |v| <= 3
      && v[|v| - 1] == MergeNode
      && multiset(v)[MergeNode] == 1
      && forall i, j :: 0 <= i < j < |v| ==> v[i] != v[j]
  {
    PathShape(Invoke(s, execute).visited);
  }

  lemma PathShape(v: seq<Node>)
    requires v == [ToolNode, ActionNode, MergeNode] || v == [ToolNode, MergeNode]
    ensures 2 <= |v| <= 3
    ensures v[|v| - 1] == MergeNode
    ensures multiset(v)[MergeNode] == 1
    ensures forall i, j :: 0 <= i < j < |v| ==> v[i] != v[j]
  {
    if |v| == 3 {
      assert v == [ToolNode] + [ActionNode] + [MergeNode];
    } else {
      assert v == [ToolNode] + [MergeNode];
    }
  }

  /** The answer that leaves the graph is the tool agent's answer as the gate
      lets it through: the action stage changes nothing, whichever route ran.
      It is never blank or boilerplate, and its route is one of the three
      labels. */
  lemma FinalState(s: AgentState, execute: string -> ToolResponse)
    ensures var f := Invoke(s, execute).final;
      && f.query == s.query
      && f.route in RouteNames
      && !IsMeaningless(f.result)
      && (!IsMeaningless(execute(s.query).text) ==> f.result == execute(s.query).text)
      && (IsMeaningless(execute(s.query).text) ==> f.result == Apology)
  {
  }

  /** Nothing follows `merge` but the exit, and nothing follows the exit. */
  lemma MergeIsLast(s: AgentState, execute: string -> ToolResponse)
    ensures Step(Config(MergeNode, s), execute).value.at == EndNode
    ensures Step(Config(EndNode, s), execute).None?
  {
  }
}

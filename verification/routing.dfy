/** End-to-end facts joining the selector's output to the graph: what route
    a completion reply leads to once the tool agent reads the selection back,
    and how whole runs end for two sample replies: a malformed one and "2". */
module Routing {
  import opened Wrappers
  import opened Text
  import opened Selector
  import opened Agents
  import opened Graph

  /** The action tool's placeholder reply. */
  const ActionStubReply: string := "Dummy action triggered"

  /** The route a completion reply leads to when the router's response carries
      the selector's result. A reply that `int()` refuses leads to search.
      An integer reply is read against the tool list with Python indexing,
      so 0, 1, 2 pick summary, search, action; -1, -2, -3 pick action, search,
      summary; and every other integer falls back to search. */
  lemma ReplyRoute(reply: string, relevance: string)
    ensures var route := RouteOf(Some(ParseReply(reply, relevance)));
      var t := Strip(reply);
      && (!ParsesAsInt(t) ==> route == SearchTool)
      && (ParsesAsInt(t) && 0 <= LiteralValue(t) < 3 ==> route == ToolOrder[LiteralValue(t)])
      && (ParsesAsInt(t) && -3 <= LiteralValue(t) < 0 ==> route == ToolOrder[LiteralValue(t) + 3])
      && (ParsesAsInt(t) && (LiteralValue(t) >= 3 || LiteralValue(t) < -3) ==> route == SearchTool)
  {
    var sr := ParseReply(reply, relevance);
    assert |sr.selections| == 1;
  }

  /** Whatever the completion service answers, the selector's result leads
      the tool agent to one of the three routes, and a malformed reply such as
      "banana" leads to search. */
  lemma MalformedReplyRoutesToSearch(s: AgentState, text: string, relevance: string,
                                     execute: string -> ToolResponse)
    requires execute(s.query) == ToolResponse(text, Some(ParseReply("banana", relevance)))
    ensures ToolAgent(s, execute).route == "search_tool"
    ensures Invoke(s, execute).visited == [ToolNode, MergeNode]
  {
    NonNumericReplyFallsBack(relevance);
  }

  /** An out-of-scope query: the completion service answers "2", the router's
      action tool replies with its placeholder, and the run goes through
      `action` and ends with the route "action_tool" and the placeholder text
      as the answer. */
  lemma OutOfScopeRun(s: AgentState, relevance: string, execute: string -> ToolResponse)
    requires execute(s.query) == ToolResponse(ActionStubReply, Some(ParseReply("2", relevance)))
    ensures Invoke(s, execute).visited == [ToolNode, ActionNode, MergeNode]
    ensures Invoke(s, execute).final == AgentState(s.query, "action_tool", ActionStubReply)
  {
    ReplyTwoSelectsAction(relevance);
    var afterTool := ToolAgent(s, execute);
    assert afterTool == AgentState(s.query, "action_tool", ActionStubReply);
    ActionStubPassesMerge(afterTool);
  }

  lemma ReplyTwoSelectsAction(relevance: string)
    ensures RouteOf(Some(ParseReply("2", relevance))) == ActionTool
  {
    var two := "2";
    assert Trimmed(two);
    StripTrimmed(two);
    assert SignlessPart(two) == two;
    assert two[..0] == "";
    assert LiteralValue(two) == 2;
    assert ParseReply(two, relevance).selections[0].index == 2;
  }
}

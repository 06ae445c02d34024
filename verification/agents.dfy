/** The three agents of the execution graph, each a function from the state to
    a new state: the tool agent (runs the router and records which tool
    answered), the action agent (a pass-through placeholder) and the merge agent
    (the quality gate on the final answer). */
module Agents {
  import opened Wrappers
  import opened Text
  import opened Selector

  /** The tools the router can dispatch to, in the order the router holds them. */
  datatype Route = SummaryTool | SearchTool | ActionTool {
    /** The label written into the state's `route` field. */
    function Name(): string {
      match this
      case SummaryTool => "summary_tool"
      case SearchTool => "search_tool"
      case ActionTool => "action_tool"
    }
  }

  /** The router's tool list; a selection index is read against it. */
  const ToolOrder: seq<Route> := [SummaryTool, SearchTool, ActionTool]

  /** Every label the `route` field is meant to hold. */
  const RouteNames: set<string> := {"summary_tool", "search_tool", "action_tool"}

  /** The state threaded through the graph. `route` is text, as in the source,
      where the caller starts it as the empty string. */
  datatype AgentState = AgentState(query: string, route: string, result: string)

  /** What the router returns for a query: the response text and, when present,
      the selector's result found in the response metadata. */
  datatype ToolResponse = ToolResponse(text: string, selectorResult: Option<SelectorResult>)

  /** Python list indexing `xs[i]`: non-negative indices count from the front,
      negative ones from the back, and anything else raises `IndexError`
      (`None` here). */
  function PyIndex<T>(xs: seq<T>, i: int): (r: Option<T>)
    ensures r.Some? <==> -|xs| <= i < |xs|
    ensures r.Some? ==> r.value == xs[i % |xs|]
  {
    if 0 <= i < |xs| then Some(xs[i])
    else if -|xs| <= i < 0 then Some(xs[|xs| + i])
    else None
  }

  /** The route the tool agent derives from the selector result: the first
      selection's index read against the tool list with Python indexing, and
      the search tool when there is no selector result, no selection, or the
      index falls outside the list. */
  function RouteOf(selectorResult: Option<SelectorResult>): (r: Route)
    ensures selectorResult.None? ==> r == SearchTool
    ensures selectorResult.Some? && |selectorResult.value.selections| == 0 ==> r == SearchTool
    ensures selectorResult.Some? && |selectorResult.value.selections| > 0 ==>
      var i := selectorResult.value.selections[0].index;
      && (i == 0 || i == -3 ==> r == SummaryTool)
      && (i == 1 || i == -2 ==> r == SearchTool)
      && (i == 2 || i == -1 ==> r == ActionTool)
      && (i >= 3 || i < -3 ==> r == SearchTool)
  {
    match selectorResult
    case None => SearchTool
    case Some(sr) =>
      if |sr.selections| == 0 then SearchTool
      else PyIndex(ToolOrder, sr.selections[0].index).GetOr(SearchTool)
  }

  /** Runs the query through the router (`execute`) and records its answer and
      the label of the tool that produced it. The query is kept, and the route
      is always one of the three labels, whatever the metadata holds. */
  function ToolAgent(s: AgentState, execute: string -> ToolResponse): (r: AgentState)
    ensures r.query == s.query
    ensures r.route in RouteNames
    ensures r.result == execute(s.query).text
    ensures r.route == RouteOf(execute(s.query).selectorResult).Name()
  {
    var response := execute(s.query);
    s.(result := response.text, route := RouteOf(response.selectorResult).Name())
  }

  /** The action agent: a placeholder for a call to an outside API, which
      hands the state on untouched. */
  function ActionAgent(s: AgentState): (r: AgentState)
    ensures r == s
  {
    s
  }

  /** The answer that replaces an empty or boilerplate result:
      "Sorry, I couldn't find a meaningful answer to your query." */
  const Apology: string := "Sorry, I couldn't find " + "a meaningful answer " + "to your query."

  /** Results that, once stripped and lower-cased, count as no answer. */
  const RejectedAnswers: seq<string> := ["n/a", "none", "no result found"]

  /** A result that is blank, or says "n/a", "none" or "no result found" in
      any letter case, with any surrounding whitespace. */
  predicate IsMeaningless(result: string) {
    var t := Strip(result);
    t == [] || ToLower(t) in RejectedAnswers
  }

  /** The quality gate: a meaningless result becomes the apology; any other
      state passes through as it is, untrimmed. Query and route never change,
      and the result that leaves the gate is never meaningless. */
  function MergeAgent(s: AgentState): (r: AgentState)
    ensures r.query == s.query && r.route == s.route
    ensures IsMeaningless(s.result) ==> r.result == Apology
    ensures !IsMeaningless(s.result) ==> r == s
    ensures !IsMeaningless(r.result)
  {
    if IsMeaningless(s.result) then
      ApologyIsMeaningful();
      s.(result := Apology)
    else s
  }

  /** The apology itself passes the gate, so the gate never loops on it. */
  lemma ApologyIsMeaningful()
    ensures !IsMeaningless(Apology)
  {
    ApologyShape();
    TrimmedTextIsMeaningful(Apology);
  }

  lemma ApologyShape()
    ensures |Apology| == 57 && Trimmed(Apology)
  {
    assert Apology[0] == 'S' && Apology[56] == '.';
  }

  /** A non-empty text with no whitespace at its ends, whose length is none of
      the rejected words' lengths, passes the gate. */
  lemma TrimmedTextIsMeaningful(t: string)
    requires t != [] && Trimmed(t)
    requires |t| !in {3, 4, 15}
    ensures !IsMeaningless(t)
  {
    StripTrimmed(t);
    assert forall w :: w in RejectedAnswers ==> |w| in {3, 4, 15};
  }

  /** Passing the gate twice is passing it once. */
  lemma MergeIdempotent(s: AgentState)
    ensures MergeAgent(MergeAgent(s)) == MergeAgent(s)
  {
  }

  /** A result of whitespace only, including the empty result, is rejected. */
  lemma BlankResultRejected(s: AgentState)
    requires AllSpace(s.result)
    ensures MergeAgent(s) == s.(result := Apology)
  {
    assert StrippedAt(s.result, [], |s.result|);
    StripOfUnique(s.result, Strip(s.result), []);
  }

  /** A rejected word in any letter case, padded with whitespace on either
      side, is rejected. */
  lemma PaddedRejectedWordRejected(s: AgentState, before: string, word: string, after: string)
    requires AllSpace(before) && AllSpace(after)
    requires Trimmed(word) && ToLower(word) in RejectedAnswers
    requires s.result == before + word + after
    ensures MergeAgent(s) == s.(result := Apology)
  {
    StripPadded(before, word, after);
  }

  /** The action tool's stub reply is a real answer and passes the gate. */
  lemma ActionStubPassesMerge(s: AgentState)
    requires s.result == "Dummy action triggered"
    ensures MergeAgent(s) == s
  {
    var d := s.result;
    assert d[0] == 'D' && d[|d| - 1] == 'd';
    TrimmedTextIsMeaningful(d);
  }
}

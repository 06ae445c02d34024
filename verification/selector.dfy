/** The embedding-aware tool selector: scores the query against the top
    retrieved fragments, builds the decision prompt, and turns the completion
    service's reply into exactly one selection, falling back to the search tool
    when the reply is not an integer that `int()` accepts.

    The retriever, the completion service and the rendering of a float score
    as text are calls the selector makes into other code; they are parameters
    here, so every property below holds whatever they return. */
module Selector {
  import opened Wrappers
  import opened Text

  /** A retrieved fragment with its similarity score. */
  datatype ScoredNode = ScoredNode(text: string, score: real)

  /** A tool the router may pick: its name and its description. */
  datatype ToolChoice = ToolChoice(name: string, description: string)

  /** One selection: the chosen tool's index and why it was chosen. The index
      is a plain integer; nothing here checks it against the tool list. */
  datatype Selection = Selection(index: int, reason: string)

  datatype SelectorResult = SelectorResult(selections: seq<Selection>)

  /** How many fragments the retriever is asked for. */
  const TopK: nat := 3

  /** How many characters of the first fragment the prompt quotes. */
  const SnippetLimit: nat := 200

  /** The index chosen when the reply is not an integer: the search tool. */
  const FallbackIndex: int := 1

  const FallbackReason: string := "Fallback to search tool"

  const SelectedReasonPrefix: string := "Selected based on document relevance: "

  // ---------------------------------------------------------------------------
  // Relevance
  // ---------------------------------------------------------------------------

  /** The relevance score: zero for an empty retrieval, otherwise the largest
      fragment score. */
  function MaxScore(nodes: seq<ScoredNode>): (m: real)
    ensures |nodes| == 0 ==> m == 0.0
    ensures forall k :: 0 <= k < |nodes| ==> nodes[k].score <= m
    ensures |nodes| > 0 ==> exists k :: 0 <= k < |nodes| && nodes[k].score == m
  {
    if |nodes| == 0 then 0.0
    else if |nodes| == 1 then nodes[0].score
    else
      var rest := MaxScore(nodes[1..]);
      assert forall k :: 1 <= k < |nodes| ==> nodes[k] == nodes[1..][k - 1];
      if nodes[0].score >= rest then nodes[0].score else rest
  }

  /** The relevance as it is written into the prompt and the selection reason.
      With nothing retrieved the score is the integer 0 and prints as "0";
      otherwise it is a float, printed by `render`. */
  function RelevanceText(nodes: seq<ScoredNode>, render: real -> string): (t: string)
    ensures |nodes| == 0 ==> t == "0"
    ensures |nodes| > 0 ==> t == render(MaxScore(nodes))
  {
    if |nodes| == 0 then "0" else render(MaxScore(nodes))
  }

  // ---------------------------------------------------------------------------
  // Prompt
  // ---------------------------------------------------------------------------

  /** The first `SnippetLimit` characters of a fragment (all of it when it is
      shorter). */
  function Snippet(text: string): (p: string)
    ensures |p| <= SnippetLimit
    ensures p <= text
    ensures |text| <= SnippetLimit ==> p == text
    ensures |text| > SnippetLimit ==> |p| == SnippetLimit
  {
    if |text| <= SnippetLimit then text else text[..SnippetLimit]
  }

  const SnippetPrefix: string := "Top relevant content: "
  const SnippetSuffix: string := "...\n"

  /** The snippet line of the prompt. It is present only when something was
      retrieved, and it quotes the first fragment in retrieval order, not the
      best-scoring one. */
  function SnippetLine(nodes: seq<ScoredNode>): (line: string)
    ensures |nodes| == 0 ==> line == ""
    ensures |nodes| > 0 ==>
      var t := nodes[0].text;
      var n := if |t| < SnippetLimit then |t| else SnippetLimit;
      line == SnippetPrefix + t[..n] + SnippetSuffix
  {
    if |nodes| == 0 then "" else SnippetPrefix + Snippet(nodes[0].text) + SnippetSuffix
  }

  /** The prompt line that offers tool `i`. */
  function ToolLine(i: int, c: ToolChoice): string {
    FormatInt(i) + ": " + c.name + " - " + c.description + "\n"
  }

  /** The tool lines, built as the source's loop builds them: one line per
      choice, appended in order, each numbered by its choice's position. */
  function ToolLines(cs: seq<ToolChoice>): (lines: seq<string>)
    ensures |lines| == |cs|
    ensures forall k :: 0 <= k < |cs| ==> lines[k] == ToolLine(k, cs[k])
  {
    if cs == [] then []
    else
      var init := ToolLines(cs[..|cs| - 1]);
      assert forall k :: 0 <= k < |cs| - 1 ==> cs[..|cs| - 1][k] == cs[k];
      init + [ToolLine(|cs| - 1, cs[|cs| - 1])]
  }

  /** Lines joined one after the other. */
  function Join(lines: seq<string>): string {
    if lines == [] then "" else Join(lines[..|lines| - 1]) + lines[|lines| - 1]
  }

  /** The enumerated tool list of the prompt. */
  function ToolList(cs: seq<ToolChoice>): string {
    Join(ToolLines(cs))
  }

  /** Appending a choice appends exactly one line, numbered by its position,
      and leaves the lines of the earlier choices as they were. */
  lemma ToolListAppend(cs: seq<ToolChoice>, c: ToolChoice)
    ensures ToolList(cs + [c]) == ToolList(cs) + (FormatInt(|cs|) + ": " + c.name + " - " + c.description + "\n")
  {
    var all := cs + [c];
    assert all[..|all| - 1] == cs;
    var lines := ToolLines(all);
    assert lines[..|lines| - 1] == ToolLines(cs);
  }

  /** The tool list for a prefix of the choices is a prefix of the tool list. */
  lemma ToolListPrefix(cs: seq<ToolChoice>, k: nat)
    requires k <= |cs|
    ensures ToolList(cs[..k]) <= ToolList(cs)
  {
    var lines := ToolLines(cs);
    assert ToolLines(cs[..k]) == lines[..k];
    JoinPrefix(lines, k);
  }

  lemma {:induction false} JoinPrefix(lines: seq<string>, k: nat)
    requires k <= |lines|
    ensures Join(lines[..k]) <= Join(lines)
    decreases |lines|
  {
    if k < |lines| {
      var init := lines[..|lines| - 1];
      JoinPrefix(init, k);
      assert init[..k] == lines[..k];
    } else {
      assert lines[..k] == lines;
    }
  }

  /** The context's first line, naming the query. */
  function QueryLine(query: string): string {
    "Query: " + query + "\n"
  }

  /** The context's second line, giving the relevance as text. */
  function RelevanceLine(relevance: string): string {
    "Document relevance: " + relevance + "\n"
  }

  const ToolsHeading: string := "\nAvailable tools:\n"

  /** The context block. It opens with the query line and then the relevance
      line. With something retrieved, the first fragment's snippet line follows
      them; with nothing retrieved, the relevance reads "0" and no snippet line
      is present. It closes with the numbered tool list under its heading, and
      its length leaves room for nothing else. */
  function Context(query: string, nodes: seq<ScoredNode>, choices: seq<ToolChoice>, render: real -> string): (c: string)
    ensures QueryLine(query) <= c
    ensures QueryLine(query) + RelevanceLine(RelevanceText(nodes, render)) <= c
    ensures |c| == |QueryLine(query)| + |RelevanceLine(RelevanceText(nodes, render))|
      + |SnippetLine(nodes)| + |ToolsHeading + ToolList(choices)|
    ensures |ToolList(choices)| <= |c| && c[|c| - |ToolList(choices)|..] == ToolList(choices)
    ensures |ToolsHeading + ToolList(choices)| <= |c|
    ensures c[|c| - |ToolsHeading + ToolList(choices)|..] == ToolsHeading + ToolList(choices)
    ensures |nodes| == 0 ==> c == QueryLine(query) + RelevanceLine("0") + ToolsHeading + ToolList(choices)
    ensures |nodes| > 0 ==>
      QueryLine(query) + RelevanceLine(render(MaxScore(nodes))) + SnippetLine(nodes) <= c
  {
    var q := QueryLine(query);
    var r := RelevanceLine(RelevanceText(nodes, render));
    var snip := SnippetLine(nodes);
    var list := ToolList(choices);
    ContextLayout(q, r, snip, ToolsHeading, list);
    q + r + snip + (ToolsHeading + list)
  }

  /** Where the parts of `q + r + s + (h + l)` sit. */
  lemma ContextLayout(q: string, r: string, s: string, h: string, l: string)
    ensures var c := q + r + s + (h + l);
      && |c| == |q| + |r| + |s| + |h + l|
      && q <= c && q + r <= c && q + r + s <= c
      && |l| <= |c| && c[|c| - |l|..] == l
      && |h + l| <= |c| && c[|c| - |h + l|..] == h + l
      && (s == [] ==> c == q + r + h + l)
  {
    var c := q + r + s + (h + l);
    assert c[..|q|] == q;
    assert c[..|q| + |r|] == q + r;
    assert c[..|q| + |r| + |s|] == q + r + s;
    assert c[|c| - |l|..] == l;
    assert c[|c| - |h + l|..] == h + l;
  }

  const PromptHead: string :=
    "\n        Based on the query and document context, select the most appropriate tool:\n        \n        "

  const PromptTail: string :=
    "\n        \n        Rules:\n"
    + "        - If query is moderately relevant to document and asks for overview/summary \U{2192} summary_tool\n"
    + "        - If query is highly relevant (relevance score > 0.3) to the given content and asks for specific details \U{2192} search_tool  \n"
    + "        - If query is NOT relevant (relevance score < 0.15) to document \U{2192} action_tool\n"
    + "        \n        Return only the tool index (0, 1, or 2) without any other text.\n        "

  /** The prompt sent to the completion service: the fixed preamble, the
      context block and the fixed rules. */
  function Prompt(context: string): (p: string)
    ensures |p| == |PromptHead| + |context| + |PromptTail|
    ensures PromptHead <= p
    ensures p[|PromptHead|..|p| - |PromptTail|] == context
    ensures p[|p| - |PromptTail|..] == PromptTail
  {
    ThreeParts(PromptHead, context, PromptTail);
    PromptHead + context + PromptTail
  }

  /** What the completion service is shown: the query line comes straight
      after the preamble, and the numbered tool list sits right before the
      rules. */
  lemma PromptShows(query: string, nodes: seq<ScoredNode>, choices: seq<ToolChoice>, render: real -> string)
    ensures var p := Prompt(Context(query, nodes, choices, render));
      && PromptHead + QueryLine(query) <= p
      && |ToolList(choices)| + |PromptTail| <= |p|
      && p[|p| - |PromptTail| - |ToolList(choices)|..|p| - |PromptTail|] == ToolList(choices)
  {
    var ctx := Context(query, nodes, choices, render);
    SlotFacts(PromptHead, ctx, PromptTail, Prompt(ctx), QueryLine(query), ToolList(choices));
  }

  /** In a string `p` made of `a`, then `b`, then `c`, a prefix `x` of `b`
      follows `a` directly and a suffix `t` of `b` sits directly before `c`. */
  lemma SlotFacts(a: string, b: string, c: string, p: string, x: string, t: string)
    requires |p| == |a| + |b| + |c| && a <= p && p[|a|..|p| - |c|] == b
    requires x <= b
    requires |t| <= |b| && b[|b| - |t|..] == t
    ensures a + x <= p
    ensures |t| + |c| <= |p| && p[|p| - |c| - |t|..|p| - |c|] == t
  {
    var mid := p[|a|..|p| - |c|];
    assert p[..|a| + |x|] == p[..|a|] + p[|a|..|a| + |x|];
    assert forall k :: 0 <= k < |x| ==> p[|a|..|a| + |x|][k] == mid[k];
    assert p[|a|..|a| + |x|] == x;
    assert p[|p| - |c| - |t|..|p| - |c|] == mid[|b| - |t|..];
  }

  /** Where the three parts of `a + b + c` sit. */
  lemma ThreeParts(a: string, b: string, c: string)
    ensures var p := a + b + c;
      && |p| == |a| + |b| + |c|
      && a <= p
      && p[|a|..|p| - |c|] == b
      && p[|p| - |c|..] == c
  {
    var p := a + b + c;
    assert p[..|a|] == a;
    assert p[|a|..|p| - |c|] == b;
  }

  // ---------------------------------------------------------------------------
  // Reply parsing and selection
  // ---------------------------------------------------------------------------

  /** Parses the completion reply: a reply that `int()` accepts once stripped
      selects that integer, unchecked against the tool list; any other reply
      selects the search tool with the fallback reason. Either way there is
      exactly one selection, and nothing is raised. */
  function ParseReply(reply: string, relevance: string): (r: SelectorResult)
    ensures |r.selections| == 1
    ensures ParsesAsInt(Strip(reply)) ==>
      r.selections[0] == Selection(LiteralValue(Strip(reply)), SelectedReasonPrefix + relevance)
    ensures !ParsesAsInt(Strip(reply)) ==>
      r.selections[0] == Selection(FallbackIndex, FallbackReason)
  {
    match ParseInt(Strip(reply))
    case Some(n) => SelectorResult([Selection(n, SelectedReasonPrefix + relevance)])
    case None => SelectorResult([Selection(FallbackIndex, FallbackReason)])
  }

  /** Any integer of at most `MaxStrDigits` digits written back as the reply,
      with or without whitespace on either side, is selected as is, including
      negative and out-of-range ones. */
  lemma IntegerReplySelected(n: int, before: string, after: string, relevance: string)
    requires AllSpace(before) && AllSpace(after)
    requires DigitCount(n) <= MaxStrDigits
    ensures ParseReply(before + FormatInt(n) + after, relevance).selections
      == [Selection(n, SelectedReasonPrefix + relevance)]
  {
    var lit := FormatInt(n);
    ParseFormatRoundTrip(n);
    FormatIntTrimmed(n);
    StripPadded(before, lit, after);
  }

  /** A reply of more than `MaxStrDigits` digits is refused by `int()`, and so
      selects the search tool with the fallback reason. */
  lemma OverlongReplyFallsBack(d: string, relevance: string)
    requires |d| > MaxStrDigits && AllDigits(d)
    ensures ParseReply(d, relevance).selections == [Selection(FallbackIndex, FallbackReason)]
  {
    assert IsDigit(d[0]) && IsDigit(d[|d| - 1]);
    StripTrimmed(d);
    OverlongLiteralRefused(d);
  }

  lemma FormatIntTrimmed(n: int)
    ensures Trimmed(FormatInt(n))
  {
    var s := FormatInt(n);
    if n < 0 {
      assert s == "-" + FormatNat(-n);
      assert s[|s| - 1] == FormatNat(-n)[|FormatNat(-n)| - 1];
    }
  }

  /** The selector proper: retrieve the top fragments for the query, build the
      prompt from them, ask the completion service, parse its reply. */
  function Select(
    choices: seq<ToolChoice>, query: string,
    retrieve: (string, nat) -> seq<ScoredNode>,
    complete: string -> string,
    render: real -> string): (r: SelectorResult)
    ensures |r.selections| == 1
    ensures
      var nodes := retrieve(query, TopK);
      var reply := Strip(complete(Prompt(Context(query, nodes, choices, render))));
      && (ParsesAsInt(reply) ==>
            r.selections[0] == Selection(LiteralValue(reply), SelectedReasonPrefix + RelevanceText(nodes, render)))
      && (!ParsesAsInt(reply) ==> r.selections[0] == Selection(FallbackIndex, FallbackReason))
  {
    var nodes := retrieve(query, TopK);
    var relevance := RelevanceText(nodes, render);
    var reply := complete(Prompt(Context(query, nodes, choices, render)));
    ParseReply(reply, relevance)
  }

  /** The asynchronous entry point does exactly what the synchronous one does. */
  function ASelect(
    choices: seq<ToolChoice>, query: string,
    retrieve: (string, nat) -> seq<ScoredNode>,
    complete: string -> string,
    render: real -> string): (r: SelectorResult)
    ensures |r.selections| == 1
    ensures r == Select(choices, query, retrieve, complete, render)
  {
    Select(choices, query, retrieve, complete, render)
  }

  /** A reply such as "banana" is not an integer and selects the search tool. */
  lemma NonNumericReplyFallsBack(relevance: string)
    ensures ParseReply("banana", relevance).selections == [Selection(FallbackIndex, FallbackReason)]
  {
    BananaIsNotALiteral();
  }

  lemma BananaIsNotALiteral()
    ensures !IsIntLiteral(Strip("banana"))
  {
    var b := "banana";
    assert b[0] == 'b' && b[|b| - 1] == 'a';
    StripTrimmed(b);
    assert SignlessPart(b) == b;
    assert !IsDigit(b[0]);
  }
}

# Document router core, modelled in Dafny

The system routes a natural-language query to one of three answering tools
(summary, search, action), runs the chosen tool, and checks the answer before
returning it. This project models the part with real decision logic:

- **the embedding-aware selector** (`selector.dfy`, module `Selector`). It
  takes the top fragments retrieved for the query and computes a relevance
  score: 0 when nothing is retrieved, otherwise the largest fragment score.
  It then builds the decision prompt and parses the completion service's
  reply. An integer reply is selected as it is, with no range check. Any other
  reply falls back to index 1, the search tool.
- **the agents** (`agents.dfy`, module `Agents`):
  - the tool agent turns the router's response metadata into a route label,
    reading the first selection's index against `["summary_tool",
    "search_tool", "action_tool"]` with Python list indexing, and falls back
    to `search_tool` when that fails;
  - the action agent is the identity;
  - the merge agent replaces a blank, "n/a", "none" or "no result found"
    answer, compared after trimming and ignoring case, with a fixed apology.
- **the execution graph** (`graph.dfy`, module `Graph`): the nodes `tool`,
  `action` and `merge` and the exit, run as a step function. `tool` is the
  entry. Its conditional edges send the summary and search routes to `merge`
  and the action route to `action`. `action` goes to `merge`, and `merge`
  goes to the exit.
- Python's `str.strip`, `str.lower`, `int(str)` and `str(int)`, as far as the
  core uses them (`text.dfy`, module `Text`), and an `Option` type
  (`wrappers.dfy`).
- `routing.dfy` (module `Routing`) joins the selector's reply to the graph
  run.

Calls into other code are function-valued parameters. Every property
therefore holds for any behaviour of that code:

- `retrieve`: the vector retriever, asked for `TopK = 3` fragments;
- `complete`: the completion service;
- `render`: Python's rendering of a float score as text;
- `execute`: the router query engine's `query`. It returns the response text
  and the selector result found in the response metadata.

Points where the code's behaviour is easy to misread:

- The prompt's snippet is cut from the *first* retrieved fragment, not the
  best-scoring one.
- With nothing retrieved, the relevance is the integer `0` and prints as
  `"0"`, not `0.0`.
- The selector never range-checks the parsed integer. Only a reply that does
  not parse falls back to search.
- `int()` refuses a decimal string of more than 4300 digits (the default
  `sys.int_max_str_digits` of CPython 3.11 and later, and of the 3.10.7,
  3.9.14, 3.8.14 and 3.7.14 security releases that fixed CVE-2020-10735). The
  bare `except:` turns that refusal into the
  search fallback, so an over-long numeric reply selects index 1. The model
  follows these interpreters.
- The tool agent uses Python indexing, so the indices −1, −2 and −3 select
  action, search and summary. Only indices ≥ 3 or < −3, an empty selection
  list or missing metadata fall back to search.

## Model

| member | source | states |
|---|---|---|
| Text.Strip | app/agents.py:45 | The result is `s` with whitespace removed from both ends: `s` is the result with only whitespace before and after it, and the result neither starts nor ends with whitespace (Python's `isspace` set). |
| Text.StripOfUnique | app/agents.py:45 | At most one string fits that description, so `Strip` is the only way to strip a string. |
| Text.StripTrimmed | app/embeddingSelector.py:51 | A string with no whitespace at either end is unchanged by stripping. |
| Text.StripIdempotent | app/agents.py:45 | Stripping twice gives the same result as stripping once. |
| Text.StripPadded | app/agents.py:45 | Whitespace added on either side of a trimmed text is exactly what stripping removes. |
| Text.ToLower | app/agents.py:47 | Lower-casing keeps the length and maps each character to its ASCII lower-case form. |
| Text.ToLowerIdempotent | app/agents.py:47 | The lower-cased text holds no upper-case letter, and lower-casing it again changes nothing. |
| Text.ScanDigits | app/embeddingSelector.py:51 | The left-to-right scan succeeds exactly when the rest of the text is digits. On success it yields the value of the whole digit string under the reference reading `DigitsValue`. |
| Text.ParseInt | app/embeddingSelector.py:51 | On a stripped string, `int(s)` succeeds exactly when `s` is an optional sign followed by at least one and at most 4300 digits. It then yields the signed value of the digits. |
| Text.OverlongLiteralRefused | app/embeddingSelector.py:51 | A string of more than 4300 digits is refused by `int()`. |
| Text.FormatInt | app/embeddingSelector.py:32 | `str(i)` is a literal that denotes `i`. It has a leading `-` exactly when `i` is negative, never a `+`, and no leading zero except in "0". |
| Text.ParseFormatRoundTrip | app/embeddingSelector.py:51 | Writing any integer of at most 4300 digits in decimal and parsing it back gives the same integer. |
| Selector.MaxScore | app/embeddingSelector.py:18-21 | The relevance is 0 for an empty retrieval. Otherwise it is at least every fragment's score and equal to one of them. |
| Selector.RelevanceText | app/embeddingSelector.py:18-26 | The relevance is written as `"0"` when nothing was retrieved, and as the rendered maximum score otherwise. |
| Selector.Snippet | app/embeddingSelector.py:28 | The snippet is a prefix of the fragment text, at most 200 characters long. It is the whole text when the text is shorter than that, and exactly 200 characters otherwise. |
| Selector.SnippetLine | app/embeddingSelector.py:27-28 | The snippet line is empty when nothing was retrieved. Otherwise it is "Top relevant content: ", then exactly the first 200 characters of the first retrieved fragment (all of it when shorter), then "...". |
| Selector.ToolLines | app/embeddingSelector.py:30-32 | There is one tool line per choice, in order. Line k pairs the number k with choice k's name and description. |
| Selector.ToolListPrefix | app/embeddingSelector.py:30-32 | The tool list for the first k choices is a prefix of the full tool list, so a choice's line never moves when later choices are added. |
| Selector.ToolListAppend | app/embeddingSelector.py:30-32 | Adding a choice at the end adds exactly one line, numbered by the choice's position. |
| Selector.Context | app/embeddingSelector.py:25-32 | The context opens with the query line and then the relevance line, and closes with "Available tools:" and the numbered tool list. Its length is exactly that of these parts and the snippet line, so nothing else appears in it. With nothing retrieved it is exactly the query line, "Document relevance: 0", the heading and the tool list, with no snippet line. Otherwise the snippet line of the first fragment follows the relevance line, which carries the rendered maximum score. |
| Selector.Prompt | app/embeddingSelector.py:34-45 | The prompt is the fixed preamble, then the context block, then the fixed rules and instruction text. |
| Selector.PromptShows | app/embeddingSelector.py:25-45 | In the prompt the completion service is shown, the query line comes straight after the preamble and the numbered tool list sits right before the rules. |
| Selector.ParseReply | app/embeddingSelector.py:50-59 | There is always exactly one selection. A reply that `int()` accepts after stripping selects that integer with the relevance reason. Any other reply selects index 1 with reason "Fallback to search tool". |
| Selector.IntegerReplySelected | app/embeddingSelector.py:50-53 | Any integer of at most 4300 digits written as the reply, with any whitespace before and after it, is selected unchanged, including negative and out-of-range values. |
| Selector.OverlongReplyFallsBack | app/embeddingSelector.py:50-59 | A reply of more than 4300 digits is refused by `int()` and selects index 1 with the fallback reason. |
| Selector.NonNumericReplyFallsBack | app/embeddingSelector.py:55-59 | The reply "banana" selects index 1 with the fallback reason. |
| Selector.Select | app/embeddingSelector.py:12-59 | The selector retrieves `TopK` fragments for the query and sends the prompt built from them. It returns exactly one selection: the stripped reply's integer value with the relevance reason when `int()` accepts it, or index 1 with the fallback reason. |
| Selector.ASelect | app/embeddingSelector.py:61-63 | The asynchronous entry returns the same result as the synchronous one: exactly one selection. |
| Agents.PyIndex | app/agents.py:28 | Python list indexing succeeds exactly for `-len <= i < len` and then yields element `i mod len`. Otherwise it fails, as `IndexError` does. |
| Agents.RouteOf | app/agents.py:24-33 | Missing metadata or no selection gives search. Indices 0/−3 give summary, 1/−2 give search and 2/−1 give action. Any index ≥ 3 or < −3 gives search. |
| Agents.ToolAgent | app/agents.py:19-35 | The query is kept. The result is the router's response text. The route is always one of the three labels, derived from the metadata. |
| Agents.ActionAgent | app/agents.py:39-40 | The action agent returns its state unchanged. |
| Agents.MergeAgent | app/agents.py:44-52 | Query and route never change. A meaningless result becomes the apology. Any other state passes through identical, untrimmed. The result leaving the gate is never meaningless. |
| Agents.ApologyIsMeaningful | app/agents.py:47-49 | The apology text itself passes the gate. |
| Agents.TrimmedTextIsMeaningful | app/agents.py:47 | A non-empty text with no whitespace at its ends, whose length differs from every rejected word's, is not rejected. |
| Agents.MergeIdempotent | app/agents.py:44-52 | Running the merge gate twice gives the same result as running it once. |
| Agents.BlankResultRejected | app/agents.py:45-49 | An empty or whitespace-only result is replaced by the apology. |
| Agents.PaddedRejectedWordRejected | app/agents.py:45-49 | "n/a", "none" or "no result found" in any letter case, with any surrounding whitespace, is replaced by the apology. |
| Agents.ActionStubPassesMerge | app/pipeline.py:148 | The action tool's placeholder reply "Dummy action triggered" passes the gate unchanged. |
| Graph.EdgesCoverRoutes | app/build_graph.py:24-32 | The conditional-edge map has a key for exactly the three labels, so every label the tool agent writes has an edge. |
| Graph.Step | app/build_graph.py:18-35 | Every step moves to a node of lower rank, and only the exit has no successor, so the graph cannot loop. |
| Graph.StepEffect | app/build_graph.py:18-35 | `tool` runs the tool agent. `action` hands the state to `merge` unchanged. `merge` runs the merge agent and goes to the exit. |
| Graph.ToolDispatch | app/build_graph.py:24-32 | From `tool`, the summary and search routes go to `merge` and the action route goes to `action`. |
| Graph.Run | app/build_graph.py:18-35 | A run starts at its start node and visits at most as many nodes as that node's rank. Ranks strictly decrease along the run, so no node repeats, and the exit is never run. |
| Graph.RunFromTool | app/build_graph.py:22-35 | A run from `tool` visits tool, action, merge when the tool agent records "action_tool", and tool, merge otherwise. Either way it ends with the merge agent's output on the tool agent's state. |
| Graph.RunFromMerge | app/build_graph.py:35 | A run from `merge` visits only `merge` and ends with the merge agent's output. |
| Graph.RunFromAction | app/build_graph.py:34-35 | A run from `action` visits `action` then `merge` and ends with the merge agent's output on the unchanged state. |
| Graph.Invoke | app/build_graph.py:22-35 | A run from the entry ends in `merge_agent(tool_agent(s))`. It visits tool, action, merge when the route is "action_tool", and tool, merge otherwise. |
| Graph.RunShape | app/build_graph.py:18-35 | Every run visits two or three nodes, ends at `merge`, visits `merge` exactly once and visits no node twice. |
| Graph.FinalState | app/build_graph.py:24-35 | The final state keeps the query and holds one of the three route labels. Its result is never meaningless: it is the tool's answer when that is meaningful, and the apology otherwise. |
| Graph.MergeIsLast | app/build_graph.py:35 | `merge` is followed by the exit, and nothing follows the exit. |
| Routing.ReplyRoute | app/agents.py:27-31 | When the metadata holds the selector's result, a reply `int()` refuses routes to search. Integer replies 0..2 pick `ToolOrder[n]`, −3..−1 pick `ToolOrder[n+3]`, and any other integer routes to search. |
| Routing.MalformedReplyRoutesToSearch | app/embeddingSelector.py:55-59 | A "banana" reply leads the tool agent to "search_tool". The run then goes from tool straight to merge. |
| Routing.ReplyTwoSelectsAction | app/agents.py:28 | The reply "2" routes to the action tool. |
| Routing.OutOfScopeRun | app/main.py:25-29 | Suppose the reply is "2" and the action tool gives its placeholder reply. The run then visits tool, action and merge, and ends with route "action_tool" and the placeholder as the result. |

## Left out

- `app/pipeline.py`: model construction, document loading and chunking, the
  pickle cache, index building and persistence, and cache clearing are I/O and
  library wiring. Only the tool order (summary, search, action; line 131) and
  the action stub's reply (line 148) are carried over.
- `app/main.py`: the evaluation driver (environment loading, logging set-up,
  timing, printing). One of its cases is restated as `Routing.OutOfScopeRun`.
- The router query engine's own dispatch to the chosen tool is library code
  that is not part of this model. Its response is the `execute` parameter, and
  nothing assumes it range-checks the index.
- Failures of the retriever, the completion service or the router abort the
  cycle in the source. Here these calls are total function parameters, so that
  abort path is not modelled.
- Rendering a float score as text is the `render` parameter, not a
  definition. Scores are exact `real`s, and a fragment without a score is not
  modelled.
- Logging calls, `_get_prompts`, `_update_prompts`, graph compilation, the
  graph library's state merging and the pipeline set-up in
  `app/build_graph.py:9-15` are not modelled.
- Text.ToLower: folds ASCII letters only, while Python's `lower` is Unicode
  aware. The only non-ASCII characters whose Python lower case contains an
  ASCII letter are U+0130 (giving `i` and a combining dot) and U+212A (giving
  `k`). Neither `i` nor `k` occurs in the rejected words, so the merge gate
  decides the same way.
- Text.ParseInt: accepts an optional sign and ASCII digits only. Python's
  `int` also accepts `_` separators and non-ASCII decimal digits. On
  interpreters without the CVE-2020-10735 fix, which have no digit limit,
  `int` also accepts literals of more than 4300 digits. Python's `int` also
  skips surrounding whitespace. The model's only argument is already
  stripped, so this never shows.
- Text.FormatInt: Python's `str` also refuses integers of more than 4300
  digits. The model renders every integer, because the source only renders
  tool positions.
- Agents.ToolAgent: the response text is taken as the text of `str(response)`.
  The response class's own rendering (for instance of an empty response) is
  library code and not modelled. Metadata holding a non-`None` value of
  another type under `selector_result` is not modelled. A missing key and a
  `None` value are both the absent case.

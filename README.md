# Deep Research API — a Dafny model of its deterministic core

The Deep Research API wraps a multi-agent research workflow in two front ends:

- a FastAPI service (`deep-research-api/api/main.py`) whose `/research` endpoint resolves a
  request's settings, starts the workflow and turns the workflow's final state into a
  `ResearchResponse`, and whose `/research/stream` endpoint turns each streamed graph
  chunk into a `ResearchProgress` event;
- an MCP server (`deep-research-api/mcp-server/server.py`) offering the tools
  `deep_research` and `quick_research`, which post a request body to the API and render
  the JSON answer as a Markdown report with `format_research_response`.

The workflow itself is not shown. This model covers the logic around it:

- the Pydantic records with their defaults (`Models`);
- the API's settings resolution, initial state, plan and step conversion, response
  assembly, and stream-to-event mapping (`Api`);
- the tools' argument defaulting, query check, request body, name dispatch and error
  texts, and the report formatter (`McpServer`);
- the two halves joined: a tool's body as the API reads it, and the API's response as
  the formatter reads it (`EndToEnd`).

Python's value rules are written out. `Text.IntOr` and `Text.StrOr` model `x or default`,
under which `0` and `""` fall back. `Option.GetOr` models `d.get(key, default)` and the
`is not None` test, under which an explicit `False` is kept. `Text.Join` models
`"\n".join`, `Text.NatToString` models `f"{i}"`, `Text.Prefix` models the slice `[:200]`,
and `Text.Enumerated` models `enumerate(xs, 1)`.

A dictionary the code reads with `.get` becomes a datatype with one `Option` field per key
it reads. `None` stands for an absent key.

The loops of three source functions are methods, each proved equal to a specification
function:

- `McpServer.FormatResearchResponse` mirrors how `format_research_response` appends lines
  to `output` and then joins them. It is proved to return `FormatText`, and the lemmas give
  the shape of that text.
- `Api.CollectSteps` is the step-conversion loop.
- `Api.StreamProgress` is the nested chunk/node loop of the stream.

Files: `Wrappers.dfy` (Option), `Text.dfy`, `Models.dfy`, `Api.dfy`, `McpServer.dfy`,
`EndToEnd.dfy`.

Three behaviours of the source that the model makes visible:

- The API always sends `final_report`, as `""` when the workflow produced none. The
  formatter's "No report generated" fallback therefore never shows for an API answer
  (`EndToEnd.SyncReport`).
- `max_steps: 0` passed to `deep_research` is sent as 0. The API then treats it as falsy
  and uses its default of 5 (`EndToEnd.DeepResearchConfig`).
- The tools post a `report_style` (deep-research-api/mcp-server/server.py:175, 215), but
  the API never reads it: neither the workflow call nor the initial state carries a style
  (`Api.ReportStyleUnread`).

## Model

| member | source | states |
|---|---|---|
| Models.ParseStepStatus | deep-research-api/api/models.py:19-24 | a string is a status value exactly when it is one of "pending", "in_progress", "completed", "failed", and the parsed status serialises back to it |
| Models.StepStatusRoundTrip | deep-research-api/api/models.py:19-24 | each of the four statuses parses back from its value, so the values are distinct |
| Models.RequestDefaults | deep-research-api/api/models.py:7-16 | a request needs only its query; the four settings default to None, auto-accept to true, style to "academic", locale to "en-US" |
| Models.StepDefaults | deep-research-api/api/models.py:27-34 | a step built without status or result is pending with no result |
| Models.ProgressDefaults | deep-research-api/api/models.py:46-53 | a progress update needs only stage and message; plan, current step, total steps and observations default to None |
| Models.ResponseDefaults | deep-research-api/api/models.py:56-65 | a response built without metadata has empty metadata |
| Models.ErrorDefaults | deep-research-api/api/models.py:68-72 | an error needs only its message; detail and research id default to None |
| Models.StepStatus.Value | deep-research-api/api/models.py:21-24 | the string each status serialises to: "pending", "in_progress", "completed", "failed" |
| Wrappers.Option.GetOr | deep-research-api/mcp-server/server.py:244 | `d.get(key, default)`: the stored value when the key is present, else the default |
| Text.IntOr | deep-research-api/api/main.py:87-88 | `value or default` on an optional int: the value when present and non-zero, otherwise the default |
| Text.StrOr | deep-research-api/api/main.py:103 | `value or default` on an optional string: the value when present and non-empty, otherwise the default |
| Text.NatToString | deep-research-api/mcp-server/server.py:261 | the decimal label of a number is non-empty, all digits, and has no leading zero unless the number is 0 |
| Text.NatToStringRoundTrip | deep-research-api/mcp-server/server.py:261 | reading the decimal label back gives the number |
| Text.NatToStringInjective | deep-research-api/mcp-server/server.py:260 | distinct numbers get distinct labels |
| Text.Prefix | deep-research-api/mcp-server/server.py:265 | the slice `s[:n]` has length min(n, len(s)) and is a prefix of s |
| Text.JoinAppend | deep-research-api/mcp-server/server.py:293 | joining two non-empty lists of lines puts exactly one separator between them |
| Text.JoinAround | deep-research-api/mcp-server/server.py:293 | joining three lists around a non-empty middle writes a separator only next to lists that are non-empty |
| Text.EnumeratedSnoc | deep-research-api/mcp-server/server.py:260 | one more element adds one more entry, numbered after all earlier ones |
| Text.EnumeratedSplit | deep-research-api/mcp-server/server.py:260 | the element at position k gives the entry numbered start + k, after the entries of the elements before it |
| Text.EnumeratedSingleLines | deep-research-api/mcp-server/server.py:273-274 | with one line per element there is one line per element, and line k is element k's entry numbered start + k |
| Text.EnumeratedLength | deep-research-api/mcp-server/server.py:287-290 | with one line per element the lines are as many as the elements |
| Text.Join | deep-research-api/mcp-server/server.py:293 | `sep.join(parts)`: "" for no parts, the part itself for one, and one separator between consecutive parts |
| Text.Enumerated | deep-research-api/mcp-server/server.py:260 | the lines `for i, x in enumerate(xs, start)` appends, element by element, numbered from start |
| Text.LabelledLinesDistinct | deep-research-api/mcp-server/server.py:260 | two lines starting with different decimal labels followed by ". " are different strings |
| Api.ResolveConfig | deep-research-api/api/main.py:87-98 | step count and plan iterations take the request value when given and non-zero, else 5 and 1; the two flags take the request value whenever given (false included), else true |
| Api.ResolvedBoundsNonZero | deep-research-api/api/main.py:87-88 | the resolved step count and plan iterations are never 0 |
| Api.ResolveConfigIdempotent | deep-research-api/api/main.py:87-98 | resolving a request that already carries its resolved values changes nothing |
| Api.ZeroDroppedFalseKept | deep-research-api/api/main.py:87-98 | explicit 0 counts are replaced by the defaults 5 and 1, while explicit false flags stay false |
| Api.RequestLocale | deep-research-api/api/main.py:103 | the locale is the request's when non-empty, else "en-US"; it is never empty |
| Api.InitialStateFor | deep-research-api/api/main.py:101-111 | the state holds the single user message with the query, the query as both research topics, the request locale, the auto-accept flag and both resolved flags |
| Api.WorkflowCallFor | deep-research-api/api/main.py:114-122 | the workflow runs on the query, without debug, with the resolved counts, and with flags that agree with those in its initial state |
| Api.GraphConfigFor | deep-research-api/api/main.py:237-243 | the stream's graph config uses the research id as thread id and the same resolved counts as the sync call |
| Api.ReportStyleUnread | deep-research-api/api/main.py:87-122 | requests that differ only in `report_style` give the same initial state, the same workflow call, the same stream graph config and the same sync answer, since the API never reads the style |
| Api.ConvertStep | deep-research-api/api/main.py:138-146 | a workflow step becomes a COMPLETED step whose result is the `execution_res` key, with defaults "", "", "research" and false |
| Api.ConvertSteps | deep-research-api/api/main.py:136-147 | one converted step per workflow step, at the same position |
| Api.CollectSteps | deep-research-api/api/main.py:136-147 | the append loop yields exactly the converted step list |
| Api.ConvertPlan | deep-research-api/api/main.py:124-155 | a string plan becomes (query, "Research completed", no steps, true, request locale); an absent plan reads as the empty dict; a dict plan has every missing key defaulted (title to the query, thought to "", context to true, locale to the request's) and its steps converted |
| Api.PlanStepsCompleted | deep-research-api/api/main.py:136-155 | every step of a dict plan's response is COMPLETED, sits where its workflow step sat, and carries that step's `execution_res` |
| Api.AbsentPlanLikeStringPlan | deep-research-api/api/main.py:125-134 | an absent plan and a string plan give the same plan except for the thought, with no steps |
| Api.Metadata | deep-research-api/api/main.py:166-171 | the metadata has exactly the four keys, holding the resolved values |
| Api.ResearchSync | deep-research-api/api/main.py:157-186 | a finished workflow yields a response echoing id and query, with the converted plan and the result's report, observations, resources and locale, each with its default; a raising workflow yields status 500 with "Research workflow failed", the message and the id |
| Api.ResponseMetadataMatchesCall | deep-research-api/api/main.py:158-172 | the response metadata holds exactly the values the workflow was called with |
| Api.NodeProgress | deep-research-api/api/main.py:248-253 | a node's event has the node name as stage, "Processing: " + name as message, its observations, and current step equal to their number (0 when absent) |
| Api.EntriesAppend | deep-research-api/api/main.py:245-247 | the node entries of consecutive chunks follow one another |
| Api.ProgressEventsAppend | deep-research-api/api/main.py:245-256 | the events of consecutive entries follow one another |
| Api.ProgressEventsAt | deep-research-api/api/main.py:247-256 | one event per entry, and event i is the progress of entry i |
| Api.ProgressEventsLength | deep-research-api/api/main.py:247-256 | there are as many events as entries |
| Api.EntriesOrder | deep-research-api/api/main.py:245-247 | entry k of chunk j comes after every entry of the earlier chunks |
| Api.StreamEventsShape | deep-research-api/api/main.py:245-269 | one progress event per node entry in chunk order, then a single error event ("Research workflow failed", message, id) exactly when the stream raised |
| Api.AppendChunkEvents | deep-research-api/api/main.py:247-256 | the inner loop appends one progress event per node of the chunk |
| Api.StreamProgress | deep-research-api/api/main.py:245-269 | the nested loops and the exception handler produce exactly the stream's event list |
| Api.EmptyPlan | deep-research-api/api/main.py:125 | the `{}` that `result.get("current_plan", {})` falls back to: a plan dict with no keys |
| Api.Entries | deep-research-api/api/main.py:245-247 | the (node, update) entries of all chunks, chunk after chunk, each chunk in its own order |
| Api.ProgressEvents | deep-research-api/api/main.py:247-256 | one progress event per entry, in order |
| Api.EndEvents | deep-research-api/api/main.py:262-269 | no event when the stream ran out, one error event with the message and the id when it raised |
| Api.StreamEvents | deep-research-api/api/main.py:245-269 | the events of the stream: the progress events of all entries, then the end events |
| McpServer.DeepResearch | deep-research-api/mcp-server/server.py:155-180 | a missing or empty query gives the error text and no request; otherwise the body carries the query, max_steps (default 5), style (default "academic"), clarification (default false), background (default true) and auto-accept true, posted with a 300 s timeout for a detailed report |
| McpServer.QuickResearch | deep-research-api/mcp-server/server.py:198-220 | a missing or empty query gives the error text; otherwise the body fixes 2 steps, no clarification, no background investigation and auto-accept true, posted with a 180 s timeout for a brief report |
| McpServer.QuickResearchIgnoresOtherArguments | deep-research-api/mcp-server/server.py:198-220 | the quick tool reads only the query and the report style |
| McpServer.ToolDefaults | deep-research-api/mcp-server/server.py:157-161 | with only a query, the deep tool posts (5, "academic", false, true) and the quick tool (2, "academic", false, false) |
| McpServer.ToolFor | deep-research-api/mcp-server/server.py:133-144 | "deep_research" and "quick_research" dispatch to their tools; any other name gives "Unknown tool: " + name |
| McpServer.CallTool | deep-research-api/mcp-server/server.py:128-152 | the text returned for the unknown-tool, missing-query, raised-request, non-200 ("Research API error (status N): body") and success cases, the last being the report, detailed exactly for the deep tool |
| McpServer.AppendHeader | deep-research-api/mcp-server/server.py:243-246 | appends the title, the Query and Research ID lines with "N/A" fallbacks, and a blank line |
| McpServer.AppendPlanHeading | deep-research-api/mcp-server/server.py:252-255 | appends the plan heading and the Title and Thought lines with "N/A" fallbacks, then a blank line |
| McpServer.AppendStepEntry | deep-research-api/mcp-server/server.py:261-266 | appends one step's numbered title, type and description, its Result line when the result is truthy, and a blank line |
| McpServer.AppendStepEntries | deep-research-api/mcp-server/server.py:260-266 | the loop appends the entries of all steps, numbered from 1 in order |
| McpServer.AppendSteps | deep-research-api/mcp-server/server.py:258-266 | appends the "### Research Steps" heading and then the step entries |
| McpServer.AppendPlan | deep-research-api/mcp-server/server.py:251-266 | for a truthy plan, appends the plan heading and, when there are steps, the steps subsection |
| McpServer.AppendObservationEntries | deep-research-api/mcp-server/server.py:273-274 | the loop appends one numbered line per observation, in order |
| McpServer.AppendObservations | deep-research-api/mcp-server/server.py:271-275 | appends the heading, the numbered observations and a blank line |
| McpServer.AppendFinalReport | deep-research-api/mcp-server/server.py:278-281 | appends the "## Final Report" heading, the report (or "No report generated") and a blank line |
| McpServer.AppendSourceEntries | deep-research-api/mcp-server/server.py:287-290 | the loop appends one numbered Markdown link per resource, in order |
| McpServer.AppendSources | deep-research-api/mcp-server/server.py:285-291 | appends the heading, the numbered links and a blank line |
| McpServer.FormatResearchResponse | deep-research-api/mcp-server/server.py:238-293 | the line-appending method returns exactly `FormatText(result, detailed)` |
| McpServer.HeaderJoin | deep-research-api/mcp-server/server.py:243-246 | the joined header lines are the header text |
| McpServer.ReportStartsWithHeader | deep-research-api/mcp-server/server.py:243-246 | in every mode the report starts with the title, Query and Research ID lines, whatever follows |
| McpServer.FinalReportJoin | deep-research-api/mcp-server/server.py:277-281 | the joined final report lines are the final report text |
| McpServer.ReportText | deep-research-api/mcp-server/server.py:238-293 | the report is the header, then the plan and observation sections if written, then the final report section (always there), then the sources section if written, separated by newlines |
| McpServer.QuickReport | deep-research-api/mcp-server/server.py:249-291 | a brief report is exactly the header and the final report: no plan, steps, observations or sources, whatever the reply holds |
| McpServer.DetailWithoutSectionsIsQuick | deep-research-api/mcp-server/server.py:249-291 | with no truthy plan, no observations and no sources, the detailed and brief reports coincide |
| McpServer.PlanSection | deep-research-api/mcp-server/server.py:249-259 | the plan section is written exactly in detailed mode for a truthy plan; it opens with heading, Title and Thought lines, and goes on exactly when there are steps |
| McpServer.ListSections | deep-research-api/mcp-server/server.py:269-285 | the observations and sources sections are written exactly in detailed mode for a non-empty list |
| McpServer.StepNumbering | deep-research-api/mcp-server/server.py:258-266 | the step at position k gives entry number k + 1, after the entries of all earlier steps and before those of all later ones |
| McpServer.StepEntryShape | deep-research-api/mcp-server/server.py:261-266 | a step entry is the numbered title, type and description lines, a Result line (the first min(200, len) characters then "...") exactly when the result is present and non-empty, and a blank line |
| McpServer.ObservationNumbering | deep-research-api/mcp-server/server.py:270-275 | the heading, then observation k on the line numbered k + 1, one line per observation, then a blank line |
| McpServer.SourceNumbering | deep-research-api/mcp-server/server.py:284-291 | the heading, then resource k as link number k + 1 with "N/A" for a missing title or URL, one line per resource, then a blank line |
| McpServer.ObservationLinesDistinct | deep-research-api/mcp-server/server.py:273-274 | the lines of two different observations differ, even when the observations are equal |
| McpServer.SourceLinesDistinct | deep-research-api/mcp-server/server.py:287-290 | the links of two different resources differ, even when the resources are equal |
| McpServer.HasQuery | deep-research-api/mcp-server/server.py:163 | `not query` is false: the query is present and not empty |
| McpServer.PlanTruthy | deep-research-api/mcp-server/server.py:251 | `if plan:`: a dict is truthy when it has a key, read or not |
| McpServer.HeaderLines | deep-research-api/mcp-server/server.py:243-246 | the title, the Query and Research ID lines with "N/A" fallbacks, and a blank line |
| McpServer.PlanHeading | deep-research-api/mcp-server/server.py:252-255 | the plan heading, the Title and Thought lines with "N/A" fallbacks, and a blank line |
| McpServer.ResultLine | deep-research-api/mcp-server/server.py:264-265 | the Result line with the first 200 characters and "...", only for a present, non-empty execution result |
| McpServer.StepEntry | deep-research-api/mcp-server/server.py:261-266 | the numbered title, type and description lines of a step, its Result line, and a blank line |
| McpServer.StepsLines | deep-research-api/mcp-server/server.py:258-266 | nothing for no steps; otherwise the "### Research Steps" heading and the entries numbered from 1 |
| McpServer.PlanLines | deep-research-api/mcp-server/server.py:250-266 | for a truthy plan, the plan heading followed by the steps subsection; nothing otherwise |
| McpServer.ObservationEntry | deep-research-api/mcp-server/server.py:274 | the numbered line of one observation |
| McpServer.ObservationLines | deep-research-api/mcp-server/server.py:270-275 | nothing for no observations; otherwise the heading, the numbered lines and a blank line |
| McpServer.FinalReportLines | deep-research-api/mcp-server/server.py:278-281 | the "## Final Report" heading, the report or "No report generated", and a blank line |
| McpServer.SourceEntry | deep-research-api/mcp-server/server.py:288-290 | the numbered Markdown link of one resource, "N/A" for a missing title or URL |
| McpServer.SourceLink | deep-research-api/mcp-server/server.py:288-290 | the Markdown link `[title](url)` of a resource, "N/A" for a missing title or URL |
| McpServer.SourceLines | deep-research-api/mcp-server/server.py:284-291 | nothing for no resources; otherwise the heading, the numbered links and a blank line |
| McpServer.PlanPart | deep-research-api/mcp-server/server.py:249-266 | the plan section in detailed mode, nothing otherwise |
| McpServer.ObservationPart | deep-research-api/mcp-server/server.py:269-275 | the observations section in detailed mode, nothing otherwise |
| McpServer.SourcePart | deep-research-api/mcp-server/server.py:284-291 | the sources section in detailed mode, nothing otherwise |
| McpServer.ReportLines | deep-research-api/mcp-server/server.py:240-291 | the lines collected in `output`: header, plan part, observation part, final report, source part |
| McpServer.FormatText | deep-research-api/mcp-server/server.py:238-293 | the collected lines joined with newlines |
| McpServer.HeaderText | deep-research-api/mcp-server/server.py:243-246 | the header as text: each header line followed by a newline |
| McpServer.FinalReportText | deep-research-api/mcp-server/server.py:277-281 | the final report section as text |
| EndToEnd.AsRequest | deep-research-api/mcp-server/server.py:172-179 | the posted body read as a request: every sent key kept, and plan iterations and locale at their model defaults |
| EndToEnd.QuickResearchConfig | deep-research-api/mcp-server/server.py:210-220 | a quick research runs with 2 steps, 1 plan iteration, no clarification and no background investigation |
| EndToEnd.DeepResearchConfig | deep-research-api/mcp-server/server.py:157-179 | a deep research runs with the tool's step count unless it is 0 (then 5), 1 plan iteration, and the tool's flags (default no clarification, background investigation on) |
| EndToEnd.StepAsView | deep-research-api/api/models.py:27-34 | a response step read as a dict has every key present, its result as is |
| EndToEnd.StepsAsViews | deep-research-api/api/models.py:41 | one dict per step, in order |
| EndToEnd.ResponseView | deep-research-api/api/models.py:56-65 | the response read as a dict has every key the formatter reads, and its plan dict is truthy |
| EndToEnd.SyncReport | deep-research-api/api/main.py:157-172 | the report of a finished research shows the echoed query and id, the workflow's report ("" rather than "No report generated" when there is none), and in detail always the plan section with its title and thought |

## Left out

- HTTP and MCP transport are not modelled: the `httpx` client, status codes as they arrive,
  `stdio_server`, the `list_tools` schemas and `main()`. The API's reply is an input to
  `McpServer.CallTool` (status, body text and the JSON read back, or the raised message).
- `call_tool` returns a list of one `TextContent`; the model returns only its text.
- The FastAPI app and everything about serving is not modelled: CORS, `/health`, the
  `HealthResponse` record, `uvicorn` and `run()`. The same goes for SSE framing
  (`data: ...\n\n`), JSON serialisation of events and `asyncio.sleep`. The stream is
  modelled as its list of events.
- `run_agent_workflow_async` and `build_graph` are not part of this model. The workflow's
  final state is an input (`Api.WorkflowOutcome`), and so are the stream's chunks with how
  the stream ended (`Api.StreamEnd`).
- `uuid4` is not modelled; the research id is a parameter. Logging is not modelled.
- The settings' environment and `.env` loading is not modelled. The defaults 5, 1, true and
  true of deep-research-api/api/config.py:22-25 are constants in `Api`.
- A JSON `null` stored under a key is modelled as an absent key (`None`). The cases where
  Python treats the two differently:
  - Truthiness tests where the two agree: a null `plan`, `observations`, `resources` or
    `execution_result` in the formatter (deep-research-api/mcp-server/server.py:250-251,
    264, 270-271, 284-285), a null `query` argument (157, 163, 200, 203) and a null
    `Optional` request field (deep-research-api/api/main.py:87-98, 103) each act like a
    missing key.
  - One truthiness test where they do not: a plan dictionary whose keys all hold null is
    truthy in Python (server.py:251), but `McpServer.PlanTruthy` is false for it unless its
    other-keys flag is set.
  - A lookup `.get(key, 'N/A')` prints a null as `None`, where the model prints the
    default: `{"url": null}` renders as `[N/A](None)` in Python but `[N/A](N/A)` in the
    model. The same applies to `query` and `research_id` (server.py:244-245) and to the
    plan and step keys (253-254, 261-263).
  - A tool argument that is null is posted as `null` (server.py:157-161, 201), where the
    model posts the `.get` default. Only `enable_clarification` changes the outcome. A
    null there reaches the API as an absent flag, which resolves to the settings default
    `true` (deep-research-api/api/main.py:89-93, deep-research-api/api/config.py:24). The
    model posts `false`, so `EndToEnd.DeepResearchConfig` gives clarification off. A null
    `max_steps` or `enable_background_investigation` resolves to 5 and `true` in both.
    A null `report_style` is never read by the API (`Api.ReportStyleUnread`).
  - Places where Python fails and the model does not: a null `current_plan` makes
    `plan_data.get` raise (deep-research-api/api/main.py:137), and so does a null `steps`
    of a dict plan when the loop iterates `None` (137); either ends in the 500 answer
    "Research workflow failed", while `Api.ConvertPlan` uses `EmptyPlan` or no steps and
    `Api.ResearchSync` answers `Ok`. Pydantic rejects a null step or plan field that is
    not `Optional` (main.py:139-155) and a null `final_report`, `observations`,
    `resources` or `locale` of the response (main.py:158-165); these too end in status
    500. `len(None)` fails in the stream (main.py:252), and a null final report fails the
    formatter's join (server.py:293).
- Models.MetaValue: `metadata` is a `Dict[str, Any]` (deep-research-api/api/models.py:65), but
  the model allows only integer and boolean values. That is all the API stores: its four
  resolved settings (deep-research-api/api/main.py:166-171).
- Values of the wrong type are not modelled: a non-string title, an `execution_result`
  that is not a string, a plan object that is neither string nor dict. Nor are the
  exceptions they would raise.
- Api.ResearchSync: only an exception raised by the workflow call is modelled. A
  validation error while building the response would also end in status 500; it is not
  modelled.
- Api.StreamProgress: an exception between two nodes of one chunk is not modelled. The
  stream fails only between chunks, after the last event produced.
- A resource dictionary is modelled by its `url` and `title` keys only. A plan or step
  dictionary is modelled by the keys the code reads, plus, for the formatter's plan, a flag
  for other keys, which make it truthy.
- In `initial_state`, the test `enable_clarification is not None` is always true once the
  flag is resolved, so the model always sets the key.
- deep-research-api/examples.py (client demos), src/agents/agents.py (an LLM agent wrapper)
  and the `__init__.py` re-exports are not part of this model.

/** The MCP bridge to the research API (deep-research-api/mcp-server/server.py): the two
    tools `deep_research` and `quick_research`, the request body each posts to the API, and
    `format_research_response`, which renders the API's answer as Markdown text.
    The HTTP exchange is not modelled: the API's reply is an input. */
module McpServer {
  import opened Wrappers
  import opened Text
  import opened Models

  const ApiBaseUrl: string := "http://localhost:8080"
  const QueryRequired: string := "Error: 'query' parameter is required"
  const DeepResearchTool: string := "deep_research"
  const QuickResearchTool: string := "quick_research"

  /* ---------------------------------------------------------------------------------
     Tool calls
     --------------------------------------------------------------------------------- */

  /** The arguments a tool reads from the MCP call (each key possibly absent). */
  datatype ToolArguments = ToolArguments(
    query: Option<string>,
    maxSteps: Option<int>,
    reportStyle: Option<string>,
    enableClarification: Option<bool>,
    enableBackgroundInvestigation: Option<bool>)

  /** The JSON body posted to `/research`. */
  datatype RequestBody = RequestBody(
    query: string,
    maxStepNum: int,
    reportStyle: string,
    enableClarification: bool,
    enableBackgroundInvestigation: bool,
    autoAcceptPlan: bool)

  /** What a tool does with its arguments: answer at once, or post a body to the API
      (with a client timeout) and format the reply, in detail or not. */
  datatype ToolAction =
    | Respond(text: string)
    | Post(url: string, body: RequestBody, timeoutSeconds: nat, detailed: bool)

  /** `not query` is false: the query is present and not empty. */
  predicate HasQuery(args: ToolArguments)
  {
    args.query.Some? && args.query.value != ""
  }

  /** `execute_deep_research` up to the HTTP call. */
  function DeepResearch(args: ToolArguments): (a: ToolAction)
    ensures a.Respond? <==> !HasQuery(args)
    ensures a.Respond? ==> a.text == QueryRequired
    ensures a.Post? ==>
      && a.url == ApiBaseUrl + "/research" && a.timeoutSeconds == 300 && a.detailed
      && a.body.query == args.query.value
      && a.body.maxStepNum == args.maxSteps.GetOr(5)
      && a.body.reportStyle == args.reportStyle.GetOr("academic")
      && a.body.enableClarification == args.enableClarification.GetOr(false)
      && a.body.enableBackgroundInvestigation == args.enableBackgroundInvestigation.GetOr(true)
      && a.body.autoAcceptPlan
  {
    if !HasQuery(args) then Respond(QueryRequired)
    else
      Post(ApiBaseUrl + "/research",
           RequestBody(args.query.value,
                       args.maxSteps.GetOr(5),
                       args.reportStyle.GetOr("academic"),
                       args.enableClarification.GetOr(false),
                       args.enableBackgroundInvestigation.GetOr(true),
                       true),
           300, true)
  }

  /** `execute_quick_research` up to the HTTP call: fixed two steps, no clarification,
      no background investigation, and a reply formatted without detail. */
  function QuickResearch(args: ToolArguments): (a: ToolAction)
    ensures a.Respond? <==> !HasQuery(args)
    ensures a.Respond? ==> a.text == QueryRequired
    ensures a.Post? ==>
      && a.url == ApiBaseUrl + "/research" && a.timeoutSeconds == 180 && !a.detailed
      && a.body.query == args.query.value
      && a.body.maxStepNum == 2
      && a.body.reportStyle == args.reportStyle.GetOr("academic")
      && !a.body.enableClarification
      && !a.body.enableBackgroundInvestigation
      && a.body.autoAcceptPlan
  {
    if !HasQuery(args) then Respond(QueryRequired)
    else
      Post(ApiBaseUrl + "/research",
           RequestBody(args.query.value, 2, args.reportStyle.GetOr("academic"), false, false, true),
           180, false)
  }

  /** The quick tool reads only the query and the report style. */
  lemma QuickResearchIgnoresOtherArguments(a1: ToolArguments, a2: ToolArguments)
    requires a1.query == a2.query && a1.reportStyle == a2.reportStyle
    ensures QuickResearch(a1) == QuickResearch(a2)
  {
  }

  /** With the query alone, the two tools post the same query and style and differ in
      steps (5 against 2), background investigation, timeout and detail. */
  lemma ToolDefaults(query: string)
    requires query != ""
    ensures var args := ToolArguments(Some(query), None, None, None, None);
      && DeepResearch(args) == Post(ApiBaseUrl + "/research",
                                    RequestBody(query, 5, "academic", false, true, true), 300, true)
      && QuickResearch(args) == Post(ApiBaseUrl + "/research",
                                     RequestBody(query, 2, "academic", false, false, true), 180, false)
  {
  }

  /** The name dispatch of `call_tool`. */
  function ToolFor(name: string, args: ToolArguments): (a: ToolAction)
    ensures name == DeepResearchTool ==> a == DeepResearch(args)
    ensures name == QuickResearchTool ==> a == QuickResearch(args)
    ensures name != DeepResearchTool && name != QuickResearchTool ==> a == Respond("Unknown tool: " + name)
  {
    if name == DeepResearchTool then DeepResearch(args)
    else if name == QuickResearchTool then QuickResearch(args)
    else Respond("Unknown tool: " + name)
  }

  /** The API's reply to a post: a status, the body text and the body read as JSON, or
      an exception raised while making the request. */
  datatype ApiReply =
    | HttpResponse(status: nat, body: string, result: ResultView)
    | RequestRaised(message: string)

  /** The text `call_tool` returns for a tool name, its arguments, and the API's reply
      to the request the tool posts (the reply is not read when nothing is posted). */
  function CallTool(name: string, args: ToolArguments, reply: ApiReply): (text: string)
    ensures name != DeepResearchTool && name != QuickResearchTool ==> text == "Unknown tool: " + name
    ensures (name == DeepResearchTool || name == QuickResearchTool) && !HasQuery(args) ==>
      text == QueryRequired
    ensures (name == DeepResearchTool || name == QuickResearchTool) && HasQuery(args) ==>
      match reply
      case RequestRaised(m) =>
        text == "Error executing research: " + m
                + "\n\nPlease ensure the Deep Research API server is running at " + ApiBaseUrl
      case HttpResponse(status, body, result) =>
        text == if status != 200
                then "Research API error (status " + NatToString(status) + "): " + body
                else FormatText(result, name == DeepResearchTool)
  {
    match ToolFor(name, args)
    case Respond(t) => t
    case Post(_, _, _, detailed) =>
      match reply
      case RequestRaised(m) =>
        "Error executing research: " + m + "\n\nPlease ensure the Deep Research API server is running at " + ApiBaseUrl
      case HttpResponse(status, body, result) =>
        if status != 200 then "Research API error (status " + NatToString(status) + "): " + body
        else FormatText(result, detailed)
  }

  /* ---------------------------------------------------------------------------------
     format_research_response
     --------------------------------------------------------------------------------- */

  /** A step of the reply's plan, with the keys the formatter reads. */
  datatype StepView = StepView(
    title: Option<string>,
    stepType: Option<string>,
    description: Option<string>,
    executionResult: Option<string>)

  /** The reply's plan dictionary; `hasOtherKeys` records keys the formatter does not read,
      which still make the dictionary truthy. */
  datatype PlanView = PlanView(
    title: Option<string>,
    thought: Option<string>,
    steps: Option<seq<StepView>>,
    hasOtherKeys: bool)

  /** The reply's JSON dictionary, with the keys the formatter reads; `plan` is None when
      the key is absent (or null). */
  datatype ResultView = ResultView(
    query: Option<string>,
    researchId: Option<string>,
    plan: Option<PlanView>,
    observations: Option<seq<string>>,
    finalReport: Option<string>,
    resources: Option<seq<ResourceDict>>)

  /** A dictionary is truthy when it has a key. */
  predicate PlanTruthy(plan: PlanView)
  {
    plan.title.Some? || plan.thought.Some? || plan.steps.Some? || plan.hasOtherKeys
  }

  const ResultCut: nat := 200

  function HeaderLines(r: ResultView): seq<string>
  {
    ["# Deep Research Report\n",
     "**Query:** " + r.query.GetOr("N/A") + "\n",
     "**Research ID:** " + r.researchId.GetOr("N/A") + "\n",
     ""]
  }

  /** The Result line of a step, when its execution result is truthy. */
  function ResultLine(executionResult: Option<string>): seq<string>
  {
    if executionResult.Some? && executionResult.value != ""
    then ["   - Result: " + Prefix(executionResult.value, ResultCut) + "..."]
    else []
  }

  function StepEntry(n: nat, step: StepView): seq<string>
  {
    [NatToString(n) + ". **" + step.title.GetOr("N/A") + "**",
     "   - Type: " + step.stepType.GetOr("N/A"),
     "   - Description: " + step.description.GetOr("N/A")]
    + ResultLine(step.executionResult)
    + [""]
  }

  function StepsLines(steps: seq<StepView>): seq<string>
  {
    if steps == [] then [] else ["### Research Steps\n"] + Enumerated(steps, 1, StepEntry)
  }

  function PlanHeading(plan: PlanView): seq<string>
  {
    ["## Research Plan\n",
     "**Title:** " + plan.title.GetOr("N/A") + "\n",
     "**Thought:** " + plan.thought.GetOr("N/A") + "\n",
     ""]
  }

  function PlanLines(plan: Option<PlanView>): seq<string>
  {
    if plan.Some? && PlanTruthy(plan.value) then
      PlanHeading(plan.value) + StepsLines(plan.value.steps.GetOr([]))
    else []
  }

  function ObservationEntry(n: nat, observation: string): seq<string>
  {
    [NatToString(n) + ". " + observation + "\n"]
  }

  function ObservationLines(observations: seq<string>): seq<string>
  {
    if observations == [] then []
    else ["## Key Observations\n"] + Enumerated(observations, 1, ObservationEntry) + [""]
  }

  function FinalReportLines(r: ResultView): seq<string>
  {
    ["## Final Report\n", r.finalReport.GetOr("No report generated"), ""]
  }

  /** The Markdown link to a resource, "N/A" standing in for a missing title or URL. */
  function SourceLink(resource: ResourceDict): string
  {
    "[" + resource.title.GetOr("N/A") + "](" + resource.url.GetOr("N/A") + ")"
  }

  function SourceEntry(n: nat, resource: ResourceDict): seq<string>
  {
    [NatToString(n) + ". " + SourceLink(resource)]
  }

  function SourceLines(resources: seq<ResourceDict>): seq<string>
  {
    if resources == [] then [] else ["## Sources\n"] + Enumerated(resources, 1, SourceEntry) + [""]
  }

  // The sections written only in detailed mode.
  function PlanPart(r: ResultView, detailed: bool): seq<string>
  {
    if detailed then PlanLines(r.plan) else []
  }

  function ObservationPart(r: ResultView, detailed: bool): seq<string>
  {
    if detailed then ObservationLines(r.observations.GetOr([])) else []
  }

  function SourcePart(r: ResultView, detailed: bool): seq<string>
  {
    if detailed then SourceLines(r.resources.GetOr([])) else []
  }

  /** The lines `format_research_response` collects in `output`. */
  function ReportLines(r: ResultView, detailed: bool): seq<string>
  {
    HeaderLines(r) + PlanPart(r, detailed) + ObservationPart(r, detailed)
    + FinalReportLines(r) + SourcePart(r, detailed)
  }

  /** The text `format_research_response(result, detailed)` returns. */
  function FormatText(r: ResultView, detailed: bool): string
  {
    Join(ReportLines(r, detailed), "\n")
  }

  /** The body of the steps loop: the lines of the step numbered `n`. */
  method AppendStepEntry(output: seq<string>, n: nat, step: StepView) returns (out: seq<string>)
    ensures out == output + StepEntry(n, step)
  {
    out := output + [NatToString(n) + ". **" + step.title.GetOr("N/A") + "**"];
    out := out + ["   - Type: " + step.stepType.GetOr("N/A")];
    out := out + ["   - Description: " + step.description.GetOr("N/A")];
    if step.executionResult.Some? && step.executionResult.value != "" {
      out := out + ["   - Result: " + Prefix(step.executionResult.value, ResultCut) + "..."];
    }
    out := out + [""];
  }

  /** The `for i, step in enumerate(steps, 1)` loop of the plan section. */
  method AppendStepEntries(output: seq<string>, steps: seq<StepView>) returns (out: seq<string>)
    ensures out == output + Enumerated(steps, 1, StepEntry)
  {
    out := output;
    var i := 0;
    while i < |steps|
      invariant 0 <= i <= |steps|
      invariant out == output + Enumerated(steps[..i], 1, StepEntry)
    {
      out := AppendStepEntry(out, i + 1, steps[i]);
      EnumeratedSnoc(steps[..i], steps[i], 1, StepEntry);
      AppendAssoc(output, Enumerated(steps[..i], 1, StepEntry), StepEntry(i + 1, steps[i]));
      assert steps[..i + 1] == steps[..i] + [steps[i]];
      i := i + 1;
    }
    assert steps[..i] == steps;
  }

  /** The steps subsection: its heading, then one entry per step. */
  method AppendSteps(output: seq<string>, steps: seq<StepView>) returns (out: seq<string>)
    requires steps != []
    ensures out == output + StepsLines(steps)
  {
    out := output + ["### Research Steps\n"];
    out := AppendStepEntries(out, steps);
    AppendAssoc(output, ["### Research Steps\n"], Enumerated(steps, 1, StepEntry));
  }

  /** The heading lines of the plan section. */
  method AppendPlanHeading(output: seq<string>, plan: PlanView) returns (out: seq<string>)
    ensures out == output + PlanHeading(plan)
  {
    out := output + ["## Research Plan\n"];
    out := out + ["**Title:** " + plan.title.GetOr("N/A") + "\n"];
    out := out + ["**Thought:** " + plan.thought.GetOr("N/A") + "\n"];
    out := out + [""];
  }

  /** The plan section: its heading lines, then the steps when there are any. */
  method AppendPlan(output: seq<string>, plan: PlanView) returns (out: seq<string>)
    requires PlanTruthy(plan)
    ensures out == output + PlanLines(Some(plan))
  {
    out := AppendPlanHeading(output, plan);
    var steps := plan.steps.GetOr([]);
    if steps != [] {
      out := AppendSteps(out, steps);
    } else {
      assert StepsLines(steps) == [];
    }
    AppendAssoc(output, PlanHeading(plan), StepsLines(steps));
  }

  /** The `for i, obs in enumerate(observations, 1)` loop of the observations section. */
  method AppendObservationEntries(output: seq<string>, observations: seq<string>) returns (out: seq<string>)
    ensures out == output + Enumerated(observations, 1, ObservationEntry)
  {
    out := output;
    var i := 0;
    while i < |observations|
      invariant 0 <= i <= |observations|
      invariant out == output + Enumerated(observations[..i], 1, ObservationEntry)
    {
      out := out + [NatToString(i + 1) + ". " + observations[i] + "\n"];
      EnumeratedSnoc(observations[..i], observations[i], 1, ObservationEntry);
      AppendAssoc(output, Enumerated(observations[..i], 1, ObservationEntry), ObservationEntry(i + 1, observations[i]));
      assert observations[..i + 1] == observations[..i] + [observations[i]];
      i := i + 1;
    }
    assert observations[..i] == observations;
  }

  /** The observations section: heading, one line per observation, blank line. */
  method AppendObservations(output: seq<string>, observations: seq<string>) returns (out: seq<string>)
    requires observations != []
    ensures out == output + ObservationLines(observations)
  {
    out := output + ["## Key Observations\n"];
    out := AppendObservationEntries(out, observations);
    out := out + [""];
    AppendAssoc(output, ["## Key Observations\n"], Enumerated(observations, 1, ObservationEntry));
    AppendAssoc(output, ["## Key Observations\n"] + Enumerated(observations, 1, ObservationEntry), [""]);
  }

  /** The `for i, resource in enumerate(resources, 1)` loop of the sources section. */
  method AppendSourceEntries(output: seq<string>, resources: seq<ResourceDict>) returns (out: seq<string>)
    ensures out == output + Enumerated(resources, 1, SourceEntry)
  {
    out := output;
    var i := 0;
    while i < |resources|
      invariant 0 <= i <= |resources|
      invariant out == output + Enumerated(resources[..i], 1, SourceEntry)
    {
      var resource := resources[i];
      var url := resource.url.GetOr("N/A");
      var title := resource.title.GetOr("N/A");
      var link := "[" + title + "](" + url + ")";
      out := out + [NatToString(i + 1) + ". " + link];
      EnumeratedSnoc(resources[..i], resource, 1, SourceEntry);
      AppendAssoc(output, Enumerated(resources[..i], 1, SourceEntry), SourceEntry(i + 1, resource));
      assert resources[..i + 1] == resources[..i] + [resource];
      i := i + 1;
    }
    assert resources[..i] == resources;
  }

  /** The sources section: heading, one line per resource, blank line. */
  method AppendSources(output: seq<string>, resources: seq<ResourceDict>) returns (out: seq<string>)
    requires resources != []
    ensures out == output + SourceLines(resources)
  {
    out := output + ["## Sources\n"];
    out := AppendSourceEntries(out, resources);
    out := out + [""];
    AppendAssoc(output, ["## Sources\n"], Enumerated(resources, 1, SourceEntry));
    AppendAssoc(output, ["## Sources\n"] + Enumerated(resources, 1, SourceEntry), [""]);
  }

  /** The report heading, the query and the research id. */
  method AppendHeader(output: seq<string>, result: ResultView) returns (out: seq<string>)
    ensures out == output + HeaderLines(result)
  {
    out := output + ["# Deep Research Report\n"];
    out := out + ["**Query:** " + result.query.GetOr("N/A") + "\n"];
    out := out + ["**Research ID:** " + result.researchId.GetOr("N/A") + "\n"];
    out := out + [""];
  }

  /** The final report section, written in every mode. */
  method AppendFinalReport(output: seq<string>, result: ResultView) returns (out: seq<string>)
    ensures out == output + FinalReportLines(result)
  {
    out := output + ["## Final Report\n"];
    var finalReport := result.finalReport.GetOr("No report generated");
    out := out + [finalReport];
    out := out + [""];
  }

  /** `format_research_response`: appends the sections line by line, then joins them. */
  method FormatResearchResponse(result: ResultView, detailed: bool) returns (text: string)
    ensures text == FormatText(result, detailed)
  {
    var output := AppendHeader([], result);
    assert output == HeaderLines(result);
    ghost var header := output;

    if detailed && result.plan.Some? && PlanTruthy(result.plan.value) {
      output := AppendPlan(output, result.plan.value);
      assert output == header + PlanPart(result, detailed);
    } else {
      assert output == header + PlanPart(result, detailed);
    }
    ghost var withPlan := output;

    var observations := result.observations.GetOr([]);
    if detailed && observations != [] {
      output := AppendObservations(output, observations);
      assert output == withPlan + ObservationPart(result, detailed);
    } else {
      assert output == withPlan + ObservationPart(result, detailed);
    }
    ghost var withObservations := output;

    output := AppendFinalReport(output, result);
    ghost var withReport := output;

    var resources := result.resources.GetOr([]);
    if resources != [] && detailed {
      output := AppendSources(output, resources);
      assert output == withReport + SourcePart(result, detailed);
    } else {
      assert output == withReport + SourcePart(result, detailed);
    }

    text := Join(output, "\n");
  }

  /* ---------------------------------------------------------------------------------
     Properties of the report
     --------------------------------------------------------------------------------- */

  /** The text every report starts with: the title, the query and the research id, each
      line followed by a blank line. */
  function HeaderText(r: ResultView): string
  {
    "# Deep Research Report\n" + "\n"
    + "**Query:** " + r.query.GetOr("N/A") + "\n" + "\n"
    + "**Research ID:** " + r.researchId.GetOr("N/A") + "\n" + "\n"
    + "\n"
  }

  /** The text of the final report section. */
  function FinalReportText(r: ResultView): string
  {
    "## Final Report\n" + "\n" + r.finalReport.GetOr("No report generated") + "\n"
  }

  /** The four header lines, joined, followed by the separator before the next line. */
  lemma HeaderJoin(r: ResultView)
    ensures Join(HeaderLines(r), "\n") + "\n" == HeaderText(r)
  {
    var h := HeaderLines(r);
    assert Join(h[3..], "\n") == "";
    assert Join(h[2..], "\n") == h[2] + "\n";
    assert Join(h[1..], "\n") == h[1] + "\n" + h[2] + "\n";
  }

  /** The header comes first in every mode, whatever follows it. */
  lemma ReportStartsWithHeader(r: ResultView, detailed: bool)
    ensures FormatText(r, detailed)
         == HeaderText(r)
            + Join(PlanPart(r, detailed) + ObservationPart(r, detailed)
                   + FinalReportLines(r) + SourcePart(r, detailed), "\n")
  {
    var h, p, o, f, s := HeaderLines(r), PlanPart(r, detailed), ObservationPart(r, detailed),
                         FinalReportLines(r), SourcePart(r, detailed);
    AppendAssoc(h, p, o);
    AppendAssoc(h, p + o, f);
    AppendAssoc(h, p + o + f, s);
    assert ReportLines(r, detailed) == h + (p + o + f + s);
    JoinAppend(h, p + o + f + s, "\n");
    HeaderJoin(r);
  }

  lemma FinalReportJoin(r: ResultView)
    ensures Join(FinalReportLines(r), "\n") == FinalReportText(r)
  {
    var f := FinalReportLines(r);
    assert Join(f[2..], "\n") == "";
    assert Join(f[1..], "\n") == f[1] + "\n";
  }

  /** The whole text: the header, the plan and observations sections when written, the
      final report section in every mode, then the sources section when written. */
  lemma ReportText(r: ResultView, detailed: bool)
    ensures var before := PlanPart(r, detailed) + ObservationPart(r, detailed);
            var sources := SourcePart(r, detailed);
      FormatText(r, detailed)
      == HeaderText(r)
         + Join(before, "\n") + (if before == [] then "" else "\n")
         + FinalReportText(r)
         + (if sources == [] then "" else "\n" + Join(sources, "\n"))
  {
    ReportStartsWithHeader(r, detailed);
    var before, f, sources := PlanPart(r, detailed) + ObservationPart(r, detailed),
                              FinalReportLines(r), SourcePart(r, detailed);
    JoinAround(before, f, sources, "\n");
    FinalReportJoin(r);
    var h, j, a, c := HeaderText(r), Join(before, "\n"), (if before == [] then "" else "\n"),
                      (if sources == [] then "" else "\n" + Join(sources, "\n"));
    var t := FinalReportText(r);
    assert FormatText(r, detailed) == h + (j + a + t + c);
    AppendAssoc(h, j + a + t, c);
    AppendAssoc(h, j + a, t);
    AppendAssoc(h, j, a);
  }

  /** Without detail the report is the header and the final report and nothing else:
      the plan, the observations and the sources are not read. */
  lemma QuickReport(r: ResultView)
    ensures FormatText(r, false) == HeaderText(r) + FinalReportText(r)
  {
    ReportText(r, false);
  }

  /** In detail, a report whose reply has no truthy plan, no observations and no sources
      reads exactly like the quick one. */
  lemma DetailWithoutSectionsIsQuick(r: ResultView)
    requires r.plan.None? || !PlanTruthy(r.plan.value)
    requires r.observations.GetOr([]) == [] && r.resources.GetOr([]) == []
    ensures FormatText(r, true) == FormatText(r, false)
  {
    assert ReportLines(r, true) == ReportLines(r, false);
  }

  /** The plan section is written exactly when the mode is detailed and the plan is a
      truthy dictionary; it then opens with its heading and the title and thought lines,
      and holds the steps subsection exactly when there are steps. */
  lemma PlanSection(r: ResultView, detailed: bool)
    ensures PlanPart(r, detailed) != [] <==> detailed && r.plan.Some? && PlanTruthy(r.plan.value)
    ensures PlanPart(r, detailed) != [] ==>
      var plan := r.plan.value;
      && PlanPart(r, detailed)[..4]
         == ["## Research Plan\n",
             "**Title:** " + plan.title.GetOr("N/A") + "\n",
             "**Thought:** " + plan.thought.GetOr("N/A") + "\n",
             ""]
      && (|PlanPart(r, detailed)| > 4 <==> plan.steps.GetOr([]) != [])
  {
  }

  /** The observations and sources sections are written exactly in detailed mode with a
      non-empty list. */
  lemma ListSections(r: ResultView, detailed: bool)
    ensures ObservationPart(r, detailed) != [] <==> detailed && r.observations.GetOr([]) != []
    ensures SourcePart(r, detailed) != [] <==> detailed && r.resources.GetOr([]) != []
  {
  }

  /** The step at position k is entry number k + 1, after the entries of the steps
      before it and before the entries of the steps after it. */
  lemma StepNumbering(steps: seq<StepView>, k: nat)
    requires k < |steps|
    ensures StepsLines(steps)
         == ["### Research Steps\n"] + Enumerated(steps[..k], 1, StepEntry)
            + StepEntry(k + 1, steps[k]) + Enumerated(steps[k + 1..], k + 2, StepEntry)
  {
    EnumeratedSplit(steps, k, 1, StepEntry);
    var before, entry, after := Enumerated(steps[..k], 1, StepEntry), StepEntry(k + 1, steps[k]),
                                Enumerated(steps[k + 1..], k + 2, StepEntry);
    AppendAssoc(["### Research Steps\n"], before, entry);
    AppendAssoc(["### Research Steps\n"], before + entry, after);
  }

  /** A step entry: its numbered title, its type and description, the Result line
      (the first 200 characters of a non-empty execution result, then "...") when there
      is one, and a blank line. */
  lemma StepEntryShape(n: nat, step: StepView)
    ensures var e := StepEntry(n, step);
      && e[0] == NatToString(n) + ". **" + step.title.GetOr("N/A") + "**"
      && e[1] == "   - Type: " + step.stepType.GetOr("N/A")
      && e[2] == "   - Description: " + step.description.GetOr("N/A")
      && e[|e| - 1] == ""
      && (|e| == 5 <==> step.executionResult.Some? && step.executionResult.value != "")
      && (|e| == 5 ==>
            var result := step.executionResult.value;
            exists cut :: |cut| == (if |result| < 200 then |result| else 200)
                          && cut == result[..|cut|]
                          && e[3] == "   - Result: " + cut + "...")
      && (|e| == 5 || |e| == 4)
  {
  }

  /** The observations section: its heading, then observation k on line k + 1 numbered
      k + 1, then a blank line. */
  lemma ObservationNumbering(observations: seq<string>, k: nat)
    requires k < |observations|
    ensures var lines := ObservationLines(observations);
      && |lines| == |observations| + 2
      && lines[0] == "## Key Observations\n"
      && lines[k + 1] == NatToString(k + 1) + ". " + observations[k] + "\n"
      && lines[|lines| - 1] == ""
  {
    assert forall i: nat, x: string :: |ObservationEntry(i, x)| == 1;
    EnumeratedSingleLines(observations, 1, ObservationEntry, k);
  }

  /** The sources section: its heading, then resource k on line k + 1 as a numbered
      Markdown link (with "N/A" for a missing title or URL), then a blank line. */
  lemma SourceNumbering(resources: seq<ResourceDict>, k: nat)
    requires k < |resources|
    ensures var lines := SourceLines(resources);
      && |lines| == |resources| + 2
      && lines[0] == "## Sources\n"
      && lines[k + 1] == NatToString(k + 1) + ". " + SourceLink(resources[k])
      && lines[|lines| - 1] == ""
  {
    assert forall i: nat, x: ResourceDict :: |SourceEntry(i, x)| == 1;
    EnumeratedSingleLines(resources, 1, SourceEntry, k);
  }

  /** Every entry gets its own number: the lines of two different observations differ,
      even when the observations are equal. */
  lemma ObservationLinesDistinct(observations: seq<string>, j: nat, k: nat)
    requires j < k < |observations|
    ensures |ObservationLines(observations)| == |observations| + 2
    ensures ObservationLines(observations)[j + 1] != ObservationLines(observations)[k + 1]
  {
    ObservationNumbering(observations, j);
    ObservationNumbering(observations, k);
    LabelledLinesDistinct(j + 1, k + 1, observations[j] + "\n", observations[k] + "\n");
    AppendAssoc(NatToString(j + 1) + ". ", observations[j], "\n");
    AppendAssoc(NatToString(k + 1) + ". ", observations[k], "\n");
  }

  /** Likewise the links of two different resources differ, even for equal resources. */
  lemma SourceLinesDistinct(resources: seq<ResourceDict>, j: nat, k: nat)
    requires j < k < |resources|
    ensures |SourceLines(resources)| == |resources| + 2
    ensures SourceLines(resources)[j + 1] != SourceLines(resources)[k + 1]
  {
    SourceNumbering(resources, j);
    SourceNumbering(resources, k);
    LabelledLinesDistinct(j + 1, k + 1, SourceLink(resources[j]), SourceLink(resources[k]));
  }
}

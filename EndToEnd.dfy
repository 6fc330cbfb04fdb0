/** The two halves of the system put together: the body an MCP tool posts, read by the
    API as a `ResearchRequest`, and the API's `ResearchResponse`, read back by the MCP
    formatter as the JSON dictionary it receives. */
module EndToEnd {
  import opened Wrappers
  import opened Text
  import opened Models
  import opened Api
  import opened McpServer

  /** The posted JSON body parsed as a `ResearchRequest`: every key the tools send is
      present, and `locale` and `max_plan_iterations`, which they do not send, take the
      model's defaults. */
  function AsRequest(body: RequestBody): (request: ResearchRequest)
    ensures request.query == body.query
    ensures request.maxStepNum == Some(body.maxStepNum)
    ensures request.maxPlanIterations.None?
    ensures request.enableClarification == Some(body.enableClarification)
    ensures request.enableBackgroundInvestigation == Some(body.enableBackgroundInvestigation)
    ensures request.autoAcceptPlan == Some(body.autoAcceptPlan)
    ensures request.reportStyle == Some(body.reportStyle)
    ensures request.locale == Some(DefaultLocale)
  {
    ResearchRequest(
      body.query,
      maxStepNum := Some(body.maxStepNum),
      enableClarification := Some(body.enableClarification),
      enableBackgroundInvestigation := Some(body.enableBackgroundInvestigation),
      autoAcceptPlan := Some(body.autoAcceptPlan),
      reportStyle := Some(body.reportStyle))
  }

  /** A quick research runs the workflow with two steps, one plan iteration, and neither
      clarification nor background investigation, whatever the tool's arguments. */
  lemma QuickResearchConfig(args: ToolArguments)
    requires HasQuery(args)
    ensures ResolveConfig(AsRequest(QuickResearch(args).body)) == ResolvedConfig(2, 1, false, false)
  {
  }

  /** A deep research runs with the tool's step count unless it is 0 (the API then falls
      back to its own default of 5), one plan iteration, and the tool's flags, whose
      defaults are no clarification and background investigation. */
  lemma DeepResearchConfig(args: ToolArguments)
    requires HasQuery(args)
    ensures var steps := args.maxSteps.GetOr(5);
      ResolveConfig(AsRequest(DeepResearch(args).body))
      == ResolvedConfig(if steps != 0 then steps else DefaultMaxStepNum,
                        DefaultMaxPlanIterations,
                        args.enableClarification.GetOr(false),
                        args.enableBackgroundInvestigation.GetOr(true))
  {
  }

  /** A step of the response as the formatter sees its JSON dictionary. */
  function StepAsView(step: ResearchStep): (v: StepView)
    ensures v.title == Some(step.title) && v.stepType == Some(step.stepType)
    ensures v.description == Some(step.description) && v.executionResult == step.executionResult
  {
    StepView(Some(step.title), Some(step.stepType), Some(step.description), step.executionResult)
  }

  function StepsAsViews(steps: seq<ResearchStep>): (vs: seq<StepView>)
    ensures |vs| == |steps|
    ensures forall i :: 0 <= i < |steps| ==> vs[i] == StepAsView(steps[i])
  {
    if steps == [] then [] else [StepAsView(steps[0])] + StepsAsViews(steps[1..])
  }

  /** The response's JSON dictionary as the formatter reads it. The plan dictionary
      always has keys (`has_enough_context` and `locale` among them), so it is truthy. */
  function ResponseView(response: ResearchResponse): (v: ResultView)
    ensures v.query == Some(response.query) && v.researchId == Some(response.researchId)
    ensures v.plan.Some? && PlanTruthy(v.plan.value)
    ensures v.plan.value.title == Some(response.plan.title)
    ensures v.plan.value.thought == Some(response.plan.thought)
    ensures v.plan.value.steps == Some(StepsAsViews(response.plan.steps))
    ensures v.observations == Some(response.observations)
    ensures v.finalReport == Some(response.finalReport)
    ensures v.resources == Some(response.resources)
  {
    ResultView(
      Some(response.query),
      Some(response.researchId),
      Some(PlanView(Some(response.plan.title), Some(response.plan.thought),
                    Some(StepsAsViews(response.plan.steps)), true)),
      Some(response.observations),
      Some(response.finalReport),
      Some(response.resources))
  }

  /** A report of a finished research starts with the query and the research id the
      API echoed; its final report section shows the workflow's report, or nothing when
      the workflow gave none (the API's "" wins over the formatter's fallback); and in
      detail it always holds the plan section, headed by the plan's title and thought. */
  lemma SyncReport(request: ResearchRequest, researchId: string, result: WorkflowResult, detailed: bool)
    ensures var r := ResearchSync(request, researchId, Finished(result));
            var view := ResponseView(r.response);
      && r.Ok?
      && HeaderText(view) == "# Deep Research Report\n" + "\n"
                             + "**Query:** " + request.query + "\n" + "\n"
                             + "**Research ID:** " + researchId + "\n" + "\n" + "\n"
      && FinalReportText(view)
         == "## Final Report\n" + "\n" + result.finalReport.GetOr("") + "\n"
      && (detailed ==>
            var plan := ConvertPlan(request, result.currentPlan);
            PlanPart(view, detailed)[..4]
            == ["## Research Plan\n",
                "**Title:** " + plan.title + "\n",
                "**Thought:** " + plan.thought + "\n",
                ""])
  {
  }
}

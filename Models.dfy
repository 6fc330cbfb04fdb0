/** The request and response records of the research API (deep-research-api/api/models.py).
    Each Pydantic model is a datatype; a field with a default is a constructor parameter
    with that default value, and an `Optional[...]` field is an `Option`. */
module Models {
  import opened Wrappers

  /** What a caller sends to `/research` and `/research/stream`: only the query is required. */
  datatype ResearchRequest = ResearchRequest(
    query: string,
    maxStepNum: Option<int> := None,
    maxPlanIterations: Option<int> := None,
    enableClarification: Option<bool> := None,
    enableBackgroundInvestigation: Option<bool> := None,
    autoAcceptPlan: Option<bool> := Some(true),
    reportStyle: Option<string> := Some("academic"),
    locale: Option<string> := Some("en-US"))

  /** A step's status; as a string enum it serialises to its value. */
  datatype StepStatus = Pending | InProgress | Completed | Failed {

    function Value(): string {
      match this
      case Pending => "pending"
      case InProgress => "in_progress"
      case Completed => "completed"
      case Failed => "failed"
    }
  }

  /** The status with the given serialised value, if there is one (`StepStatus(value)`). */
  function ParseStepStatus(value: string): (s: Option<StepStatus>)
    ensures s.Some? <==> value in {"pending", "in_progress", "completed", "failed"}
    ensures s.Some? ==> s.value.Value() == value
  {
    if value == "pending" then Some(Pending)
    else if value == "in_progress" then Some(InProgress)
    else if value == "completed" then Some(Completed)
    else if value == "failed" then Some(Failed)
    else None
  }

  /** Parsing a status's value gives the status back, so the four values are distinct. */
  lemma StepStatusRoundTrip(s: StepStatus)
    ensures ParseStepStatus(s.Value()) == Some(s)
  {
  }

  datatype ResearchStep = ResearchStep(
    title: string,
    description: string,
    stepType: string,
    needSearch: bool,
    status: StepStatus := Pending,
    executionResult: Option<string> := None)

  datatype ResearchPlan = ResearchPlan(
    title: string,
    thought: string,
    steps: seq<ResearchStep>,
    hasEnoughContext: bool,
    locale: string)

  /** One streamed progress update: stage and message are required. */
  datatype ResearchProgress = ResearchProgress(
    stage: string,
    message: string,
    plan: Option<ResearchPlan> := None,
    currentStep: Option<int> := None,
    totalSteps: Option<int> := None,
    observations: Option<seq<string>> := None)

  /** An entry of the `resources` list (a `Dict[str, Any]`); only the keys the formatter
      reads are modelled, each possibly absent. */
  datatype ResourceDict = ResourceDict(url: Option<string>, title: Option<string>)

  /** A value of the `metadata` dictionary: the API stores integers and booleans in it. */
  datatype MetaValue = IntValue(i: int) | BoolValue(b: bool)

  datatype ResearchResponse = ResearchResponse(
    researchId: string,
    query: string,
    plan: ResearchPlan,
    finalReport: string,
    observations: seq<string>,
    resources: seq<ResourceDict>,
    locale: string,
    metadata: map<string, MetaValue> := map[])

  datatype ResearchError = ResearchError(
    error: string,
    detail: Option<string> := None,
    researchId: Option<string> := None)

  /** The defaults a request built from a query alone carries. */
  lemma RequestDefaults(query: string)
    ensures var r := ResearchRequest(query);
      && r.query == query
      && r.maxStepNum.None? && r.maxPlanIterations.None?
      && r.enableClarification.None? && r.enableBackgroundInvestigation.None?
      && r.autoAcceptPlan == Some(true)
      && r.reportStyle == Some("academic")
      && r.locale == Some("en-US")
  {
  }

  /** A step built without status or result is pending and has no result. */
  lemma StepDefaults(title: string, description: string, stepType: string, needSearch: bool)
    ensures var s := ResearchStep(title, description, stepType, needSearch);
      s.status == Pending && s.executionResult.None?
  {
  }

  /** A progress update built from stage and message alone has no optional part. */
  lemma ProgressDefaults(stage: string, message: string)
    ensures var p := ResearchProgress(stage, message);
      p.stage == stage && p.message == message
      && p.plan.None? && p.currentStep.None? && p.totalSteps.None? && p.observations.None?
  {
  }

  /** A response built without metadata has an empty metadata map. */
  lemma ResponseDefaults(researchId: string, query: string, plan: ResearchPlan, finalReport: string,
                         observations: seq<string>, resources: seq<ResourceDict>, locale: string)
    ensures ResearchResponse(researchId, query, plan, finalReport, observations, resources, locale).metadata == map[]
  {
  }

  /** An error built from its message alone has neither detail nor research id. */
  lemma ErrorDefaults(error: string)
    ensures var e := ResearchError(error);
      e.error == error && e.detail.None? && e.researchId.None?
  {
  }
}

/** The request handling of the research API (deep-research-api/api/main.py) around the
    research workflow: resolving the configuration of a request, building the workflow's
    initial state, converting the workflow's result into a `ResearchResponse`, and
    turning the chunks the workflow graph streams into progress events.
    The workflow itself is not part of this model: its result and its stream of chunks
    are inputs. */
module Api {
  import opened Wrappers
  import opened Text
  import opened Models

  // The settings' research defaults (deep-research-api/api/config.py:22-25).
  const DefaultMaxStepNum: int := 5
  const DefaultMaxPlanIterations: int := 1
  const DefaultEnableClarification: bool := true
  const DefaultEnableBackgroundInvestigation: bool := true

  const DefaultLocale: string := "en-US"
  const WorkflowFailed: string := "Research workflow failed"

  /* ---------------------------------------------------------------------------------
     Configuration and initial state
     --------------------------------------------------------------------------------- */

  /** The four settings a request resolves to. */
  datatype ResolvedConfig = ResolvedConfig(
    maxStepNum: int,
    maxPlanIterations: int,
    enableClarification: bool,
    enableBackgroundInvestigation: bool)

  /** The numbers fall back on the defaults when missing or 0 (`value or default`);
      the flags fall back only when missing (`value if value is not None else default`). */
  function ResolveConfig(request: ResearchRequest): (c: ResolvedConfig)
    ensures c.maxStepNum
         == if request.maxStepNum.Some? && request.maxStepNum.value != 0
            then request.maxStepNum.value else DefaultMaxStepNum
    ensures c.maxPlanIterations
         == if request.maxPlanIterations.Some? && request.maxPlanIterations.value != 0
            then request.maxPlanIterations.value else DefaultMaxPlanIterations
    ensures c.enableClarification
         == if request.enableClarification.Some?
            then request.enableClarification.value else DefaultEnableClarification
    ensures c.enableBackgroundInvestigation
         == if request.enableBackgroundInvestigation.Some?
            then request.enableBackgroundInvestigation.value else DefaultEnableBackgroundInvestigation
  {
    ResolvedConfig(
      IntOr(request.maxStepNum, DefaultMaxStepNum),
      IntOr(request.maxPlanIterations, DefaultMaxPlanIterations),
      request.enableClarification.GetOr(DefaultEnableClarification),
      request.enableBackgroundInvestigation.GetOr(DefaultEnableBackgroundInvestigation))
  }

  /** Resolved step and iteration bounds are never 0, so they are always truthy. */
  lemma ResolvedBoundsNonZero(request: ResearchRequest)
    ensures ResolveConfig(request).maxStepNum != 0
    ensures ResolveConfig(request).maxPlanIterations != 0
  {
  }

  /** Resolving again a request that already carries its resolved values changes nothing. */
  lemma ResolveConfigIdempotent(request: ResearchRequest)
    ensures var c := ResolveConfig(request);
      ResolveConfig(request.(maxStepNum := Some(c.maxStepNum),
                             maxPlanIterations := Some(c.maxPlanIterations),
                             enableClarification := Some(c.enableClarification),
                             enableBackgroundInvestigation := Some(c.enableBackgroundInvestigation)))
      == c
  {
  }

  /** An explicit 0 is replaced by the default while an explicit false is kept. */
  lemma ZeroDroppedFalseKept(request: ResearchRequest)
    requires request.maxStepNum == Some(0) && request.maxPlanIterations == Some(0)
    requires request.enableClarification == Some(false)
    requires request.enableBackgroundInvestigation == Some(false)
    ensures ResolveConfig(request) == ResolvedConfig(5, 1, false, false)
  {
  }

  /** The locale of a request: its own when truthy (`request.locale or "en-US"`). */
  function RequestLocale(request: ResearchRequest): (l: string)
    ensures l != ""
    ensures request.locale.Some? && request.locale.value != "" ==> l == request.locale.value
    ensures request.locale.None? || request.locale.value == "" ==> l == DefaultLocale
  {
    StrOr(request.locale, DefaultLocale)
  }

  datatype Message = Message(role: string, content: string)

  /** The state the workflow starts from. `enable_clarification` is set only when the
      resolved flag is not None; a resolved flag is always a bool, so it is always set. */
  datatype InitialState = InitialState(
    messages: seq<Message>,
    locale: string,
    researchTopic: string,
    clarifiedResearchTopic: string,
    autoAcceptedPlan: Option<bool>,
    enableBackgroundInvestigation: bool,
    enableClarification: bool)

  function InitialStateFor(request: ResearchRequest, config: ResolvedConfig): (s: InitialState)
    ensures s.messages == [Message("user", request.query)]
    ensures s.researchTopic == request.query && s.clarifiedResearchTopic == request.query
    ensures s.locale == RequestLocale(request) && s.locale != ""
    ensures s.autoAcceptedPlan == request.autoAcceptPlan
    ensures s.enableBackgroundInvestigation == config.enableBackgroundInvestigation
    ensures s.enableClarification == config.enableClarification
  {
    InitialState(
      [Message("user", request.query)],
      RequestLocale(request),
      request.query,
      request.query,
      request.autoAcceptPlan,
      config.enableBackgroundInvestigation,
      config.enableClarification)
  }

  /** The arguments `research_sync` passes to the workflow. */
  datatype WorkflowCall = WorkflowCall(
    userInput: string,
    debug: bool,
    maxPlanIterations: int,
    maxStepNum: int,
    enableBackgroundInvestigation: bool,
    enableClarification: bool,
    initialState: InitialState)

  function WorkflowCallFor(request: ResearchRequest): (w: WorkflowCall)
    ensures w.userInput == request.query && !w.debug
    ensures w.maxStepNum == ResolveConfig(request).maxStepNum
    ensures w.maxPlanIterations == ResolveConfig(request).maxPlanIterations
    ensures w.initialState == InitialStateFor(request, ResolveConfig(request))
    // the flags passed beside the state agree with the flags stored in it
    ensures w.enableClarification == w.initialState.enableClarification
    ensures w.enableBackgroundInvestigation == w.initialState.enableBackgroundInvestigation
  {
    var c := ResolveConfig(request);
    WorkflowCall(request.query, false, c.maxPlanIterations, c.maxStepNum,
                 c.enableBackgroundInvestigation, c.enableClarification, InitialStateFor(request, c))
  }

  /** The `configurable` part of the config `research_stream` gives the graph. */
  datatype GraphConfig = GraphConfig(threadId: string, maxPlanIterations: int, maxStepNum: int)

  function GraphConfigFor(request: ResearchRequest, researchId: string): (g: GraphConfig)
    ensures g.threadId == researchId
    ensures g.maxPlanIterations == WorkflowCallFor(request).maxPlanIterations
    ensures g.maxStepNum == WorkflowCallFor(request).maxStepNum
  {
    var c := ResolveConfig(request);
    GraphConfig(researchId, c.maxPlanIterations, c.maxStepNum)
  }

  /* ---------------------------------------------------------------------------------
     The workflow's result and its conversion into a response
     --------------------------------------------------------------------------------- */

  /** A step of the workflow's plan, with the keys the API reads (each possibly absent). */
  datatype WorkflowStep = WorkflowStep(
    title: Option<string>,
    description: Option<string>,
    stepType: Option<string>,
    needSearch: Option<bool>,
    executionRes: Option<string>)

  /** The workflow's plan when it is a dictionary. */
  datatype WorkflowPlan = WorkflowPlan(
    title: Option<string>,
    thought: Option<string>,
    steps: Option<seq<WorkflowStep>>,
    hasEnoughContext: Option<bool>,
    locale: Option<string>)

  /** `current_plan` is either a string or a dictionary. */
  datatype PlanValue = PlanText(text: string) | PlanDict(plan: WorkflowPlan)

  /** The keys of the workflow's final state that the API reads. */
  datatype WorkflowResult = WorkflowResult(
    currentPlan: Option<PlanValue>,
    finalReport: Option<string>,
    observations: Option<seq<string>>,
    resources: Option<seq<ResourceDict>>,
    locale: Option<string>)

  /** What the workflow call did: return its final state or raise. */
  datatype WorkflowOutcome = Finished(result: WorkflowResult) | Raised(message: string)

  /** A workflow step becomes a completed `ResearchStep`; its result is the `execution_res` key. */
  function ConvertStep(d: WorkflowStep): (s: ResearchStep)
    ensures s.status == Completed
    ensures s.executionResult == d.executionRes
    ensures s.title == d.title.GetOr("") && s.description == d.description.GetOr("")
    ensures s.stepType == d.stepType.GetOr("research") && s.needSearch == d.needSearch.GetOr(false)
  {
    ResearchStep(
      title := d.title.GetOr(""),
      description := d.description.GetOr(""),
      stepType := d.stepType.GetOr("research"),
      needSearch := d.needSearch.GetOr(false),
      status := Completed,
      executionResult := d.executionRes)
  }

  /** The converted steps: one per input step, in input order. */
  function ConvertSteps(ds: seq<WorkflowStep>): (ss: seq<ResearchStep>)
    ensures |ss| == |ds|
    ensures forall i :: 0 <= i < |ds| ==> ss[i] == ConvertStep(ds[i])
  {
    if ds == [] then [] else [ConvertStep(ds[0])] + ConvertSteps(ds[1..])
  }

  /** The `for step_data in ...: steps.append(...)` loop of `research_sync`. */
  method CollectSteps(ds: seq<WorkflowStep>) returns (steps: seq<ResearchStep>)
    ensures steps == ConvertSteps(ds)
  {
    steps := [];
    var i := 0;
    while i < |ds|
      invariant 0 <= i <= |ds|
      invariant |steps| == i
      invariant forall k :: 0 <= k < i ==> steps[k] == ConvertStep(ds[k])
    {
      var d := ds[i];
      steps := steps + [ResearchStep(
        title := d.title.GetOr(""),
        description := d.description.GetOr(""),
        stepType := d.stepType.GetOr("research"),
        needSearch := d.needSearch.GetOr(false),
        status := Completed,
        executionResult := d.executionRes)];
      i := i + 1;
    }
  }

  const EmptyPlan: WorkflowPlan := WorkflowPlan(None, None, None, None, None)

  /** The response plan. A string plan becomes a default plan; a dictionary plan (an
      absent one reads as the empty dictionary) has each missing key defaulted. */
  function ConvertPlan(request: ResearchRequest, current: Option<PlanValue>): (p: ResearchPlan)
    ensures current.Some? && current.value.PlanText? ==>
      p == ResearchPlan(request.query, "Research completed", [], true, RequestLocale(request))
    ensures current.None? ==>
      p == ResearchPlan(request.query, "", [], true, RequestLocale(request))
    ensures current.Some? && current.value.PlanDict? ==>
      var d := current.value.plan;
      && p.title == d.title.GetOr(request.query)
      && p.thought == d.thought.GetOr("")
      && p.steps == ConvertSteps(d.steps.GetOr([]))
      && p.hasEnoughContext == d.hasEnoughContext.GetOr(true)
      && p.locale == d.locale.GetOr(RequestLocale(request))
  {
    match current.GetOr(PlanDict(EmptyPlan))
    case PlanText(_) =>
      ResearchPlan(request.query, "Research completed", [], true, RequestLocale(request))
    case PlanDict(d) =>
      ResearchPlan(
        d.title.GetOr(request.query),
        d.thought.GetOr(""),
        ConvertSteps(d.steps.GetOr([])),
        d.hasEnoughContext.GetOr(true),
        d.locale.GetOr(RequestLocale(request)))
  }

  /** Every step of a response plan is completed, carries the result stored under
      `execution_res`, and sits where its workflow step sat. */
  lemma PlanStepsCompleted(request: ResearchRequest, d: WorkflowPlan, i: nat)
    requires i < |d.steps.GetOr([])|
    ensures var p := ConvertPlan(request, Some(PlanDict(d)));
      && |p.steps| == |d.steps.GetOr([])|
      && p.steps[i].status == Completed
      && p.steps[i].executionResult == d.steps.GetOr([])[i].executionRes
      && p.steps[i].title == d.steps.GetOr([])[i].title.GetOr("")
  {
  }

  /** An absent plan and a string plan give the same response plan but for the thought. */
  lemma AbsentPlanLikeStringPlan(request: ResearchRequest, text: string)
    ensures ConvertPlan(request, None) == ConvertPlan(request, Some(PlanText(text))).(thought := "")
    ensures ConvertPlan(request, None).steps == []
  {
  }

  /** What `research_sync` answers: the response, or HTTP status 500 with an error body. */
  datatype SyncOutcome = Ok(response: ResearchResponse) | HttpFailure(statusCode: nat, error: ResearchError)

  const MetadataKeys: set<string> :=
    {"max_step_num", "max_plan_iterations", "enable_clarification", "enable_background_investigation"}

  function Metadata(c: ResolvedConfig): (m: map<string, MetaValue>)
    ensures m.Keys == MetadataKeys
    ensures m["max_step_num"] == IntValue(c.maxStepNum)
    ensures m["max_plan_iterations"] == IntValue(c.maxPlanIterations)
    ensures m["enable_clarification"] == BoolValue(c.enableClarification)
    ensures m["enable_background_investigation"] == BoolValue(c.enableBackgroundInvestigation)
  {
    map["max_step_num" := IntValue(c.maxStepNum),
        "max_plan_iterations" := IntValue(c.maxPlanIterations),
        "enable_clarification" := BoolValue(c.enableClarification),
        "enable_background_investigation" := BoolValue(c.enableBackgroundInvestigation)]
  }

  /** `research_sync` for a request, the research id it generated, and what the workflow
      called with `WorkflowCallFor(request)` did. */
  function ResearchSync(request: ResearchRequest, researchId: string, outcome: WorkflowOutcome): (r: SyncOutcome)
    ensures r.Ok? <==> outcome.Finished?
    ensures outcome.Raised? ==>
      r == HttpFailure(500, ResearchError(WorkflowFailed, Some(outcome.message), Some(researchId)))
    ensures r.Ok? ==>
      var resp := r.response;
      var res := outcome.result;
      && resp.researchId == researchId
      && resp.query == request.query
      && resp.plan == ConvertPlan(request, res.currentPlan)
      && resp.finalReport == res.finalReport.GetOr("")
      && resp.observations == res.observations.GetOr([])
      && resp.resources == res.resources.GetOr([])
      && resp.locale == res.locale.GetOr(RequestLocale(request))
      && resp.metadata == Metadata(ResolveConfig(request))
  {
    match outcome
    case Raised(message) =>
      HttpFailure(500, ResearchError(WorkflowFailed, Some(message), Some(researchId)))
    case Finished(res) =>
      Ok(ResearchResponse(
        researchId,
        request.query,
        ConvertPlan(request, res.currentPlan),
        res.finalReport.GetOr(""),
        res.observations.GetOr([]),
        res.resources.GetOr([]),
        res.locale.GetOr(RequestLocale(request)),
        Metadata(ResolveConfig(request))))
  }

  /** The metadata of a response holds exactly the four resolved settings, which are
      the values the workflow was called with. */
  lemma ResponseMetadataMatchesCall(request: ResearchRequest, researchId: string, result: WorkflowResult)
    ensures var r := ResearchSync(request, researchId, Finished(result));
      var w := WorkflowCallFor(request);
      && r.Ok?
      && r.response.metadata.Keys == MetadataKeys
      && r.response.metadata["max_step_num"] == IntValue(w.maxStepNum)
      && r.response.metadata["max_plan_iterations"] == IntValue(w.maxPlanIterations)
      && r.response.metadata["enable_clarification"] == BoolValue(w.enableClarification)
      && r.response.metadata["enable_background_investigation"] == BoolValue(w.enableBackgroundInvestigation)
  {
  }

  /** The API never reads `report_style`: two requests that differ only in it start the
      same workflow from the same initial state, stream with the same graph config and get the same answer. */
  lemma ReportStyleUnread(request: ResearchRequest, style: Option<string>, researchId: string,
                          outcome: WorkflowOutcome)
    ensures var other := request.(reportStyle := style);
      && InitialStateFor(other, ResolveConfig(other)) == InitialStateFor(request, ResolveConfig(request))
      && WorkflowCallFor(other) == WorkflowCallFor(request)
      && GraphConfigFor(other, researchId) == GraphConfigFor(request, researchId)
      && ResearchSync(other, researchId, outcome) == ResearchSync(request, researchId, outcome)
  {
  }

  /* ---------------------------------------------------------------------------------
     Streaming
     --------------------------------------------------------------------------------- */

  /** The state update one graph node reports; the API reads only its observations. */
  datatype NodeUpdate = NodeUpdate(observations: Option<seq<string>>)

  /** One streamed chunk: a dictionary from node name to update, in insertion order. */
  type Chunk = seq<(string, NodeUpdate)>

  /** How the graph's stream ended: it ran out, or it raised. */
  datatype StreamEnd = Exhausted | Interrupted(message: string)

  datatype StreamEvent = ProgressEvent(progress: ResearchProgress) | ErrorEvent(error: ResearchError)

  /** The progress event for one node's update. */
  function NodeProgress(node: string, update: NodeUpdate): (p: ResearchProgress)
    ensures p.stage == node && p.message == "Processing: " + node
    ensures p.currentStep == Some(|update.observations.GetOr([])|)
    ensures p.observations == update.observations
    ensures p.plan.None? && p.totalSteps.None?
  {
    ResearchProgress(node, "Processing: " + node,
                     observations := update.observations,
                     currentStep := Some(|update.observations.GetOr([])|))
  }

  /** All (node, update) entries of the chunks, chunk after chunk. */
  function Entries(chunks: seq<Chunk>): seq<(string, NodeUpdate)>
  {
    if chunks == [] then [] else chunks[0] + Entries(chunks[1..])
  }

  function ProgressEvents(entries: seq<(string, NodeUpdate)>): seq<StreamEvent>
  {
    if entries == [] then []
    else [ProgressEvent(NodeProgress(entries[0].0, entries[0].1))] + ProgressEvents(entries[1..])
  }

  function EndEvents(end: StreamEnd, researchId: string): seq<StreamEvent>
  {
    match end
    case Exhausted => []
    case Interrupted(message) => [ErrorEvent(ResearchError(WorkflowFailed, Some(message), Some(researchId)))]
  }

  /** The events `research_stream` produces for the chunks its graph streamed before
      the stream ended as `end`. */
  function StreamEvents(chunks: seq<Chunk>, end: StreamEnd, researchId: string): seq<StreamEvent>
  {
    ProgressEvents(Entries(chunks)) + EndEvents(end, researchId)
  }

  lemma {:induction false} EntriesAppend(a: seq<Chunk>, b: seq<Chunk>)
    ensures Entries(a + b) == Entries(a) + Entries(b)
  {
    if a == [] {
      assert a + b == b;
    } else {
      assert (a + b)[1..] == a[1..] + b;
      EntriesAppend(a[1..], b);
    }
  }

  lemma {:induction false} ProgressEventsAppend(a: seq<(string, NodeUpdate)>, b: seq<(string, NodeUpdate)>)
    ensures ProgressEvents(a + b) == ProgressEvents(a) + ProgressEvents(b)
  {
    if a == [] {
      assert a + b == b;
    } else {
      assert (a + b)[1..] == a[1..] + b;
      ProgressEventsAppend(a[1..], b);
    }
  }

  lemma {:induction false} ProgressEventsAt(entries: seq<(string, NodeUpdate)>, i: nat)
    requires i < |entries|
    ensures |ProgressEvents(entries)| == |entries|
    ensures ProgressEvents(entries)[i] == ProgressEvent(NodeProgress(entries[i].0, entries[i].1))
  {
    ProgressEventsLength(entries);
    if i > 0 {
      ProgressEventsAt(entries[1..], i - 1);
    }
  }

  lemma {:induction false} ProgressEventsLength(entries: seq<(string, NodeUpdate)>)
    ensures |ProgressEvents(entries)| == |entries|
  {
    if entries != [] {
      ProgressEventsLength(entries[1..]);
    }
  }

  /** Entry k of chunk j comes after every entry of the chunks before j. */
  lemma EntriesOrder(chunks: seq<Chunk>, j: nat, k: nat)
    requires j < |chunks| && k < |chunks[j]|
    ensures |Entries(chunks[..j])| + k < |Entries(chunks)|
    ensures Entries(chunks)[|Entries(chunks[..j])| + k] == chunks[j][k]
  {
    assert chunks == chunks[..j] + [chunks[j]] + chunks[j + 1..];
    EntriesAppend(chunks[..j] + [chunks[j]], chunks[j + 1..]);
    EntriesAppend(chunks[..j], [chunks[j]]);
    assert Entries([chunks[j]]) == chunks[j] by {
      assert [chunks[j]][1..] == [];
    }
  }

  /** One progress event per node entry in chunk order, then one error event exactly
      when the stream raised; an error event can only be the last event. */
  lemma StreamEventsShape(chunks: seq<Chunk>, end: StreamEnd, researchId: string, i: nat)
    requires i < |StreamEvents(chunks, end, researchId)|
    ensures |StreamEvents(chunks, end, researchId)|
         == |Entries(chunks)| + (if end.Interrupted? then 1 else 0)
    ensures i < |Entries(chunks)| ==>
      StreamEvents(chunks, end, researchId)[i]
      == ProgressEvent(NodeProgress(Entries(chunks)[i].0, Entries(chunks)[i].1))
    ensures StreamEvents(chunks, end, researchId)[i].ErrorEvent? <==>
      end.Interrupted? && i == |Entries(chunks)|
    ensures StreamEvents(chunks, end, researchId)[i].ErrorEvent? ==>
      StreamEvents(chunks, end, researchId)[i].error
      == ResearchError(WorkflowFailed, Some(end.message), Some(researchId))
  {
    ProgressEventsLength(Entries(chunks));
    if i < |Entries(chunks)| {
      ProgressEventsAt(Entries(chunks), i);
    }
  }

  /** The inner loop of `research_stream`: one progress event per node of a chunk. */
  method AppendChunkEvents(events: seq<StreamEvent>, chunk: Chunk) returns (out: seq<StreamEvent>)
    ensures out == events + ProgressEvents(chunk)
  {
    out := events;
    var k := 0;
    while k < |chunk|
      invariant 0 <= k <= |chunk|
      invariant out == events + ProgressEvents(chunk[..k])
    {
      var (node, update) := chunk[k];
      var progress := ResearchProgress(
        node, "Processing: " + node,
        observations := update.observations,
        currentStep := Some(|update.observations.GetOr([])|));
      out := out + [ProgressEvent(progress)];
      assert chunk[..k + 1] == chunk[..k] + [chunk[k]];
      ProgressEventsAppend(chunk[..k], [chunk[k]]);
      k := k + 1;
    }
    assert chunk[..k] == chunk;
  }

  /** The nested loops of `research_stream`: for each chunk, for each node in it, one
      progress event; an exception of the stream adds one error event and ends it. */
  method StreamProgress(chunks: seq<Chunk>, end: StreamEnd, researchId: string)
    returns (events: seq<StreamEvent>)
    ensures events == StreamEvents(chunks, end, researchId)
  {
    events := [];
    var j := 0;
    while j < |chunks|
      invariant 0 <= j <= |chunks|
      invariant events == ProgressEvents(Entries(chunks[..j]))
    {
      events := AppendChunkEvents(events, chunks[j]);
      assert chunks[..j + 1] == chunks[..j] + [chunks[j]];
      EntriesAppend(chunks[..j], [chunks[j]]);
      assert Entries([chunks[j]]) == chunks[j] by {
        assert [chunks[j]][1..] == [];
      }
      ProgressEventsAppend(Entries(chunks[..j]), chunks[j]);
      j := j + 1;
    }
    assert chunks[..j] == chunks;
    if end.Interrupted? {
      events := events + [ErrorEvent(ResearchError(WorkflowFailed, Some(end.message), Some(researchId)))];
    }
  }
}

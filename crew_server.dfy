/** The CrewAI webhook server: `POST /execute` authenticates with the
    three-stage guard, picks one of three fixed sequential crews from the
    request's `crewType`, kicks it off and reports the result with the crew's
    size; `GET /health` advertises the crew types. */
module CrewServer {
  import opened Http
  import opened BearerAuth

  const DEFAULT_TAG: string := "default"
  const RESEARCH_TAG: string := "research"
  const CONTENT_TAG: string := "content"

  /** The value `crewType` takes when the request omits it. */
  const OMITTED_CREW_TYPE: Option<string> := Some(DEFAULT_TAG)

  const EXECUTION_FAILED: string := "Crew execution failed: "

  /** The body of `POST /execute`. */
  datatype CrewRequest = CrewRequest(
    message: string,
    jobId: string,
    jobName: string,
    runId: string,
    timestamp: string,
    crewType: Option<string>)

  /** The four agents `create_agents` builds, by role. */
  datatype Role = Researcher | Writer | Editor | Analyst

  /** A task: the agent that performs it, the request message when its
      description embeds it, and the earlier tasks whose output it receives. */
  datatype Task = Task(agent: Role, brief: Option<string>, context: seq<Task>)

  /** A sequential crew: its agents and its tasks, both in order. */
  datatype Crew = Crew(agents: seq<Role>, tasks: seq<Task>)

  /** `create_default_crew`: research, then write, then edit. */
  function DefaultCrew(message: string): (c: Crew)
    ensures SequentialChain(c, message)
    ensures c.agents == [Researcher, Writer, Editor]
  {
    var research := Task(Researcher, Some(message), []);
    var write := Task(Writer, None, [research]);
    var edit := Task(Editor, None, [write]);
    Crew([Researcher, Writer, Editor], [research, write, edit])
  }

  /** `create_research_crew`: research, then analyse. */
  function ResearchCrew(message: string): (c: Crew)
    ensures SequentialChain(c, message)
    ensures c.agents == [Researcher, Analyst]
  {
    var research := Task(Researcher, Some(message), []);
    var analysis := Task(Analyst, None, [research]);
    Crew([Researcher, Analyst], [research, analysis])
  }

  /** `create_content_crew`: write, then edit. */
  function ContentCrew(message: string): (c: Crew)
    ensures SequentialChain(c, message)
    ensures c.agents == [Writer, Editor]
  {
    var write := Task(Writer, Some(message), []);
    var edit := Task(Editor, None, [write]);
    Crew([Writer, Editor], [write, edit])
  }

  /** The shape every pipeline has: one task per agent, in the same order and
      with distinct agents; the first task alone embeds the message and has no
      context; every later task receives exactly the task before it. */
  predicate SequentialChain(c: Crew, message: string) {
    && |c.tasks| >= 1
    && |c.agents| == |c.tasks|
    && (forall i :: 0 <= i < |c.tasks| ==> c.tasks[i].agent == c.agents[i])
    && (forall i, j :: 0 <= i < j < |c.agents| ==> c.agents[i] != c.agents[j])
    && c.tasks[0].brief == Some(message)
    && c.tasks[0].context == []
    && (forall i :: 1 <= i < |c.tasks| ==> c.tasks[i].brief == None && c.tasks[i].context == [c.tasks[i - 1]])
  }

  /** `request.crewType or "default"`: `None` and the empty string both fall
      back to `"default"`, so the effective tag is never empty. */
  function EffectiveCrewType(crewType: Option<string>): (tag: string)
    ensures tag != ""
    ensures Truthy(crewType) ==> tag == crewType.value
    ensures !Truthy(crewType) ==> tag == DEFAULT_TAG
  {
    if Truthy(crewType) then crewType.value else DEFAULT_TAG
  }

  /** The `if`/`elif` dispatch: `"research"` and `"content"` have their own
      crews, and every other tag, `"default"` included, gets the default crew.
      It never fails, and whatever it picks is a sequential chain over the
      message. */
  function SelectCrew(tag: string, message: string): (c: Crew)
    ensures tag == RESEARCH_TAG ==> c == ResearchCrew(message)
    ensures tag == CONTENT_TAG ==> c == ContentCrew(message)
    ensures tag != RESEARCH_TAG && tag != CONTENT_TAG ==> c == DefaultCrew(message)
    ensures SequentialChain(c, message)
  {
    if tag == RESEARCH_TAG then ResearchCrew(message)
    else if tag == CONTENT_TAG then ContentCrew(message)
    else if tag == DEFAULT_TAG then DefaultCrew(message)
    else DefaultCrew(message)
  }

  /** The crew a request runs: normalisation, then dispatch. A falsy
      `crewType` runs the default crew, a truthy one is dispatched as given;
      either way the crew is a sequential chain over the request's message. */
  function CrewFor(request: CrewRequest): (c: Crew)
    ensures !Truthy(request.crewType) ==> c == DefaultCrew(request.message)
    ensures Truthy(request.crewType) ==> c == SelectCrew(request.crewType.value, request.message)
    ensures SequentialChain(c, request.message)
  {
    SelectCrew(EffectiveCrewType(request.crewType), request.message)
  }

  /** The dictionary `/execute` returns on success. */
  datatype ExecuteResponse = ExecuteResponse(
    success: bool,
    result: string,
    jobId: string,
    jobName: string,
    runId: string,
    timestamp: string,
    crewType: string,
    agentsUsed: nat,
    tasksCompleted: nat)

  datatype HealthResponse = HealthResponse(status: string, service: string, version: string, crewTypes: seq<string>)

  /** `execute_crew`. The guard runs first and its error is returned as is; only
      then is the crew built and kicked off. Success echoes the four job fields,
      reports the effective tag (verbatim, even when it fell back to the default
      crew) and the crew's agent and task counts; a failed kickoff becomes a 500
      whose detail carries the prefix, and no success record. */
  function ExecuteCrew(
    apiKey: string,
    authorization: Option<string>,
    request: CrewRequest,
    kickoff: Crew -> Result<string, string>): (r: Result<ExecuteResponse, HttpError>)
    ensures VerifyApiKey(apiKey, authorization).Failure? ==>
      r == Failure(VerifyApiKey(apiKey, authorization).error)
    ensures r.Success? <==> VerifyApiKey(apiKey, authorization).Success? && kickoff(CrewFor(request)).Success?
    ensures r.Success? ==>
      r.value == ExecuteResponse(true, kickoff(CrewFor(request)).value,
                                 request.jobId, request.jobName, request.runId, request.timestamp,
                                 EffectiveCrewType(request.crewType),
                                 |CrewFor(request).agents|, |CrewFor(request).tasks|)
    ensures VerifyApiKey(apiKey, authorization).Success? && kickoff(CrewFor(request)).Failure? ==>
      r == Failure(HttpError(INTERNAL_SERVER_ERROR, EXECUTION_FAILED + kickoff(CrewFor(request)).error))
  {
    match VerifyApiKey(apiKey, authorization)
    case Failure(e) => Failure(e)
    case Success(_) =>
      var crewType := EffectiveCrewType(request.crewType);
      var crew := SelectCrew(crewType, request.message);
      match kickoff(crew)
      case Failure(err) => Failure(HttpError(INTERNAL_SERVER_ERROR, EXECUTION_FAILED + err))
      case Success(result) =>
        Success(ExecuteResponse(true, result, request.jobId, request.jobName, request.runId, request.timestamp,
                                crewType, |crew.agents|, |crew.tasks|))
  }

  /** `health_check`: a static record advertising three crew types. */
  function HealthCheck(): (h: HealthResponse)
    ensures h.status == "healthy" && h.service == "crewai-integration" && h.version == "1.0.0"
    ensures h.crewTypes == [DEFAULT_TAG, RESEARCH_TAG, CONTENT_TAG]
  {
    HealthResponse("healthy", "crewai-integration", "1.0.0", [DEFAULT_TAG, RESEARCH_TAG, CONTENT_TAG])
  }

  /** The three pipelines' agents, in order. */
  lemma PipelineRoles(message: string)
    ensures SelectCrew(DEFAULT_TAG, message).agents == [Researcher, Writer, Editor]
    ensures SelectCrew(RESEARCH_TAG, message).agents == [Researcher, Analyst]
    ensures SelectCrew(CONTENT_TAG, message).agents == [Writer, Editor]
  {
  }

  /** An omitted, null or empty `crewType` all run the default crew. */
  lemma FalsyCrewTypeRunsDefault(message: string)
    ensures EffectiveCrewType(OMITTED_CREW_TYPE) == DEFAULT_TAG
    ensures EffectiveCrewType(None) == DEFAULT_TAG
    ensures EffectiveCrewType(Some("")) == DEFAULT_TAG
  {
  }

  /** The advertised crew types are exactly one tag per pipeline: they select
      pairwise different crews, and every other tag selects the crew of one of
      them (the default one). */
  lemma AdvertisedTypesMatchDispatch(message: string)
    ensures forall i, j :: 0 <= i < j < |HealthCheck().crewTypes| ==>
      SelectCrew(HealthCheck().crewTypes[i], message) != SelectCrew(HealthCheck().crewTypes[j], message)
    ensures forall tag :: tag !in HealthCheck().crewTypes ==>
      SelectCrew(tag, message) == SelectCrew(HealthCheck().crewTypes[0], message)
  {
    var types := HealthCheck().crewTypes;
    PipelineRoles(message);
    assert types[0] == DEFAULT_TAG && types[1] == RESEARCH_TAG && types[2] == CONTENT_TAG;
  }

  /** A request the guard rejects builds and kicks off no crew: the response is
      the same whatever the kickoff would have done. */
  lemma RejectedBuildsNoCrew(
    apiKey: string, authorization: Option<string>, request: CrewRequest,
    kickoff1: Crew -> Result<string, string>, kickoff2: Crew -> Result<string, string>)
    requires VerifyApiKey(apiKey, authorization).Failure?
    ensures ExecuteCrew(apiKey, authorization, request, kickoff1)
         == ExecuteCrew(apiKey, authorization, request, kickoff2)
    ensures ExecuteCrew(apiKey, authorization, request, kickoff1).error.status == UNAUTHORIZED
  {
  }

  /** A success reports as many agents as tasks: three for the default crew,
      two for the research and content crews. */
  lemma ReportedCountsMatchPipeline(
    apiKey: string, authorization: Option<string>, request: CrewRequest,
    kickoff: Crew -> Result<string, string>)
    requires ExecuteCrew(apiKey, authorization, request, kickoff).Success?
    ensures ExecuteCrew(apiKey, authorization, request, kickoff).value.agentsUsed
         == ExecuteCrew(apiKey, authorization, request, kickoff).value.tasksCompleted
    ensures ExecuteCrew(apiKey, authorization, request, kickoff).value.agentsUsed
         == if EffectiveCrewType(request.crewType) in {RESEARCH_TAG, CONTENT_TAG} then 2 else 3
  {
  }

  /** An unknown tag runs exactly as the default would, and the response
      differs only in reporting the unknown tag verbatim. */
  lemma UnknownTypeRunsDefault(
    apiKey: string, authorization: Option<string>, request: CrewRequest,
    kickoff: Crew -> Result<string, string>)
    requires Truthy(request.crewType) && request.crewType.value !in HealthCheck().crewTypes
    ensures CrewFor(request) == CrewFor(request.(crewType := None))
    ensures ExecuteCrew(apiKey, authorization, request, kickoff).Success?
        <==> ExecuteCrew(apiKey, authorization, request.(crewType := None), kickoff).Success?
    ensures ExecuteCrew(apiKey, authorization, request, kickoff).Success? ==>
      ExecuteCrew(apiKey, authorization, request, kickoff).value
        == ExecuteCrew(apiKey, authorization, request.(crewType := None), kickoff).value.(crewType := request.crewType.value)
  {
    assert HealthCheck().crewTypes == [DEFAULT_TAG, RESEARCH_TAG, CONTENT_TAG];
  }
}

/** The LangChain webhook server: `POST /trigger` authenticates with the
    three-stage guard, hands the message to the agent executor and wraps its
    `output` in the response envelope; `GET /health` is static. */
module LangchainAgent {
  import opened Http
  import opened BearerAuth

  const EXECUTION_FAILED: string := "Agent execution failed: "

  /** The dictionary `/trigger` returns on success. */
  datatype TriggerResponse = TriggerResponse(
    success: bool,
    result: string,
    jobId: string,
    jobName: string,
    runId: string,
    timestamp: string)

  datatype HealthResponse = HealthResponse(status: string, service: string, version: string)

  /** The result dictionary of `agent_executor.invoke`, or the text of the
      exception it raised. */
  type Invocation = Result<map<string, string>, string>

  /** `trigger_agent`. The guard runs first and its error is returned as is;
      the executor, given the message, is consulted only after it passes.
      Every exception inside the `try` block, including the `KeyError` of a
      result without `"output"` (whose text is `'output'`), becomes a 500
      whose detail carries the prefix. */
  function TriggerAgent(
    apiKey: string,
    authorization: Option<string>,
    request: AgentRequest,
    invoke: string -> Invocation): (r: Result<TriggerResponse, HttpError>)
    ensures VerifyApiKey(apiKey, authorization).Failure? ==>
      r == Failure(VerifyApiKey(apiKey, authorization).error)
    ensures r.Success? <==>
      VerifyApiKey(apiKey, authorization).Success? &&
      invoke(request.message).Success? && "output" in invoke(request.message).value
    ensures r.Success? ==>
      r.value == TriggerResponse(true, invoke(request.message).value["output"],
                                 request.jobId, request.jobName, request.runId, request.timestamp)
    ensures VerifyApiKey(apiKey, authorization).Success? && invoke(request.message).Failure? ==>
      r == Failure(HttpError(INTERNAL_SERVER_ERROR, EXECUTION_FAILED + invoke(request.message).error))
    ensures (VerifyApiKey(apiKey, authorization).Success? && invoke(request.message).Success? &&
             "output" !in invoke(request.message).value) ==>
      r == Failure(HttpError(INTERNAL_SERVER_ERROR, EXECUTION_FAILED + "'output'"))
    ensures r.Failure? ==> r.error.status in {UNAUTHORIZED, INTERNAL_SERVER_ERROR}
  {
    match VerifyApiKey(apiKey, authorization)
    case Failure(e) => Failure(e)
    case Success(_) =>
      match invoke(request.message)
      case Failure(err) => Failure(HttpError(INTERNAL_SERVER_ERROR, EXECUTION_FAILED + err))
      case Success(out) =>
        if "output" !in out then
          Failure(HttpError(INTERNAL_SERVER_ERROR, EXECUTION_FAILED + "'output'"))
        else
          Success(TriggerResponse(true, out["output"], request.jobId, request.jobName, request.runId, request.timestamp))
  }

  /** A request the guard rejects never reaches the executor: the response is
      the same whatever the executor would have done. */
  lemma RejectedNeverInvokes(
    apiKey: string, authorization: Option<string>, request: AgentRequest,
    invoke1: string -> Invocation, invoke2: string -> Invocation)
    requires VerifyApiKey(apiKey, authorization).Failure?
    ensures TriggerAgent(apiKey, authorization, request, invoke1)
         == TriggerAgent(apiKey, authorization, request, invoke2)
    ensures TriggerAgent(apiKey, authorization, request, invoke1).error.status == UNAUTHORIZED
  {
  }

  /** `health_check`: the same static record for every call. */
  function HealthCheck(): (h: HealthResponse)
    ensures h.status == "healthy" && h.service == "langchain-agent" && h.version == "1.0.0"
  {
    HealthResponse("healthy", "langchain-agent", "1.0.0")
  }
}

/** The minimal OpenAI webhook server: `POST /run` accepts only the exact
    header `"Bearer " + key`, asks the chat-completion API and returns the
    first choice's text; `GET /health` is static. */
module SimpleAgent {
  import opened Http

  const UNAUTHORIZED_DETAIL: string := "Unauthorized"

  /** The text of the `IndexError` that `choices[0]` raises on an empty list. */
  const INDEX_OUT_OF_RANGE: string := "list index out of range"

  /** The dictionary `/run` returns on success; `result` is `None` (JSON
      `null`) when the first choice carries no text. */
  datatype RunResponse = RunResponse(success: bool, result: Option<string>, jobId: string, runId: string)

  datatype HealthResponse = HealthResponse(status: string)

  /** The `message.content` of every choice of the completion, or the text of
      the exception the API call raised. */
  type Completion = Result<seq<Option<string>>, string>

  /** The inline guard `not authorization or authorization != f"Bearer {API_KEY}"`,
      negated: a request passes exactly when its header is the one expected
      string, with no prefix stripping at all. */
  function Authorized(apiKey: string, authorization: Option<string>): (ok: bool)
    ensures ok <==> authorization == Some(BEARER + apiKey)
  {
    !(!Truthy(authorization) || authorization.value != BEARER + apiKey)
  }

  /** `run_agent`. A rejected request is answered 401 `Unauthorized` before the
      API is called; any exception after that, the `IndexError` of an empty
      choice list included, becomes a 500 whose detail is the exception text
      alone, with no prefix. */
  function RunAgent(
    apiKey: string,
    authorization: Option<string>,
    request: AgentRequest,
    complete: string -> Completion): (r: Result<RunResponse, HttpError>)
    ensures !Authorized(apiKey, authorization) ==> r == Failure(HttpError(UNAUTHORIZED, UNAUTHORIZED_DETAIL))
    ensures r.Success? <==>
      Authorized(apiKey, authorization) &&
      complete(request.message).Success? && |complete(request.message).value| > 0
    ensures r.Success? ==>
      r.value == RunResponse(true, complete(request.message).value[0], request.jobId, request.runId)
    ensures Authorized(apiKey, authorization) && complete(request.message).Failure? ==>
      r == Failure(HttpError(INTERNAL_SERVER_ERROR, complete(request.message).error))
    ensures Authorized(apiKey, authorization) && complete(request.message) == Success([]) ==>
      r == Failure(HttpError(INTERNAL_SERVER_ERROR, INDEX_OUT_OF_RANGE))
  {
    if !Authorized(apiKey, authorization) then
      Failure(HttpError(UNAUTHORIZED, UNAUTHORIZED_DETAIL))
    else
      match complete(request.message)
      case Failure(err) => Failure(HttpError(INTERNAL_SERVER_ERROR, err))
      case Success(choices) =>
        if |choices| == 0 then Failure(HttpError(INTERNAL_SERVER_ERROR, INDEX_OUT_OF_RANGE))
        else Success(RunResponse(true, choices[0], request.jobId, request.runId))
  }

  /** A request the guard rejects never reaches the API: the response is the
      same whatever the API would have answered. */
  lemma RejectedNeverCallsModel(
    apiKey: string, authorization: Option<string>, request: AgentRequest,
    complete1: string -> Completion, complete2: string -> Completion)
    requires !Authorized(apiKey, authorization)
    ensures RunAgent(apiKey, authorization, request, complete1)
         == RunAgent(apiKey, authorization, request, complete2)
  {
  }

  /** The end-to-end exchange: `ping` from job `j1`, run `r1`, with the right
      key and a model that echoes its input, yields exactly
      `{"success": true, "result": "ping", "jobId": "j1", "runId": "r1"}`. */
  lemma EchoRoundTrip(apiKey: string)
    ensures RunAgent(apiKey, Some(BEARER + apiKey),
                     AgentRequest("ping", "j1", "n", "r1", "2025-02-14T10:00:00Z"),
                     (m: string) => Success([Some(m)]))
         == Success(RunResponse(true, Some("ping"), "j1", "r1"))
  {
  }

  /** `health`: exactly `{"status": "healthy"}`, for every call. */
  function Health(): (h: HealthResponse)
    ensures h.status == "healthy"
  {
    HealthResponse("healthy")
  }
}

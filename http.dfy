/** Values shared by the three webhook servers: optional and fallible values,
    the HTTP error a handler raises, and the inbound job record. */
module Http {

  datatype Option<+T> = None | Some(value: T)

  datatype Result<+R, +E> = Success(value: R) | Failure(error: E)

  /** An `HTTPException(status_code, detail)` raised by a handler. */
  datatype HttpError = HttpError(status: int, detail: string)

  /** The authorization scheme prefix every server expects. */
  const BEARER: string := "Bearer "

  const UNAUTHORIZED: int := 401
  const INTERNAL_SERVER_ERROR: int := 500

  /** The job record posted by the scheduler to `/trigger` and `/run`
      (both servers declare the same five required string fields). */
  datatype AgentRequest = AgentRequest(
    message: string,
    jobId: string,
    jobName: string,
    runId: string,
    timestamp: string)

  /** Python truthiness of an optional string: `None` and `""` are the only
      falsy values. */
  predicate Truthy(h: Option<string>)
    ensures !Truthy(h) <==> h == None || h == Some("")
  {
    h.Some? && h.value != ""
  }
}

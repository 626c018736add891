# ClawTick webhook servers: authorization guards, crew dispatch, response envelopes

This project models the decision logic of three small FastAPI webhook servers.
A scheduler ("ClawTick") calls them on a schedule: `POST /trigger` (LangChain
agent), `POST /execute` (CrewAI crew) and `POST /run` (plain OpenAI call).
Each handler checks a bearer token. It then hands the job's `message` to an
external agent framework and wraps the answer in a JSON envelope, or turns the
framework's exception into an HTTP error. Each server also has a static
`GET /health`.

Everything the servers decide themselves is modelled as pure functions:

- `Strings`: Python's `str.startswith` and `str.replace`. `ReplaceAll` is a
  recursive left-to-right scan whose occurrences never overlap. The module also
  has an occurrence count and the lemmas about both.
- `Http`: `Option`, `Result`, the `HTTPException` a handler raises
  (`HttpError(status, detail)`), the five-field job record, and Python
  truthiness of an optional header.
- `BearerAuth`: the three-stage `verify_api_key` that the LangChain and CrewAI
  servers declare identically. It checks missing header, then scheme, then key.
  The token is the header with every `"Bearer "` removed, not just the prefix.
- `LangchainAgent`, `CrewServer`, `SimpleAgent`: one module per server. Each
  handler is a function of the API key, the `Authorization` header, the request
  record and the delegate. The delegate is a function parameter: it stands for
  the agent executor, `crew.kickoff()` or the chat-completion call.
  "A rejected request never reaches the delegate" is stated as: the response
  does not depend on the delegate.
- `CrewServer` also models the crews. A crew is an ordered list of agent roles
  and an ordered list of tasks. Each task records its agent, whether its
  description embeds the message, and its `context` (the earlier tasks whose
  output it receives).
- `GuardComparison`: how the exact-match guard of `/run` and the three-stage
  guard differ on the same key.

The three servers do not authenticate alike, and the model keeps each one's
behaviour:

- `/run` answers every authorization failure with 401 "Unauthorized"
  (custom-agent/simple-agent.py:27-28). The three-stage guard gives three
  different details: "Missing Authorization header", "Invalid Authorization
  format" and "Invalid API key" (langchain/fastapi-agent.py:95, :98, :102).
- `/run` accepts only the header `"Bearer " + key`. The three-stage guard
  removes every `"Bearer "` from the header (langchain/fastapi-agent.py:100),
  so, for a key without `"Bearer "` in it, it also accepts
  `"Bearer Bearer " + key`. It refuses `"Bearer " + key`
  when the key itself contains `"Bearer "`.
- `/run` returns `result: null` when the first choice carries no text
  (custom-agent/simple-agent.py:42-46).

## Model

| member | source | states |
|---|---|---|
| Strings.StartsWithIffPrefixPlusRest | langchain/fastapi-agent.py:97 | `authorization.startswith("Bearer ")` holds exactly when the header is `"Bearer "` followed by some rest |
| Strings.ReplaceAll | langchain/fastapi-agent.py:100 | `header.replace("Bearer ", "")`: removing occurrences never makes the string longer |
| Strings.CountOccurrences | crewai/crew-server.py:110 | the number of occurrences the replace removes; they never overlap, so together they fit in the string |
| Strings.ReplaceAtLeftmost | langchain/fastapi-agent.py:100 | the general scan step: everything before the leftmost occurrence is kept, that occurrence is replaced, and the scan resumes right after it |
| Strings.CountPositiveIffContains | crewai/crew-server.py:110 | the replace changes something exactly when the pattern occurs in the string |
| Strings.ReplaceAbsent | crewai/crew-server.py:110 | a string in which the pattern does not occur is returned unchanged |
| Strings.ReplaceLength | langchain/fastapi-agent.py:100 | each replaced occurrence changes the length by `len(rep) - len(pat)` |
| Strings.RemovalLength | crewai/crew-server.py:110 | removing all occurrences shortens the string by `len(pat)` per occurrence counted |
| Strings.RemovalShrinks | langchain/fastapi-agent.py:100 | removing from a string that contains the pattern shortens it by at least `len(pat)` |
| Strings.ReplaceRepeatedPrefix | langchain/fastapi-agent.py:100 | `n` leading copies of the pattern become `n` copies of the replacement, and the rest is scanned as if on its own |
| Http.Truthy | crewai/crew-server.py:104 | `not authorization` (and `crewType or`) treats exactly `None` and `""` as falsy |
| BearerAuth.Token | crewai/crew-server.py:110 | the token is never longer than the header |
| BearerAuth.VerifyApiKey | crewai/crew-server.py:103-114 | falsy header gives 401 "Missing Authorization header"; otherwise a header not starting with `"Bearer "` gives 401 "Invalid Authorization format"; otherwise a token different from the key gives 401 "Invalid API key". It succeeds iff the header starts with `"Bearer "` and its token equals the key. It then returns that token, which is the key. Every failure is 401 |
| BearerAuth.LowercaseSchemeRejected | langchain/fastapi-agent.py:97-98 | the scheme check is case-sensitive: `"bearer " + anything` is a format error |
| BearerAuth.CanonicalHeaderAcceptedIffKeyClean | langchain/fastapi-agent.py:100-102 | `"Bearer " + key` is accepted iff the key does not contain `"Bearer "` |
| BearerAuth.StackedPrefixesAccepted | langchain/fastapi-agent.py:100-104 | for a key without `"Bearer "`, any n >= 1 stacked `"Bearer "` prefixes before it are accepted, returning the key |
| BearerAuth.AcceptedHeaderLength | crewai/crew-server.py:110-114 | an accepted header contains at least one occurrence, and its length is the key's plus 7 per occurrence |
| BearerAuth.SchemeKeyAcceptedThroughSplicedHeader | crewai/crew-server.py:110-111 | after removal the token can still contain `"Bearer "`: the key `"Bearer "` is refused with its own canonical header but accepted with `"Bearer BeBearer arer "` |
| LangchainAgent.TriggerAgent | langchain/fastapi-agent.py:106-141 | a guard failure is returned unchanged. Success requires a passing guard and an executor result with an `"output"` entry; the envelope is then `success = true`, `result = output`, and `jobId`, `jobName`, `runId`, `timestamp` echoed. An executor failure gives 500 "Agent execution failed: " + error. A missing `"output"` gives 500 "Agent execution failed: 'output'". Only 401 and 500 occur |
| LangchainAgent.RejectedNeverInvokes | langchain/fastapi-agent.py:107-110 | a request the guard rejects gets the same 401 response whatever the executor would do |
| LangchainAgent.HealthCheck | langchain/fastapi-agent.py:143-150 | the health record, with no input, is status "healthy", service "langchain-agent", version "1.0.0" |
| SimpleAgent.Authorized | custom-agent/simple-agent.py:27 | the inline check passes iff the header is exactly `"Bearer " + key`; the falsy test is subsumed, and no stripping is done |
| SimpleAgent.RunAgent | custom-agent/simple-agent.py:24-52 | unauthorized gives 401 "Unauthorized". Success requires authorization and a non-empty choice list; the envelope is `success = true`, the first choice's text, and `jobId`/`runId` echoed (no `jobName`, no `timestamp`). A failure gives 500 with the error text alone. An empty choice list gives 500 "list index out of range" |
| SimpleAgent.RejectedNeverCallsModel | custom-agent/simple-agent.py:27-33 | a rejected request gets the same response whatever the model would answer |
| SimpleAgent.EchoRoundTrip | custom-agent/simple-agent.py:44-49 | `ping` from job `j1`, run `r1`, with the right key and an echoing model, yields exactly `{success: true, result: "ping", jobId: "j1", runId: "r1"}` |
| SimpleAgent.Health | custom-agent/simple-agent.py:54-56 | the health record, with no input, is `{"status": "healthy"}` |
| CrewServer.DefaultCrew | crewai/crew-server.py:116-152 | `create_default_crew`: agents researcher, writer, editor; a sequential chain whose first task embeds the message with no context, and each later task has exactly the preceding one as context |
| CrewServer.ResearchCrew | crewai/crew-server.py:154-179 | `create_research_crew`: agents researcher, analyst; a sequential chain over the message |
| CrewServer.ContentCrew | crewai/crew-server.py:181-206 | `create_content_crew`: agents writer, editor; a sequential chain over the message |
| CrewServer.CrewFor | crewai/crew-server.py:225-234 | normalisation then dispatch: a falsy `crewType` runs the default crew, and a truthy one is dispatched as given; the crew is always a sequential chain over the message |
| CrewServer.EffectiveCrewType | crewai/crew-server.py:225 | a truthy `crewType` is used as is, and `None` or `""` become `"default"`; the effective tag is never empty |
| CrewServer.FalsyCrewTypeRunsDefault | crewai/crew-server.py:38 | the field's default `"default"`, `None` and `""` all give the tag `"default"` |
| CrewServer.SelectCrew | crewai/crew-server.py:227-234 | `"research"` gives the research crew, `"content"` the content crew, and every other tag the default crew; it never fails. Every selected crew is a sequential chain: one task per distinct agent, in order; the first task embeds the message and has no context; each later task does not embed it and has exactly the preceding task as context |
| CrewServer.PipelineRoles | crewai/crew-server.py:116-206 | the default crew is researcher, writer, editor; research is researcher, analyst; content is writer, editor |
| CrewServer.ExecuteCrew | crewai/crew-server.py:208-259 | a guard failure is returned unchanged. Success requires a passing guard and a successful kickoff of the selected crew; the envelope then has `success = true`, the result, `jobId`, `jobName`, `runId`, `timestamp` echoed, the effective tag, and the crew's agent and task counts. A failed kickoff gives 500 "Crew execution failed: " + error |
| CrewServer.RejectedBuildsNoCrew | crewai/crew-server.py:208-212 | a request the guard rejects gets the same 401 response whatever the kickoff would do |
| CrewServer.ReportedCountsMatchPipeline | crewai/crew-server.py:250-251 | on success `agentsUsed == tasksCompleted`: 2 for research and content, 3 otherwise |
| CrewServer.UnknownTypeRunsDefault | crewai/crew-server.py:225-249 | an unadvertised non-empty tag runs the same crew as an absent one, with the same outcome; the response differs only in reporting the unknown tag verbatim |
| CrewServer.HealthCheck | crewai/crew-server.py:261-269 | the health record, with no input, is status "healthy", service "crewai-integration", version "1.0.0", crew types `["default", "research", "content"]` |
| CrewServer.AdvertisedTypesMatchDispatch | crewai/crew-server.py:268 | the advertised crew types select pairwise different crews, and every other tag selects the crew of the first (`"default"`) |
| GuardComparison.BothRejectMissingHeader | custom-agent/simple-agent.py:27 | both guards reject an absent or empty header |
| GuardComparison.ExactAcceptanceCarriesOver | custom-agent/simple-agent.py:27 | for a key without `"Bearer "`, whatever the exact guard accepts the three-stage guard accepts |
| GuardComparison.DoubledPrefixSeparatesGuards | langchain/fastapi-agent.py:100-104 | for such a key, `"Bearer Bearer " + key` passes the three-stage guard and fails the exact one |
| GuardComparison.SchemeInKeySeparatesGuards | crewai/crew-server.py:110-112 | for a key containing `"Bearer "`, the exact guard accepts `"Bearer " + key` and the three-stage guard refuses it as "Invalid API key" |
| GuardComparison.ShortestAcceptedHeaderIsExact | crewai/crew-server.py:110-111 | every header the three-stage guard accepts is at least as long as `"Bearer " + key`, and one of that length is exactly `"Bearer " + key` |

## Left out

- The agent frameworks and the model API (`ChatOpenAI`, `AgentExecutor.invoke`,
  `crew.kickoff()`, `openai.chat.completions.create`) are foreign code. They are
  function parameters that return a value or an error text. The delegate
  receives the message, or the selected crew.
- `str(result)` on the crew output is folded into the kickoff parameter, which
  returns the text directly. The value type of the LangChain result dictionary
  is taken to be a string.
- FastAPI routing, `Depends`, header extraction and pydantic body parsing are
  left out. A malformed body is refused by the framework with a status this
  code does not choose. The JSON rendering of an `HTTPException` as
  `{"detail": ...}` is also left out.
- The agents' role, goal and backstory text, task descriptions,
  `expected_output`, `verbose`, `allow_delegation` and `Process.sequential`
  are left out. Only role identity, task order, context links and whether the
  message is embedded are kept; every crew is sequential.
- The LangChain tools (`get_current_time`, `search_documentation`,
  `calculate`) are left out. They read the clock, are a placeholder, and
  evaluate Python with floats.
- Environment loading, the `OPENAI_API_KEY` start-up `ValueError`, logging,
  `uvicorn.run` and the `/` information endpoints are left out. The API key
  is a parameter.
- Idempotency by `runId` is left out: no server implements it.
- `async` and concurrency are left out: requests share no mutable state.
- Strings.ReplaceAll: Python's behaviour for an empty pattern is not
  modelled. It requires a non-empty pattern, and the servers only use
  `"Bearer "`.

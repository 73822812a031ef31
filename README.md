# A2A adapter for a framework agent — Dafny model

This project models the adapter layer of an agent service. The service runs an agent built on an agent framework behind an Agent2Agent (A2A) protocol server. A small web client talks to that server. The model covers these parts:

- **Part translation** (`a2adk/utils.py`). Protocol parts (text, file by URI, file by bytes) are translated to framework parts and back. The model keeps the explicit `ValueError` cases and the payload filter.
- **The executor** (`a2adk/adk_agent_executor.py`). Construction adds the memory tools, fills in the in-memory service defaults and sets the artifact flag. It also models the get-or-create session step. One run's event stream is translated into task-updater effects: final response, function-call announcements and working updates. Finally come the submit/start-work order of `execute` and the unsupported `cancel`.
- **The delegation tool** (`a2adk/a2atool.py`). It sends one message to the remote agent and turns the reply into text. It keeps the session-state bookkeeping (`task_id`, `task_suspended`, `dependent_task`). Separately, it models the auth-required resume routine with its polling loop.
- **Session routes** (`a2adk/routes/session.py`). These are the session-service guard of both handlers and the loop that turns a session's events into role-tagged messages.
- **The web client** (`frontend/src/client/*.ts`). It covers:
  - the error classes;
  - the card resolver's URL normalisation and error handling;
  - endpoint selection in the client constructor;
  - JSON-RPC 2.0 result extraction (section 5 of the JSON-RPC 2.0 specification, the Response object);
  - the server-sent-events frame loop. It splits on a blank line and reads `data: ` lines, a subset of section 9.2 of the WHATWG HTML Living Standard;
  - the card cache and the capability check;
  - the text-message builder.

Third-party collaborators are abstract:

- The task updater is a class whose state is the trace of effects it has been asked to emit.
- The session service is a class over a map keyed by (application, user, session id).
- The framework runner is the finite sequence of events it yields.
- The remote agent is a function from request to response. For polling it is a sequence of canned `tasks/get` answers.
- `fetch` and `JSON.parse` are function parameters.
- Message ids and request ids, drawn from UUID generators in the source, are parameters or are not modelled.

Files:

| module | file | models |
|---|---|---|
| `Results` | results.dfy | Option and Result |
| `Text` | text.dfy | `sep.join`, chunk concatenation |
| `A2A` | a2a_types.dfy | protocol parts, messages, tasks, `get_text_parts` |
| `Genai` | genai_types.dfy | framework parts and their truthiness |
| `PartConversion` | part_conversion.dfy | a2adk/utils.py |
| `TaskUpdates` | task_updates.dfy | the task updater as an effect trace |
| `Sessions` | sessions.dfy | the session service as a map |
| `AgentExecution` | agent_executor.dfy | a2adk/adk_agent_executor.py |
| `RemoteAgentTool` | remote_agent_tool.dfy | a2adk/a2atool.py |
| `SessionRoutes` | session_routes.dfy | a2adk/routes/session.py |
| `JsonValues` | json_values.dfy | parsed JSON with JavaScript truthiness |
| `ClientErrors` | client_errors.dfy | frontend/src/client/error.ts, the client's `catch` rule |
| `EventStream` | event_stream.dfy | the SSE reading loop of frontend/src/client/client.ts |
| `Client` | client.dfy | frontend/src/client/client.ts |
| `Helpers` | helpers.dfy | frontend/src/client/helpers.ts |

Behaviour of the code worth knowing when reading the model:

- Function-call events produce updates. Each call named `message_calendar_agent` emits a `working` update (a2adk/adk_agent_executor.py:120-135).
- Nothing further happens after a run: the event loop is the last step of `_process_request`.
- `_upsert_session` is a plain get-or-create. Whatever `create_session` returns is used as is, with no check (a2adk/adk_agent_executor.py:96-101).
- `list_sessions` returns every session of the application and user as the session service reports them (a2adk/routes/session.py:19).
- `__call__` never invokes `_auth_required_task`, so the two are separate operations. `AuthRequiredReplySuspends` connects them: the state one leaves is the state the other picks up.

## Model

| member | source | states |
|---|---|---|
| PartConversion.ToGenaiPart | a2adk/utils.py:23-44 | Succeeds iff the part is text, file-by-URI or file-by-bytes. The text is kept exactly. A URI file becomes `file_data` with the same uri and mime type, a bytes file becomes `inline_data` with the same bytes and mime type. A bad file gives `Unsupported file type`, any other part `Unsupported part type`. |
| PartConversion.ToGenaiParts | a2adk/utils.py:18-20 | Succeeds iff every part is supported. The result then has the same length and holds each part's own conversion at the same index. A failure carries the error of the first unsupported part, so no part is dropped silently. |
| PartConversion.ToA2APart | a2adk/utils.py:56-77 | Succeeds iff the part has a truthy text, a `file_data` or an `inline_data`, checked in that order (first match wins). The text, or the uri or bytes with their mime type, is carried over, and a produced file part has no name. A part with none of them raises, with the part as the error. |
| PartConversion.WithPayload | a2adk/utils.py:52 | A part is kept iff it is in the input and has a payload, so exactly the payloadless parts are dropped. The result is never longer than the input. |
| PartConversion.ToA2AParts | a2adk/utils.py:47-53 | The output has exactly as many parts as the input has parts with a payload, so it is never longer than the input. |
| PartConversion.ToA2APartsElementwise | a2adk/utils.py:47-53 | The i-th output part is the single-part conversion of the i-th kept part, in order. |
| PartConversion.ToA2APartsAppend | a2adk/utils.py:49-53 | Converting a concatenation is concatenating the conversions. |
| PartConversion.PayloadlessPartConvertsToNothing | a2adk/utils.py:52 | A part with an empty or missing text and no file converts to the empty list. |
| PartConversion.PayloadlessPartDropped | a2adk/utils.py:47-53 | Such a part disappears from the output wherever it stands in the input. |
| PartConversion.RoundTrip | a2adk/utils.py:18-77 | Protocol to framework to protocol returns the original list when every text is non-empty and no file has a name. |
| PartConversion.SinglePayloadRoundTrip | a2adk/utils.py:23-77 | A framework part that carries exactly one payload comes back unchanged from framework to protocol to framework. |
| AgentExecution.WithMemoryTools | a2adk/adk_agent_executor.py:62-69 | Afterwards both memory tools are present. A missing list becomes exactly the two memory tools. Existing tools keep their order as a prefix. Each memory tool is appended only if none of its class was present, so the length grows by the number of missing ones. |
| AgentExecution.ADKAgentExecutor.constructor | a2adk/adk_agent_executor.py:54-77 | The tools change (to `WithMemoryTools`) only for a given memory service that is not in-memory. Missing artifact, session and memory services default to in-memory ones, and a given session service is used as is. `saveAsArtifacts` holds iff an artifact service was given and it is not the in-memory one. |
| AgentExecution.CallUpdates | a2adk/adk_agent_executor.py:120-135 | Exactly as many updates as there are calls named `message_calendar_agent`. The count is `CalendarCallCount`, taken from the front of the list. Every update is the "Messaging the calendar agent" `working` update. The list is empty iff no call has that name. |
| AgentExecution.AnnounceCalls | a2adk/adk_agent_executor.py:120-135 | The loop over a function-call event's calls appends exactly `CallUpdates` to the updater's trace. |
| AgentExecution.HandleEvent | a2adk/adk_agent_executor.py:114-145 | The updater's trace grows by exactly the effects of the event's classification. A final response gives the artifact then completion, and stops. Function calls give the calendar updates. Any other event gives one `working` update with its converted parts. An event whose content is read but missing raises. |
| AgentExecution.RunEvents | a2adk/adk_agent_executor.py:112-145 | The loop's trace and outcome equal the effects and outcome of `Translate`, the event-by-event translation up to the first stop. |
| AgentExecution.TranslateShape | a2adk/adk_agent_executor.py:112-145 | Every effect of a run is a `working` update. The exception is a completed run, which ends with exactly one artifact followed by the completion. |
| AgentExecution.TranslateStopsEarly | a2adk/adk_agent_executor.py:114-119 | Events after the one that ended the run change nothing: they are never consumed. |
| AgentExecution.CompletesAtFinalResponse | a2adk/adk_agent_executor.py:114-119 | A final response with content, reached after events that all pass, completes the run. The run is the same as the one cut after that event, and its artifact holds that event's converted parts. |
| AgentExecution.CompletedRunHasFinalResponse | a2adk/adk_agent_executor.py:112-119 | Conversely, a completed run reached a final response with content after events that all passed. |
| AgentExecution.PlainEventsThenFinal | a2adk/adk_agent_executor.py:112-145 | N plain events followed by a final response give exactly N `working` updates carrying their converted parts, in order, then the artifact and the completion. |
| AgentExecution.SubmitAndStartPrecedeUpdates | a2adk/adk_agent_executor.py:153-164 | `submit` comes first iff there is no current task. `start_work` follows it. Neither occurs again later in the trace. |
| AgentExecution.RunHasNoLifecycleEffects | a2adk/adk_agent_executor.py:112-145 | The event-driven part of a run never submits or starts the task. |
| AgentExecution.ADKAgentExecutor.UpsertSession | a2adk/adk_agent_executor.py:96-101 | Returns the stored session when the lookup finds one and changes nothing. Only on a miss does it create and store an empty session under (app, "self", id). |
| AgentExecution.ADKAgentExecutor.ProcessRequest | a2adk/adk_agent_executor.py:103-145 | The session exists afterwards and an existing one is untouched (see "## Left out"). The updater's new trace and the outcome are those of `Translate`. |
| AgentExecution.ADKAgentExecutor.Execute | a2adk/adk_agent_executor.py:147-164 | The trace is `ExecuteResult`: the lifecycle effects, then the run's effects. If the incoming parts do not convert, the run raises after the lifecycle effects and the session service is untouched. |
| AgentExecution.ADKAgentExecutor.Cancel | a2adk/adk_agent_executor.py:166-168 | Always fails with an unsupported-operation error. |
| RemoteAgentTool.RequestFor | a2adk/a2atool.py:46-56 | A user message with exactly one text part holding the input, on the session id as `contextId`. Its `taskId` is the stored `task_id` when that is a string and none when it is None. It fails iff the stored value is neither. |
| RemoteAgentTool.ArtifactTexts | a2adk/a2atool.py:64-66 | The artifacts' text parts, artifact by artifact. It is empty iff no artifact has a text part. |
| RemoteAgentTool.CollectArtifactTexts | a2adk/a2atool.py:64-66 | The `extend` loop computes exactly `ArtifactTexts`. |
| RemoteAgentTool.ReplyTo | a2adk/a2atool.py:59-76 | An error response gives no content. A message gives its text parts. A task gives its artifact text, else its status message's text; with neither it raises. The task id is kept iff the task is not completed, and the task is suspended on iff it is auth-required. |
| RemoteAgentTool.StateAfter | a2adk/a2atool.py:72-77 | `task_id` is set from the reply. `task_suspended`/`dependent_task` are set only for an auth-required task and are otherwise untouched. Every other key is unchanged. |
| RemoteAgentTool.A2ATool.constructor | a2adk/a2atool.py:31-38 | Name, description and long-running flag come from the remote card. |
| RemoteAgentTool.A2ATool.Call | a2adk/a2atool.py:40-79 | On a successful reply, returns the content joined by newlines, and the state becomes `StateAfter`. When the request or reply cannot be built, the error propagates and the state is unchanged. |
| RemoteAgentTool.A2ATool.ReadReply | a2adk/a2atool.py:59-76 | The imperative content building computes exactly `ReplyTo`. |
| RemoteAgentTool.A2ATool.IsComplete | a2adk/a2atool.py:140-141 | True iff the task's state is `completed`. |
| RemoteAgentTool.Poll | a2adk/a2atool.py:119-138 | An already completed task gives no request and is returned as is. A request is made iff the task is not complete and an answer is available. The first query is for the given task's id. Every answer before the last consumed is a success. The poll fails iff the last consumed answer is an error. A completed poll returns the task of the last answer, which is completed. |
| RemoteAgentTool.PollFollowsAnswers | a2adk/a2atool.py:126-137 | Each query after the first asks for the task of the previous successful answer. |
| RemoteAgentTool.PollStopsAtCompletion | a2adk/a2atool.py:126-138 | Once a poll has completed or failed, further answers are never consumed. |
| RemoteAgentTool.A2ATool.WaitForDependentTask | a2adk/a2atool.py:119-138 | The `while` loop returns exactly `Poll`'s outcome and queried ids. |
| RemoteAgentTool.SuspendedTask | a2adk/a2atool.py:90-96 | No task when `task_suspended` is falsy. Otherwise a missing `dependent_task` key raises `MissingDependentTask`, and a stored value that is not a task raises `InvalidDependentTask`. A stored task is returned iff it is auth-required, and none otherwise. |
| RemoteAgentTool.ResumedState | a2adk/a2atool.py:111-112 | `task_suspended` becomes False and `dependent_task` None. Every other key is unchanged. |
| RemoteAgentTool.A2ATool.AuthRequiredTask | a2adk/a2atool.py:88-117 | When not suspended on an auth-required task it returns None and changes nothing. Otherwise it relays the auth-required status, then polls; a failed poll raises after the relay. On completion it emits the "Checking calendar agent output" update, clears the suspension, and returns only the completed task's artifact text joined by newlines. |
| RemoteAgentTool.NextRequestReferencesOpenTask | a2adk/a2atool.py:50-77 | After a call, the next request references a task iff the reply was a task that is not completed, and then that task's id. |
| RemoteAgentTool.AuthRequiredReplySuspends | a2adk/a2atool.py:72-96 | An auth-required task reply leaves the session suspended on exactly that task, the one the resume routine picks up. |
| RemoteAgentTool.ResumedStateIsNotSuspended | a2adk/a2atool.py:90-112 | After resuming, the session no longer counts as suspended. |
| RemoteAgentTool.OtherRepliesKeepSuspension | a2adk/a2atool.py:72-77 | A reply that is not auth-required leaves the suspension as it was. |
| SessionRoutes.RoleName | a2adk/routes/session.py:44 | `'user'` iff the content role is `'user'`, otherwise `'agent'`. |
| SessionRoutes.PartEntries | a2adk/routes/session.py:50-55 | One text entry per content part, in order, with the part's text. |
| SessionRoutes.ToMessage | a2adk/routes/session.py:42-55 | `messageId` and `timestamp` are copied from the event, the role is as `RoleName` says, and the parts list is non-empty. |
| SessionRoutes.EventMessage | a2adk/routes/session.py:39-59 | Raises iff the event has no content or no parts. Otherwise it yields a message iff the first part's text is truthy. |
| SessionRoutes.Messages | a2adk/routes/session.py:38-59 | Never more messages than events, and every message has parts. |
| SessionRoutes.ShownEvents | a2adk/routes/session.py:39-40 | The reference list holds only shown events, each taken from the input. |
| SessionRoutes.MessagesFailIffUnreadable | a2adk/routes/session.py:39-40 | Reading fails iff some event is unreadable, and the error names the first such event. |
| SessionRoutes.MessagesAreShownEvents | a2adk/routes/session.py:38-59 | On success the messages are exactly the shown events, converted, in event order. |
| SessionRoutes.MessageQualified | a2adk/routes/session.py:40-52 | A shown event's message is user-authored iff the event's role is `'user'`. Its first entry carries the non-empty text that qualified it. |
| SessionRoutes.MessagesKeepFailure | a2adk/routes/session.py:39-40 | Once reading has raised, later events do not matter. |
| SessionRoutes.GetSessionMessages | a2adk/routes/session.py:25-64 | HTTP 500 when the app's service is no session service. A missing session raises. Otherwise the nested loops compute exactly `Messages` of the session's events. |
| SessionRoutes.ListSessionsRoute | a2adk/routes/session.py:8-23 | HTTP 500 iff the app's service is no session service. Otherwise it lists the sessions of the application and user. |
| ClientErrors.NewClientError | frontend/src/client/error.ts:4-11 | The error is of the base class, named `A2AClientError`, with the given message and no status code. |
| ClientErrors.NewHTTPError | frontend/src/client/error.ts:16-28 | It is of the HTTP subclass, named `A2AClientHTTPError`. `statusCode` is exactly as given. The final message is the raw one, not the formatted `HTTP Error ...`. |
| ClientErrors.NewJSONError | frontend/src/client/error.ts:33-43 | It is of the JSON subclass, named `A2AClientJSONError`, with no status code. The final message is the raw one, not `JSON Error: ...`. |
| ClientErrors.Normalize | frontend/src/client/client.ts:77-82 | The result is always a client error. A client error is rethrown unchanged; anything else becomes an HTTP 503 error whose message is the prefix followed by the caught message. |
| ClientErrors.NormalizeIdempotent | frontend/src/client/client.ts:241-246 | Normalizing an already normalized error changes nothing. |
| JsonValues.ResultMember | frontend/src/client/client.ts:137 | The `in` operator throws iff the value is neither object nor array. Otherwise `result` is returned iff present and truthy. |
| Client.FetchJson | frontend/src/client/client.ts:216-247 | A non-ok response gives an HTTP error with the response's status and status text. A body that does not parse gives a JSON error. A rejected fetch goes through `Normalize`, and any failure is a client error. |
| Client.StripTrailingSlash | frontend/src/client/client.ts:48 | Exactly one trailing `/` is removed when present; otherwise the text is unchanged. |
| Client.StripLeadingSlash | frontend/src/client/client.ts:49 | Exactly one leading `/` is removed when present; otherwise the text is unchanged. |
| Client.CardAddressSingleSlash | frontend/src/client/client.ts:48-56 | With at most one slash on either side, the card address has one `/` at the join, with base and path around it. |
| Client.A2ACardResolver.constructor | frontend/src/client/client.ts:43-51 | Stores the base without one trailing slash and the path without one leading slash. |
| Client.A2ACardResolver.GetAgentCard | frontend/src/client/client.ts:53-83 | GETs `base + '/' + path` with the `FetchJson` error rule; every failure is a client error. |
| Client.SelectUrl | frontend/src/client/client.ts:98-104 | The card's url if a card is given, else a non-empty `url`. It fails iff neither exists, with the constructor's message. |
| Client.A2AClient.Create | frontend/src/client/client.ts:95-107 | A fresh client on `SelectUrl`'s endpoint with an empty cache, or the constructor's error. |
| Client.A2AClient.NewRequest | frontend/src/client/client.ts:127-134 | `jsonrpc` is `'2.0'`, and method, id and params are as given. |
| Client.MethodNamesDistinct | frontend/src/client/client.ts:126-327 | The seven calls use seven different method names. |
| Client.ExtractResult | frontend/src/client/client.ts:137 | The truthy `result` or none. The `in` operator's TypeError is passed through unnormalized. |
| Client.A2AClient.Rpc | frontend/src/client/client.ts:126-313 | The POST's error, or the extracted result of the response. Any failure that is not a client error is the `in` TypeError. |
| Client.StreamPreamble | frontend/src/client/client.ts:156-173 | A rejected fetch propagates. A non-ok response gives an HTTP error with its status, and a missing body an HTTP 503 error. |
| Client.StreamFailuresAreClientErrors | frontend/src/client/client.ts:143-211 | A stream ends with a client error unless `fetch` itself rejected with something else. That value passes through unwrapped. |
| Client.A2AClient.Stream | frontend/src/client/client.ts:143-211 | The values and final error are `StreamSpec` of the body once the preamble succeeds. |
| EventStream.Split | frontend/src/client/client.ts:185 | `split('\n\n')` always has at least one piece. |
| EventStream.SplitRecompose | frontend/src/client/client.ts:184-186 | Joining the pieces with `\n\n` gives back the text. |
| EventStream.SplitPiecesHaveNoSeparator | frontend/src/client/client.ts:185 | No piece contains `\n\n`. |
| EventStream.SplitIsLeftmost | frontend/src/client/client.ts:185 | Separators are taken left to right: no piece before the last ends with a newline. |
| EventStream.PendingSplitsToItself | frontend/src/client/client.ts:185-186 | The buffer kept after `pop()` splits to itself. |
| EventStream.SplitAppend | frontend/src/client/client.ts:184-186 | Appending text keeps the frames already complete. Only the pending buffer plus the new text is split again. |
| EventStream.ProcessFrame | frontend/src/client/client.ts:188-200 | A frame not starting with `data: ` is ignored. Otherwise the text after the 6-character prefix is parsed. A parse failure always gives a JSON error whose message is the SSE prefix plus the parser's message. A parsed value fails iff the `in` test throws, again as such a JSON error. A value is yielded iff it has a truthy `result`, and exactly that `result` is yielded. |
| EventStream.ProcessFrames | frontend/src/client/client.ts:188-201 | Every yielded value is truthy, and a failure is a JSON error. |
| EventStream.ProcessFramesAppend | frontend/src/client/client.ts:188-201 | Processing two runs of frames is the first then, unless it failed, the second. |
| EventStream.NonDataFramesIgnored | frontend/src/client/client.ts:189 | Frames without the `data: ` prefix yield nothing and never fail. |
| EventStream.StreamSpec | frontend/src/client/client.ts:179-207 | The values are all truthy, and the final error, if any, is a client error. |
| EventStream.DrainIsWholeText | frontend/src/client/client.ts:180-202 | Chunk boundaries do not matter. Reading chunk by chunk processes exactly the complete frames of all text read. |
| EventStream.DrainChunks | frontend/src/client/client.ts:180-202 | The buffer loop computes the chunk-by-chunk drain from an empty buffer. |
| EventStream.ReadEventStream | frontend/src/client/client.ts:175-210 | The values and error equal `StreamSpec`: the frames of the whole text, then a parse error rethrown, a failed read as an HTTP 503 `Stream error`, or a clean end. |
| EventStream.RunFrames | frontend/src/client/client.ts:188-201 | The inner `for` loop computes exactly `ProcessFrames`. |
| Client.CapabilityFlagMeaning | frontend/src/client/client.ts:394-402 | A flag holds iff the card's `capabilities` object has a truthy value under the flag's name. |
| Client.A2AClient.Supports | frontend/src/client/client.ts:391-410 | The card's flag coerced to a boolean, and false when the card cannot be had. The cache is updated as by `AgentCard`. |
| Client.A2AClient.CurrentCard | frontend/src/client/client.ts:415-421 | A truthy cached card is returned as is. Otherwise the result is `FetchJson` of a GET to the client's url plus `/.well-known/agent.json`, so every failure is a client error. |
| Client.A2AClient.AgentCard | frontend/src/client/client.ts:415-423 | Returns `CurrentCard`. The cache is set only by a successful fetch and is otherwise left as it was. |
| Client.CachedCardIsStable | frontend/src/client/client.ts:416-418 | Once a truthy card is cached, the card is served from the cache whatever `fetch` would do. |
| Helpers.CreateTextMessageObject | frontend/src/client/helpers.ts:7-19 | `contextId` and the message id are as given and the `type` tag is `'message'`. The role defaults to user. The parts are exactly one `text` part holding the content, which defaults to `''`. |
| Helpers.CreatedMessageIsAccepted | frontend/src/client/helpers.ts:12-18 | The built message passes the executor's part conversion as exactly one framework text part with the content, on the same context. |

## Left out

- Transport is not modelled: `_send_agent_message`, `send_a2a_message` (a2adk/utils.py:80-86), the HTTP client and the `fetch` calls. They are parameters: the remote agent and `fetch` are functions and the poll answers a sequence. Request headers and `httpOptions` are not modelled.
- `_get_agent_card` (a2adk/a2atool.py:143-157) is event-loop bridging. The card is a constructor argument.
- `asyncio.sleep(0.2)` and all async scheduling are left out; each loop is sequential.
- UUIDs (`uuid4`, `crypto.randomUUID`, `uuidv4`) are parameters or not modelled. Effects in the trace carry no message id.
- The framework runner (`_run_agent`, `A2ARunConfig`, `_get_task_updater`) is a foreign library. A run is the sequence of events it would yield, and `is_final_response()` is a field of the event.
- The task updater's event queue and the session/memory/artifact backends are foreign libraries. They are modelled only as the effect trace and the session map. JSON encoding of responses (`json.dumps`, `model_dump`) is not modelled either.
- `reader.read`, `TextDecoder` and `JSON.parse` are not modelled. Chunks arrive already decoded and parsing is a parameter. `reader.releaseLock()` has no observable effect in the model.
- JSON numbers are integers. No operation here depends on fractional values.
- `A2AClient.fromAgentCardUrl` (frontend/src/client/client.ts:112-121) is not modelled on its own. It only chains `GetAgentCard` and the constructor, both of which are modelled.
- Stored file bytes are text here, passed through unchanged in both directions. The base64 handling of the protocol library is not modelled.
- RemoteAgentTool.A2ATool.WaitForDependentTask: the source polls with no bound, so termination cannot be proved. The model polls over a finite sequence of answers. It reports `OutOfAnswers` (the `StillPolling` error of `AuthRequiredTask`) when they run out before completion, an outcome the source does not have.
- RemoteAgentTool.A2ATool.Call: the stored `dependent_task` is the task value itself rather than its `model_dump()` dictionary. A stored value that does not validate as a task is an error of its own, `InvalidDependentTask`.
- AgentExecution.ADKAgentExecutor.ProcessRequest: the runner's writes to the session are not modelled. It appends the new message and every non-partial event. So "an existing session is untouched" holds of the model only: the real session grows by the run's events.
- The session service's `get_session` and `create_session` are called without `await` (a2adk/adk_agent_executor.py:97-101, a2adk/routes/session.py:37), while `list_sessions` is awaited (a2adk/routes/session.py:19). The model treats the first two as synchronous calls that return their result. It does not capture an asynchronous service: there, `_upsert_session` would return a truthy coroutine without creating a session, and `session.events` would fail.
- SessionRoutes.GetSessionMessages: every framework part has a `text` attribute, so the `unknown` fallback of a2adk/routes/session.py:53-55 is unreachable and not modelled. The `if base_message['parts']` test is always true for a shown event.

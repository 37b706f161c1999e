# Chat backend core: session registry, query relay, stream filtering, chart tools

This project is a Dafny model of the core of a NestJS chat backend. The backend answers questions through an LLM agent over a websocket and over HTTP. The model covers four parts.

- **Session registry** (`SessionManager`, file `session_manager.dfy`). The class `SessionManagerService` has two map fields. `sessions` maps a session id to its ordered chat history, a `seq<Message>` with `Message = AI(text) | Human(text)`. `sidToSession` maps a socket connection id (sid) to a session id. Creating a session, appending messages and binding or unbinding a sid are methods that reassign these maps. Their contracts state the whole new state and three invariants:
  - every history starts with the configured greeting (`Valid`);
  - histories only grow by appending (`HistoriesExtend`);
  - a method leaves the other map alone.
  Serialising a history to `{type, content}` records is a pure function.
- **Chat service** (`ChatService`, file `chat_service.dfy`). The agent is abstract: a datatype holding two functions from a request to what the agent delivers. `Query` maps any agent failure to the fixed message `Query failed. Please try again.`. `StreamQuery` is a loop over the agent's event stream. It is proved against the pure filter `Fragments`: it keeps the non-empty content of `on_chat_model_stream` events, in order. When the stream fails, it adds the fallback `Streaming query failed. Please try again.` as the last fragment. Lemmas pin down order: each yielding event's content sits at the position given by the number of yielding events before it, and every fragment has such an event.
- **Websocket `query` handler** (`ChatGateway`, file `chat_gateway.dfy`). `HandleQuery` emits to a `Socket` object whose `emitted` field is the event log. It is proved to append exactly `QueryEvents(useStream, input, agent)`. Lemmas about `QueryEvents` cover:
  - the lone error event for a falsy input;
  - the echo coming first;
  - `response_start` before the chunks in stream mode;
  - `response_end` exactly once and last whenever the handler completes;
  - a failed sync-mode query emitting only the echo and rejecting.
- **Chart tools** (`ChartTools`, file `chart_tools.dfy`). The line, bar and pie configuration builders are pure functions with dataset-by-dataset contracts, covering labels, fallback labels, data and colour components. The URL builder applies the option defaults (500, 300, `png`, `base64`). `ParseChartUrl` reads a URL back, and a round-trip lemma proves that the URL determines its parameters in the fixed order. JSON serialisation, base64 and `encodeURIComponent` are the fields of a `Codec` value: functions the model does not interpret.

Two helper modules complete the project:
- `Wrappers` (file `wrappers.dfy`) holds `Option` and `Result`.
- `Text` (file `text.dfy`) holds the decimal rendering of natural numbers and splitting/joining at a separator, each with a round-trip lemma.

Configuration read from the environment becomes constructor parameters:
- `INITIAL_MESSAGE` becomes an `Option<string>`, and the `??` default keeps an empty setting;
- `USE_STREAM` is on only when it is exactly `"true"`.

The uuid generator becomes a parameter of `CreateSession`. Its fresh-id assumption (the id is not yet a key of `sessions`) is a precondition.

Facts about the code that bear on reading the model:
- The code has no per-session locks or busy rejection, no message sequence numbers and no restore events.
- The websocket handler passes no session id to the chat service.
- The handler's input-error message is `Input is required`.
- A failed sync-mode query emits no `error` and no `response_end`.

## Model

| member | source | states |
|---|---|---|
| `SessionManager.InitialMessage` | src/session/session-manager/session-manager.service.ts:14 | the greeting is the configured value when one is set (even an empty one), otherwise `Helllooo!` |
| `SessionManager.SessionManagerService.constructor` | src/session/session-manager/session-manager.service.ts:13-17 | a new registry has both maps empty, its greeting is `InitialMessage` of the setting, and the invariant holds |
| `SessionManager.SessionManagerService.CreateSession` | src/session/session-manager/session-manager.service.ts:25-31 | returns an id not previously a session; its history becomes exactly `[AI(greeting)]`; `sid` is bound to it; every other entry of both maps is unchanged; histories only grow |
| `SessionManager.SessionManagerService.GetSessionHistory` | src/session/session-manager/session-manager.service.ts:34-38 | returns the history exactly when the id is a session, and nothing otherwise |
| `SessionManager.SessionManagerService.GetSessionIdFromSid` | src/session/session-manager/session-manager.service.ts:41-43 | returns the bound session id exactly when `sid` is bound |
| `SessionManager.SessionManagerService.AddUserMessage` | src/session/session-manager/session-manager.service.ts:46-51 | on a known session, appends exactly one `Human(message)` at the end and changes no other entry; on an unknown id both maps are unchanged |
| `SessionManager.SessionManagerService.AddAIMessage` | src/session/session-manager/session-manager.service.ts:54-59 | on a known session, appends exactly one `AI(message)` at the end and changes no other entry; on an unknown id both maps are unchanged |
| `SessionManager.SessionManagerService.DeleteSession` | src/session/session-manager/session-manager.service.ts:62-68 | returns true iff the id is a session, and changes no state (the map entry is not removed) |
| `SessionManager.SessionManagerService.RemoveSession` | src/session/session-manager/session-manager.service.ts:62-68 | corrected deletion: returns true iff the id was a session; afterwards it is not one and nothing else changed |
| `SessionManager.DeletedSessionStillListed` | src/session/session-manager/session-manager.service.ts:62-72 | after a delete that reports success, the existence test still reports the session present |
| `SessionManager.SessionManagerService.TestIsSessionId` | src/session/session-manager/session-manager.service.ts:70-72 | true iff the id is a key of `sessions` |
| `SessionManager.SessionManagerService.MapSidToSession` | src/session/session-manager/session-manager.service.ts:74-76 | binds `sid` to the session id, replacing any earlier binding (last bind wins); `sessions` is untouched, so the greeting invariant is kept |
| `SessionManager.SessionManagerService.RemoveSidToSession` | src/session/session-manager/session-manager.service.ts:78-80 | removes only the `sid` key (no change when unbound, so idempotent); `sessions` is untouched, so the greeting invariant is kept |
| `SessionManager.SerializeMessage` | src/session/session-manager/session-manager.service.ts:83-99 | the record's type is `bot` iff the message is the AI's and `user` iff it is the human's; the content is preserved |
| `SessionManager.SerializeMessageInjective` | src/session/session-manager/session-manager.service.ts:83-99 | the serialised record determines the message |
| `SessionManager.SerializeHistory` | src/session/session-manager/session-manager.service.ts:110-112 | one record per message, record k serialising message k |
| `SessionManager.SerializeHistoryAppend` | src/session/session-manager/session-manager.service.ts:109-112 | appending a message to a history appends its record to the serialised history |
| `SessionManager.SessionManagerService.GetSessionMessages` | src/session/session-manager/session-manager.service.ts:102-114 | an unknown id gives `{error: 'Session not found.'}`; otherwise the serialised history, whose first record is the bot greeting |
| `ChatService.InvokeRequest` | src/chat/chat.service.ts:76-88 | the whole-answer request carries the input and the caller's session id as both `configurable.sessionId` and `metadata.session_id` |
| `ChatService.StreamRequest` | src/chat/chat.service.ts:98-111 | the stream request carries the input, version `v2` and the caller's session id in both places |
| `ChatService.Query` | src/chat/chat.service.ts:74-94 | succeeds iff the agent answers, with the agent's `output`; any failure gives exactly `Query failed. Please try again.`, whatever the agent's reason |
| `ChatService.Fragments` | src/chat/chat.service.ts:112-119 | the fragments are never more than the events and are all non-empty |
| `ChatService.FragmentsAppend` | src/chat/chat.service.ts:112-119 | filtering the concatenation of two event lists concatenates their fragments |
| `ChatService.FragmentOfEvent` | src/chat/chat.service.ts:112-119 | a chat-model event with non-empty content yields its content at the position equal to the number of fragments before it |
| `ChatService.EventOfFragment` | src/chat/chat.service.ts:112-119 | every fragment is the content of some yielding event, with exactly as many fragments before that event |
| `ChatService.FragmentsKeepOrder` | src/chat/chat.service.ts:112-119 | of two yielding events, the earlier one's fragment comes first |
| `ChatService.StreamOutput` | src/chat/chat.service.ts:112-123 | what the generator yields is the stream's fragments, in order, followed by the single fallback `Streaming query failed. Please try again.` exactly when the stream failed; nothing yielded is empty |
| `ChatService.StreamQuery` | src/chat/chat.service.ts:96-124 | yields exactly the fragments of the stream for the request, then the single fallback message when the stream fails, and never fails itself |
| `ChatGateway.Responses` | src/chat/chat.gateway.ts:62-65 | one `response` event per chunk, in chunk order |
| `ChatGateway.QueryEvents` | src/chat/chat.gateway.ts:46-73 | the handler always emits something; it emits `[error{message: 'Input is required'}]` iff the input is falsy, never an `error` event otherwise, and otherwise the echo first |
| `ChatGateway.QueryOutcome` | src/chat/chat.gateway.ts:66-72 | the handler rejects exactly when a non-empty input meets a failing agent in sync mode, and then with `Query failed. Please try again.` |
| `ChatGateway.FalsyInputOnlyErrors` | src/chat/chat.gateway.ts:51-54 | a missing or empty input emits exactly `error{message: 'Input is required'}`, whatever the agent would do |
| `ChatGateway.EchoComesFirst` | src/chat/chat.gateway.ts:56-59 | a non-empty input first emits `response` with `Received input: <input>`; in stream mode `response_start(true)` comes second |
| `ChatGateway.StreamModeSequence` | src/chat/chat.gateway.ts:58-67 | stream mode emits the echo, `response_start`, then one `response` per fragment in order, then `response_end(true)` last; it always completes, even when the agent's stream fails |
| `ChatGateway.StreamModeEndsOnce` | src/chat/chat.gateway.ts:58-67 | stream mode emits `response_end` exactly once, whatever fragments the stream delivers |
| `ChatGateway.SyncModeSequence` | src/chat/chat.gateway.ts:68-72 | sync mode emits the echo, one `response(answer)` and `response_end(true)` on success; on failure it emits only the echo and rejects with the query-failed message |
| `ChatGateway.ResponseEndOnceAndLast` | src/chat/chat.gateway.ts:56-72 | whenever the handler completes on a non-empty input, `response_end` occurs exactly once and is the last event |
| `ChatGateway.Socket.Emit` | src/chat/chat.gateway.ts:53-71 | `client.emit` appends exactly the one event to the end of the client's log |
| `ChatGateway.ChatGateway.constructor` | src/chat/chat.gateway.ts:28-31 | streaming is on iff `USE_STREAM` is exactly `"true"` |
| `ChatGateway.ChatGateway.HandleQuery` | src/chat/chat.gateway.ts:46-73 | appends exactly `QueryEvents` to the client's log and settles as `QueryOutcome`; the service is called with the input and no session id |
| `ChartTools.ChartParam` | src/chart-tools/chart-tools.service.ts:26-33 | the chart parameter is the base64 of the JSON for `base64` encoding, its URI-component encoding otherwise |
| `ChartTools.ChartUrlParams` | src/chart-tools/chart-tools.service.ts:17-22 | each omitted option takes its default (width 500, height 300, format `png`, encoding `base64`); a given option is used as is |
| `ChartTools.RenderChartUrl` | src/chart-tools/chart-tools.service.ts:36 | the URL text begins with `https://quickchart.io/chart?chart=` followed by the chart parameter |
| `ChartTools.RenderIsJoin` | src/chart-tools/chart-tools.service.ts:36 | the URL text is the prefix followed by the chart parameter and `width=`, `height=`, `format=`, `encoding=` pieces, joined by `&` in that order |
| `ChartTools.GenerateChartUrl` | src/chart-tools/chart-tools.service.ts:8-40 | the URL begins with the prefix and the encoded configuration; with no options it is exactly `https://quickchart.io/chart?chart=<base64 of the JSON>&width=500&height=300&format=png&encoding=base64` |
| `ChartTools.GenerateChartUrlRoundTrip` | src/chart-tools/chart-tools.service.ts:17-36 | for any options, as long as neither the encoded chart nor the `format` option contains `&`, the URL reads back as the resolved parameters (defaults where omitted) |
| `ChartTools.ChartUrlRoundTrip` | src/chart-tools/chart-tools.service.ts:36 | reading the URL back yields chart, width, height, format and encoding in that order, so the URL is the prefix followed by exactly these parameters |
| `ChartTools.DefaultChartUrl` | src/chart-tools/chart-tools.service.ts:17-36 | with no options the URL carries the base64 of the JSON, width 500, height 300, format `png` and encoding `base64` |
| `ChartTools.DatasetLabel` | src/chart-tools/chart-tools.service.ts:94 | the label is `datasetLabels[i]` when present and non-empty, otherwise `Dataset <i+1>`; it is never empty |
| `ChartTools.FallbackLabelsDistinct` | src/chart-tools/chart-tools.service.ts:163 | two series that both fall back get different labels |
| `ChartTools.LineConfig` | src/chart-tools/chart-tools.service.ts:89-113 | type `line`; one dataset per series, with data equal to the series and the fallback label; colours `rgba(i*50, 99, 132, 1 / 0.2)`; no fill; title is `title`; `beginAtZero` equals `is_start_zero` |
| `ChartTools.BarConfig` | src/chart-tools/chart-tools.service.ts:158-186 | type `bar`; one dataset per series, with data equal to the series and the fallback label; colours `rgba(i*50+50, 99+i*20, 132-i*30, 0.5 / 1)`; border width 1; title and `beginAtZero` as given |
| `ChartTools.PieConfig` | src/chart-tools/chart-tools.service.ts:209-229 | type `pie`; a single dataset whose data equals `sizes` and whose colour list has one `rgba(i*50, 99, 132, 0.2)` per label; no `beginAtZero` |
| `ChartTools.CreateLineGraph` | src/chart-tools/chart-tools.service.ts:57-117 | the tool is named `create_line_graph`; called with series arguments it returns `LineGraphUrl` of them, and it refuses pie arguments |
| `ChartTools.CreateBarGraph` | src/chart-tools/chart-tools.service.ts:120-191 | the tool is named `create_bar_graph`; called with series arguments it returns `BarGraphUrl` of them, and it refuses pie arguments |
| `ChartTools.CreatePieGraph` | src/chart-tools/chart-tools.service.ts:195-233 | the tool is named `create_pie_graph`; called with pie arguments it returns `PieGraphUrl` of them, and it refuses series arguments |
| `ChartTools.GetAllTools` | src/chart-tools/chart-tools.service.ts:237-243 | exactly the line, bar and pie tools in that order, under the names `create_line_graph`, `create_bar_graph` and `create_pie_graph` |
| `ChartTools.LineGraphUrl` | src/chart-tools/chart-tools.service.ts:88-116 | the line tool returns exactly the prefix, the base64 of the JSON of `LineConfig`, and the default width, height, format and encoding |
| `ChartTools.BarGraphUrl` | src/chart-tools/chart-tools.service.ts:151-190 | the bar tool returns exactly the prefix, the base64 of the JSON of `BarConfig`, and the default width, height, format and encoding |
| `ChartTools.PieGraphUrl` | src/chart-tools/chart-tools.service.ts:208-232 | the pie tool returns exactly the prefix, the base64 of the JSON of `PieConfig`, and the default width, height, format and encoding |

## Left out

- LLM, agent and tool construction (`initializeAgent` and the `ChatOpenAI` setup in src/chat/chat.service.ts). These are calls into foreign libraries. The agent is a pair of functions the model does not interpret.
- The history updates made inside the agent's history wrapper. This wrapper appends the turn to `getSessionHistory(sessionId)`, and it is a foreign library. The model's agent is an arbitrary function of its request, so it covers whatever the wrapper does.
- Aliasing of history objects. In the source, `getSessionHistory` returns the live history object that later appends mutate. In the model, histories are values inside the `sessions` map.
- `getCurrentDateTool`, because it depends on the wall clock.
- The zod argument schemas of the chart tools (input validation by a foreign library). Only the split between series arguments (line, bar) and slice arguments (pie) is kept: `RunTool` gives nothing for arguments of the other shape. The tools' descriptions are carried only as text.
- `JSON.stringify`, base64 and `encodeURIComponent` are not implemented; they are the fields of `Codec`. So are the property order of object literals, for instance the pie options listing `responsive` before `title`, and the text of the `rgba(...)` colour strings. Colours are kept as their four components.
- The `try`/`catch` of `generateChartUrl`, because the abstract codec never fails.
- ChartTools.ChartUrlParams: width and height are natural numbers. Negative, fractional and very large numbers, whose JavaScript text differs from the decimal digits, are not modelled. All callers use the defaults.
- The `TypeError` branch of `serializeMessage` (src/session/session-manager/session-manager.service.ts:96-98). It is unreachable here: histories only ever hold `AIMessage` and `HumanMessage` entries, so `Message` has exactly those two cases.
- Non-string `input` payloads and non-string chunk content. Input is an optional string whose falsy values are absent and `""`; chunk content is a string.
- Logging (`console.log`/`console.error`), the connect, disconnect and init handlers (which only log), controllers, module wiring, bootstrap, the user and retriever services, and Prisma. These are I/O and plumbing.
- Laziness and interleaving of the async generator. The model collects everything `streamQuery` yields and then emits it. The emitted order is the same.
- ChatGateway.ChatGateway.HandleQuery: each invocation is modelled as running to completion before the next `query` message is handled. In the code the handler is `async` and suspends while it awaits the chat service and the stream, and nothing orders two queries on one socket, so concurrent queries interleave their events in the client's log. The ordering lemmas (`StreamModeSequence`, `ResponseEndOnceAndLast` and the others) hold per invocation, among that invocation's own events.
- What the framework does with a rejected handler promise. The handler's outcome is reported as `Rejected(message)`.

## Findings

| source | as written | input that shows it | evidently intended | confidence | as-written member | corrected member |
|---|---|---|---|---|---|---|
| src/session/session-manager/session-manager.service.ts:64 | `delete this.sessions[sessionId]` deletes an object property of the `Map`, not its entry, so the session stays registered while `true` is returned | create a session, then delete it: the delete reports `true` and `testIsSessionId` still reports `true` | `this.sessions.delete(sessionId)`: the session is gone afterwards | high (not executed) | `SessionManager.SessionManagerService.DeleteSession`, `SessionManager.DeletedSessionStillListed` | `SessionManager.SessionManagerService.RemoveSession` |

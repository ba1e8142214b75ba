# Voice-call transcript and report: a Dafny model

This project models the stateful core of a small voice-agent demo. It has two sides.

- **The web page** (`frontend/app/page.tsx`). It starts and stops a voice call with a remote
  agent and keeps the transcript the voice transport streams in. It also turns a pasted
  transcript into a written report through a chat-completion service, and saves that report
  as a PDF.
- **The server** (`backend/server.py`). It registers calls with the voice platform and keeps
  an in-memory map from call id to call summary. A signed `call_ended` webhook writes that
  map, and so does the end of an LLM socket session. A summary endpoint reads it.

Every external call is a parameter of the model:

- the registration `fetch`;
- the transport's `startConversation`;
- the chat completion;
- the PDF step;
- the platform's signature check;
- JSON decoding;
- the clock.

The commands the page issues are recorded in order, in a trace of effects. So are the
completion requests it sends and the PDFs it saves.

Modules:

- `CallSession` (call_session.dfy): the page's call controller, as the class `CallController`
  (`isCalling`, `currentCallId`, `transcript`, `effects`). It also holds the four transport
  event handlers, the speaker-label normalisation and the registration helper. A pure
  `Replay` of transport events is the specification the handlers are tied to. The lemmas
  about transcripts are proved over `Replay`.
- `ReportPipeline` (report_pipeline.dfy): the page's report generator, as the class
  `ReportGenerator` (`report`, `isGenerating`, and the requests and PDFs issued). It holds
  the `trim()` emptiness guard, the completion request, the handling of the completion
  result and the PDF layout.
- `SummaryFormat` (summary_format.dfy): the summary text, one `role: content` line per turn
  joined by newlines. Its partner is a newline splitter, and splitting the joined text gives
  the lines back.
- `Server` (server.py's handlers): the class `CallSummaryStore` with the webhook, the
  summary lookup and the LLM socket loop. The module also holds the loop's pure step
  function, the response-stream cut-off and the register endpoint.
- `EndToEnd`: the page's registration helper applied to the register endpoint's reply.
- `Wrappers`: `Option`.

The model follows the code in these places, where a reader might expect something else:

- Starting a call does not clear the transcript. Only the transport's `conversationStarted`
  event does.
- When the transport fails to start, `currentCallId` already holds the new id. Only
  `isCalling` stays false.
- An empty-string `call_id` is rejected like a missing one, because the page tests
  `!call_id`.
- A PDF failure after a successful completion still replaces the report with the error
  message.
- When the platform answers anything but 201, the register endpoint returns no value. The
  reply is a JSON `null` with status 200, not an error. The page then fails on the `null`
  body, so it does not start the transport.
- The webhook never answers 204: the closing `JSONResponse(status_code=204)` omits the `content` argument the JSON response type requires, so it raises inside the `try` and the catch-all answers 500, after the store for a complete `call_ended` (see Findings).
- The page's `registerCall` takes an agent id but does not use it. It POSTs to a fixed URL
  with no body.

## Model

| member | source | states |
|---|---|---|
| CallSession.Normalize | frontend/app/page.tsx:58-61 | the label `assistant` maps to `agent` and every other label to `user`, in both directions; the content is copied verbatim |
| CallSession.OnEvent | frontend/app/page.tsx:41-69 | one transport event under a single subscription: the call id is untouched, `isCalling` can only be cleared, never set, and the transcript is either emptied or the old one with at most one turn added at its end (what each event does exactly is stated per handler on `CallController` and over runs of events by `ReplayUpdates`, `AppendOnlyWithoutStart` and `StartThenUpdates`) |
| CallSession.Replay | frontend/app/page.tsx:41-69 | the session after a run of transport events in delivery order: no run of events sets `isCalling` or changes `currentCallId`, only the toggle does (the transcript's evolution is stated by the lemmas below) |
| CallSession.NormalizeAllAt | frontend/app/page.tsx:56-68 | the i-th stored turn is the normalised i-th delivered turn |
| CallSession.ReplayUpdates | frontend/app/page.tsx:56-68 | a run of `transcriptUpdated` events appends exactly those turns, normalised, in delivery order, and leaves `isCalling` and `currentCallId` unchanged |
| CallSession.AppendOnlyWithoutStart | frontend/app/page.tsx:41-69 | with no `conversationStarted` among the events, the new transcript is the old one followed by every delivered turn in order: no loss, no reordering, no deduplication |
| CallSession.StartThenUpdates | frontend/app/page.tsx:41-68 | `conversationStarted` followed by n turns yields exactly those n turns in delivery order, whatever the transcript held before |
| CallSession.EndedStaysIdle | frontend/app/page.tsx:46-54 | after `conversationEnded` or `error`, and any later events, no call is live |
| CallSession.DeliverToListeners | frontend/app/page.tsx:40-70 | delivery as the page runs it, with the four handlers subscribed `listeners` times (the effect re-subscribes on every `currentCallId` change and never unsubscribes); its property is `TurnStoredPerListener` |
| CallSession.TurnStoredPerListener | frontend/app/page.tsx:40-70 | with n subscriptions, one `transcriptUpdated` event appends its normalised turn n times |
| CallSession.SecondSubscriptionDuplicatesTurns | frontend/app/page.tsx:40-70 | once the first call id is recorded (two subscriptions), one turn event stores the turn twice, where a single subscription stores it once |
| CallSession.RegisterCall | frontend/app/page.tsx:99-121 | the registration yields the decoded body exactly when the request succeeded with a 2xx status and a body that decodes; otherwise nothing |
| CallSession.CallController.constructor | frontend/app/page.tsx:33-35 | idle, no call id, empty transcript, nothing issued |
| CallSession.CallController.OnConversationStarted | frontend/app/page.tsx:41-44 | the transcript becomes empty and nothing else changes |
| CallSession.CallController.OnConversationEnded | frontend/app/page.tsx:46-49 | `isCalling` becomes false; transcript, call id and effects unchanged (so it is idempotent) |
| CallSession.CallController.OnError | frontend/app/page.tsx:51-54 | `isCalling` becomes false; transcript, call id and effects unchanged (so it is idempotent) |
| CallSession.CallController.OnTranscriptUpdated | frontend/app/page.tsx:56-68 | exactly one normalised turn is appended at the end; earlier turns and the other fields are unchanged |
| CallSession.CallController.ToggleConversation | frontend/app/page.tsx:72-97 | while live: stop the transport and clear `isCalling` at once, with no registration. While idle: one registration request. Without a usable call id, no start, `isCalling` false and `currentCallId` unchanged. With one, `currentCallId` is set, one start with that id, the sample rate and updates enabled, and `isCalling` equals the start's success |
| ReportPipeline.Trim | frontend/app/page.tsx:124 | `trim()`: no longer than the input, and a non-empty result neither begins nor ends with ECMAScript whitespace; `TrimEmptyIffBlank` states when it is empty and the two `Trim*DropsWhitespace` lemmas that only whitespace is removed |
| ReportPipeline.TrimStart | frontend/app/page.tsx:124 | the result is a suffix of the input and does not begin with whitespace |
| ReportPipeline.TrimEnd | frontend/app/page.tsx:124 | the result is a prefix of the input and does not end with whitespace |
| ReportPipeline.TrimStartDropsWhitespace | frontend/app/page.tsx:124 | every character the leading strip drops is whitespace |
| ReportPipeline.TrimEndDropsWhitespace | frontend/app/page.tsx:124 | every character the trailing strip drops is whitespace |
| ReportPipeline.TrimEmptyIffBlank | frontend/app/page.tsx:124 | `trim()` leaves the empty string exactly when every character is ECMAScript whitespace |
| ReportPipeline.ReportRequest | frontend/app/page.tsx:128-156 | one request to `gpt-4o-mini` at temperature 0.7, with two messages: the fixed system instruction, then a user message |
| ReportPipeline.ReportRequestEmbedsTranscript | frontend/app/page.tsx:152 | the user message is the fixed prefix followed by the whole transcript, verbatim |
| ReportPipeline.CompletionText | frontend/app/page.tsx:158 | no text (the error path) when the request failed or there is no first choice; otherwise the first choice's content, or `""` when it has none |
| ReportPipeline.ReportPdf | frontend/app/page.tsx:161-174 | the saved document has the fixed title at (20, 20) in 16pt above the report body at (20, 40) in 12pt, wrapped at width 170, in `medical-report.pdf` |
| ReportPipeline.ReportGenerator.constructor | frontend/app/page.tsx:37-38 | empty report, not generating, nothing sent or saved |
| ReportPipeline.ReportGenerator.GenerateReport | frontend/app/page.tsx:123-182 | blank input changes nothing and sends nothing. Otherwise exactly one request is sent and `isGenerating` is false on exit. The report becomes the completion text and one PDF of it is saved, or, on a failed request or PDF step, the report is exactly the fixed error message and no PDF is saved |
| ReportPipeline.ReportGenerator.RunGeneration | frontend/app/page.tsx:126-181 | for any input: one request is sent and `isGenerating` is false on exit. The report is the completion text with one PDF of it saved, or exactly the fixed error message with no PDF saved |
| SummaryFormat.TurnLine | backend/server.py:101 | the line is the role, then `": "`, then the content |
| SummaryFormat.JoinLines | backend/server.py:101 | `"\n".join`: no lines give `""`, otherwise the text starts with the first line; `SplitJoin` states that splitting gives every line back |
| SummaryFormat.SummaryText | backend/server.py:101 | the summary text is `""` exactly when the transcript has no turns; `SummaryLines` states its lines |
| SummaryFormat.SplitJoin | backend/server.py:101 | splitting the newline-joined lines on newlines gives back every line in order, when no line holds a newline |
| SummaryFormat.SummaryLines | backend/server.py:101 | the summary text of an empty transcript is `""`; when no role or content holds a newline, a non-empty transcript's text splits into exactly one `role: content` line per turn, in order |
| Server.RegisterCallRequestFor | backend/server.py:45-50 | the registration asks for the given agent id over the `web` audio socket protocol, `s16le` encoding, at sample rate 24000; the register endpoint passes it the configured agent id |
| Server.RegisterCallOnYourServer | backend/server.py:42-57 | a missing configured agent id gives a 500. Otherwise the platform is asked for that agent's registration, and the reply is the call detail exactly when the upstream status is 201, a 500 exactly when the upstream call raised, and no value (still 200) otherwise; the status is 500 exactly for the failure reply |
| Server.CopiedSummary | backend/server.py:130-135 | the stored entry holds the call's transcript, transcript object and two timestamps unchanged |
| Server.OnRequest | backend/server.py:89-96 | one socket message: without `response_id` nothing changes; with it, `response_id` takes its value and `transcript` takes the message's transcript when it carries one, and is kept otherwise |
| Server.Consume | backend/server.py:82-96 | the loop's variables after a run of messages: each either keeps its initial value or is the value carried by one of the messages (for `transcript`, one that carries both keys); the `Consume*` lemmas say which message |
| Server.ConsumeSkipsUnkeyed | backend/server.py:89-90 | messages without `response_id` change neither `response_id` nor `transcript` |
| Server.ConsumeLastResponseId | backend/server.py:89-91 | `response_id` is that of the last message carrying one |
| Server.ConsumeLastTranscript | backend/server.py:91-96 | `transcript` is that of the last message carrying both `response_id` and `transcript` |
| Server.ConsumeKeepsTranscript | backend/server.py:89-96 | without a message carrying both keys, `transcript` keeps its value |
| Server.DisconnectSummary | backend/server.py:99-105 | the stored entry's text is the newline join of one `role: content` line per turn of the last transcript, its transcript object is that transcript, its timestamps are the session's start and end, and its text is `""` exactly when the transcript is empty |
| Server.DisconnectSummaryLines | backend/server.py:99-105 | for a non-empty transcript without newlines in roles or contents, the stored text splits into exactly the `role: content` lines of the stored transcript object, in order |
| Server.StreamResponse | backend/server.py:75-80 | the events sent are a prefix of the drafted ones; the stream stops early only right after a send once the request's id is below the latest id, and never before |
| Server.CallSummaryStore.constructor | backend/server.py:40 | the store starts empty |
| Server.CallSummaryStore.HandleWebhook | backend/server.py:112-140 | the reply and the new map are those of `WebhookAsWritten`: an undecodable body gives 500 and a bad signature 400, both with the map unchanged; the status is 400 exactly for a decodable body with a bad signature. A signed `call_ended` with a complete call stores or overwrites its id's entry with the four copied fields and then gives 500, because building the 204 response raises; one missing a key gives 500 with the map unchanged. Any other signed event gives 500 with the map unchanged |
| Server.WebhookIntended | backend/server.py:112-140 | the webhook as meant: 400 exactly for a decodable body with a bad signature; 204 exactly for a signed, decodable body that is not a `call_ended` or is one with a complete call; the map gains the call's copied entry exactly in that last case and is otherwise unchanged |
| Server.WebhookAsWritten | backend/server.py:112-140 | the webhook as the code runs: never 204; 400 exactly for a decodable body with a bad signature and 500 for everything else; the map is left exactly as the intended handler leaves it |
| Server.WebhookAsWrittenDiffersOnlyInNoContent | backend/server.py:137-140 | the code and the intended handler leave the same map and differ in their reply exactly where the intended one answers 204, which the code turns into 500 |
| Server.SignedWebhookAnswers500 | backend/server.py:128-140 | a signed `call_started` gets 500 with the map unchanged where 204 was meant; a signed, complete `call_ended` is stored and still gets 500 where 204 was meant |
| Server.CallSummaryStore.GetCallSummary | backend/server.py:142-146 | the stored entry for a known id, a 404 with "Call summary not found" otherwise; the map is never written |
| Server.CallSummaryStore.HandleLlmSocket | backend/server.py:59-110 | on disconnect after frames that all decode, the entry for the call id becomes the summary of the loop's final state. After an undecodable frame or any other failure, the map is unchanged |
| EndToEnd.AsFetched | backend/server.py:51-57 | the page sees the endpoint's status; the call-detail reply gives a registration body carrying the detail's `call_id` and `sample_rate`, the `null` reply none, and the 500 reply's error object is never read because the page fails on the status first |
| EndToEnd.PageGetsCallIdOnlyWhenCreated | backend/server.py:42-57 | the page obtains a usable call id exactly when the agent id is configured and the platform answered 201 with a non-empty call id, and then that id and sample rate are the platform's |

## Left out

- Rendering and React plumbing (frontend/app/page.tsx:184-235, `useState`/`useEffect`) are not modelled. The handlers' re-subscription on every `currentCallId` change is modelled only by `DeliverToListeners` (see Findings); `CallController` and `Replay` model the single subscription the code evidently intends. The button that is disabled while generating is a rendering concern, so `GenerateReport` may be called while `isGenerating` is true.
- Asynchrony is not modelled. Each handler and each button press runs atomically. The model does not capture the interleavings of awaited calls, state read through stale closures, or overlapping calls.
- The voice transport, the chat-completion service, `fetch`, the platform client, its signature check, and JSON decoding are foreign. Their outcomes are parameters. An undecodable body or frame is `None`.
- `console.log`, `print`, and the `os.system` screen clearing are not modelled, because they only log.
- The word wrapping by `splitTextToSize` depends on font metrics. `ReportPdf` records the body and the wrap width 170, not the wrapped lines. Saving the file is I/O, and a PDF failure is a boolean outcome.
- Timestamps are integer milliseconds supplied by the caller. The source uses wall-clock floats on the socket path.
- The webhook's copied fields and the socket's transcript turns have fixed types here (strings, integers, role/content turns). In the source they are arbitrary JSON values. A socket turn without `role` or `content` would raise at backend/server.py:101, and that case is not modelled. Nor is a socket message whose `transcript` is JSON `null`: backend/server.py:96 then sets the transcript to `None`, the join at line 101 raises on disconnect and nothing is stored. Nor is a webhook body that decodes to something other than an object: it gives 400 on a bad signature and otherwise fails at the `.get` of line 125 with a 500.
- A socket frame that is valid JSON but not an object is `None` (the session ends, nothing stored) when the key test or lookup at backend/server.py:89-91 raises on it (`42`, `null`, a string containing `response_id`), and `LlmRequest(None, None)` (skipped) when the key test passes over it (`[1]`, `"x"`).
- The first message the socket sends, and the drafting of response events by `LlmClient`, are not modelled. `LlmClient` is not part of this model.
- Server.CallSummaryStore.HandleLlmSocket: the task started for each keyed message (`asyncio.create_task`) is not recorded, because its interleaving is concurrency. `StreamResponse` models one such task, and the ids it observes after each send are a parameter.
- The CORS middleware, the FastAPI and WebSocket accept/send calls, and frontend/next.config.ts are configuration or I/O.

## Findings

| source | as written | input that shows it | evidently intended | confidence | as-written member | corrected member |
|---|---|---|---|---|---|---|
| frontend/app/page.tsx:40-70 | the effect subscribes the four handlers to the module-level transport client again on every `currentCallId` change and never unsubscribes | in a production build, the first call id is recorded (frontend/app/page.tsx:84), then one `transcriptUpdated` event arrives: its turn is stored twice, and three times after the second call (a development build with React Strict Mode runs the mount effect twice, adding one more copy) | one subscription: each delivered turn is stored once | high, not executed | CallSession.SecondSubscriptionDuplicatesTurns | CallSession.AppendOnlyWithoutStart |
| backend/server.py:137 | the success reply is `JSONResponse(status_code=204)` with no `content`, which the JSON response type requires, so it raises and the `except` at lines 138-140 answers 500 | a correctly signed body with event `call_started` (500, map unchanged), or a signed `call_ended` with a complete call (stored, then 500) | 204 No Content for every signed body handled without error | medium, not executed | Server.SignedWebhookAnswers500 | Server.WebhookIntended |

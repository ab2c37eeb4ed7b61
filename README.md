# Chat relay: a Dafny model

This project models the two pieces of sequential logic in a small chat relay.

The first is the backend `AgentService` (`packages/webapi/agentService.js`). It keeps a
process-wide table from session ids to thread ids on a hosted agent platform, filled
lazily. Its `processMessage` checks its arguments, resolves the thread, posts the user's
message and starts a run. It then polls the run until its status is neither `queued` nor
`in_progress`. If the run completed, it lists the thread, keeps the `assistant` messages,
takes the newest one and concatenates the values of its `text` content items. Empty
arguments raise an error; every failure after argument validation ends as a
`{success, reply}` object.

The second is the browser component `ChatInterface` (`packages/webapp/src/components/chat.js`).
Its state is a message log, an input buffer, `isLoading`, `isRetrieving`, `ragEnabled`, and
`chatMode` (`"basic"` or `"agent"`). It also keeps a copy of the log in local storage. Its
handlers change mode, toggle retrieval, clear the log, track input, and send a message
through one HTTP call.

Modules, one per component:

- `Options` (`options.dfy`): `Option` and `Result`.
- `JsString` (`js_string.dfy`): JavaScript's `trim`, which the send guards use.
- `AgentReply` (`agent_reply.dfy`): the pure selection step. It filters the assistant
  messages, runs a stable newest-first sort and takes the first. Also the text concatenation,
  both as a specification function `TextOf` and as the loop method `ExtractText`.
- `RunPolling` (`run_polling.dfy`): the poll loop's specification `Poll` and its lemmas.
- `Relay` (`relay.dfy`): the remote call log, the remote oracle, and `Converse`, the
  specification of everything after thread resolution. Also the class `ThreadTable`
  (the module-level `agentThreads` object) and the class `AgentService`, whose methods
  `GetOrCreateThread` and `ProcessMessage` update the table in place. `ProcessMessage`
  validates its arguments and resolves the thread. It hands the rest of its `try` body to
  `RunConversation`, which runs the poll loop as a `while` loop.
- `ChatUi` (`chat_ui.dfy`): the class `ChatInterface`, one method per handler. Each
  method's `modifies` clause names the fields it may change, so every other field keeps
  its value.
- `Scenarios` (`scenarios.dfy`): worked runs (thread reuse, empty arguments, sending
  "Hello", switching to agent mode), checked statically.

The remote platform is modelled as data. A `Remote` value gives the result of each remote
call:

- the new thread id;
- whether posting the message succeeded;
- the status of the created run;
- the successive `getRun` statuses;
- the listing.

In each of these, `None` or `false` stands for a call that throws. Every remote call the
relay makes is appended to the service's `calls` log, a ghost field with no counterpart in
the JavaScript code. This is how the model states "no
creation call", "no remote call before validation", "no listing" and "k re-fetches".

The HTTP call from the component is an `ApiOutcome`:

- a response with a status and a parsed body (`None` when `res.json()` throws);
- or a network error.

Local storage is the field `store`. The constructor receives what storage holds. The request
bodies the component posts are recorded in the ghost field `requests`.

Ways the code behaves that the model follows:

- `!agentThreads[sessionId]` is JavaScript truthiness. A stored thread id that is the empty
  string therefore counts as missing and causes a new creation (`HasThread`).
- `agentThreads` is module-level, so every `AgentService` instance shares it. The model
  passes one `ThreadTable` object to each service by reference.
- `getOrCreateThread` is called inside `processMessage`'s `try`. A failed thread creation
  therefore reaches the caller of `processMessage` as the generic apology reply, not as the
  "Failed to create conversation thread" error.
- The poll loop has no bound. When the given `getRun` statuses run out while the run is
  still running, `ProcessMessage` returns `Polling`. The JavaScript code would still be waiting at
  that point and returns nothing.
- `_sendMessage`'s `catch` (chat.js:204-213) would append its own apology, "Sorry, I
  encountered an error. Please try again.". But `_apiCall` catches every failure and always
  resolves to `{reply, sources}`, with the reply "Sorry, I couldn't process your request.
  Please try again.". So that `catch` branch cannot be reached. `SendMessage` proves that
  the appended assistant entry is always `AnswerFor(outcome)`. The unreachable branch is not
  modelled.
- `_handleKeyUp` tests the key event's target value. `_sendMessage` then tests
  `inputMessage` again. `HandleKeyUp` keeps both guards.
- Lit's update cycle runs `updated()` after `messages` changes. The model calls `Updated(true)`
  right after each change of `messages`.

## Model

| member | source | states |
|---|---|---|
| `JsString.Trim` | packages/webapp/src/components/chat.js:181 | computes `s.trim()`: `s` without leading and trailing ECMAScript white space; its properties are the three lemmas below |
| `JsString.HasText` | packages/webapp/src/components/chat.js:175 | computes the truthiness of `s.trim()`, the test both send guards apply |
| `JsString.TrimStartDropsLeadingSpace` | packages/webapp/src/components/chat.js:181 | trimming the front removes a prefix made only of white space, and what is left does not start with white space |
| `JsString.TrimEndDropsTrailingSpace` | packages/webapp/src/components/chat.js:181 | trimming the end removes a suffix made only of white space, and what is left does not end with white space |
| `JsString.TrimEmptyIffAllSpace` | packages/webapp/src/components/chat.js:181 | `s.trim()` is empty exactly when every character of `s` is JavaScript white space, so the send guard refuses exactly the blank inputs |
| `AgentReply.AssistantOnly` | packages/webapi/agentService.js:78-79 | the filtered listing holds only `assistant` messages and is no longer than the listing |
| `AgentReply.AssistantOnlyKeepsAssistants` | packages/webapi/agentService.js:78-79 | a message is in the filtered listing exactly when it is listed and its role is `assistant` |
| `AgentReply.LatestAssistant` | packages/webapi/agentService.js:78-91 | computes `assistantMessages[0]`: the head of the stable newest-first sort of the assistant messages, or none when there are none; its properties are `LatestAssistantNoneIff` and `LatestAssistantIsFirstNewest` |
| `AgentReply.SortNewestFirst` | packages/webapi/agentService.js:80 | the sorted list is in non-increasing `createdAt` order and is a permutation of its input |
| `AgentReply.FirstNewestUnique` | packages/webapi/agentService.js:78-80 | at most one position is the first of the newest assistant messages, so the selection is determined |
| `AgentReply.LatestAssistantNoneIff` | packages/webapi/agentService.js:78-87 | no message is selected exactly when no listed message has the `assistant` role |
| `AgentReply.LatestAssistantIsFirstNewest` | packages/webapi/agentService.js:78-91 | the selected message is an assistant message at a listed position; no assistant message is newer, and every earlier assistant message is strictly older (stable sort: the earliest wins a tie) |
| `AgentReply.TextOf` | packages/webapi/agentService.js:90-95 | computes the reply text: the values of the `text` items appended left to right, other items adding nothing; its properties are `TextOfAppend`, `TextOfJoinsTextValues` and `NonTextContributesNothing` |
| `AgentReply.ExtractText` | packages/webapi/agentService.js:90-95 | the accumulating loop over the content items returns `TextOf(content)` |
| `AgentReply.TextOfAppend` | packages/webapi/agentService.js:90-95 | the reply text of two content lists put together is their two texts put together |
| `AgentReply.TextOfJoinsTextValues` | packages/webapi/agentService.js:90-95 | the reply text is the in-order concatenation of the values of the items whose `type` is `"text"`, and of nothing else |
| `AgentReply.NonTextContributesNothing` | packages/webapi/agentService.js:92-94 | inserting an item of another type anywhere leaves the reply text unchanged |
| `RunPolling.PollFrom` | packages/webapi/agentService.js:61-64 | computes how the wait goes on from a status after `i` responses: settle on a non-running status, fail at a throwing `getRun`, or run out of responses, with the number of `getRun` calls made |
| `RunPolling.Poll` | packages/webapi/agentService.js:58-64 | computes how the wait that starts with `createRun`'s status ends; its properties are the lemmas below |
| `RunPolling.ExitsAtFirstTerminal` | packages/webapi/agentService.js:58-64 | if the first k responses arrived while the run was running and the k-th status is terminal, the wait settles on that status after exactly k re-fetches |
| `RunPolling.SettledOnlyAtFirstTerminal` | packages/webapi/agentService.js:58-64 | conversely, a settled wait saw only `queued`/`in_progress` before its final status, which is neither |
| `RunPolling.FailsAtFirstThrow` | packages/webapi/agentService.js:61-63 | a `getRun` that throws while the run is running ends the wait at that call |
| `RunPolling.StillRunningUsesAll` | packages/webapi/agentService.js:61-64 | a wait that never settles has used every response and only ever seen running statuses |
| `RunPolling.TerminalAtOnce` | packages/webapi/agentService.js:58-61 | a run created with a terminal status is never re-fetched |
| `RunPolling.TwoRefetchesBeforeCompletion` | packages/webapi/agentService.js:58-64 | `queued`, `in_progress`, `completed` leads to exactly two re-fetches |
| `Relay.RunFailedReply` | packages/webapi/agentService.js:71 | the failure reply contains the run's status verbatim at a fixed offset |
| `Relay.Answer` | packages/webapi/agentService.js:78-99 | computes the reply for a listing: the "I don't have a response" failure when no assistant message is selected, otherwise `success = true` with the selected message's text |
| `Relay.Converse` | packages/webapi/agentService.js:51-99 | computes the outcome and the remote calls of everything after thread resolution: post, run, re-fetch while running, then the status failure, the listing's answer, or the generic apology for a throwing call |
| `Relay.HasThread` | packages/webapi/agentService.js:30 | computes the negation of `!agentThreads[sessionId]`: the session has a stored id and it is not the empty string |
| `Relay.AnswerSucceedsIffAssistant` | packages/webapi/agentService.js:78-87 | the listing answer succeeds exactly when some assistant message exists, and otherwise is `{false, "I don't have a response at this time. Please try again."}` |
| `Relay.AnswerIsNewestAssistantText` | packages/webapi/agentService.js:78-99 | a successful answer is the concatenated text items of the newest assistant message, the earliest listed one on a tie |
| `Relay.ConverseNeverRaises` | packages/webapi/agentService.js:48-107 | past validation, every path returns a `{success, reply}` object or keeps polling; nothing is thrown |
| `Relay.ThrowingCallYieldsApology` | packages/webapi/agentService.js:101-106 | a throwing `createMessage`, `createRun`, `getRun` or `listMessages` yields `{false, <generic apology>}` |
| `Relay.RunNotCompletedReply` | packages/webapi/agentService.js:67-73 | a terminal status other than `completed` yields `success = false` with a reply naming the status; the calls are create-message, create-run and k re-fetches, with no listing |
| `Relay.CompletedRunIsAnswered` | packages/webapi/agentService.js:75-99 | after a completed run the thread is listed exactly once, after the k re-fetches, and the reply is the listing's answer |
| `Relay.SuccessIff` | packages/webapi/agentService.js:48-100 | `success = true` exactly when every remote call went through, the run completed and the listing holds an assistant message |
| `Relay.ThreadTable.constructor` | packages/webapi/agentService.js:7 | the table starts empty |
| `Relay.AgentService.constructor` | packages/webapi/agentService.js:9-27 | the service takes the agent id as a parameter (the environment checks are not modelled), shares the given thread table, and has made no remote call |
| `Relay.AgentService.GetOrCreateThread` | packages/webapi/agentService.js:29-41 | a known session gets the stored id with no remote call and no table change; an unknown one makes one creation call and either stores and returns the new id or leaves the table unchanged and fails with "Failed to create conversation thread" |
| `Relay.AgentService.ProcessMessage` | packages/webapi/agentService.js:43-108 | an empty session id or message raises "Session ID and message are required" with no remote call and no table change; otherwise the table evolves as in `GetOrCreateThread`, a failed creation yields the generic apology, and the outcome and calls are those of `Converse` on the resolved thread |
| `Relay.AgentService.RunConversation` | packages/webapi/agentService.js:51-99 | the calls made and the outcome are exactly those of `Converse`: post the message, start the run, re-fetch while it is `queued` or `in_progress`, then answer from the listing or fail |
| `Relay.AgentService.AnswerFromListing` | packages/webapi/agentService.js:78-99 | selecting the latest assistant message and running the text loop over its content gives `Answer(msgs)`, the reply the lemmas on `Answer` characterise |
| `ChatUi.AnswerFor` | packages/webapp/src/components/chat.js:232-246 | computes what `_apiCall` resolves to: the body's `reply` and `sources` (or `[]`) for an ok response with a parsed body, the apology with `[]` otherwise |
| `ChatUi.FailureYieldsApology` | packages/webapp/src/components/chat.js:232-246 | a failed call, a non-ok status or an unparsable body yields "Sorry, I couldn't process your request. Please try again." with empty sources |
| `ChatUi.OkResponsePassesThrough` | packages/webapp/src/components/chat.js:236-240 | an ok response passes its reply through, and a missing `sources` becomes `[]` |
| `ChatUi.ChatInterface.constructor` | packages/webapp/src/components/chat.js:21-29 | empty log and input, not loading or retrieving, retrieval on, basic mode; storage untouched |
| `ChatUi.ChatInterface.Updated` | packages/webapp/src/components/chat.js:40-44 | a change of `messages` writes the whole log to storage; otherwise storage is unchanged |
| `ChatUi.ChatInterface.ConnectedCallback` | packages/webapp/src/components/chat.js:35-38 | the log becomes the stored log, and storage equals the log |
| `ChatUi.ChatInterface.HandleModeChange` | packages/webapp/src/components/chat.js:46-59 | the same mode changes nothing; a different mode is set, the log and storage are emptied, and retrieval is turned off when the new mode is `"agent"` and otherwise kept |
| `ChatUi.ChatInterface.ToggleRag` | packages/webapp/src/components/chat.js:161-163 | sets `ragEnabled` to the checkbox state and nothing else |
| `ChatUi.ChatInterface.ClearCache` | packages/webapp/src/components/chat.js:165-168 | empties the log and storage and nothing else |
| `ChatUi.ChatInterface.HandleInput` | packages/webapp/src/components/chat.js:170-172 | sets `inputMessage` and nothing else |
| `ChatUi.ChatInterface.ApiCall` | packages/webapp/src/components/chat.js:219-250 | posts exactly one request `{message, useRAG: ragEnabled, mode: chatMode}`, settles on `AnswerFor(outcome)` and leaves `isRetrieving` false |
| `ChatUi.ChatInterface.SendMessage` | packages/webapp/src/components/chat.js:180-217 | a blank input or a pending send changes nothing; otherwise the log grows by exactly the user entry and the assistant entry for the outcome, storage equals the log, one request is posted, the input is cleared and neither flag is left set |
| `ChatUi.ChatInterface.HandleKeyUp` | packages/webapp/src/components/chat.js:174-178 | sends, with `SendMessage`'s effect, exactly when the box's value is not blank, the key is Enter, no send is pending and the input is not blank; otherwise changes nothing |

## Left out

- Client construction, credentials and the environment checks (agentService.js:1-27): configuration and foreign calls. The agent id is a constructor parameter.
- The one-second delay between polls and all `async` suspension. The model is sequential and has no time.
- The race between two concurrent first uses of the same session. The model is sequential.
- Run ids. `getRun` is called with the id of the run in hand; the model records `GetRun(threadId)` only.
- Date parsing in the sort comparator. `createdAt` is an integer timestamp, so invalid dates (`NaN` comparisons) are not modelled.
- Malformed remote data that throws inside the `try`: a listing without `data`, a message without `content`, or a text item without a `text` object. Each would give the generic apology. The model takes well-formed items.
- A text item whose `text` object has no `value`: `responseText += contentItem.text.value` appends the string `"undefined"` (agentService.js:93). In the model every text item carries a string value, so this case is not captured.
- A message without `role` needs no separate case: `msg.role === "assistant"` is false for it, so it is filtered out like any non-assistant message (agentService.js:79), and the model does the same.
- Lookups through the object prototype chain. A session id such as `constructor` finds an inherited property of `agentThreads`. The table is modelled as a map of its own keys only.
- `console.error` logging.
- Rendering, templates, CSS and `customElements.define` (chat.js:31-33, 61-159, 253).
- `fetch`, JSON encoding and the URL. These are the abstract `ApiOutcome`.
- A response body without `reply`, which puts `undefined` in the log.
- The implementation of the local-storage helpers, which is not part of this model. Storage is the field `store`, treated as a plain copy of the log.
- ApiCall: while the request is pending, `isRetrieving` equals `ragEnabled`. The sequential model cannot observe a pending state, so the contract states only the settled value (false) and the `useRAG` recorded in the request.
- SendMessage: the user entry is written to the log and storage before the request, and other handlers can run while it is pending. The model runs the send to completion and states the final state only.
- SendMessage: the `catch` branch of `_sendMessage` (chat.js:204-213) is unreachable because `_apiCall` never throws, so it is not modelled.

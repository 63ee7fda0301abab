# Chat widget round trip, modelled in Dafny

A website chat widget: a visitor types into a React chat panel, the panel
posts the whole conversation to a serverless endpoint, the endpoint asks a
chat-completion model for the next assistant message (offering it one
function, `saveContact`, for capturing a sales lead), forwards any such
function call to a contact-save endpoint, asks the model once more with the
save result, and returns the model's choice. The panel keeps the
conversation in browser storage under a per-browser session id.

This project models the decision logic of that round trip, not the network:

- `chat_function.dfy` (module `ChatFunction`): the endpoint handler as a
  total function `Handle` from the request, the configuration, a JSON-parse
  oracle and the outcomes of the three external calls (first completion,
  contact save, follow-up completion) to the status code, the response body
  and the list of external calls made. Every early return, the
  function-call branch and the catch-all are there, with their statuses and
  texts.
- `chat_context.dfy` (module `ChatContext`): the session store as a class
  `ChatStore` over a message sequence and a storage map, the session-id and
  message-load initialisers as functions, and `useChat`.
- `chat_panel.dfy` (module `ChatPanel`): the panel as a class `ChatPanel`
  (input, loading flag, error, and the shared store) whose methods are the
  submit handler (split at its `await`) and the clear handler, plus the
  classification of the server's answer as a function.
- `js_values.dfy` (module `JsValues`): the JavaScript values and built-ins
  the code relies on: truthiness, property reads, `String(x)`, `trim`, and
  the outcome of `JSON.parse`.
- `wire.dfy` (module `Wire`): what the panel makes of each answer the
  endpoint can give.

Behaviours of the code worth knowing, each proved in the model:

- The handler does not check the parameters the `saveContact` schema
  declares as required: whatever the function-call arguments parse to is
  sent to the save endpoint (`SinkReceivesArgumentsVerbatim`,
  `IncompleteContactStillSaved`).
- The API-key check comes right after the body check, so a missing key
  gives 500 even for a body that is not JSON (`ValidationLadder`).
- A body that is the JSON text `null` is not answered like other bodies
  without an array `messages` (400): destructuring it throws and the
  catch-all answers 500 (`NullBodyIsServerError`).
- The panel checks `ok` before it reads the body, so every error status the
  endpoint produces reaches the user as the generic "Failed to send
  message. Please try again.", never with the endpoint's own error text
  (`PanelClassifiesEndpointAnswers`).

## Model

| member | source | states |
|---|---|---|
| `ChatFunction.Handle` | netlify/functions/chat.ts:4-196 | every answer has status 200, 204, 400, 405 or 500; 204 goes with `{}` and 200 with a choices body, never otherwise; the external calls are at most one completion offering `saveContact`, then one save, then one follow-up completion without functions whose messages extend the first ones by exactly two |
| `ChatFunction.Validate` | netlify/functions/chat.ts:40-85 | an early return is a 400 or 500 error body; accepted messages are a non-empty array whose last element is truthy with truthy `content` |
| `ChatFunction.PreflightAlwaysAnswered` | netlify/functions/chat.ts:12-18 | OPTIONS gives 204 with `{}` whatever the body and configuration, and calls nothing |
| `ChatFunction.OtherMethodsNotAllowed` | netlify/functions/chat.ts:20-26 | a method other than OPTIONS and POST gives 405 `Method not allowed` and calls nothing |
| `ChatFunction.ValidationLadder` | netlify/functions/chat.ts:28-85 | for a POST the checks decide in order (no body 400, no key 500, not JSON 400, `null` body 500, non-array messages 400, empty array 400) and none of them calls anything; a missing key outranks bad JSON |
| `ChatFunction.BadRequestExactly` | netlify/functions/chat.ts:28-85 | 400 is answered if and only if a POST has no body, or has the key configured and a malformed body |
| `ChatFunction.ModelCalledExactlyForChatRequests` | netlify/functions/chat.ts:77-130 | the model is called if and only if the request is a well-formed chat request, and first with exactly its messages and the function offered |
| `ChatFunction.ReplyWithoutFunctionCallPassedThrough` | netlify/functions/chat.ts:132-182 | a first reply without a function call is returned with 200 as the only choice, unchanged, and the save endpoint is never called |
| `ChatFunction.MalformedArgumentsAre500` | netlify/functions/chat.ts:135-194 | function-call arguments that do not parse give 500 with the parser's message after the prefix, and nothing is saved |
| `ChatFunction.SinkReceivesArgumentsVerbatim` | netlify/functions/chat.ts:135-143 | the save endpoint receives the parsed arguments exactly, with no check in between |
| `ChatFunction.IncompleteContactStillSaved` | netlify/functions/chat.ts:96-143 | any arguments lacking a parameter the schema declares as required (such as `from_email`) are still sent to the save endpoint |
| `ChatFunction.SaveFailureStops` | netlify/functions/chat.ts:145-152 | a non-ok save gives 500 `Failed to save contact information` and no follow-up call |
| `ChatFunction.SingleFollowUpAfterSave` | netlify/functions/chat.ts:154-174 | after an ok save exactly one follow-up call is made on messages plus the function-call message plus the function result; its first choice (or `null`) is returned with 200, even if it asks for another function call |
| `ChatFunction.NullBodyIsServerError` | netlify/functions/chat.ts:55-66 | any POST whose body parses to `null` (key configured) is answered 500 by the catch-all with the destructuring error, not 400, and nothing is called |
| `ChatFunction.ThrownErrorsAreCaught` | netlify/functions/chat.ts:88-194 | a rejected first completion, a first completion without choices, a rejected save, a save body that is not JSON and a rejected follow-up each end in the catch-all's 500 (the prefix and the error's message, or the generic text), with exactly the calls made before the throw |
| `ChatFunction.ServerErrorTexts` | netlify/functions/chat.ts:40-194 | a 500 carries the missing-key text, the failed-save text, the generic text, or the processing-error prefix |
| `ChatContext.ChatKey` | src/contexts/ChatContext.tsx:26 | the messages key `chat_<id>` never equals `chatSessionId` and ends with the id |
| `ChatContext.ChatKeyInjective` | src/contexts/ChatContext.tsx:31 | different sessions store their messages under different keys |
| `ChatContext.InitSessionId` | src/contexts/ChatContext.tsx:17-23 | a non-empty stored id is reused with storage unchanged, otherwise the fresh id is used and stored; storage then holds the id returned, and no other key changes |
| `ChatContext.SessionIdStable` | src/contexts/ChatContext.tsx:17-23 | once initialised, every later initialisation returns the same id and changes nothing |
| `ChatContext.ReloadRestoresConversation` | src/contexts/ChatContext.tsx:17-32 | after the persistence effect, a reload gets back the same session id and the same messages |
| `ChatContext.ChatStore.Mount` | src/contexts/ChatContext.tsx:16-32 | mounting sets the initialised id and the loaded messages, and the first effect stores their encoding |
| `ChatContext.ChatStore.AddMessage` | src/contexts/ChatContext.tsx:34-36 | the new list is the old one with the message appended |
| `ChatContext.ChatStore.ClearChat` | src/contexts/ChatContext.tsx:38-41 | the list becomes empty and exactly the key `chat_<id>` is removed; the session id stays stored |
| `ChatContext.ChatStore.SyncStorage` | src/contexts/ChatContext.tsx:30-32 | storage under `chat_<id>` holds the encoding of the current list, nothing else changes |
| `ChatContext.UseChat` | src/contexts/ChatContext.tsx:50-54 | outside a provider the result is the error `useChat must be used within ChatProvider`, inside it the provider's store |
| `JsValues.TrimIsEmptyIffBlank` | src/components/Chat.tsx:28 | `input.trim()` is empty if and only if every character of the input is whitespace |
| `JsValues.JsString` | src/components/Chat.tsx:63-65 | the message of `new Error(x)` is `x` itself when `x` is a string |
| `ChatPanel.Classify` | src/components/Chat.tsx:45-75 | a reply is only recognised in an ok, non-empty response |
| `ChatPanel.ClassificationOrder` | src/components/Chat.tsx:37-79 | a rejected request shows its `Error` message (the generic text for anything else thrown); then not ok, empty text, bad JSON, truthy `error`, missing first message: the first that applies decides the error text |
| `ChatPanel.ReplyExactly` | src/components/Chat.tsx:63-72 | a reply if and only if every check passes, with content equal to `choices[0].message.content` |
| `ChatPanel.ChatPanel.constructor` | src/components/Chat.tsx:7-10 | a panel starts with empty input, not loading, no error |
| `ChatPanel.ChatPanel.SetInput` | src/components/Chat.tsx:169 | typing sets the input |
| `ChatPanel.ChatPanel.BeginSubmit` | src/components/Chat.tsx:26-43 | blank input or a request in flight changes nothing and sends nothing; otherwise the error is cleared, the untrimmed input appended as a user message and sent after the old history, the input emptied, loading set, and the list persisted |
| `ChatPanel.ChatPanel.CompleteSubmit` | src/components/Chat.tsx:45-85 | exactly one assistant message is appended: the reply's content, or the fixed apology with the error text set; the input is untouched, loading is off, and the list persisted |
| `ChatPanel.ChatPanel.Submit` | src/components/Chat.tsx:26-86 | an accepted submit grows the history by exactly two and keeps what was before; the error is cleared on a reply and set on a failure; loading is off afterwards; storage changes only under `chat_<id>`, which holds the new list |
| `ChatPanel.ChatPanel.HandleClearChat` | src/components/Chat.tsx:88-93 | messages empty, input empty, error cleared; the stored list is the encoding of the empty list |
| `Wire.PanelClassifiesBody` | src/components/Chat.tsx:45-75 | a non-ok response is the generic send failure whatever its body; an ok choices body is a reply with the choice's message content, or an invalid format when the choice is `null` |
| `Wire.PanelClassifiesEndpointAnswers` | src/components/Chat.tsx:45-75 | every error status from the endpoint reaches the user as the generic send failure; a returned choice reaches the user as its message content (`null` after a function call); a missing follow-up choice is an invalid format |

## Left out

- The chat-completion API calls and the two `fetch` calls are not modelled; their outcomes are inputs (`Completion`, `SaveResponse`, `FetchOutcome`), including rejections.
- `JSON.parse` and `JSON.stringify` are not modelled: parsing is an oracle that returns a value or a syntax error, stringifying the save result an oracle, the stored message list a `Codec` pair assumed to round-trip, and response bodies are datatypes rather than text.
- The function schema literal is kept only as its name and its list of required parameters.
- CORS headers and console logging are left out; they do not affect any decision.
- React rendering, markdown rendering, scrolling and focus are left out, and so is the submit button's `disabled` state, which repeats the submit guard.
- `uuid()` is the argument `freshId`, assumed non-empty.
- React effect scheduling is reduced to running `SyncStorage` after each state change of the panel; the duplicate effect runs of development mode are not modelled.
- Interleavings are modelled only as calls of `BeginSubmit`, `CompleteSubmit`, `SetInput` and `HandleClearChat` in some order; a `CompleteSubmit` after `HandleClearChat` appends to the cleared list, as the source's updater does.
- Numbers are integers; fractional JSON numbers are not represented.
- `JsValues.JsString` writes every integer out in full, while JavaScript writes numbers of 10^21 and above in exponent form (`1e+21`); it renders every object as `[object Object]`, while an object whose own `toString` or `valueOf` is not a function makes `String()` throw. Both reach the panel only through a truthy `error` field of a response body.
- The texts of the engine's own `TypeError`s (reading a property of `null` or `undefined`, destructuring `null`) follow the V8 wording and may differ on other engines.
- In the handler, a rejection of the failed save's `text()` (read only for logging) is not modelled; it would reach the catch-all instead of the fixed save-failure answer. In the panel, a rejected `fetch` or `response.text()` is the `Rejected` outcome.
- Stored text that parses but is not a message list is not modelled.
- `ChatContext.ChatStore.Mount` requires the stored list to decode: when it does not, the source's render throws and no provider mounts; `LoadMessages` returns `None` for that case.
- `src/main.tsx` only mounts the provider around the app, so `useChat` is always called inside one.

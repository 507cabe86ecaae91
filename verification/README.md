# Planning-agent chat: relay and controller model

A Dafny model of the two pieces of decision logic in the planning-agent chat
front end:

- the **relay route** (`app/api/proxy/route.ts`, `POST`), which checks that the
  external agent API's base URL is configured, dispatches on the request's
  `type` (`initializeSession` or `sendMessage`), validates the fields with
  JavaScript truthiness, makes at most one POST to the external API and turns
  its outcome into the relay's own answer;
- the **chat controller** (`app/page.tsx`, `handleSubmit`), a state machine
  over `(messages, input, isLoading)` that refuses blank input or a second send,
  appends the user's message optimistically, posts it to the relay, projects
  the returned agent events onto the assistant's replies (or appends one error
  message) and always clears `isLoading`.

Modules:

| file | module | contents |
|---|---|---|
| options.dfy | `Options` | `Option` for fields that may be `undefined` |
| json.dfy | `Json` | parsed JSON values; property lookup (last duplicate key wins), truthiness, `String()` conversion, the `{ error }` envelope |
| text.dfy | `Text` | `String.prototype.trim` and the blank-input test |
| proxy.dfy | `Proxy` | the relay: `Decide` (before any traffic), `Translate` (upstream outcome to answer), `Handle` (both) |
| messages.dfy | `Messages` | messages, agent events, the JSON form of a message, the event projection |
| chat.dfy | `Chat` | `SubmitStart`, `SubmitFinish`, the page as a state machine, and the page and relay together |

The upstream call is not performed: `Handle` takes the way that call would end
(`Threw`, or `Answered(status, body)` with a readable or unreadable body) as a
parameter, and reports the calls it makes as a list, so "no upstream call"
is `calls == []`. Likewise the page's side of the exchange is a `Reply`
parameter of `SubmitFinish`.

Some behaviour of the code that is easy to miss, and that the model keeps:

- The projection keeps only events whose author is exactly
  `kaosai_planning_agent`; events from `planning_agent`, the app name the page
  sends, are dropped (`Messages.ProjectionScenario`).
- `content.parts` only has to be truthy: an event with `parts: []` is kept
  and yields a message with no parts (`Messages.EmptyPartsAreKept`).
- On success the relay always answers 200, whatever 2xx the upstream sent.
- An upstream 304, or a status above 599 (a server may send up to 999), cannot
  be relayed: `NextResponse.json` refuses a body for 304 and any status
  outside 200-599, and throws inside the `try`, so the relay answers with its
  generic 500 envelope (`Proxy.Translate`). Informational statuses never
  reach the relay, since `fetch` consumes them.
- An id that is an object with its own `toString` member cannot be
  interpolated into the session URL; the relay answers with the generic 500
  and makes no call (`Proxy.InitializeSessionContract`). The page likewise
  shows V8's conversion error when a relay error body's `error` is such an
  object (`Chat.FailureMessageCases`).
- A non-ok relay body without a truthy `error` field (such as
  `{ detail: "overloaded" }`) is shown as `"API error: "` plus the status
  text, not as the body's content (`Chat.OverloadedUpstreamInChat`).
- The ids are fixed constants (app/page.tsx:8-9) and the
  session-initialisation call in the page is commented out, so the page only
  ever sends `sendMessage`.

## Model

| member | source | states |
|---|---|---|
| `Proxy.Translate` | app/api/proxy/route.ts:59-72 | the relay answers 2xx exactly when upstream was ok with a readable body, and then with 200 and that body; a non-ok upstream with a status up to 599 other than 304 keeps its status and its body, or `{}` if unreadable; a thrown fetch, an unreadable ok body, a 304 or a status above 599 (whose relaying throws) gives the generic 500 envelope (lines 91-104 and 111-117 are the same translation for `/run` and the catch) |
| `Proxy.Handle` | app/api/proxy/route.ts:29-118 | one request makes at most one upstream call, and none when the handler throws |
| `Proxy.UnconfiguredRejectsEverything` | app/api/proxy/route.ts:30-36 | without a base URL (unset or empty) every request gets 500 with the configuration-error envelope and no call |
| `Proxy.NullBodyThrows` | app/api/proxy/route.ts:38-39 | a `null` body makes the handler throw outside the `try`: no call and no relay envelope |
| `Proxy.InitializeSessionContract` | app/api/proxy/route.ts:42-57 | `initializeSession` calls upstream exactly when both ids are truthy and convert to strings: one body-less POST to base + `/apps/planning_agent/users/<userId>/sessions/<sessionId>` answered by the upstream outcome; a falsy id gets a local 400, an id that cannot be converted the generic 500, both without a call |
| `Proxy.SendMessageContract` | app/api/proxy/route.ts:73-89 | `sendMessage` calls upstream exactly when all four fields are truthy: one POST to base + `/run` whose body is the object of exactly those four fields and reads back as their values; otherwise a local 400 |
| `Proxy.UnknownTypeRejected` | app/api/proxy/route.ts:105-110 | any other `type` gets 400 "Invalid request type provided." and no call |
| `Proxy.LocalAnswersAreEnvelopes` | app/api/proxy/route.ts:29-118 | every answer made without a call is a 400 or 500 with a non-empty `{ error }` envelope; every 2xx answer is a 200 relaying a readable upstream body after exactly one call |
| `Proxy.RunBodyReadsBack` | app/api/proxy/route.ts:88 | the `/run` body has only the four forwarded keys and each reads back unchanged |
| `Proxy.SessionUrlRoundTrip` | app/api/proxy/route.ts:50 | the session URL gives back both ids when the user id has no `/` |
| `Proxy.SessionUrlNotInjective` | app/api/proxy/route.ts:50 | without URL encoding, two different id pairs can produce the same session URL |
| `Json.LookupFindsLastMember` | app/api/proxy/route.ts:43 | a field is found exactly when some member has that key, and the value found belongs to the last member with it |
| `Json.ObjectToJsString` | app/api/proxy/route.ts:50 | interpolating a parsed object throws exactly when it has an own `toString` member, and otherwise gives "[object Object]" |
| `Json.JoinItemsFails` | app/api/proxy/route.ts:50 | joining array elements throws exactly when converting one of the remaining elements throws |
| `Json.ArrayToJsString` | app/api/proxy/route.ts:50 | an array converts to a string exactly when each of its elements does |
| `Text.TrimEmptyIffBlank` | app/page.tsx:103 | `input.trim()` is empty exactly when every character of the input is JavaScript whitespace |
| `Messages.MessageRoundTrip` | app/page.tsx:121-127 | the JSON form of a message decodes back to the same message and is truthy |
| `Messages.Project` | app/page.tsx:140-148 | the projection is no longer than the events and holds only `model` messages |
| `Messages.ProjectAppend` | app/page.tsx:140-148 | projecting a concatenation is concatenating the projections |
| `Messages.ProjectSingle` | app/page.tsx:141-148 | one event projects to its `model` message with its parts unchanged when its author is the assistant and `content.parts` is present, and to nothing otherwise |
| `Messages.ProjectPrefix` | app/page.tsx:140-148 | the projection of a prefix of the events is a prefix of the projection, so replies keep their order |
| `Messages.ProjectMembers` | app/page.tsx:140-148 | every reply event's message is in the projection and every projected message comes from a reply event |
| `Messages.ProjectEmptyIffNoReply` | app/page.tsx:140-148 | the projection is empty exactly when no event is a reply, in particular for no events |
| `Messages.ProjectOfReplies` | app/page.tsx:145-148 | a list of replies maps one to one and in order |
| `Messages.KeepReplies` | app/page.tsx:140-144 | the filter pass keeps only replies taken from the events, keeps every reply among them, and has the same projection as the events |
| `Messages.ReplyDeterminedByMessage` | app/page.tsx:145-148 | two replies map to the same message exactly when they are the same event, so the map loses no reply |
| `Messages.ProjectPipeline` | app/page.tsx:140-148 | the filter-then-map passes compute the projection |
| `Messages.EchoRoundTrip` | app/page.tsx:140-148 | a message echoed by the assistant comes back as a `model` message with the same parts |
| `Messages.EmptyPartsAreKept` | app/page.tsx:143 | an assistant event with `parts: []` is kept |
| `Messages.ProjectionScenario` | app/page.tsx:143 | of a reply and a tool event only the reply is shown, and only if its author is `kaosai_planning_agent` |
| `Chat.SubmitStart` | app/page.tsx:101-128 | blank input or a send in flight changes nothing and posts nothing; otherwise one `user` message with the raw input is appended, input cleared, loading set, and the relay request posted |
| `Chat.SubmitFinish` | app/page.tsx:130-166 | loading is cleared and earlier messages are kept; success appends the projection, failure exactly one `model` message holding the error prefix and the failure text |
| `Chat.SubmissionSucceeds` | app/page.tsx:101-150 | a successful submission ends idle with the old messages, then the user message, then the projection |
| `Chat.SubmissionFails` | app/page.tsx:101-166 | a failed submission ends idle with the old messages, then the user message, then exactly one error message |
| `Chat.RejectedSubmitChangesNothing` | app/page.tsx:103 | a refused submission leaves the state unchanged whatever the reply |
| `Chat.FailureMessageCases` | app/page.tsx:130-135 | the failure text is the body's `error` string (any other truthy `error` as `String()` prints it, or the conversion TypeError's message when it cannot be printed), or `"API error: "` plus the status text, or the fixed unknown-error text for an unreadable body, or V8's null-access TypeError message for a `null` body, or the thrown message |
| `Chat.StepPreservesInvariant` | app/page.tsx:101-166 | every step keeps "while loading, the input is empty and the last message is the user's" |
| `Chat.RunPreservesInvariant` | app/page.tsx:101-166 | that invariant holds after any sequence of typing, sends and replies |
| `Chat.RunOnlyAppends` | app/page.tsx:101-166 | no sequence of events removes or rewrites a message already shown |
| `Chat.NoSecondSendWhileLoading` | app/page.tsx:103 | pressing send while loading posts nothing, so at most one send is outstanding |
| `Chat.SendRequestFields` | app/page.tsx:121-127 | the relay request carries `type: "sendMessage"`, the fixed app name and ids, and the encoded user message |
| `Chat.PageRequestIsRelayed` | app/page.tsx:121-127 | with the relay configured, the page's request always becomes one POST to base + `/run` whose `new_message` decodes to the appended user message |
| `Chat.RelayRejectionsReachTheChat` | app/page.tsx:130-135 | every relay answer made without an upstream call reaches the chat as the error prefix and the relay's own error string |
| `Chat.OverloadedUpstreamPassesThrough` | app/api/proxy/route.ts:91-101 | an upstream 503 answering the page's request is passed on with status 503 and its body |
| `Chat.OverloadedUpstreamInChat` | app/page.tsx:130-163 | that 503 leaves the user's message and adds exactly one error message built from the status text |

## Left out

- HTTP itself (`fetch`, `NextResponse`, headers such as `Content-Type`) and the text of JSON parsing and serialisation: bodies are parsed JSON values, and upstream outcomes are parameters.
- The parse of the incoming body at app/api/proxy/route.ts:38: it sits outside the `try`, so malformed JSON is not turned into an envelope; the model takes an already parsed body.
- Numbers are represented by the string `String(n)` gives for them, which is all the relay and the page observe of a number; the arithmetic value itself is not modelled.
- Decoding the page's ok body into events: the model trusts the declared event shape. A non-array body or a `null` event makes the `filter` throw, which the model covers only as `Threw` with some message. Truthy `parts` that are not an array (`"x"`, `5`, `{}`) pass the filter and are copied into the message without error; they only fail later, in rendering (`msg.parts.map`, app/page.tsx:227-229), outside the `try`, so no error message is appended. Falsy non-array `parts` (`0`, `""`, `false`) drop the event. The model's parts are always a list of text parts.
- The wording of engine-raised errors: `Threw` carries whatever message the engine gives; only the two TypeErrors the page raises on a relay error body, reading `.error` of `null` and converting an object without a usable `toString`, have their V8 wording as constants.
- The status text the browser attaches to a relay response is a parameter of `Refused`, since it depends on the HTTP version and server.
- Session identity: the ids are constants (app/page.tsx:8-9) and the session-initialisation effect is commented out (app/page.tsx:39-86); no cookie or identity manager exists to model.
- React rendering, the scroll effect (app/page.tsx:91-95), styles, the markdown renderer (components/MarkdownRenderer.tsx) and `console` logging.
- Asynchronous interleaving: the page is a sequential state machine, and a reply (`Settle`) is only applied while a send is in flight.

# Facebook Messenger adapter for Hubot — a verified model

This project models the logic inside `src/messenger.js`, a Hubot adapter that
bridges Facebook Messenger webhooks to a Hubot robot:

- **Inbound classification** (`processMsg`, `processEcho`): an ordered
  first-match decision over the optional fields of one webhook event, using
  JavaScript truthiness (a missing field, `null`, an empty string or `false`
  does not match). Events are echo, delivery, read, quick-reply payload,
  postback payload, text, attachment, or ignored.
- **Envelope normalisation** (`createUser`, `processTextMsg`,
  `processAttachmentMsg`, `processPayload`): the user record
  `{id: sender.id, name: '', room: recipient.id}` and a `TextMessage` with the
  trimmed body, the `message.mid` id (text and attachment only) and the room.
- **Outbound dispatch** (`send` and the five `send*Msg` builders): the payload
  object for each send type, free text cut with `substring(0, 320)`, image
  urls passed through, and no payload at all for an unknown type.
- **Webhook handlers** (`run`): the `GET /webhook/` verify-token check, as
  a sequence of effects, and the `POST /webhook/` loop that feeds every event
  of `entry[0].messaging` to the classifier in order, accumulating received
  messages in the adapter object.

Modules: `Wrappers` (Option, Result), `JsText` (`trim`, `substring`),
`Normalizer` (user and message records), `Inbound` (event shape, lodash `get`
paths, classification, processing), `Outbound` (payloads and dispatch),
`Webhook` (the `Messenger` class, the GET and POST handlers, the batch
specification). The batch specification `RunEach` takes the per-event handler
as a parameter; the adapter's loop is `RunEach(events, Process)`, and the
batch lemmas hold for any handler, in particular for `Process`.

The model follows the code as written, including:

- The text test is truthiness, not presence: an empty `message.text` falls
  through to the attachment test (`Inbound.EmptyTextFallsThrough`).
- A message-bearing event without a `sender` or `recipient` object throws a
  `TypeError` in `msg.sender.id`; nothing catches it, so the POST loop stops
  there and the handler sends no status. Events are therefore not isolated
  from one another (`Webhook.BatchStopsAtThrow`).
- The GET handler has no `return` after `res.send(challenge)`, so on a
  matching request `res.send` is called a second time, with the error body
  (see Findings). The adapter class models the handler as written.
- With the token variable unset, `run` emits `'error'`. Nothing in the adapter
  listens for that event, and an EventEmitter with no `'error'` listener
  throws, so the routes are registered only when the host robot listens for
  the adapter's `'error'` event. For such a host, a request without
  `hub.verify_token` then passes the `===` test
  (`Webhook.UnsetTokenAcceptsTokenlessRequest`).

## Model

| member | source | states |
|---|---|---|
| `JsText.Trim` | src/messenger.js:32 | `trim`: the result is no longer than the input and has no whitespace at either border; its full characterisation is `TrimIsSlice`, `TrimEmptyIff` and `TrimPadding` |
| `JsText.TrimStart` | src/messenger.js:32 | the result is a suffix of the input that does not start with whitespace |
| `JsText.TrimStartCut` | src/messenger.js:32 | everything cut from the front is whitespace |
| `JsText.TrimEnd` | src/messenger.js:32 | the result is a prefix of the input that does not end with whitespace |
| `JsText.TrimEndCut` | src/messenger.js:32 | everything cut from the back is whitespace |
| `JsText.TrimSliceBounds` | src/messenger.js:32 | the trimmed string is the slice of the input that starts where the leading whitespace ends |
| `JsText.TrimTailIsWhitespace` | src/messenger.js:32 | everything behind that slice is whitespace |
| `JsText.TrimBorders` | src/messenger.js:32 | a non-empty trimmed string starts and ends with a non-whitespace character |
| `JsText.TrimIsSlice` | src/messenger.js:32 | `trim` returns a contiguous slice of its input with only whitespace removed on either side and no whitespace at either border |
| `JsText.TrimEmptyIff` | src/messenger.js:45 | a trimmed string is empty exactly when the input was all whitespace |
| `JsText.TrimKeepsClean` | src/messenger.js:57 | a string without border whitespace is left unchanged by `trim` |
| `JsText.TrimIdempotent` | src/messenger.js:32 | trimming an already trimmed body changes nothing |
| `JsText.TrimStartDropsPadding` | src/messenger.js:32 | leading whitespace in front of a clean string is removed exactly |
| `JsText.TrimEndDropsPadding` | src/messenger.js:32 | trailing whitespace behind a clean string is removed exactly |
| `JsText.TrimPadding` | src/messenger.js:32 | whitespace padding around a clean body is removed exactly, leaving the body |
| `JsText.TrimExample` | src/messenger.js:32 | `"  hi  "` trims to `"hi"` |
| `JsText.Substring0` | src/messenger.js:148 | `substring(0, n)` is the prefix of length min(length, n), the whole string when it is short enough |
| `Normalizer.CreateUser` | src/messenger.js:7-14 | the user's id is the sender's id, the name is always empty and the room is the recipient's id; used through `NewTextMessage` and `Inbound.EmittedShape` |
| `Normalizer.NewTextMessage` | src/messenger.js:7-14 | the user has the sender's id, an empty name and the recipient as room; the message room is the recipient; the id is the one given; the body is the trimmed raw text, empty iff the raw text is all whitespace |
| `Inbound.ClassifyEcho` | src/messenger.js:86-95 | an echo is sub-classified as text when its text is truthy, else as attachment when its first attachment type is truthy |
| `Inbound.Classify` | src/messenger.js:110-125 | `processMsg`'s decision: echo exactly when `is_echo` is truthy, delivery only with a delivery receipt, read only with a read receipt and no delivery, and payload, text or attachment only with a non-empty string; its order is stated by `ClassifyIsFirstMatch` and `ClassifyPriority` |
| `Inbound.FirstMatchIsEarliest` | src/messenger.js:110-124 | the earliest test that holds decides, whatever later tests say |
| `Inbound.FirstMatchNone` | src/messenger.js:125 | an event that passes no test is ignored |
| `Inbound.ClassifyIsFirstMatch` | src/messenger.js:102-125 | `processMsg` is the first match over the ordered tests is_echo, delivery, read, quick-reply payload, postback payload, text, attachment type |
| `Inbound.ClassifyPriority` | src/messenger.js:110-124 | an event passing test i is routed by test i or an earlier one, never a later one |
| `Inbound.DeliveryBeforeRead` | src/messenger.js:112-115 | a non-echo event with both a delivery and a read receipt is a delivery |
| `Inbound.QuickReplyBeforeText` | src/messenger.js:116-121 | a quick-reply payload wins over the message text that accompanies it |
| `Inbound.EmptyTextFallsThrough` | src/messenger.js:120-125 | an empty text is not text: the decision falls through to the attachment test or to ignoring the event |
| `Inbound.Normalize` | src/messenger.js:25-61 | normalising throws exactly when the sender or recipient object is missing and otherwise always emits; the user is {sender.id, '', recipient.id}, the room is recipient.id, the body is the trimmed raw string and the id is the one given |
| `Inbound.Process` | src/messenger.js:97-126 | handling one event emits nothing exactly for echo, delivery, read and unmatched events, and an emitted body is the trimmed payload, text or attachment type; see also `EmittedShape`, `ThrowsIff` |
| `Inbound.SilentIffNoMessageKind` | src/messenger.js:63-95 | echo (with text, attachment or neither), delivery, read and unmatched events emit nothing, and only those |
| `Inbound.ThrowsIff` | src/messenger.js:26-27 | handling throws exactly for a payload, text or attachment event lacking its sender or recipient object |
| `Inbound.EmittedShape` | src/messenger.js:25-61 | every received message has user {sender.id, '', recipient.id}, room recipient.id, the trimmed payload, text or attachment type as body, `message.mid` as id for text and attachment messages and no id for payload messages |
| `Inbound.EmptyBodyOnlyFromWhitespace` | src/messenger.js:29-32 | a received body is empty exactly when the string it came from was all whitespace |
| `Inbound.TextOnlyEvent` | src/messenger.js:120-121 | an event carrying only a non-empty text becomes a text message with the trimmed text and the event's mid |
| `Outbound.Truncate` | src/messenger.js:164 | outgoing free text is a prefix of the input of length min(length, 320) |
| `Outbound.ButtonMsg` | src/messenger.js:138-156 | the button payload goes to the envelope user, reads back as kind "button", shows the truncated text and carries the buttons unchanged |
| `Outbound.TextMsg` | src/messenger.js:158-169 | the text payload goes to the envelope user, reads back as kind "text" and shows the truncated text |
| `Outbound.QuickReplyMsg` | src/messenger.js:171-183 | the quick-reply payload goes to the envelope user, shows the truncated text and carries the quick replies unchanged; it reads back as "quick_replies" when they are present and as "text" otherwise |
| `Outbound.ImageQuickReplyMsg` | src/messenger.js:185-202 | the image quick-reply payload goes to the envelope user, shows the url unchanged and no text, and carries the quick replies unchanged; it reads back as "image_quick_replies" when they are present and as "image" otherwise |
| `Outbound.ImageMsg` | src/messenger.js:204-220 | the image payload goes to the envelope user, reads back as kind "image" and shows the url unchanged and no text |
| `Outbound.BuildPayload` | src/messenger.js:138-244 | a payload is built exactly for the five known types; its recipient is the envelope user's id; button, text and quick_replies text is the truncated input; image urls are the input unchanged; buttons and quick_replies are passed through unchanged; text, button and image payloads have no quick_replies |
| `Outbound.DispatchRecoversKind` | src/messenger.js:230-243 | each known type yields a payload of its own shape, from which the type is read back (quick-reply variants need their quick_replies) |
| `Outbound.AbsentQuickRepliesCollapse` | src/messenger.js:171-202 | without quick_replies the quick-reply payloads equal the plain text and image payloads, since the undefined field is not serialised |
| `Outbound.TruncationExact` | src/messenger.js:177 | text of at most 320 characters goes out unchanged; longer text goes out as exactly 320 characters |
| `Webhook.GetEffects` | src/messenger.js:255-261 | the GET handler's effects: the challenge first exactly when the token matches, then always the warning and the error body; see `GetResponsesAsWritten` |
| `Webhook.GetResponsesAsWritten` | src/messenger.js:255-261 | the GET handler answers a matching request with the challenge and then the error body, any other request with the error body only, and always logs the warning |
| `Webhook.DoubleResponseOnMatch` | src/messenger.js:256-260 | on a matching verification request `res.send` is called twice, the second time with the error body |
| `Webhook.UnsetTokenAcceptsTokenlessRequest` | src/messenger.js:20 | with the token variable unset, a request without `hub.verify_token` has its challenge echoed; reachable only when the host listens for the adapter's `'error'` event, since the emit at line 252 otherwise throws before the routes exist |
| `Webhook.VerifyChallenge` | src/messenger.js:256-257 | the gate succeeds exactly on an equal token and then yields the challenge unchanged |
| `Webhook.CorrectedRespondsOnce` | src/messenger.js:255-261 | with an early return every request is answered once: the challenge iff the token matches, otherwise the error body with the warning |
| `Webhook.VerifyChallengeExamples` | src/messenger.js:256-257 | token "abc" against "abc" yields challenge "xyz"; "wrong" against "abc" is a mismatch |
| `Webhook.RunEach` | src/messenger.js:266-269 | the event loop receives at most one message per event; see `BatchAppend`, `BatchIsConcatenation`, `BatchStopsAtThrow` |
| `Webhook.RunEachCompletesIff` | src/messenger.js:266-269 | the event loop runs to its end exactly when no event's handler throws |
| `Webhook.BatchAppend` | src/messenger.js:266-269 | the loop over a concatenation receives the messages of the first part then those of the second, unless the first part threw, in which case the second is never reached |
| `Webhook.BatchIsConcatenation` | src/messenger.js:264-270 | when no event throws, the loop completes and receives exactly the concatenation of every event's output in array order |
| `Webhook.IgnoredEventSkipped` | src/messenger.js:264-270 | in a batch of three events whose middle one matches no test, the first and third are handled exactly as if the middle one were absent |
| `Webhook.BatchSkipsSilentHead` | src/messenger.js:266-269 | an event that emits nothing contributes nothing to the received messages and does not stop the loop |
| `Webhook.BatchStep` | src/messenger.js:266-269 | one more non-throwing event extends the received messages by its own output |
| `Webhook.BatchStopsAtThrow` | src/messenger.js:266-269 | an event that throws ends the loop: nothing after it is received and the run does not complete |
| `Webhook.SilentEventIsTransparent` | src/messenger.js:266-269 | an event that emits nothing leaves the handling of its neighbours unchanged |
| `Webhook.Messenger.constructor` | src/messenger.js:17-23 | the adapter starts with the configured token and nothing received, posted or logged |
| `Webhook.Messenger.Receive` | src/messenger.js:34 | `receive` appends the message to what the robot has received |
| `Webhook.Messenger.ProcessMsg` | src/messenger.js:97-126 | handling one event appends its output, if any, to the received messages and reports whether it threw |
| `Webhook.Messenger.PostData` | src/messenger.js:128-136 | the payload and access token are handed to the transport, appended to the post log |
| `Webhook.Messenger.Send` | src/messenger.js:222-244 | `send` posts exactly the built payload for a known type and posts nothing for an unknown type |
| `Webhook.Messenger.HandleGet` | src/messenger.js:255-261 | the GET handler appends the as-written effect sequence to the log |
| `Webhook.Messenger.HandlePost` | src/messenger.js:263-271 | the POST handler receives the batch's messages in order and responds 200 exactly when `entry[0].messaging` exists and no event threw |

## Findings

| source | as written | input that shows it | evidently intended | confidence | as-written member | corrected member |
|---|---|---|---|---|---|---|
| src/messenger.js:256-260 | after `res.send(challenge)` on a matching token the handler goes on to log the wrong-token warning and calls `res.send` a second time, with the error body | a GET with `hub.verify_token` equal to the configured token | return right after answering with the challenge, so `res.send` is called exactly once per request | high; not executed | `Webhook.DoubleResponseOnMatch` | `Webhook.CorrectedRespondsOnce` |

## Left out

- `postData`'s HTTP request and its asynchronous result callback: the model stops at the payload and token handed over (`Messenger.PostData`).
- `JSON.stringify`: payloads are datatypes; an undefined field is an absent `Option`.
- Logging (`debug`, `chalk`, `robot.logger.info/error`) and the `new Date()` timestamps, except the wrong-token warning, kept as an effect of the GET handler.
- The Hubot `Adapter` base class, `emit('error')` when the token variable is unset, `emit('connected')` and the reading of `process.env`: the token is a constructor parameter.
- Router registration and the response the web framework sends when a handler throws: a throwing POST handler is modelled as sending nothing itself.
- `reply`: it calls `sendMsg`, which the adapter does not define.
- Idempotence of payload building is not stated as a lemma: Dafny functions are deterministic, so two builds from the same request are equal by construction.
- Event fields of unexpected JSON types (a number or object where a string is expected, a `messaging` that is not an array) and a sender or recipient object without an `id`: such values are not representable in the event datatype.
- A `para.text` that is undefined: `Para.text` is always a string.
- String lengths count Unicode scalar values, while JavaScript counts UTF-16 code units; a cut at 320 that splits a surrogate pair is not modelled.

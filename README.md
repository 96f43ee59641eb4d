# Hotel booking assistant relay: verified model

A model in Dafny of the orchestration logic of `api.py`, a small Flask service.
The service relays customer messages to a hosted generation model that answers
from a hotel knowledge base, then relays the answers back. Messages arrive in
two ways: a browser endpoint (`/query`, with the history kept in the session
cookie) and a WhatsApp Cloud API webhook (history kept in a process-wide
dictionary keyed by the sender's number).

The generation service and the WhatsApp send API are not modelled. The model
treats them as oracles:

- the generator is a parameter `gen: seq<Content> -> Generation` that answers
  a request either with text or with the failure it raised;
- a send is the configuration guard plus a record of the call in the
  `deliveries` log.

What is modelled, file by file:

- `conversation.dfy` (module `Conversation`): turns, the request contents built
  from a history (`BuildContents` is the append loop), and `Converse`, the
  update rule shared by both paths. On an answer the history gains the user turn
  and the model turn. On a failure the history is discarded.
- `store.dfy` (module `Store`): the `conversations` dictionary and `Exchange`,
  the per-sender rule. It writes or removes only the sender's key and replies
  with the answer or the fixed apology.
- `whatsapp.dfy` (module `WhatsApp`): the configuration and `Send`, the guard
  in front of the HTTP POST to the Cloud API.
- `payload.dfy` (module `Payload`): the event envelope
  (entry → changes → value → messages) as datatypes. Every place where the
  handler would raise has its own variant. `WalkEnvelope` lists the messages to
  answer, in order, and stops where the code would raise. On a well-formed
  envelope it is proved equal to a reference reading: flatten every message,
  keep those with a sender. On a malformed one it is proved equal to the same
  reading of the messages before the first point where the code raises, which
  is a prefix of the full reading.
- `webhook.dfy` (module `Webhook`): the subscription handshake `Verify`, and
  `HandleEvent`, the outcome of a POSTed event.
- `service.dfy` (module `App`): the class `Service`. It holds the global store
  and the send log. Its methods update them in place and are proved against the
  functions above.
- `web_query.dfy` (module `WebQuery`): the class `Session`, with `/query` and
  `/clear`.

Points where the code does less, or otherwise, than one might expect, and which the model follows:

- `/query` accepts any body whose JSON object has a `query` key, the empty
  string included. It does not require a non-empty question.
- Only a generation failure discards a conversation. The result of a send is
  only logged and never touches the store.
- A structural error inside one message aborts the whole event with 500. The
  messages answered before it stay answered and delivered. Examples: a `text`
  message without a `text` object, or an element of `messages` that is not an
  object.

## Model

| member | source | states |
|---|---|---|
| Conversation.BuildContents | api.py:94-103 | the loop's contents are exactly the request: one block per stored turn in order, then the user block |
| Conversation.RequestShape | api.py:96-103 | the request has length history+1, block i carries turn i's role and text, the last block is the user's new text |
| Conversation.RequestRoundTrip | api.py:96-103 | reading the request back as turns gives the history followed by the new user turn (nothing lost or reordered) |
| Conversation.Converse | api.py:105-124 | an exchange succeeds iff the generator answers the request; an answered history is the old one followed by exactly two turns (ConverseOutcome states the turns and the failure case) |
| Conversation.ConverseOutcome | api.py:105-124 | an exchange succeeds iff the generator answers; then the history grows by exactly two turns (user text, model answer) after the unchanged old turns; otherwise the failure carries the generator's details |
| Conversation.NextRequestExtends | api.py:94-117 | after an answer, the next request is the previous request plus the answer as a model block plus the next question |
| Conversation.ConverseKeepsAlternation | api.py:113-117 | an answered exchange keeps a user/model alternating history alternating |
| Store.Exchange | api.py:89-124 | one sender's exchange leaves every other sender's entry, and every other absence, unchanged |
| Store.ExchangeAnswered | api.py:112-118 | on an answer the sender's entry is old history ++ [user turn, model turn] and the reply is the model turn's text |
| Store.ExchangeFailed | api.py:119-124 | on a failure the sender's entry is removed whether or not it existed, no other key changes, and the reply is the fixed apology |
| Store.ExchangeKeepsAlternation | api.py:112-123 | an exchange keeps every stored history alternating |
| WhatsApp.Send | api.py:134-148 | nothing is posted iff the token or the phone id is empty (then the configuration error is returned); otherwise one text message to the recipient with the bearer token, at the phone id's endpoint |
| Webhook.Verify | api.py:227-233 | the challenge is echoed with 200 iff mode is "subscribe" and the token equals the configured one; otherwise "Verification token mismatch" with 403 |
| Webhook.RunAll | api.py:266-272 | answering n messages makes exactly n send calls |
| Webhook.RunAllDeliveries | api.py:266-272 | send call i goes to message i's sender; with token or phone id missing none posts, otherwise each posts to that sender |
| Webhook.RunAllFrame | api.py:117-123 | a sender with no message in the event keeps its entry (or its absence) |
| Webhook.RunAllKeepsAlternation | api.py:254-270 | answering any messages keeps every stored history alternating |
| Webhook.EmptyEventRefused | api.py:241-243 | an absent or empty payload gets "no payload" with 400 and changes nothing |
| Webhook.HandleEvent | api.py:236-279 | an empty payload gets 400 and changes nothing; otherwise at most one send per message, 200 iff the event is well-formed, and then one send per message with a sender (EventOutcome states which messages and the store) |
| Webhook.EventOutcome | api.py:246-279 | a non-empty event answers, in entry, change, message order, the messages with a sender among those before the first structural error, which are a prefix of the full reading and all of it when well-formed; the store and sends are those of answering exactly them; the reply is "EVENT_RECEIVED" with 200 iff well-formed, else "error" with 500 |
| Webhook.OneTextMessageFromNewSender | api.py:254-274 | one text message from a new sender creates exactly one entry [user, model] and makes exactly one send, of the answer, to that sender |
| Webhook.ErrorKeepsEarlierAnswers | api.py:259-279 | a text message without its text object aborts with 500, while the message before it stays answered and delivered |
| Payload.WalkEnvelope | api.py:247-264 | the messages the walk answers are the selection of the messages before the point where it stops |
| Payload.WalkEnvelopeMeaning | api.py:247-264 | the walk stops on an error iff the envelope is malformed; otherwise it yields the messages with a non-empty sender in document order, each with its body (default "") or the unsupported-type placeholder |
| Payload.WalkEntriesMeaning | api.py:247-249 | the same over a list of entries |
| Payload.WalkChangesMeaning | api.py:250-253 | the same over a list of changes, reading value (default {}) and messages (falsy reads as none) |
| Payload.WalkMessagesMeaning | api.py:254-264 | the same over a list of messages |
| Payload.WalkEntriesReach | api.py:247-264 | over entries, the walk answers the selection of the messages before the first point where the code raises |
| Payload.WalkChangesReach | api.py:250-264 | the same over a list of changes (a change or value that is not an object stops the walk) |
| Payload.WalkMessagesReach | api.py:254-264 | the same over a list of messages (a message that is not an object, or a text message without its text object, stops the walk) |
| App.Service.constructor | api.py:56 | the store starts empty and no send has been made |
| App.Service.ProcessForSender | api.py:89-124 | the store and the reply are those of Store.Exchange on the old store; no send is made |
| App.Service.SendWhatsApp | api.py:129-158 | the attempt is WhatsApp.Send's, recorded once in the send log; the store is unchanged |
| App.Service.AnswerMessage | api.py:255-272 | one message: skipped without sender, an error where the code raises, otherwise one exchange and one send |
| App.Service.AnswerMessages | api.py:254-272 | the message loop advances the walk and the store exactly as answering the walked messages in order |
| App.Service.AnswerChanges | api.py:250-253 | the change loop does the same over changes |
| App.Service.AnswerEntries | api.py:247-253 | the entry loop does the same over entries |
| App.Service.ReceiveEvent | api.py:236-279 | the store, the send log and the reply are those of Webhook.HandleEvent on the old store |
| WebQuery.QueryWithoutQueryKey | api.py:169-171 | a body without a JSON object holding `query` gets 400 and leaves the session history as it was |
| WebQuery.Query | api.py:163-208 | 400 iff there is no JSON object holding `query`, and then the history is kept; otherwise 200 iff the generator answers the request, else 500 with the history dropped |
| WebQuery.QueryAnswered | api.py:185-202 | for any body holding `query`: on an answer the reply is 200 with the answer and the agent role, and the session history grows by exactly the question and the answer |
| WebQuery.QueryFailed | api.py:204-208 | for any body holding `query`: on a failure the whole session history is dropped and the reply is 500 with the error text and the failure's details |
| WebQuery.QueryAfterClear | api.py:176-183 | with no stored history the generator is asked with the new question alone: generators agreeing on that one-block request give the same outcome |
| WebQuery.Session.HandleQuery | api.py:163-208 | the session history and the reply are those of WebQuery.Query on the old history |
| WebQuery.Session.ClearHistory | api.py:210-216 | the history is absent afterwards, whatever it was, and the reply is always 200 (so repeating it is harmless) |

## Left out

- The generation call (`search_file_store`, the Gemini client, the model id, the system prompt, the file-search store names and their differing `fileSearchStores/` prefix) is the oracle `gen`. It is a function of the request contents, so the model does not capture a service that answers the same request differently on two calls.
- The HTTP POST of a send and its response (`resp.json()`, transport errors) are network I/O. Their result is only logged, so the model records the call and its guard outcome and nothing else.
- Flask routing, `request.json` / `get_json` parsing and the session cookie are framework plumbing. Bodies, query strings and the session are plain values.
- `/query` bodies that are not JSON objects, and `query` values that are not strings, are outside the model.
- Payload.BodyOf: a `body` that is present but not a string, null included, is outside the model; the code would answer with that value (None for null, api.py:261), while the model reads every absent body as "". A null `from` or `type` is modelled (as absent); other `from` or `type` values that are truthy but not strings are not.
- Webhook.Verify: when the challenge is absent on a successful handshake, the model echoes "absent". What Flask makes of a `None` body is not modelled.
- The three nested loops of `whatsapp_webhook` are one method per loop level (App.Service.ReceiveEvent, AnswerEntries, AnswerChanges, AnswerMessages, AnswerMessage), with the same order of effects.
- Loading the configuration from the environment (and its default values), logging and `traceback.print_exc` are not modelled.
- Concurrent requests racing on the shared dictionary are not modelled. Handlers run one at a time.
- Server startup (api.py:284-287) is not modelled.

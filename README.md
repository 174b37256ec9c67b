# gpt-claude-bridge: the in-memory message stores

The repository holds several small Express services that relay text
messages from "GPT" to "Claude". Apart from HTTP and filesystem glue, their
only logic is the in-memory stores behind three of them, and that is what
this project models:

- `async_bridge.dfy`, module `AsyncBridge`: the asynchronous relay of
  `async-bridge.js`. Class `Relay` holds the two module-level arrays,
  `gptQueue` (field `queue`) and `claudeResponses` (field `responses`). Its
  methods are the six handlers: add, queue view, poll, respond, responses view
  and status. A queued message goes through `pending`, then `processing`
  (poll), then `responded` (respond). Respond may also be applied straight to
  a pending message. The pure functions `WithStatus` (the `filter` by
  status), `Marked`/`Polled` (what poll leaves and what it returns) and
  `FindFirst` (the `find` by id) specify the methods. The lemmas state what
  holds across calls: a second poll is empty, the status counts add up,
  respond is not idempotent, and poll does not change which message respond
  finds.
- `simple_bridge_get.dfy`, module `SimpleBridgeGet`: the log of
  `simple-bridge-get.js`. `Send` validates and appends, `List` returns the
  log and `Clear` empties it.
- `simple_bridge.dfy`, module `SimpleBridge`: the log of `simple-bridge.js`.
  `MessageClaude` appends without any validation, and `List` returns the log.
- `request.dfy`, module `Request`: what the three services share. It holds
  optional request fields (`Option`), the JavaScript truthiness test behind
  `if (!message)`, the `priority = 'normal'` default (it applies only when
  the field is absent) and the two role names.

Each handler is synchronous, so Node runs it to completion. It is modelled as
one sequential method call. The clock readings `Date.now()` (used as ids)
and `new Date().toISOString()` (timestamps) are method parameters. Because
ids are clock readings, nothing makes them unique. The lemmas that depend on
fresh ids (`FreshIdIsFound`) require them explicitly. `DuplicateIdShadows`
shows what happens without that requirement.

The model keeps these behaviours of the code:
- respond replies `success: true` for an unknown id and changes nothing.
- respond does not validate the response text; it is stored as given, even
  when it is absent.
- the status field `responded` is the number of response records, not the
  number of messages whose status is `responded`.
- ids are neither unique nor increasing by construction, and respond reaches
  the first message with a given id.

## Model

| member | source | states |
|---|---|---|
| AsyncBridge.Relay.constructor | async-bridge.js:11-13 | both the queue and the response log start empty |
| AsyncBridge.Relay.Queue | async-bridge.js:16-22 | replies `success: true` with the whole queue in order and `count` equal to its length |
| AsyncBridge.Relay.Add | async-bridge.js:25-48 | a missing or empty message gives `success: false` ("Message required") and changes neither array. Otherwise exactly one message is appended at the end: the given id and text, `from: 'GPT'`, status `pending`, priority defaulting to `'normal'`. The reply carries that id and `queueLength` = old length + 1, and the response log is unchanged |
| AsyncBridge.Relay.Poll | async-bridge.js:51-63 | the new queue is `Marked(old queue)`: every pending message becomes processing and every other message is untouched. The reply is `Polled(old queue)`, with `count` equal to its length. The response log is unchanged |
| AsyncBridge.Relay.Respond | async-bridge.js:66-85 | always replies success. If no message has the id, neither array changes. Otherwise the first message with that id becomes `responded`, whatever its prior status, and no other message changes. Exactly one record is appended: the reply id, that message's id, its text, the response and the timestamp |
| AsyncBridge.Relay.Responses | async-bridge.js:88-93 | returns every response record in insertion order, with `count` equal to their number |
| AsyncBridge.Relay.Status | async-bridge.js:96-105 | `queued` and `processing` are the numbers of messages with those statuses. `responded` is the number of response records. Status is `'online'` and version is `'2.0.0'` |
| AsyncBridge.FindFirst | async-bridge.js:70 | gives the index of the first message whose id equals the requested one (no earlier message matches), or None exactly when no message matches |
| AsyncBridge.WithStatusMembers | async-bridge.js:52 | a message is in the status filter exactly when it is in the queue and has that status (both directions) |
| AsyncBridge.StatusPartition | async-bridge.js:100-101 | the numbers of pending, processing and responded messages add up to the queue length |
| AsyncBridge.PolledArePending | async-bridge.js:52-61 | poll returns as many messages as were pending. The j-th returned message is the j-th pending message in queue order, with status `processing` and all other fields unchanged |
| AsyncBridge.MarkedCounts | async-bridge.js:52-57 | after poll no message is pending. The processing count has grown by the old pending count, and the responded messages are exactly the same as before |
| AsyncBridge.MarkedTouchesOnlyPending | async-bridge.js:56 | poll keeps the queue length. It changes only the status of pending messages, and only to processing; every other message is left as it was |
| AsyncBridge.NoPendingPollsEmpty | async-bridge.js:52-61 | when no message is pending, poll returns the empty list |
| AsyncBridge.RespondKeepsNoPending | async-bridge.js:70-72 | respond never makes a message pending, so a queue without pending messages stays without them |
| AsyncBridge.SecondPollIsEmpty | async-bridge.js:52-61 | a second poll with no add in between returns the empty list, so its `count` is 0: both directly after the first poll and after a respond in between (an unknown id leaves the queue unchanged, and further responds chain through RespondKeepsNoPending) |
| AsyncBridge.FindFirstSameIds | async-bridge.js:70 | the find by id looks only at ids, so two queues with the same ids in the same places give the same result |
| AsyncBridge.RespondAgain | async-bridge.js:70-81 | after a successful respond, a second respond with the same id finds the same message again and leaves the queue as the first call left it |
| AsyncBridge.RespondTwice | async-bridge.js:70-81 | two responds with the same known id append two response records, both carrying that id, so the status field `responded` rises by two |
| AsyncBridge.PollKeepsFind | async-bridge.js:56-72 | a poll does not change which message respond finds for any id |
| AsyncBridge.FreshIdIsFound | async-bridge.js:33-41 | if a new message's id is larger than every id already queued, respond by that id reaches the new message, and strictly increasing ids stay strictly increasing |
| AsyncBridge.DuplicateIdShadows | async-bridge.js:70 | when two messages share an id, respond can never reach the later one |
| SimpleBridgeGet.Log.constructor | simple-bridge-get.js:11 | the log starts empty |
| SimpleBridgeGet.Log.Send | simple-bridge-get.js:23-52 | a missing or empty message gives `success: false` ("Message required") and leaves the log unchanged. Otherwise exactly one entry is appended at the end, and earlier entries are unchanged. The new entry has `from: 'GPT'`, `to: 'Claude'`, status `received` and priority defaulting to `'normal'`. The reply echoes the entry's id and text. Every entry stays well formed |
| SimpleBridgeGet.Log.List | simple-bridge-get.js:55-60 | returns every entry in insertion order, with `count` equal to the log length; every listed entry goes from GPT to Claude with status `received` |
| SimpleBridgeGet.Log.Clear | simple-bridge-get.js:63-66 | the log becomes empty, so a following list reports `count` 0, and the reply is `success: true` |
| SimpleBridge.Log.constructor | simple-bridge.js:11 | the log starts empty |
| SimpleBridge.Log.MessageClaude | simple-bridge.js:23-44 | always appends exactly one entry at the end, even when the message is missing, and earlier entries are unchanged. The entry has `from: 'GPT'`, `to: 'Claude'`, status `received` and priority defaulting to `'normal'`. The reply's `messageId` is the id of the appended entry |
| SimpleBridge.Log.List | simple-bridge.js:47-52 | returns every entry in insertion order, with `count` equal to the log length; every listed entry goes from GPT to Claude with status `received` |

## Left out

- gpt-claude-bridge.js is not part of this model. Every handler there reads or writes files: read/list/stat, drafts, queue files, proposals, notifications, the message file and the review lookup. Its analyzer only counts regular-expression matches over file contents, and its authentication middleware returns before its check.
- The `/api/status` handlers of simple-bridge.js and simple-bridge-get.js return constants and a clock reading. They hold no state.
- `decodeURIComponent` in add and send is a foreign call. The stored text is the query value exactly as it is given to the method. The URIError that malformed input would throw is not modelled.
- Query and body fields are modelled as optional strings. The arrays and objects that Express can produce for repeated or nested query keys are not modelled.
- Respond's `messageId` is an optional integer. A missing id and a non-numeric id are both `None`, which `===` never matches against the numeric ids.
- AsyncBridge.Relay.Poll: the source filters first and then marks in a second pass (`forEach`). The model does both in one loop. Since the handler runs to completion, the observable result is the same. The returned messages are the same objects the source marks, so they appear with status `processing`; the model returns the marked copies.
- Express routing, CORS, JSON body parsing, the wrapping done by `res.json`, logging and the startup banners are not modelled.
- Concurrency is not modelled: each handler runs atomically in Node.

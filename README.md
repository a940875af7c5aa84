# NepAI conversation backend — a verified Dafny model

NepAI is a chat assistant. Its server keeps each signed-in user's
conversations ("threads") in MongoDB and answers each new message with the
OpenAI chat-completions API. This project models the server-side
conversation logic and proves its rules:

- **Thread model** (`thread_model.dfy`, module `ThreadModel`). Message and thread
  documents are datatypes. Save-time validation is a function of the thread
  (role enum, required `content` and `userId`, title at most 100 characters).
  The `_id` type, with the cast a query applies to a string id, is also here.
  A Thread document is a class whose `messages` are pushed to in place. The
  collection is a class with `findOne` and `save`.
- **Completion client** (`completion.dfy`, module `Completion`). This is
  `getOpenAIResponse` with `fetch` abstracted as a provider function from
  request to exchange. It models the missing-key check (done before any
  request), string-to-array normalisation, the choice of error message and
  the response-shape check.
- **Send-message handler** (`chat_route.dfy`, module `ChatRoute`). `Handle` is
  the `POST` handler as one transition of the stored collection. `Post` and
  `Continue` are the handler as written: they assign a document, push to it
  twice, then save it once. Both methods are proved to make exactly the
  transition `Handle` describes.
- **Thread listing** (`threads_route.dfy`, module `ThreadsRoute`). The `GET`
  handler: the caller's threads, newest `updatedAt` first, without messages.
- `js_text.dfy` (module `JsText`) models JavaScript's `trim`, `substring(0, n)`
  and string truthiness. `wrappers.dfy` holds `Option` and `Result`.

Clerk's `auth()` becomes an optional caller id. The API key comes from the
environment and is an optional string. The HTTP exchange with OpenAI is a
function parameter. Whether the database connects and whether the save
reaches it are booleans. The `_id` of a new document and the clock are
parameters.

Behaviour of the code worth noting:

- The only write is the single `save()` after the completion returns. So a
  failed completion persists nothing: no new thread is created, and no user
  message is added to an existing thread. The user's turn is not kept.
- A new thread's title is the first 50 characters of the untrimmed message.
  The stored content is the trimmed message.
- A `threadId` of `""` starts a new thread, like a missing one. A truthy id
  the caller does not own gets 404 and never creates a thread.
- A truthy id that is not 24 hexadecimal digits makes the query throw a cast
  error, so the response is 500 rather than 404.
- Only the listing is a read handler here. The repository has no delete
  handler.

## Model

| member | source | states |
|---|---|---|
| `JsText.Truthy` | app/api/chat/route.js:12 | defines JavaScript truthiness of an optional string (present and not ""), as tested by `!userId` here, `if (threadId)` at line 26 and `!process.env.OPENAI_API_KEY` at app/utils/openai.js:3 |
| `JsText.Trim` | app/api/chat/route.js:18 | `message.trim()` is no longer than the message and, unless empty, neither starts nor ends with white space |
| `JsText.TrimDropsOnlyWhiteSpace` | app/api/chat/route.js:18 | the message is some white space, then the trimmed text, then some white space: trim removes nothing else and only from the ends |
| `JsText.TrimEmptyIffBlank` | app/api/chat/route.js:18-20 | a message trims to "" exactly when every character is white space; `Handle` uses both directions to state exactly which messages get 400 |
| `JsText.Prefix` | app/api/chat/route.js:37 | `substring(0, n)` has length min(n, \|s\|) and is a prefix of `s` |
| `ThreadModel.CastObjectId` | app/api/chat/route.js:28 | a string is accepted as an `_id` exactly when it is 24 hexadecimal digits in either case; the id keeps each digit's value |
| `ThreadModel.CastCanonical` | app/api/chat/route.js:28 | the id returned in a response casts back to itself |
| `ThreadModel.CastIgnoresCase` | app/api/chat/route.js:28 | two strings name the same thread exactly when their digits agree ignoring case |
| `ThreadModel.ParseRole` | app/models/Thread.js:4-8 | a role string is accepted exactly when it is "user" or "assistant", and names that role |
| `ThreadModel.RoleRoundTrip` | app/models/Thread.js:4-8 | every role is stored as "user" or "assistant" and reads back as itself |
| `ThreadModel.Violations` | app/models/Thread.js:9-27 | defines the set of schema paths `validate()` reports for a thread: `userId` when "", `title` when over 100 characters, message i's `content` when "" |
| `ThreadModel.ValidThread` | app/models/Thread.js:9-27 | defines a thread that passes the schema's validators: non-empty `userId`, title of at most 100 characters, every message with non-empty `content` |
| `ThreadModel.ViolationsIffInvalid` | app/models/Thread.js:9-27 | validation reports nothing exactly for valid threads; it names `userId` when it is "", `title` when over 100 characters, and message i when its content is "" |
| `ThreadModel.AppendKeepsValid` | app/models/Thread.js:28 | appending valid messages to the ordered array of a valid thread keeps it valid |
| `ThreadModel.Commit` | app/api/chat/route.js:62 | `save()` succeeds exactly when the thread is valid, the database is reachable and the insert/update matches whether `_id` is stored; it writes only that `_id`, keeps the messages and fields, stamps `updatedAt` (and `createdAt` on insert), and keeps the store valid |
| `ThreadModel.ThreadDocument.Create` | app/api/chat/route.js:35-39 | `new Thread({...})` is new, keeps the given owner and messages, and takes the title given or "New Chat" |
| `ThreadModel.ThreadDocument.Hydrate` | app/api/chat/route.js:28 | a loaded document is not new and holds the stored thread |
| `ThreadModel.ThreadDocument.Push` | app/api/chat/route.js:43-46 | `messages.push(m)` keeps the array's order and adds `m` at the end |
| `ThreadModel.ThreadCollection.FindOne` | app/api/chat/route.js:28-32 | `findOne({_id, userId})` returns a document exactly when that id is stored with that owner, holding the stored thread |
| `ThreadModel.ThreadCollection.Save` | app/api/chat/route.js:62 | the collection afterwards is what `Commit` gives, or unchanged on error, and stays valid |
| `Completion.Normalize` | app/utils/openai.js:7-10 | defines the request's message array: a string becomes the one user message `[{role: "user", content: s}]`, an array is sent as it is |
| `Completion.Decimal` | app/utils/openai.js:36 | the status code printed in the error message is a non-empty string of decimal digits that spells the status, with no leading zero unless it is 0 |
| `Completion.StatusMessage` | app/utils/openai.js:36 | defines the message thrown for a failed response whose body is not JSON: "OpenAI API error: " followed by the status in decimal, a space and the status text |
| `Completion.Classify` | app/utils/openai.js:26-51 | the decision table once `fetch` settles: a reply exactly for an ok response with truthy `choices[0].message.content`, which is returned non-empty; `error.message` or "OpenAI API error" for a non-ok JSON body; "OpenAI API error: status statusText" for a non-JSON body; "Invalid response from OpenAI" for a missing reply; rejections passed on unchanged |
| `Completion.GetResponse` | app/utils/openai.js:1-51 | without a key it throws "OPENAI_API_KEY is not configured" and sends nothing; with one it sends exactly one request with the normalised messages and returns what `Classify` gives, a reply never being empty |
| `Completion.TextIsOneUserMessage` | app/utils/openai.js:7-10 | a string input behaves exactly as the one-message array `[{role: "user", content: s}]` |
| `ChatRoute.History` | app/api/chat/route.js:49-52 | the context has one role/content pair per message, in the same order |
| `ChatRoute.HistoryAppend` | app/api/chat/route.js:49-52 | appending a message to the thread appends its pair to the context |
| `ChatRoute.TurnValid` | app/api/chat/route.js:43-60 | the user's trimmed message and a non-empty reply both pass the required-content check |
| `ChatRoute.Resolve` | app/api/chat/route.js:26-40 | a falsy id yields a new draft under the fresh `_id`, owned by the caller, titled with the first 50 raw characters, with no messages; a truthy id that casts and is owned yields that thread, one that is not owned yields 404, one that does not cast yields 500 |
| `ChatRoute.Settle` | app/api/chat/route.js:54-71 | after the completion call: a thrown error or a failed save gives 500 and writes nothing; a reply is answered only when `save()` commits the thread plus the turn |
| `ChatRoute.Converse` | app/api/chat/route.js:43-66 | the context is the thread's messages followed by the user's trimmed message; a failed completion or save returns 500 with the store unchanged; a reply is committed as the thread plus the user/assistant turn |
| `ChatRoute.Proceed` | app/api/chat/route.js:24-66 | once admitted: the only failures are 404 and 500 and they leave the store unchanged; a completion that throws gives 500 and a reply is exactly the completion's answer for the context sent; the store stays valid, and a reply writes only the thread it names, owned by the caller, stamped now, with a non-empty reply |
| `ChatRoute.Handle` | app/api/chat/route.js:7-73 | no caller: 401, store unchanged, body ignored; with a caller and a body, 400 exactly when the message is absent or all white space; every failure leaves the store unchanged; a completion that throws for the context sent returns 500, and a reply is exactly the completion's answer for that context; the store stays valid; a reply writes only the thread it names, owned by the caller, stamped now, with a non-empty reply |
| `ChatRoute.RepliedToOwnedThread` | app/api/chat/route.js:26-32 | a reply to a truthy id means it cast to a stored thread of the caller; the store gains exactly that thread's prior messages plus the turn, and the context was its history plus the user message |
| `ChatRoute.RepliedInNewThread` | app/api/chat/route.js:33-66 | a reply without a truthy id means a new thread under the fresh `_id`, owned by the caller, titled with the raw 50-character prefix, holding just the turn; the context was the user message alone |
| `ChatRoute.ConverseCommits` | app/api/chat/route.js:57-62 | a committed turn is the draft plus the turn, stamped by the save, under the draft's `_id` |
| `ChatRoute.ConverseReplies` | app/api/chat/route.js:43-62 | on a valid thread with a non-blank message, an answered completion and a reachable database always give a reply |
| `ChatRoute.RepliesWhenServicesAnswer` | app/api/chat/route.js:54-66 | when the completion answers and the save is reachable, an admitted request on an owned or fresh thread is answered: validation never rejects what the handler saves |
| `ChatRoute.ForeignThreadLooksMissing` | app/api/chat/route.js:28-32 | another owner's thread gives the same response as a missing one (404 once admitted) and nothing is written |
| `ChatRoute.PairedAppendTurn` | app/api/chat/route.js:43-60 | appending a user/assistant turn to paired messages keeps them paired |
| `ChatRoute.HandleKeepsPairs` | app/api/chat/route.js:43-62 | every stored conversation stays a sequence of user/assistant pairs |
| `ChatRoute.Post` | app/api/chat/route.js:7-73 | the imperative handler returns the response and leaves the collection exactly as `Handle` says, keeping it valid |
| `ChatRoute.Continue` | app/api/chat/route.js:43-66 | the two pushes and the save on the document make exactly the transition `Converse` describes |
| `ThreadsRoute.Owned` | app/api/threads/route.js:16 | defines the ids `find({userId})` matches: every stored thread whose owner is the caller |
| `ThreadsRoute.Summarize` | app/api/threads/route.js:18 | defines one listed thread after `.select('-messages')`: its id, owner, title and both timestamps, with no messages field |
| `ThreadsRoute.InsertNewestFirst` | app/api/threads/route.js:17 | inserting adds exactly that element and puts it or the old head first |
| `ThreadsRoute.InsertKeepsNewestFirst` | app/api/threads/route.js:17 | inserting into a list ordered newest first keeps it ordered |
| `ThreadsRoute.SortNewestFirst` | app/api/threads/route.js:17 | the sorted list holds each element of the set exactly once, in non-increasing key order |
| `ThreadsRoute.OwnedNewestFirst` | app/api/threads/route.js:16-17 | `find({userId}).sort({updatedAt: -1})` yields the ids of the caller's stored threads, each exactly once, newest first |
| `ThreadsRoute.Summaries` | app/api/threads/route.js:18-19 | `.select('-messages')` keeps each thread's id, owner, title and timestamps, in the same order |
| `ThreadsRoute.ListThreads` | app/api/threads/route.js:6-27 | no caller: 401; query failure: 500; otherwise the caller's threads only, as summaries keeping every field but messages, in non-increasing `updatedAt`, each owned thread exactly once |
| `ThreadsRoute.ListedExactlyOnce` | app/api/threads/route.js:16 | a thread is listed once if the caller owns it and never otherwise |
| `ThreadsRoute.SentThreadListedFirst` | app/api/threads/route.js:16-19 | after a reply at a time later than every stored update, the thread written to heads its owner's listing |

## Left out

- The single-thread `GET` in app/api/threads/[id]/route.js is not part of this model. The repository has no delete handler.
- The user interface, the Express scaffold, the health probe and the MongoDB connection cache are not modelled. A failed connection is the `connected` flag.
- A query failure other than a cast error is not modelled separately. Its effect, a 500 with nothing written, is the same as a failed connection.
- Concurrency is not modelled: two sends to one thread at once, atomicity of `save()`, and Mongoose's version checks. Each handler call is one sequential transition.
- `fetch`, the HTTP response beyond the fields the code reads, the `temperature` and `max_completion_tokens` parameters, and `console.error` logging are not modelled.
- A `threadId` in the request body that is not a string or null (a number, array or object) is not modelled. `threadId` is an optional string.
- `error.message` and `choices[0].message.content` are modelled as strings when present. Non-string JSON values there are not modelled.
- Strings are sequences of Unicode characters. JavaScript's `substring` and `maxLength` count UTF-16 code units, so they differ for characters outside the Basic Multilingual Plane.
- ThreadModel.CastObjectId: accepts only 24-digit hexadecimal strings. Other forms some Mongoose versions accept (12-byte strings, ObjectId-like objects) are not modelled.
- ThreadModel.Commit: validates the whole thread, where Mongoose validates only modified paths. The two agree on a valid store, which every handler keeps.
- Timestamps are one abstract `now` per request. Mongoose stamps new messages at save time with that same instant.
- ThreadsRoute.ListThreads: it is a ghost function that picks one order among threads with equal `updatedAt`. MongoDB leaves that order unspecified too.

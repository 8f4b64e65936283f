# Chat backend session memory, in Dafny

This project models the memory side of a small chat backend that sits in
front of a language model. The model covers four things:

- **The session store.** `MemoryStore` keeps a map from session id to
  session. Sessions expire after a timeout and hold only the newest few
  messages. The store is created with 1000 sessions, 24 hours and 5
  messages by default.
- **The message datatypes** that the store holds.
- **Two helpers of the Gemini service.** One converts stored messages to
  the provider's role/parts shape. The other re-chunks generated text into
  smaller pieces for a smoother stream.
- **The store side of the chat endpoints** `/chat`, `/chat/stream`,
  `/stream` and `DELETE /sessions/{id}`.

The modules follow the program:

| module | file | what it holds |
|---|---|---|
| `ChatModels` | `chat_models.dfy` | `MessageRole`, `ChatMessage`, `ChatSession`, `SessionInfo` |
| `PyText` | `py_text.dfy` | the Python string operations the code relies on, with their Python meaning |
| `ConversationAdapter` | `conversation_adapter.dfy` | the provider message shape |
| `GeminiService` | `gemini_service.dfy` | the converter and the re-chunker, as loop methods proved against functions |
| `SessionStore` | `memory_store.dfy` | class `MemoryStore`, whose methods update its `sessions` map in place, and the functions and lemmas that specify it |
| `ChatRoutes` | `chat_routes.dfy` | one method per endpoint over a `MemoryStore` |

Each store method states its new map as a function of the old one, for
example `Evicted`, `Reclaimed`, `WithMessage` or `Unexpired`. The lemmas
then prove what the code promises about those functions:

- truncation keeps exactly the newest messages, in order;
- a lookup never returns an expired session;
- seeding a `/stream` session is an ordered append of the kept request
  messages;
- the regular re-chunking branch spells the text exactly.

Every method also keeps the store invariant `Valid()`: each session is
stored under its own id, and within the message bound once that bound is
at least one.

The code does not always do what its design intends. In each case below
the model follows the code:

- **Capacity.** Creation at capacity drops only expired sessions and then
  inserts anyway. Nothing is rejected or evicted by recency.
  `CreationMayExceedCapacity` shows the store growing past its limit.
- **Unknown roles.** A role string other than "user" in any letter case
  becomes ASSISTANT, not USER. The fallback to USER in `add_message` can
  only run when `role.lower()` raises, which a string role never does.
- **Code-like text.** On the code branch (text containing "```", "def " or
  "import ") the re-chunked pieces do not concatenate to the original text.
  Every non-blank word gets one trailing space, and runs of spaces
  collapse. `CodeBranchAddsTrailingSpace` shows this for "def f".
- **The truncation test.** The test script expects "And 4+4?" to be the
  oldest message kept after eight appends with a bound of five. The code
  keeps the fourth append, "3+3 equals 6.", as `EightAppendsKeepLastFive`
  proves.
- **The session count.** `get_session_count` is documented as the number
  of active sessions, but it counts every stored entry. That includes
  expired sessions that no lookup or cleanup has removed yet.
  `SessionCountIncludesExpired` proves that the count is the live sessions
  plus the expired ones.
- **The `/stream` context after seeding.** The comment at
  routes/chat.py:209-210 says that the context leaves out the current
  prompt. After seeding, the prompt is the first stored message, and
  `history[:-1]` leaves out the last seeded message instead. The service
  appends the prompt once more as the active message
  (services/gemini_service.py:115-116), so the model receives it twice.
  When the prompt and the kept messages exceed the message bound,
  truncation drops the prompt from the stored history altogether.
  `SeededContextRepeatsPrompt` proves both cases.

## Model

| member | source | states |
|---|---|---|
| PyText.LowerIdempotent | routes/chat.py:199 | lowering twice (the seeding loop lowers, then `add_message` lowers again) equals lowering once |
| PyText.Split | services/gemini_service.py:42 | `text.split(" ")` always yields at least one piece |
| PyText.JoinSplit | services/gemini_service.py:42 | joining the pieces of `split(" ")` with single spaces gives back the text, and no piece contains a space |
| PyText.SplitWord | services/gemini_service.py:42 | a piece without spaces splits into itself |
| PyText.SplitAfterSpace | services/gemini_service.py:42 | appending a space and a space-free word to a text appends exactly that word to its split |
| PyText.SplitJoin | services/gemini_service.py:42 | splitting space-free words joined by spaces gives back those words |
| PyText.ConcatAppend | routes/chat.py:126-131 | the text accumulated by `full_response += chunk` over two runs of chunks is the concatenation of the two |
| ConversationAdapter.ToGeminiFormat | services/gemini_service.py:26-30 | same length and order as the input; each entry carries its relabelled role and exactly one part, the message's content |
| GeminiService.ConvertMessagesToGeminiFormat | services/gemini_service.py:22-30 | the loop builds exactly `ToGeminiFormat` of its input |
| GeminiService.NonBlank | services/gemini_service.py:43-45 | keeps exactly the words that `strip()` leaves non-empty, never more words than given |
| GeminiService.SimulateSmootherStreaming | services/gemini_service.py:32-72 | yields nothing for empty text, the code-branch chunks for code-like text, and otherwise the regular-branch chunks (`SmoothChunks`) |
| GeminiService.CodeBranch | services/gemini_service.py:40-46 | the code-branch loop yields `CodeChunks` of the words |
| GeminiService.RegularBranch | services/gemini_service.py:47-72 | the regular-branch loop yields the chunks of `RegularFold` over all the words |
| GeminiService.RegularFoldSpells | services/gemini_service.py:52-69 | after any number of words, the chunks yielded plus the chunk being built spell exactly what those words contributed |
| GeminiService.SpellingIsJoin | services/gemini_service.py:52-57 | the first n words contribute those words joined by single spaces, plus the space after word n when more words follow |
| GeminiService.RegularFoldSpellsPrefix | services/gemini_service.py:49-69 | after n words, yielded chunks plus the pending chunk equal the first n words joined by spaces, with the trailing separator when more follow |
| GeminiService.RegularBranchSpellsText | services/gemini_service.py:47-72 | for non-empty text that is not code-like, the chunks concatenate to the text exactly and nothing is left pending |
| GeminiService.CodeChunksAreNonBlankWords | services/gemini_service.py:40-46 | the code branch yields one chunk per non-blank word, in order, each the word plus one space |
| GeminiService.CodeBranchShape | services/gemini_service.py:40-46 | on code-like text every chunk is a non-blank, space-free word of the text plus one trailing space, and every non-blank word gives one |
| GeminiService.CodeBranchAddsTrailingSpace | services/gemini_service.py:40-46 | "def f" is streamed as "def " and "f ", whose concatenation is not "def f" |
| GeminiService.SmoothedStreamSpellsRaw | services/gemini_service.py:132-139 | when no piece from the model is code-like, re-chunking every non-empty piece preserves the concatenation of the stream |
| SessionStore.MemoryStore.constructor | memory_store.py:10-21 | an empty store with the given bounds and the timeout converted from hours |
| SessionStore.MemoryStore.CreateSession | memory_store.py:23-38 | the fresh id is inserted as an empty session stamped now; at capacity the expired sessions are dropped first, otherwise nothing else changes |
| SessionStore.MemoryStore.GetSession | memory_store.py:40-48 | returns the session exactly when it is present and not expired; an expired entry under the id is deleted and nothing else changes |
| SessionStore.MemoryStore.AddMessage | memory_store.py:50-89 | appends to a live session, or else to a session newly created under the id; with a negative timeout that new session is expired at once, is removed, and the call fails |
| SessionStore.MemoryStore.AppendAndTruncate | memory_store.py:82-87 | replaces the session with the message appended, the update time set and the list cut to the newest `max` messages |
| SessionStore.MemoryStore.AddMessageObject | memory_store.py:91-104 | succeeds exactly when the session is live and then appends with truncation; otherwise it only evicts an expired entry |
| SessionStore.MemoryStore.GetMessages | memory_store.py:106-127 | the live session's messages, the newest `limit` when the limit is positive, and an empty list for a missing or expired session |
| SessionStore.MemoryStore.GetMessagesForGemini | memory_store.py:129-146 | exactly `ToGeminiFormat` of the live session's messages, or an empty list |
| SessionStore.MemoryStore.CreateSessionWithId | memory_store.py:148-160 | inserts an empty session under the id only when the id is absent; an existing entry, even an expired one, is kept |
| SessionStore.MemoryStore.DeleteSession | memory_store.py:162-167 | reports whether the id was present and removes exactly that entry |
| SessionStore.SessionCountIncludesExpired | memory_store.py:169-171 | the count is the number of live sessions plus the number of expired ones still stored, so it exceeds the live count whenever one stored session has expired |
| SessionStore.MemoryStore.GetSessionInfo | memory_store.py:173-185 | id, message count, times and bound of a live session; none (with eviction) otherwise |
| SessionStore.MemoryStore.ClearSessionMessages | memory_store.py:187-195 | empties a live session's messages and refreshes its update time, keeping the session; fails and evicts otherwise |
| SessionStore.MemoryStore.CleanupOldSessions | memory_store.py:197-207 | the loop over the expired ids leaves exactly the unexpired sessions, unchanged |
| SessionStore.TruncatedBound | memory_store.py:85-87 | with a bound of at least one, truncation keeps exactly the newest `min(bound, length)` messages in order |
| SessionStore.ZeroBoundKeepsAll | memory_store.py:85-87 | a bound of zero never truncates, since `messages[-0:]` is the whole list |
| SessionStore.AppendKeepsNewest | memory_store.py:82-87 | after an append the newest kept message is the new one, the kept list is the newest part of old plus new, and id and creation time are unchanged |
| SessionStore.FreshSessionHoldsOneMessage | memory_store.py:62-87 | a session auto-created for an append holds exactly that message |
| SessionStore.TruncatedAbsorbs | memory_store.py:85-87 | truncating before an append loses nothing that truncating after it would keep |
| SessionStore.AppendsKeepNewest | memory_store.py:82-87 | after any run of appends a session within the bound holds the newest `min(bound, total)` of all its messages, in order |
| SessionStore.EightAppendsKeepLastFive | test_memory_store.py:21-66 | eight appends to an empty session with a bound of five keep appends four to eight |
| SessionStore.LimitedIsNewest | memory_store.py:123-127 | a positive limit gives the newest `min(limit, length)` messages; no limit, zero or a negative limit gives them all |
| SessionStore.ParseRoleCases | memory_store.py:71-76 | a role string parses to USER exactly when it lower-cases to "user"; SYSTEM never results; lower-casing first changes nothing |
| SessionStore.SessionValidity | memory_store.py:209-211 | a session idle for exactly the timeout is still valid, one microsecond more expires it, and a session valid now was valid at every earlier time |
| SessionStore.LookupNeverExpired | memory_store.py:40-48 | a lookup never yields an expired session, an entry left under the id is live, and an absent id leaves the map unchanged |
| SessionStore.EvictionDropsCount | memory_store.py:45-47 | a lookup lowers the session count by one exactly when it evicts an expired entry |
| SessionStore.ReclaimedKeepsExactlyLive | memory_store.py:197-207 | at capacity, the ids kept before insertion are exactly the unexpired ones, with their sessions unchanged |
| SessionStore.CreationMayExceedCapacity | memory_store.py:27-36 | when no session has expired, creation at capacity still inserts, leaving more sessions than the limit |
| ChatRoutes.ForwardChunks | routes/chat.py:126-133 | one chunk event per chunk in order, with `full_response` equal to the concatenation of the chunks |
| ChatRoutes.ResolveSession | routes/chat.py:65-71 | creates a session when no id is given; a given id is refused exactly when it names no live session, evicting an expired entry |
| ChatRoutes.Chat | routes/chat.py:60-100 | 404 before any message is stored for an id without a live session, the lookup deleting an expired entry under that id; otherwise the user message is stored; the model sees the newest twenty messages without the last; the reply is stored, or 500 with only the user message kept |
| ChatRoutes.ChatStream | routes/chat.py:103-155 | same session handling as `/chat`, so a 404 stores no message and only the lookup deletes an expired entry; every chunk is forwarded in order; their concatenation is stored as the assistant message before the done event, or an error event ends the stream and nothing more is stored |
| ChatRoutes.SeedingStopsAtRaise | routes/chat.py:198-204 | once a request message's role raises, the later messages change nothing |
| ChatRoutes.SeedHistory | routes/chat.py:196-207 | the seeding loop stores exactly what `Seeded` gives, and reports a raise exactly when `Seeded` does |
| ChatRoutes.StorePrompt | routes/chat.py:179-192 | the prompt is stored after the session is created, found or auto-created; the returned history is that session's whole list |
| ChatRoutes.StoreStreamedReply | routes/chat.py:216-237 | chunks forwarded in order, then either the assistant message stored and a done event carrying the full response and the stored count, or an error event with no change |
| ChatRoutes.StreamChat | routes/chat.py:169-237 | the whole `/stream` exchange: prompt first, seeding only when the prompt is the single stored message, context equal to the history without its last message, a raise giving a lone error event, and the final store |
| ChatRoutes.SeedMessages | routes/chat.py:198-204 | the kept request messages never have empty content, never repeat the prompt, and are no more numerous than the request's |
| ChatRoutes.SeedingRaisesIffNonTextRole | routes/chat.py:198-199 | seeding raises exactly when some request message has a role that is not a string |
| ChatRoutes.SeededIsAppendAll | routes/chat.py:198-204 | without a raise, seeding is the in-order append, with truncation, of the kept request messages |
| ChatRoutes.SeededKeepsIdentity | routes/chat.py:198-204 | seeding keeps the session's id and creation time |
| ChatRoutes.StreamHistoryEndsWithPrompt | routes/chat.py:186-213 | without seeding, the stored history ends with the prompt, so the context is everything stored before it |
| ChatRoutes.SeededContextRepeatsPrompt | routes/chat.py:189-212 | when seeding keeps k request messages and 1 + k fits the bound, the history is the prompt followed by those messages, and for k >= 1 the context is the prompt followed by the first k - 1 of them; when 1 + k exceeds the bound, the prompt is no longer stored |
| ChatRoutes.SecondChatSeesFirstExchange | routes/chat.py:73-84 | with a bound of five, the second `/chat` request of a new session shows the model exactly the first user message and reply |
| ChatRoutes.DeleteSessionRoute | routes/chat.py:158-166 | 200 when the id was present and 404 otherwise; exactly that entry is removed |

## Left out

- Clock, ids and I/O. The clock, uuid generation, the provider SDK calls,
  the pacing sleeps and the HTTP and SSE framing are not modelled. The
  current time is the parameter `now`, in microseconds, and one value of it
  serves a whole request. The new UUID is the parameter `freshId`, which a
  precondition keeps out of the store. The model's output is the parameter
  `reply` for `/chat` and `chunks` for the streaming endpoints.
- The model's exceptions. `failed` says that the model raised after
  yielding `chunks`. The program as written never takes that path. The
  streaming service catches every exception and yields it as an
  "Error: …" chunk (services/gemini_service.py:109, 141-142), which the
  endpoints store like any other text. Nothing after the chunk loop of
  either stream generator raises. So the generators' `except` clauses
  (routes/chat.py:144-145, 236-237) are reached only through the seeding
  raise on `/stream`. The flag is kept so that the model covers those
  clauses should the service ever let an exception through.
- Endpoints. Three session routes are not modelled, because each only
  calls modelled store methods and decides its own status:
  - `POST /sessions` calls `create_session` once (routes/chat.py:22-28).
  - `GET /sessions/{id}` calls `get_session`, not `get_session_info`. It
    answers 404 itself when no live session is found (routes/chat.py:31-45).
  - `GET /sessions/{id}/messages` calls `get_messages`. When that list is
    empty it calls `get_session` as well, and answers 404 when that finds
    no live session too (routes/chat.py:48-57). Either lookup deletes an
    expired entry under the id, so this route can change the store.

  The health route, `main.py` and the provider-calling halves of the
  Gemini service are not part of this model.
- Lazy streaming. The model runs the stream generators of `/chat/stream`
  and `/stream` to completion when the endpoint is called. The code runs
  them only as the client reads the response (routes/chat.py:120-147 and
  189-239). So on `/stream` the history read, the seeding and the reply
  store all wait for the client. A client that disconnects mid-stream gets
  no assistant message stored and no error event, and the model does not
  capture that case.
- Concurrency. The code has no locking, and the model is sequential.
- Aliasing. Sessions are values in a map, so the model does not capture
  that `get_messages` hands out the stored list itself. No caller modifies
  that list.
- Datetimes. These are integers: `datetime` arithmetic and the `timedelta`
  conversion become integer microseconds.
- ChatRoutes.Chat, ChatRoutes.ChatStream, ChatRoutes.StreamChat: these
  require a message bound of at least one and a non-negative timeout.
  These are the settings of the store the application builds. Other
  settings are covered by the store's own methods.
- ChatRoutes.StreamChat: request message contents are strings; a
  non-string or missing content is not modelled apart from the empty
  string.
- PyText.Lower: it lowers ASCII capitals only. Only "U", "S", "E" and "R"
  lower to a letter of "user", so the `role.lower() == "user"` test
  decides as in Python.
- `ChatMessage.metadata`, and the request and response models other than
  the stream request, are not modelled.

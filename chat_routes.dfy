/** The memory-handling part of the chat endpoints. Each endpoint is a method
    over the store; the language model is not called but stands as an input
    (`reply` for the non-streaming endpoint, `chunks` for the streaming ones),
    and each method returns the context it would hand to the model. HTTP
    errors are status codes; server-sent events are values of StreamEvent.
    The streaming body runs to completion as soon as the endpoint is called. */
module ChatRoutes {
  import opened ChatModels
  import opened PyText
  import opened SessionStore

  /** The outcome of the non-streaming model call: a text, or an exception. */
  datatype Generation = Generated(text: string) | GenerationFailed

  /** The response of `/chat`: the assistant's reply or an HTTP error. */
  datatype ChatResult = ChatResponse(message: string, sessionId: string) | HttpError(status: int)

  /** The server-sent events of the streaming endpoints. `DoneEvent` ends
      `/chat/stream`; `DoneWithInfo` ends `/stream`. */
  datatype StreamEvent =
    | ChunkEvent(chunk: string, sessionId: string)
    | DoneEvent(sessionId: string)
    | DoneWithInfo(sessionId: string, fullResponse: string, messageCount: int)
    | ErrorEvent(sessionId: string)

  /** The response of `/chat/stream`: a 404 or an event stream. */
  datatype StreamResult = StreamNotFound | EventStream(events: seq<StreamEvent>)

  /** The "role" entry of a message in a `/stream` request: absent, a string,
      or some other JSON value (on which `.lower()` raises). */
  datatype RoleField = RoleMissing | RoleText(text: string) | RoleNotText

  /** One entry of the `messages` list of a `/stream` request. */
  datatype RequestMessage = RequestMessage(role: RoleField, content: string)

  datatype StreamRequest = StreamRequest(messages: seq<RequestMessage>, prompt: string, sessionId: Option<string>)

  /** The history limit `/chat` and `/chat/stream` pass to `get_messages`. */
  const HistoryLimit: int := 20

  /** Python's `s[:-1]`. */
  function AllButLast<T>(s: seq<T>): seq<T> {
    if s == [] then [] else s[..|s| - 1]
  }

  /** A session id counts as given only when it is present and non-empty
      (`if not session_id` treats "" as missing). */
  predicate Supplied(sessionId: Option<string>) {
    sessionId.Some? && sessionId.value != ""
  }

  /** The role string the seeding loop passes to `add_message`:
      `msg.get("role", "user").lower()`. */
  function SeedRole(role: RoleField): string
    requires !role.RoleNotText?
  {
    Lower(if role.RoleText? then role.text else "user")
  }

  /** The seeding loop of `/stream` run over `messages` from `session`: each
      message with non-empty content different from the prompt is appended in
      order; a role that is not a string raises, leaving what was appended so
      far. The boolean says whether it raised. */
  function Seeded(session: ChatSession, messages: seq<RequestMessage>, prompt: string, now: int, maxMessages: int): (ChatSession, bool)
  {
    if messages == [] then (session, false)
    else
      var prev := Seeded(session, messages[..|messages| - 1], prompt, now, maxMessages);
      var m := messages[|messages| - 1];
      if prev.1 || m.role.RoleNotText? then (prev.0, true)
      else if m.content != "" && m.content != prompt then
        (WithMessage(prev.0, ChatMessage(ParseRole(SeedRole(m.role)), m.content, now), now, maxMessages), false)
      else prev
  }

  /** The store a chat request works in: as it is when an id is given,
      otherwise after `create_session` has made room and inserted the new
      session. */
  function RequestBase(sessions: Sessions, sessionId: Option<string>, freshId: string, now: int, maxSessions: int, timeout: int): Sessions {
    if Supplied(sessionId) then sessions
    else Reclaimed(sessions, now, maxSessions, timeout)[freshId := NewSession(freshId, now)]
  }

  /** The session after `add_message` has stored the prompt under `sid`: the
      live session if there is one, a new one otherwise, with the prompt
      appended. */
  function Prompted(base: Sessions, sid: string, prompt: string, now: int, timeout: int, maxMessages: int): ChatSession {
    var start := if sid in base && IsSessionValid(base[sid], now, timeout) then base[sid] else NewSession(sid, now);
    WithMessage(start, ChatMessage(USER, prompt, now), now, maxMessages)
  }

  /** The seeding step of `/stream`: it runs only when the prompt is the one
      stored message and the request carries messages. */
  function Seeding(prompted: ChatSession, messages: seq<RequestMessage>, prompt: string, now: int, maxMessages: int): (ChatSession, bool) {
    if |prompted.messages| == 1 && messages != [] then Seeded(prompted, messages, prompt, now, maxMessages)
    else (prompted, false)
  }

  /** The forwarding loop of the streaming endpoints: one chunk event per
      chunk, in order, while `full_response` accumulates the chunks. */
  method ForwardChunks(chunks: seq<string>, sessionId: string) returns (events: seq<StreamEvent>, fullResponse: string)
    ensures |events| == |chunks|
    ensures forall j :: 0 <= j < |chunks| ==> events[j] == ChunkEvent(chunks[j], sessionId)
    ensures fullResponse == Concat(chunks)
  {
    events, fullResponse := [], "";
    for i := 0 to |chunks|
      invariant |events| == i
      invariant forall j :: 0 <= j < i ==> events[j] == ChunkEvent(chunks[j], sessionId)
      invariant fullResponse == Concat(chunks[..i])
    {
      fullResponse := fullResponse + chunks[i];
      events := events + [ChunkEvent(chunks[i], sessionId)];
      assert chunks[..i + 1][..i] == chunks[..i];
    }
    assert chunks[..|chunks|] == chunks;
  }

  /** The session handling shared by `/chat` and `/chat/stream`: with no id
      a session is created; a given id must name a live session, and an
      expired entry under it is deleted by the lookup. `found` is false
      exactly when the request is answered with 404. */
  method ResolveSession(store: MemoryStore, sessionId: Option<string>, freshId: string, now: int)
    returns (sid: string, found: bool)
    requires store.Valid() && freshId !in store.sessions && store.sessionTimeout >= 0
    modifies store
    ensures store.Valid()
    ensures found == !(Supplied(sessionId) && !old(store.HasLive(sessionId.value, now)))
    ensures !found ==> store.sessions == Evicted(old(store.sessions), sessionId.value, now, store.sessionTimeout)
    ensures found ==>
      sid == (if Supplied(sessionId) then sessionId.value else freshId) && store.HasLive(sid, now) &&
      store.sessions == RequestBase(old(store.sessions), sessionId, freshId, now, store.maxSessions, store.sessionTimeout)
  {
    if !Supplied(sessionId) {
      sid := store.CreateSession(freshId, now);
      return sid, true;
    }
    sid := sessionId.value;
    var session := store.GetSession(sid, now);
    found := session.Some?;
  }

  /** `POST /chat`. A given id that does not name a live session is a 404
      before anything is stored; otherwise the user message is stored first,
      the model sees the newest twenty stored messages without the last, and
      the reply is stored as an assistant message unless the model raised
      (a 500, with the user message kept). */
  method Chat(store: MemoryStore, message: string, sessionId: Option<string>, freshId: string, now: int, reply: Generation)
    returns (result: ChatResult, context: seq<ChatMessage>)
    requires store.Valid() && freshId !in store.sessions
    requires store.maxMessagesPerSession >= 1 && store.sessionTimeout >= 0
    modifies store
    ensures store.Valid()
    ensures Supplied(sessionId) && !old(store.HasLive(sessionId.value, now)) ==>
      result == HttpError(404) && context == [] &&
      store.sessions == Evicted(old(store.sessions), sessionId.value, now, store.sessionTimeout)
    ensures !(Supplied(sessionId) && !old(store.HasLive(sessionId.value, now))) ==>
      var sid := if Supplied(sessionId) then sessionId.value else freshId;
      var base := RequestBase(old(store.sessions), sessionId, freshId, now, store.maxSessions, store.sessionTimeout);
      var prompted := WithMessage(base[sid], ChatMessage(USER, message, now), now, store.maxMessagesPerSession);
      context == AllButLast(Limited(prompted.messages, Some(HistoryLimit))) &&
      match reply
      case GenerationFailed =>
        result == HttpError(500) && store.sessions == base[sid := prompted]
      case Generated(text) =>
        result == ChatResponse(text, sid) &&
        store.sessions == base[sid := WithMessage(prompted, ChatMessage(ASSISTANT, text, now), now, store.maxMessagesPerSession)]
  {
    var sid, found := ResolveSession(store, sessionId, freshId, now);
    if !found {
      return HttpError(404), [];
    }
    ghost var base := store.sessions;
    var _ := store.AddMessageObject(sid, ChatMessage(USER, message, now), now);
    ghost var prompted := WithMessage(base[sid], ChatMessage(USER, message, now), now, store.maxMessagesPerSession);
    assert store.sessions == base[sid := prompted] && store.HasLive(sid, now);
    var history := store.GetMessages(sid, Some(HistoryLimit), now);
    context := AllButLast(history);
    match reply {
      case GenerationFailed =>
        result := HttpError(500);
      case Generated(text) =>
        var _ := store.AddMessageObject(sid, ChatMessage(ASSISTANT, text, now), now);
        result := ChatResponse(text, sid);
    }
  }

  /** `POST /chat/stream`. The same session handling as `/chat`; the stream
      forwards every chunk in order, stores their concatenation as the
      assistant message and ends with one done event. `failed` says that the
      model raised after yielding `chunks`: the stream then ends with an
      error event and no assistant message is stored. */
  method ChatStream(store: MemoryStore, message: string, sessionId: Option<string>, freshId: string, now: int, chunks: seq<string>, failed: bool)
    returns (result: StreamResult, context: seq<ChatMessage>)
    requires store.Valid() && freshId !in store.sessions
    requires store.maxMessagesPerSession >= 1 && store.sessionTimeout >= 0
    modifies store
    ensures store.Valid()
    ensures Supplied(sessionId) && !old(store.HasLive(sessionId.value, now)) ==>
      result == StreamNotFound && context == [] &&
      store.sessions == Evicted(old(store.sessions), sessionId.value, now, store.sessionTimeout)
    ensures !(Supplied(sessionId) && !old(store.HasLive(sessionId.value, now))) ==>
      var sid := if Supplied(sessionId) then sessionId.value else freshId;
      var base := RequestBase(old(store.sessions), sessionId, freshId, now, store.maxSessions, store.sessionTimeout);
      var prompted := WithMessage(base[sid], ChatMessage(USER, message, now), now, store.maxMessagesPerSession);
      context == AllButLast(Limited(prompted.messages, Some(HistoryLimit))) &&
      result.EventStream? && |result.events| == |chunks| + 1 &&
      (forall j :: 0 <= j < |chunks| ==> result.events[j] == ChunkEvent(chunks[j], sid)) &&
      if failed then
        result.events[|chunks|] == ErrorEvent(sid) && store.sessions == base[sid := prompted]
      else
        result.events[|chunks|] == DoneEvent(sid) &&
        store.sessions == base[sid := WithMessage(prompted, ChatMessage(ASSISTANT, Concat(chunks), now), now, store.maxMessagesPerSession)]
  {
    var sid, found := ResolveSession(store, sessionId, freshId, now);
    if !found {
      return StreamNotFound, [];
    }
    ghost var base := store.sessions;
    var _ := store.AddMessageObject(sid, ChatMessage(USER, message, now), now);
    ghost var prompted := WithMessage(base[sid], ChatMessage(USER, message, now), now, store.maxMessagesPerSession);
    assert store.sessions == base[sid := prompted] && store.HasLive(sid, now);
    var history := store.GetMessages(sid, Some(HistoryLimit), now);
    context := AllButLast(history);
    var events, fullResponse := ForwardChunks(chunks, sid);
    if failed {
      return EventStream(events + [ErrorEvent(sid)]), context;
    }
    var _ := store.AddMessageObject(sid, ChatMessage(ASSISTANT, fullResponse, now), now);
    result := EventStream(events + [DoneEvent(sid)]);
  }

  /** Once the seeding loop has raised, later messages change nothing. */
  lemma {:induction false} SeedingStopsAtRaise(session: ChatSession, messages: seq<RequestMessage>, k: nat, prompt: string, now: int, maxMessages: int)
    requires k <= |messages|
    requires Seeded(session, messages[..k], prompt, now, maxMessages).1
    ensures Seeded(session, messages, prompt, now, maxMessages) == Seeded(session, messages[..k], prompt, now, maxMessages)
  {
    if k < |messages| {
      assert messages[..|messages| - 1][..k] == messages[..k];
      SeedingStopsAtRaise(session, messages[..|messages| - 1], k, prompt, now, maxMessages);
    } else {
      assert messages[..k] == messages;
    }
  }

  /** The seeding loop of `/stream`: each request message is stored in
      order unless its content is empty or repeats the prompt; a role that is
      not a string raises and ends the loop, keeping what was stored. */
  method SeedHistory(store: MemoryStore, sessionId: string, messages: seq<RequestMessage>, prompt: string, now: int)
    returns (raised: bool)
    requires store.Valid() && store.HasLive(sessionId, now)
    requires store.maxMessagesPerSession >= 1 && store.sessionTimeout >= 0
    modifies store
    ensures store.Valid() && store.HasLive(sessionId, now)
    ensures var seeded := Seeded(old(store.sessions)[sessionId], messages, prompt, now, store.maxMessagesPerSession);
      raised == seeded.1 && store.sessions == old(store.sessions)[sessionId := seeded.0]
  {
    ghost var base := store.sessions;
    ghost var start := base[sessionId];
    for i := 0 to |messages|
      invariant store.Valid() && store.HasLive(sessionId, now)
      invariant !Seeded(start, messages[..i], prompt, now, store.maxMessagesPerSession).1
      invariant store.sessions == base[sessionId := Seeded(start, messages[..i], prompt, now, store.maxMessagesPerSession).0]
    {
      assert messages[..i + 1][..i] == messages[..i];
      var msg := messages[i];
      if msg.role.RoleNotText? {
        // `.lower()` raises on a role that is not a string
        SeedingStopsAtRaise(start, messages, i + 1, prompt, now, store.maxMessagesPerSession);
        return true;
      }
      var role := Lower(if msg.role.RoleText? then msg.role.text else "user");
      ghost var prev := Seeded(start, messages[..i], prompt, now, store.maxMessagesPerSession).0;
      ghost var next := Seeded(start, messages[..i + 1], prompt, now, store.maxMessagesPerSession);
      if msg.content != "" && msg.content != prompt {
        var _ := store.AddMessage(sessionId, role, msg.content, now);
        ghost var added := WithMessage(prev, ChatMessage(ParseRole(role), msg.content, now), now, store.maxMessagesPerSession);
        assert next == (added, false);
        UpdateTwice(base, sessionId, prev, added);
      }
    }
    assert messages[..|messages|] == messages;
    return false;
  }

  /** The opening of `/stream`: the session is created when no id is given,
      and the prompt is stored as a user message, `add_message` creating the
      session under a given id when it is missing or expired. Returns the id
      and the whole stored history. */
  method StorePrompt(store: MemoryStore, sessionId: Option<string>, prompt: string, freshId: string, now: int)
    returns (sid: string, history: seq<ChatMessage>)
    requires store.Valid() && freshId !in store.sessions
    requires store.maxMessagesPerSession >= 1 && store.sessionTimeout >= 0
    modifies store
    ensures store.Valid() && store.HasLive(sid, now)
    ensures sid == if Supplied(sessionId) then sessionId.value else freshId
    ensures
      var base := RequestBase(old(store.sessions), sessionId, freshId, now, store.maxSessions, store.sessionTimeout);
      var prompted := Prompted(base, sid, prompt, now, store.sessionTimeout, store.maxMessagesPerSession);
      store.sessions == base[sid := prompted] && history == prompted.messages
  {
    if Supplied(sessionId) {
      sid := sessionId.value;
    } else {
      sid := store.CreateSession(freshId, now);
    }
    ghost var base := store.sessions;
    ParseRoleCases("user");
    assert Lower("user") == "user";
    var _ := store.AddMessage(sid, "user", prompt, now);
    assert store.HasLive(sid, now);
    history := store.GetMessages(sid, None, now);
  }

  /** The close of `/stream`: every chunk is forwarded in order. If the
      model raises after them, an error event ends the stream and nothing is
      stored; otherwise their concatenation is stored as the assistant
      message and the done event reports the number of messages then stored. */
  method StoreStreamedReply(store: MemoryStore, sessionId: string, chunks: seq<string>, failed: bool, now: int)
    returns (events: seq<StreamEvent>)
    requires store.Valid() && store.HasLive(sessionId, now)
    requires store.maxMessagesPerSession >= 1 && store.sessionTimeout >= 0
    modifies store
    ensures store.Valid()
    ensures |events| == |chunks| + 1
    ensures forall j :: 0 <= j < |chunks| ==> events[j] == ChunkEvent(chunks[j], sessionId)
    ensures failed ==> events[|chunks|] == ErrorEvent(sessionId) && store.sessions == old(store.sessions)
    ensures !failed ==>
      var final := WithMessage(old(store.sessions)[sessionId], ChatMessage(ASSISTANT, Concat(chunks), now), now, store.maxMessagesPerSession);
      events[|chunks|] == DoneWithInfo(sessionId, Concat(chunks), |final.messages|) &&
      store.sessions == old(store.sessions)[sessionId := final]
  {
    var chunkEvents, fullResponse := ForwardChunks(chunks, sessionId);
    if failed {
      return chunkEvents + [ErrorEvent(sessionId)];
    }
    ParseRoleCases("assistant");
    var _ := store.AddMessage(sessionId, "assistant", fullResponse, now);
    assert store.HasLive(sessionId, now);
    var stored := store.GetMessages(sessionId, None, now);
    events := chunkEvents + [DoneWithInfo(sessionId, fullResponse, |stored|)];
  }

  /** `POST /stream`. With no id a session is created; a given id is used as
      it is, `add_message` creating it if needed. The prompt is stored first.
      When the stored history is then exactly that one message and the
      request carries messages, those are seeded after it. The model sees the
      history without its last message (nothing when at most one message is
      stored). The chunks are forwarded in order, their concatenation is
      stored as the assistant message, and one done event reports the stored
      count. If seeding raises, the stream is one error event; if the model
      raises after `chunks` (`failed`), an error event follows them. Either
      way no assistant message is stored. */
  method StreamChat(store: MemoryStore, request: StreamRequest, freshId: string, now: int, chunks: seq<string>, failed: bool)
    returns (sessionId: string, context: seq<ChatMessage>, events: seq<StreamEvent>)
    requires store.Valid() && freshId !in store.sessions
    requires store.maxMessagesPerSession >= 1 && store.sessionTimeout >= 0
    modifies store
    ensures store.Valid()
    ensures sessionId == if Supplied(request.sessionId) then request.sessionId.value else freshId
    ensures
      var base := RequestBase(old(store.sessions), request.sessionId, freshId, now, store.maxSessions, store.sessionTimeout);
      var prompted := Prompted(base, sessionId, request.prompt, now, store.sessionTimeout, store.maxMessagesPerSession);
      var seeding := Seeding(prompted, request.messages, request.prompt, now, store.maxMessagesPerSession);
      var history := seeding.0;
      if seeding.1 then
        context == [] && events == [ErrorEvent(sessionId)] &&
        store.sessions == base[sessionId := history]
      else
        context == (if |history.messages| > 1 then AllButLast(history.messages) else []) &&
        |events| == |chunks| + 1 &&
        (forall j :: 0 <= j < |chunks| ==> events[j] == ChunkEvent(chunks[j], sessionId)) &&
        if failed then
          events[|chunks|] == ErrorEvent(sessionId) && store.sessions == base[sessionId := history]
        else
          var final := WithMessage(history, ChatMessage(ASSISTANT, Concat(chunks), now), now, store.maxMessagesPerSession);
          events[|chunks|] == DoneWithInfo(sessionId, Concat(chunks), |final.messages|) &&
          store.sessions == base[sessionId := final]
  {
    var history;
    sessionId, history := StorePrompt(store, request.sessionId, request.prompt, freshId, now);
    ghost var base := RequestBase(old(store.sessions), request.sessionId, freshId, now, store.maxSessions, store.sessionTimeout);
    ghost var prompted := Prompted(base, sessionId, request.prompt, now, store.sessionTimeout, store.maxMessagesPerSession);
    ghost var seeding := Seeding(prompted, request.messages, request.prompt, now, store.maxMessagesPerSession);
    var raised := false;
    if |history| == 1 && request.messages != [] {
      raised := SeedHistory(store, sessionId, request.messages, request.prompt, now);
      if !raised {
        history := store.GetMessages(sessionId, None, now);
      }
    }
    assert raised == seeding.1 && store.sessions == base[sessionId := seeding.0];
    if raised {
      context, events := [], [ErrorEvent(sessionId)];
    } else {
      ghost var seeded := seeding.0;
      ghost var final := WithMessage(seeded, ChatMessage(ASSISTANT, Concat(chunks), now), now, store.maxMessagesPerSession);
      assert history == seeded.messages && store.HasLive(sessionId, now);
      assert store.sessions[sessionId] == seeded;
      context := if |history| > 1 then AllButLast(history) else [];
      events := StoreStreamedReply(store, sessionId, chunks, failed, now);
      if !failed {
        assert store.sessions == base[sessionId := seeded][sessionId := final];
        UpdateTwice(base, sessionId, seeded, final);
      }
    }
  }

  /** The messages the seeding loop stores, in order, when no role raises:
      the request messages with non-empty content different from the prompt,
      each with its parsed role. */
  function SeedMessages(messages: seq<RequestMessage>, prompt: string, now: int): (r: seq<ChatMessage>)
    requires forall k :: 0 <= k < |messages| ==> !messages[k].role.RoleNotText?
    ensures |r| <= |messages|
    ensures forall m :: m in r ==> m.content != "" && m.content != prompt && m.timestamp == now
  {
    if messages == [] then []
    else
      var m := messages[|messages| - 1];
      SeedMessages(messages[..|messages| - 1], prompt, now) +
        (if m.content != "" && m.content != prompt then [ChatMessage(ParseRole(SeedRole(m.role)), m.content, now)] else [])
  }

  /** Seeding raises exactly when some request message has a role that is
      not a string. */
  lemma {:induction false} SeedingRaisesIffNonTextRole(session: ChatSession, messages: seq<RequestMessage>, prompt: string, now: int, maxMessages: int)
    ensures Seeded(session, messages, prompt, now, maxMessages).1 <==>
      exists k :: 0 <= k < |messages| && messages[k].role.RoleNotText?
  {
    if messages != [] {
      var init := messages[..|messages| - 1];
      SeedingRaisesIffNonTextRole(session, init, prompt, now, maxMessages);
      if exists k :: 0 <= k < |init| && init[k].role.RoleNotText? {
        var k :| 0 <= k < |init| && init[k].role.RoleNotText?;
        assert messages[k] == init[k];
      }
      if exists k :: 0 <= k < |messages| && messages[k].role.RoleNotText? {
        var k :| 0 <= k < |messages| && messages[k].role.RoleNotText?;
        if k < |init| {
          assert init[k] == messages[k];
        }
      }
    }
  }

  /** When no role raises, seeding is exactly the append of the kept request
      messages, one after the other. */
  lemma {:induction false} SeededIsAppendAll(session: ChatSession, messages: seq<RequestMessage>, prompt: string, now: int, maxMessages: int)
    requires forall k :: 0 <= k < |messages| ==> !messages[k].role.RoleNotText?
    ensures Seeded(session, messages, prompt, now, maxMessages) ==
      (AppendAll(session, SeedMessages(messages, prompt, now), now, maxMessages), false)
  {
    if messages != [] {
      var init := messages[..|messages| - 1];
      var m := messages[|messages| - 1];
      assert forall k :: 0 <= k < |init| ==> init[k] == messages[k];
      SeededIsAppendAll(session, init, prompt, now, maxMessages);
      var before := SeedMessages(init, prompt, now);
      if m.content != "" && m.content != prompt {
        var x := ChatMessage(ParseRole(SeedRole(m.role)), m.content, now);
        assert (before + [x])[..|before|] == before;
      } else {
        assert before + [] == before;
      }
    }
  }

  /** Seeding keeps the session's id and creation time. */
  lemma {:induction false} SeededKeepsIdentity(session: ChatSession, messages: seq<RequestMessage>, prompt: string, now: int, maxMessages: int)
    ensures Seeded(session, messages, prompt, now, maxMessages).0.sessionId == session.sessionId
    ensures Seeded(session, messages, prompt, now, maxMessages).0.createdAt == session.createdAt
  {
    if messages != [] {
      SeededKeepsIdentity(session, messages[..|messages| - 1], prompt, now, maxMessages);
    }
  }

  /** When `/stream` does not seed, the history ends with the prompt, so the
      context handed to the model is the stored history before it. */
  lemma StreamHistoryEndsWithPrompt(base: Sessions, sid: string, prompt: string, messages: seq<RequestMessage>, now: int, timeout: int, maxMessages: int)
    requires maxMessages >= 1
    requires messages == [] || |Prompted(base, sid, prompt, now, timeout, maxMessages).messages| != 1
    ensures var seeding := Seeding(Prompted(base, sid, prompt, now, timeout, maxMessages), messages, prompt, now, maxMessages);
      var h := seeding.0.messages;
      !seeding.1 && |h| >= 1 && h[|h| - 1] == ChatMessage(USER, prompt, now)
  {
    var start := if sid in base && IsSessionValid(base[sid], now, timeout) then base[sid] else NewSession(sid, now);
    AppendKeepsNewest(start, ChatMessage(USER, prompt, now), now, maxMessages);
  }

  /** When `/stream` seeds a new session, the stored history is the prompt
      followed by the kept request messages, so the context `history[:-1]`
      holds the prompt and leaves out the last seeded message; the model then
      receives the prompt twice. When the prompt and the kept messages do not
      fit under the bound, truncation drops the prompt from the history. */
  lemma SeededContextRepeatsPrompt(base: Sessions, sid: string, prompt: string, messages: seq<RequestMessage>, now: int, timeout: int, maxMessages: int)
    requires maxMessages >= 1
    requires |Prompted(base, sid, prompt, now, timeout, maxMessages).messages| == 1
    requires forall k :: 0 <= k < |messages| ==> !messages[k].role.RoleNotText?
    ensures var kept := SeedMessages(messages, prompt, now);
      var p := ChatMessage(USER, prompt, now);
      var seeding := Seeding(Prompted(base, sid, prompt, now, timeout, maxMessages), messages, prompt, now, maxMessages);
      var h := seeding.0.messages;
      !seeding.1 &&
      (1 + |kept| <= maxMessages ==> h == [p] + kept) &&
      (1 <= |kept| && 1 + |kept| <= maxMessages ==> |h| > 1 && AllButLast(h) == [p] + kept[..|kept| - 1]) &&
      (1 + |kept| > maxMessages ==> p !in h)
  {
    var p := ChatMessage(USER, prompt, now);
    var prompted := Prompted(base, sid, prompt, now, timeout, maxMessages);
    PromptedAlone(base, sid, prompt, now, timeout, maxMessages);
    var kept := SeedMessages(messages, prompt, now);
    SeedingAppendsKept(prompted, messages, prompt, now, maxMessages);
    assert prompted.messages + kept == [p] + kept;
    PromptThenKept(p, kept, maxMessages);
  }

  /** A prompted session holding a single message holds just the prompt. */
  lemma PromptedAlone(base: Sessions, sid: string, prompt: string, now: int, timeout: int, maxMessages: int)
    requires maxMessages >= 1
    requires |Prompted(base, sid, prompt, now, timeout, maxMessages).messages| == 1
    ensures Prompted(base, sid, prompt, now, timeout, maxMessages).messages == [ChatMessage(USER, prompt, now)]
  {
    var start := if sid in base && IsSessionValid(base[sid], now, timeout) then base[sid] else NewSession(sid, now);
    AppendKeepsNewest(start, ChatMessage(USER, prompt, now), now, maxMessages);
  }

  /** Seeding a session that holds one message appends the kept request
      messages behind it, under the bound. */
  lemma SeedingAppendsKept(prompted: ChatSession, messages: seq<RequestMessage>, prompt: string, now: int, maxMessages: int)
    requires maxMessages >= 1 && |prompted.messages| == 1
    requires forall k :: 0 <= k < |messages| ==> !messages[k].role.RoleNotText?
    ensures var seeding := Seeding(prompted, messages, prompt, now, maxMessages);
      !seeding.1 &&
      seeding.0.messages == Truncated(prompted.messages + SeedMessages(messages, prompt, now), maxMessages)
  {
    var kept := SeedMessages(messages, prompt, now);
    if messages == [] {
      assert prompted.messages + kept == prompted.messages;
    } else {
      SeededIsAppendAll(prompted, messages, prompt, now, maxMessages);
      AppendsKeepNewest(prompted, kept, now, maxMessages);
    }
  }

  /** The newest `maxMessages` of a message followed by others it differs
      from: everything when it fits, and without the first message when not. */
  lemma PromptThenKept(p: ChatMessage, kept: seq<ChatMessage>, maxMessages: int)
    requires maxMessages >= 1
    requires forall m :: m in kept ==> m != p
    ensures var h := Truncated([p] + kept, maxMessages);
      (1 + |kept| <= maxMessages ==> h == [p] + kept) &&
      (1 <= |kept| && 1 + |kept| <= maxMessages ==> |h| > 1 && AllButLast(h) == [p] + kept[..|kept| - 1]) &&
      (1 + |kept| > maxMessages ==> p !in h)
  {
    var all := [p] + kept;
    var h := Truncated(all, maxMessages);
    TruncatedBound(all, maxMessages);
    if 1 <= |kept| && 1 + |kept| <= maxMessages {
      assert AllButLast(h) == all[..|kept|];
      assert all[..|kept|] == [p] + kept[..|kept| - 1];
    }
    if 1 + |kept| > maxMessages {
      assert h == kept[|kept| - maxMessages..];
      forall i | 0 <= i < |h|
        ensures h[i] != p
      {
        assert h[i] in kept;
      }
    }
  }

  /** With a bound of five, the second `/chat` request of a new session shows
      the model the first exchange and not the new prompt. */
  lemma SecondChatSeesFirstExchange(id: string, first: string, reply: string, second: string, now: int)
    ensures
      var user1 := ChatMessage(USER, first, now);
      var assistant1 := ChatMessage(ASSISTANT, reply, now);
      var afterFirst := WithMessage(WithMessage(NewSession(id, now), user1, now, 5), assistant1, now, 5);
      var prompted := WithMessage(afterFirst, ChatMessage(USER, second, now), now, 5);
      AllButLast(Limited(prompted.messages, Some(HistoryLimit))) == [user1, assistant1]
  {
    var user1 := ChatMessage(USER, first, now);
    var assistant1 := ChatMessage(ASSISTANT, reply, now);
    FreshSessionHoldsOneMessage(id, user1, now, 5);
    var afterFirst := WithMessage(WithMessage(NewSession(id, now), user1, now, 5), assistant1, now, 5);
    assert afterFirst.messages == [user1, assistant1];
    var prompted := WithMessage(afterFirst, ChatMessage(USER, second, now), now, 5);
    assert prompted.messages == [user1, assistant1, ChatMessage(USER, second, now)];
  }

  /** A second update under the same key overrides the first. */
  lemma UpdateTwice(sessions: Sessions, sessionId: string, first: ChatSession, second: ChatSession)
    ensures sessions[sessionId := first][sessionId := second] == sessions[sessionId := second]
  {
  }

  /** `DELETE /sessions/{id}`: 200 when the store deleted the entry, 404
      exactly when there was none. */
  method DeleteSessionRoute(store: MemoryStore, sessionId: string) returns (status: int)
    requires store.Valid()
    modifies store
    ensures store.Valid()
    ensures status == if sessionId in old(store.sessions) then 200 else 404
    ensures store.sessions == old(store.sessions) - {sessionId}
  {
    var deleted := store.DeleteSession(sessionId);
    if !deleted {
      return 404;
    }
    return 200;
  }
}

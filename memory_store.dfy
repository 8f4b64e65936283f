/** The in-memory session store: a map from session id to session, each
    session holding a bounded, ordered list of messages. Sessions expire when
    they have not been updated for longer than the timeout; expired sessions
    are removed lazily when looked up and in bulk when the store is at
    capacity. Time is an explicit integer `now`, in microseconds. */
module SessionStore {
  import opened ChatModels
  import opened PyText
  import opened ConversationAdapter

  /** `timedelta(hours=1)` in microseconds. */
  const MicrosPerHour: int := 3_600_000_000

  type Sessions = map<string, ChatSession>

  /** `_is_session_valid`: not idle for longer than the timeout. */
  predicate IsSessionValid(session: ChatSession, now: int, timeout: int) {
    now - session.updatedAt <= timeout
  }

  function Min(a: int, b: int): int {
    if a <= b then a else b
  }

  /** Python's `s[k:]`; a negative `k` counts from the end. */
  function SliceFrom<T>(s: seq<T>, k: int): seq<T> {
    var start := if k >= 0 then k else |s| + k;
    if start <= 0 then s else if start >= |s| then [] else s[start..]
  }

  /** The truncation applied after every append:
      `if len(messages) > max: messages = messages[-max:]`. */
  function Truncated(messages: seq<ChatMessage>, maxMessages: int): seq<ChatMessage> {
    if |messages| > maxMessages then SliceFrom(messages, -maxMessages) else messages
  }

  /** A session after `message` is appended at time `now`. */
  function WithMessage(session: ChatSession, message: ChatMessage, now: int, maxMessages: int): ChatSession {
    session.(messages := Truncated(session.messages + [message], maxMessages), updatedAt := now)
  }

  /** A session freshly created at time `now`. */
  function NewSession(sessionId: string, now: int): ChatSession {
    ChatSession(sessionId, [], now, now)
  }

  /** The role `add_message` gives a role string: "user" in any letter case
      is USER, anything else ASSISTANT. */
  function ParseRole(role: string): MessageRole {
    if Lower(role) == "user" then USER else ASSISTANT
  }

  /** What `get_messages` returns of a stored list for a given `limit`
      (`None` standing for Python's `None`). */
  function Limited(messages: seq<ChatMessage>, limit: Option<int>): seq<ChatMessage> {
    if limit.Some? && limit.value > 0 then SliceFrom(messages, -limit.value) else messages
  }

  /** The result of `get_session`. */
  function Lookup(sessions: Sessions, sessionId: string, now: int, timeout: int): Option<ChatSession> {
    if sessionId in sessions && IsSessionValid(sessions[sessionId], now, timeout)
    then Some(sessions[sessionId]) else None
  }

  /** The map after `get_session`: an expired entry for the id is removed. */
  function Evicted(sessions: Sessions, sessionId: string, now: int, timeout: int): Sessions {
    if sessionId in sessions && !IsSessionValid(sessions[sessionId], now, timeout)
    then sessions - {sessionId} else sessions
  }

  /** The map after `_cleanup_old_sessions`. */
  function Unexpired(sessions: Sessions, now: int, timeout: int): Sessions {
    map id | id in sessions && IsSessionValid(sessions[id], now, timeout) :: sessions[id]
  }

  /** What `create_session` keeps before inserting: everything, unless the
      store is at capacity, in which case only the unexpired sessions. */
  function Reclaimed(sessions: Sessions, now: int, maxSessions: int, timeout: int): Sessions {
    if |sessions| >= maxSessions then Unexpired(sessions, now, timeout) else sessions
  }

  class MemoryStore {
    var sessions: Sessions
    const maxSessions: int
    const sessionTimeout: int
    const maxMessagesPerSession: int

    /** Every session is stored under its own id, and once truncation is
        effective (a bound of at least one) no session holds more messages
        than the bound. */
    ghost predicate Valid()
      reads this
    {
      forall id :: id in sessions ==>
        sessions[id].sessionId == id &&
        (maxMessagesPerSession >= 1 ==> |sessions[id].messages| <= maxMessagesPerSession)
    }

    /** `id` names a session that has not expired at `now`. */
    ghost predicate HasLive(sessionId: string, now: int)
      reads this
    {
      sessionId in sessions && IsSessionValid(sessions[sessionId], now, sessionTimeout)
    }

    constructor (maxSessions: int, sessionTimeoutHours: int, maxMessagesPerSession: int)
      ensures Valid() && sessions == map[]
      ensures this.maxSessions == maxSessions
      ensures this.sessionTimeout == sessionTimeoutHours * MicrosPerHour
      ensures this.maxMessagesPerSession == maxMessagesPerSession
    {
      sessions := map[];
      this.maxSessions := maxSessions;
      this.sessionTimeout := sessionTimeoutHours * MicrosPerHour;
      this.maxMessagesPerSession := maxMessagesPerSession;
    }

    /** `create_session`; `freshId` stands for the generated UUID. */
    method CreateSession(freshId: string, now: int) returns (sessionId: string)
      requires Valid() && freshId !in sessions
      modifies this
      ensures Valid() && sessionId == freshId
      ensures sessions == Reclaimed(old(sessions), now, maxSessions, sessionTimeout)[freshId := NewSession(freshId, now)]
    {
      sessionId := freshId;
      if |sessions| >= maxSessions {
        CleanupOldSessions(now);
      }
      sessions := sessions[sessionId := NewSession(sessionId, now)];
    }

    /** `get_session`: the session if it has not expired; an expired entry is
        deleted as a side effect. */
    method GetSession(sessionId: string, now: int) returns (session: Option<ChatSession>)
      requires Valid()
      modifies this
      ensures Valid()
      ensures session == Lookup(old(sessions), sessionId, now, sessionTimeout)
      ensures sessions == Evicted(old(sessions), sessionId, now, sessionTimeout)
    {
      if sessionId in sessions && IsSessionValid(sessions[sessionId], now, sessionTimeout) {
        return Some(sessions[sessionId]);
      } else if sessionId in sessions {
        sessions := sessions - {sessionId};
      }
      return None;
    }

    /** `add_message`: appends a message with the parsed role, creating the
        session under this id when it is missing or expired. It fails only
        when a freshly created session is already expired, which happens
        exactly when the timeout is negative. */
    method AddMessage(sessionId: string, role: string, content: string, now: int) returns (ok: bool)
      requires Valid()
      modifies this
      ensures Valid()
      ensures var message := ChatMessage(ParseRole(role), content, now);
        if old(HasLive(sessionId, now)) then
          ok && sessions == old(sessions)[sessionId := WithMessage(old(sessions)[sessionId], message, now, maxMessagesPerSession)]
        else if sessionTimeout >= 0 then
          ok && sessions == old(sessions)[sessionId := WithMessage(NewSession(sessionId, now), message, now, maxMessagesPerSession)]
        else
          !ok && sessions == old(sessions) - {sessionId}
    {
      var found := GetSession(sessionId, now);
      if found.None? {
        var _ := CreateSessionWithId(sessionId, now);
        found := GetSession(sessionId, now);
        if found.None? {
          return false;
        }
      }
      var message := ChatMessage(ParseRole(role), content, now);
      AppendAndTruncate(sessionId, found.value, message, now);
      return true;
    }

    /** The append, update-time refresh and truncation that `add_message`
        and `add_message_object` both perform on the session they found. */
    method AppendAndTruncate(sessionId: string, session: ChatSession, message: ChatMessage, now: int)
      requires Valid() && sessionId in sessions && sessions[sessionId] == session
      modifies this
      ensures Valid()
      ensures sessions == old(sessions)[sessionId := WithMessage(session, message, now, maxMessagesPerSession)]
    {
      var updated := session.(messages := session.messages + [message], updatedAt := now);
      if |updated.messages| > maxMessagesPerSession {
        updated := updated.(messages := SliceFrom(updated.messages, -maxMessagesPerSession));
      }
      TruncatedBound(session.messages + [message], maxMessagesPerSession);
      sessions := sessions[sessionId := updated];
    }

    /** `add_message_object`: appends a ready-made message to a live session;
        never creates one. */
    method AddMessageObject(sessionId: string, message: ChatMessage, now: int) returns (ok: bool)
      requires Valid()
      modifies this
      ensures Valid()
      ensures ok == old(HasLive(sessionId, now))
      ensures ok ==> sessions == old(sessions)[sessionId := WithMessage(old(sessions)[sessionId], message, now, maxMessagesPerSession)]
      ensures !ok ==> sessions == Evicted(old(sessions), sessionId, now, sessionTimeout)
    {
      var found := GetSession(sessionId, now);
      if found.None? {
        return false;
      }
      AppendAndTruncate(sessionId, found.value, message, now);
      return true;
    }

    /** `get_messages`: the stored messages of a live session, cut to the
        newest `limit` when `limit` is positive; empty for a missing or
        expired session. */
    method GetMessages(sessionId: string, limit: Option<int>, now: int) returns (messages: seq<ChatMessage>)
      requires Valid()
      modifies this
      ensures Valid()
      ensures sessions == Evicted(old(sessions), sessionId, now, sessionTimeout)
      ensures messages == if old(HasLive(sessionId, now)) then Limited(old(sessions)[sessionId].messages, limit) else []
    {
      var session := GetSession(sessionId, now);
      if session.None? {
        return [];
      }
      messages := session.value.messages;
      if limit.Some? && limit.value > 0 {
        messages := SliceFrom(messages, -limit.value);
      }
    }

    /** `get_messages_for_gemini`: the live session's messages in the
        provider's format. */
    method GetMessagesForGemini(sessionId: string, now: int) returns (geminiMessages: seq<GeminiMessage>)
      requires Valid()
      modifies this
      ensures Valid()
      ensures sessions == Evicted(old(sessions), sessionId, now, sessionTimeout)
      ensures geminiMessages == ToGeminiFormat(if old(HasLive(sessionId, now)) then old(sessions)[sessionId].messages else [])
    {
      var messages := GetMessages(sessionId, None, now);
      geminiMessages := [];
      for i := 0 to |messages|
        invariant geminiMessages == ToGeminiFormat(messages[..i])
      {
        var role := if messages[i].role == USER then "user" else "model";
        geminiMessages := geminiMessages + [GeminiMessage(role, [messages[i].content])];
        assert messages[..i + 1][..i] == messages[..i];
      }
      assert messages[..|messages|] == messages;
    }

    /** `create_session_with_id`: inserts an empty session unless the id is
        already present (expired or not). */
    method CreateSessionWithId(sessionId: string, now: int) returns (id: string)
      requires Valid()
      modifies this
      ensures Valid() && id == sessionId
      ensures sessions == if sessionId in old(sessions) then old(sessions) else old(sessions)[sessionId := NewSession(sessionId, now)]
    {
      if sessionId in sessions {
        return sessionId;
      }
      sessions := sessions[sessionId := NewSession(sessionId, now)];
      return sessionId;
    }

    /** `delete_session`: removes the entry, expired or not. */
    method DeleteSession(sessionId: string) returns (ok: bool)
      requires Valid()
      modifies this
      ensures Valid()
      ensures ok == (sessionId in old(sessions))
      ensures sessions == old(sessions) - {sessionId}
    {
      if sessionId in sessions {
        sessions := sessions - {sessionId};
        return true;
      }
      return false;
    }

    /** `get_session_count`: the number of entries, expired ones included. */
    function SessionCount(): nat
      reads this
    {
      |sessions|
    }

    /** `get_session_info`: a summary of a live session. */
    method GetSessionInfo(sessionId: string, now: int) returns (info: Option<SessionInfo>)
      requires Valid()
      modifies this
      ensures Valid()
      ensures sessions == Evicted(old(sessions), sessionId, now, sessionTimeout)
      ensures info == if old(HasLive(sessionId, now)) then
          var s := old(sessions)[sessionId];
          Some(SessionInfo(sessionId, |s.messages|, s.createdAt, s.updatedAt, maxMessagesPerSession))
        else None
    {
      var session := GetSession(sessionId, now);
      if session.None? {
        return None;
      }
      var s := session.value;
      return Some(SessionInfo(s.sessionId, |s.messages|, s.createdAt, s.updatedAt, maxMessagesPerSession));
    }

    /** `clear_session_messages`: empties a live session's messages and
        refreshes its update time, keeping its id and creation time. */
    method ClearSessionMessages(sessionId: string, now: int) returns (ok: bool)
      requires Valid()
      modifies this
      ensures Valid()
      ensures ok == old(HasLive(sessionId, now))
      ensures ok ==> sessions == old(sessions)[sessionId := old(sessions)[sessionId].(messages := [], updatedAt := now)]
      ensures !ok ==> sessions == Evicted(old(sessions), sessionId, now, sessionTimeout)
    {
      var session := GetSession(sessionId, now);
      if session.None? {
        return false;
      }
      sessions := sessions[sessionId := session.value.(messages := [], updatedAt := now)];
      return true;
    }

    /** `_cleanup_old_sessions`: collects the expired ids, then deletes them
        one by one. */
    method CleanupOldSessions(now: int)
      requires Valid()
      modifies this
      ensures Valid()
      ensures sessions == Unexpired(old(sessions), now, sessionTimeout)
    {
      var expired := set id | id in sessions && !IsSessionValid(sessions[id], now, sessionTimeout);
      ghost var allExpired := expired;
      while expired != {}
        invariant Valid()
        invariant expired <= allExpired
        invariant sessions == map id | id in old(sessions) && (id !in allExpired || id in expired) :: old(sessions)[id]
        decreases expired
      {
        var id :| id in expired;
        sessions := sessions - {id};
        expired := expired - {id};
      }
    }
  }

  /** Truncation with a bound of at least one keeps exactly the newest
      `min(bound, length)` messages, in order. */
  lemma TruncatedBound(messages: seq<ChatMessage>, maxMessages: int)
    ensures var r := Truncated(messages, maxMessages);
      maxMessages >= 1 ==> |r| == Min(maxMessages, |messages|) && r == messages[|messages| - |r|..]
  {
  }

  /** Python's `messages[-0:]` is the whole list, so a bound of zero never
      truncates anything. */
  lemma ZeroBoundKeepsAll(messages: seq<ChatMessage>)
    ensures Truncated(messages, 0) == messages
  {
  }

  /** After an append with a bound of at least one, the session holds at most
      the bound, the newest retained message is the one just added, the
      retained messages are the newest of the old list plus it, and the id and
      creation time are unchanged. */
  lemma AppendKeepsNewest(session: ChatSession, message: ChatMessage, now: int, maxMessages: int)
    requires maxMessages >= 1
    ensures var after := WithMessage(session, message, now, maxMessages).messages;
      var all := session.messages + [message];
      |after| == Min(maxMessages, |all|) && after == all[|all| - |after|..] &&
      after[|after| - 1] == message
    ensures WithMessage(session, message, now, maxMessages).sessionId == session.sessionId
    ensures WithMessage(session, message, now, maxMessages).createdAt == session.createdAt
    ensures WithMessage(session, message, now, maxMessages).updatedAt == now
  {
    TruncatedBound(session.messages + [message], maxMessages);
  }

  /** A session created for an append holds exactly that one message,
      provided the bound is not negative. */
  lemma FreshSessionHoldsOneMessage(sessionId: string, message: ChatMessage, now: int, maxMessages: int)
    requires maxMessages >= 0
    ensures WithMessage(NewSession(sessionId, now), message, now, maxMessages).messages == [message]
  {
    assert NewSession(sessionId, now).messages + [message] == [message];
  }

  /** Truncating before an append and truncating after it agree: cutting the
      old list to its newest `max` loses nothing the next cut would keep. */
  lemma TruncatedAbsorbs(messages: seq<ChatMessage>, message: ChatMessage, maxMessages: int)
    requires maxMessages >= 1
    ensures Truncated(Truncated(messages, maxMessages) + [message], maxMessages) == Truncated(messages + [message], maxMessages)
  {
    var all := messages + [message];
    var t := Truncated(messages, maxMessages);
    TruncatedBound(messages, maxMessages);
    var k := |messages| - |t|;
    assert t + [message] == all[k..];
    var r := Truncated(t + [message], maxMessages);
    TruncatedBound(t + [message], maxMessages);
    TruncatedBound(all, maxMessages);
    assert |r| == Min(maxMessages, |all|);
    DropTwice(all, k, |t| + 1 - |r|);
  }

  /** Dropping `i` elements and then `j` drops `i + j`. */
  lemma DropTwice(s: seq<ChatMessage>, i: nat, j: nat)
    requires i + j <= |s|
    ensures s[i..][j..] == s[i + j..]
  {
  }

  /** The session after appending `messages` one by one. */
  function AppendAll(session: ChatSession, messages: seq<ChatMessage>, now: int, maxMessages: int): ChatSession {
    if messages == [] then session
    else
      WithMessage(AppendAll(session, messages[..|messages| - 1], now, maxMessages),
                  messages[|messages| - 1], now, maxMessages)
  }

  /** After any sequence of appends, a session within the bound holds exactly
      the newest `min(bound, total)` messages of everything it was given, in
      append order. */
  lemma {:induction false} AppendsKeepNewest(session: ChatSession, messages: seq<ChatMessage>, now: int, maxMessages: int)
    requires maxMessages >= 1 && |session.messages| <= maxMessages
    ensures AppendAll(session, messages, now, maxMessages).messages == Truncated(session.messages + messages, maxMessages)
  {
    if messages == [] {
      assert session.messages + messages == session.messages;
    } else {
      var init := messages[..|messages| - 1];
      var last := messages[|messages| - 1];
      AppendsKeepNewest(session, init, now, maxMessages);
      TruncatedAbsorbs(session.messages + init, last, maxMessages);
      assert session.messages + init + [last] == session.messages + messages;
    }
  }

  /** Eight appends to an empty session with a bound of five keep appends
      four to eight; the oldest retained message is the fourth. */
  lemma EightAppendsKeepLastFive(sessionId: string, messages: seq<ChatMessage>, now: int)
    requires |messages| == 8
    ensures var kept := AppendAll(NewSession(sessionId, now), messages, now, 5).messages;
      kept == messages[3..] && kept[0] == messages[3]
  {
    AppendsKeepNewest(NewSession(sessionId, now), messages, now, 5);
    assert NewSession(sessionId, now).messages + messages == messages;
  }

  /** A positive limit gives the newest `min(limit, length)` messages in
      order; no limit, zero or a negative limit gives all of them. */
  lemma LimitedIsNewest(messages: seq<ChatMessage>, limit: Option<int>)
    ensures var r := Limited(messages, limit);
      if limit.Some? && limit.value > 0 then
        |r| == Min(limit.value, |messages|) && r == messages[|messages| - |r|..]
      else r == messages
  {
  }

  /** Only "user", in any letter case, parses to USER; SYSTEM is never
      produced; lower-casing first does not change the outcome. */
  lemma ParseRoleCases(role: string)
    ensures ParseRole(role) == USER <==> Lower(role) == "user"
    ensures ParseRole(role) != SYSTEM
    ensures ParseRole(Lower(role)) == ParseRole(role)
  {
    LowerIdempotent(role);
  }

  /** `get_session` never yields an expired session, and what it leaves in
      the map under the id is live; an absent id leaves the map unchanged. */
  lemma LookupNeverExpired(sessions: Sessions, sessionId: string, now: int, timeout: int)
    ensures Lookup(sessions, sessionId, now, timeout).Some? ==>
      IsSessionValid(Lookup(sessions, sessionId, now, timeout).value, now, timeout)
    ensures sessionId in Evicted(sessions, sessionId, now, timeout) ==>
      IsSessionValid(Evicted(sessions, sessionId, now, timeout)[sessionId], now, timeout)
    ensures sessionId !in sessions ==> Evicted(sessions, sessionId, now, timeout) == sessions
  {
  }

  /** Looking up an expired session lowers the session count by one; any
      other lookup leaves it as it was. */
  lemma EvictionDropsCount(sessions: Sessions, sessionId: string, now: int, timeout: int)
    ensures |Evicted(sessions, sessionId, now, timeout)| ==
      if sessionId in sessions && !IsSessionValid(sessions[sessionId], now, timeout)
      then |sessions| - 1 else |sessions|
  {
    if sessionId in sessions && !IsSessionValid(sessions[sessionId], now, timeout) {
      assert (sessions - {sessionId}).Keys == sessions.Keys - {sessionId};
    }
  }

  /** `_is_session_valid` is inclusive: a session idle for exactly the timeout
      is still valid, one microsecond more expires it, and a session valid now
      was valid at every earlier moment. */
  lemma SessionValidity(session: ChatSession, now: int, earlier: int, timeout: int)
    ensures IsSessionValid(session, session.updatedAt + timeout, timeout)
    ensures !IsSessionValid(session, session.updatedAt + timeout + 1, timeout)
    ensures earlier <= now && IsSessionValid(session, now, timeout) ==>
      IsSessionValid(session, earlier, timeout)
  {
  }

  /** The ids whose sessions have been idle for longer than the timeout. */
  ghost function ExpiredIds(sessions: Sessions, now: int, timeout: int): set<string> {
    set id | id in sessions && !IsSessionValid(sessions[id], now, timeout)
  }

  /** `get_session_count` counts every stored entry: the live sessions plus
      the expired ones no lookup or cleanup has removed yet, so it exceeds the
      number of active sessions as soon as one stored session has expired. */
  lemma SessionCountIncludesExpired(store: MemoryStore, now: int)
    ensures store.SessionCount() ==
      |Unexpired(store.sessions, now, store.sessionTimeout)| +
      |ExpiredIds(store.sessions, now, store.sessionTimeout)|
    ensures (exists id :: id in store.sessions &&
               !IsSessionValid(store.sessions[id], now, store.sessionTimeout)) ==>
      store.SessionCount() > |Unexpired(store.sessions, now, store.sessionTimeout)|
  {
    var sessions, timeout := store.sessions, store.sessionTimeout;
    var live := Unexpired(sessions, now, timeout).Keys;
    var expired := ExpiredIds(sessions, now, timeout);
    assert sessions.Keys == live + expired;
    assert live * expired == {};
    if id :| id in sessions && !IsSessionValid(sessions[id], now, timeout) {
      assert id in expired;
    }
  }

  /** At capacity, creation keeps exactly the live sessions unchanged and
      drops every expired one. */
  lemma ReclaimedKeepsExactlyLive(sessions: Sessions, now: int, maxSessions: int, timeout: int)
    requires |sessions| >= maxSessions
    ensures forall id :: id in Reclaimed(sessions, now, maxSessions, timeout) <==>
      id in sessions && IsSessionValid(sessions[id], now, timeout)
    ensures forall id :: id in Reclaimed(sessions, now, maxSessions, timeout) ==>
      Reclaimed(sessions, now, maxSessions, timeout)[id] == sessions[id]
  {
  }

  /** Creation has no rejection path: when the store is full of live
      sessions, creating one more takes it past its capacity. */
  lemma CreationMayExceedCapacity(sessions: Sessions, freshId: string, now: int, maxSessions: int, timeout: int)
    requires freshId !in sessions && |sessions| >= maxSessions
    requires forall id :: id in sessions ==> IsSessionValid(sessions[id], now, timeout)
    ensures |Reclaimed(sessions, now, maxSessions, timeout)[freshId := NewSession(freshId, now)]| == |sessions| + 1
    ensures |Reclaimed(sessions, now, maxSessions, timeout)[freshId := NewSession(freshId, now)]| > maxSessions
  {
    assert Unexpired(sessions, now, timeout) == sessions;
  }
}

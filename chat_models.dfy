/** Data model of the chat backend: the roles, messages and sessions that the
    session store keeps. Timestamps are integers (microseconds since an
    arbitrary epoch), standing for the UTC datetimes of the source. */
module ChatModels {

  datatype Option<+T> = None | Some(value: T)

  /** Who produced a message. */
  datatype MessageRole = USER | ASSISTANT | SYSTEM

  /** One chat turn; immutable once created. */
  datatype ChatMessage = ChatMessage(role: MessageRole, content: string, timestamp: int)

  /** A conversation: its id, its ordered messages (oldest first) and the
      times it was created and last updated. */
  datatype ChatSession = ChatSession(
    sessionId: string,
    messages: seq<ChatMessage>,
    createdAt: int,
    updatedAt: int)

  /** The summary returned by the store's session-info query. */
  datatype SessionInfo = SessionInfo(
    sessionId: string,
    messageCount: nat,
    createdAt: int,
    updatedAt: int,
    maxMessages: int)
}

/** The shape in which stored messages are handed to the Gemini model: each
    message becomes a role label and a one-element list of parts. Both the
    session store and the Gemini service build this shape; this module
    states once what it is. */
module ConversationAdapter {
  import opened ChatModels

  /** `{"role": role, "parts": parts}` */
  datatype GeminiMessage = GeminiMessage(role: string, parts: seq<string>)

  /** USER becomes "user"; every other role, SYSTEM included, becomes "model". */
  function GeminiRole(role: MessageRole): string {
    if role == USER then "user" else "model"
  }

  /** The converted list, built front to back as the source's loops build it:
      same length, same order, each entry relabelled and carrying exactly the
      message's content. */
  function ToGeminiFormat(messages: seq<ChatMessage>): (r: seq<GeminiMessage>)
    ensures |r| == |messages|
    ensures forall i :: 0 <= i < |messages| ==>
      r[i] == GeminiMessage(GeminiRole(messages[i].role), [messages[i].content])
  {
    if messages == [] then []
    else
      var last := messages[|messages| - 1];
      ToGeminiFormat(messages[..|messages| - 1]) + [GeminiMessage(GeminiRole(last.role), [last.content])]
  }
}

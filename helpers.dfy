/** The front end's message builder (frontend/src/client/helpers.ts):
    a single-text-part message on a conversation. The message id, which
    the source draws from `uuidv4()`, is a parameter. */
module Helpers {
  import opened Results
  import A2A
  import PartConversion

  datatype MessageRole = UserRole | AgentRole

  /** A front-end message part: its `type` tag and its text. */
  datatype ClientPart = ClientPart(typeTag: string, text: string)

  datatype ClientMessage = ClientMessage(
    contextId: string, role: MessageRole, parts: seq<ClientPart>, messageId: string, typeTag: string)

  /** `createTextMessageObject(contextId, role = 'user', content = '')`;
      an omitted argument is None. */
  function CreateTextMessageObject(contextId: string, role: Option<MessageRole>, content: Option<string>,
                                   messageId: string): (m: ClientMessage)
    ensures m.contextId == contextId && m.messageId == messageId && m.typeTag == "message"
    ensures m.role == if role.Some? then role.value else UserRole
    ensures m.parts == [ClientPart("text", if content.Some? then content.value else "")]
  {
    ClientMessage(contextId, role.GetOr(UserRole), [ClientPart("text", content.GetOr(""))], messageId, "message")
  }

  /** The protocol message the server reads from a front-end message; the
      front end only ever builds text parts, so each part is read as one. */
  function ToProtocolMessage(m: ClientMessage): A2A.Message
  {
    A2A.Message(if m.role == UserRole then A2A.User else A2A.Agent,
                seq(|m.parts|, i requires 0 <= i < |m.parts| => A2A.TextPart(m.parts[i].text)),
                Some(m.contextId), None)
  }

  /** A message built by the front end is accepted by the executor's part
      conversion: it becomes exactly one framework text part with the
      content, on the same conversation. */
  lemma CreatedMessageIsAccepted(contextId: string, role: Option<MessageRole>, content: Option<string>, messageId: string)
    ensures var message := ToProtocolMessage(CreateTextMessageObject(contextId, role, content, messageId));
            var converted := PartConversion.ToGenaiParts(message.parts);
            message.contextId == Some(contextId)
            && converted.Success? && |converted.value| == 1
            && converted.value[0].text == Some(content.GetOr(""))
  {
    var message := ToProtocolMessage(CreateTextMessageObject(contextId, role, content, messageId));
    assert message.parts == [A2A.TextPart(content.GetOr(""))];
    assert PartConversion.Supported(message.parts[0]);
  }
}

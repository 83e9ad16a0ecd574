/** Value types of the chat backend: roles, messages, conversations and the
    request body that adds a message, plus the Option/Result wrappers that
    stand for Python's `None` and its raised exceptions. */
module Dtos {

  datatype Option<+T> = None | Some(value: T)

  /** The two authors a message can have; nothing else is a valid role. */
  datatype Role = User | Assistant

  /** The wire value of a role (`ChatMessageRoleEnum.value`). */
  function RoleValue(r: Role): (s: string)
    ensures s == "user" || s == "assistant"
    ensures s != "system"
  {
    match r
    case User => "user"
    case Assistant => "assistant"
  }

  /** `RoleValue` tells the two roles apart, so the role survives the
      translation into a transcript entry. */
  lemma RoleValueInjective(a: Role, b: Role)
    requires RoleValue(a) == RoleValue(b)
    ensures a == b
  {
  }

  datatype ChatMessage = ChatMessage(id: string, message: string, role: Role)

  /** A conversation. `context` is free text steering generation; "" means
      no context. */
  datatype Chat = Chat(id: string, messages: seq<ChatMessage>, context: string)

  /** A conversation exactly as its schema declares it: no `context` field. */
  datatype DeclaredChat = DeclaredChat(id: string, messages: seq<ChatMessage>)

  /** The body of a request that appends a message. */
  datatype CreateChatMessageDto = CreateChatMessageDto(message: string, role: Role)

  /** Failures the store raises. `UnknownField` is what assigning a field
      the schema does not declare raises. */
  datatype ServiceError = ChatNotFound | UnknownField

  datatype Result<+T> = Ok(value: T) | Err(error: ServiceError)
}

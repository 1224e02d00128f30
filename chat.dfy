/** A chat message in the `{"role": ..., "content": ...}` shape that model APIs take. */
module Chat {

  datatype Message = Message(role: string, content: string)

  const UserRole := "user"
  const AssistantRole := "assistant"
  const SystemRole := "system"
}

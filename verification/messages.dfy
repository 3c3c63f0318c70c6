/**
 * Chat messages as the memory core builds them: a role from a fixed
 * enumeration, and content that is plain text, a list of typed parts, or
 * (for the input echo of an action step) the raw list of input messages.
 */
module Messages {
  import opened Wrappers

  /** Images are referenced by the strings the agent stores for them. */
  type ImageRef = string

  datatype Role = System | User | Assistant | ToolResponse {
    /** The string value of the corresponding `MessageRole` member. */
    function Wire(): string {
      match this
      case System => "system"
      case User => "user"
      case Assistant => "assistant"
      case ToolResponse => "tool-response"
    }
  }

  /** The role whose wire string is `name`, if there is one. */
  function RoleNamed(name: string): (r: Option<Role>)
    ensures r.Some? ==> r.value.Wire() == name
  {
    if name == "system" then Some(System)
    else if name == "user" then Some(User)
    else if name == "assistant" then Some(Assistant)
    else if name == "tool-response" then Some(ToolResponse)
    else None
  }

  lemma WireRoundTrip(role: Role)
    ensures RoleNamed(role.Wire()) == Some(role)
  {
  }

  /** `{"type": "text", "text": ...}` or `{"type": "image", "image": ...}`. */
  datatype Part = Text(text: string) | Image(image: ImageRef)

  datatype Content =
    | Parts(parts: seq<Part>)
    | Plain(text: string)
    | Echo(messages: seq<Message>)

  datatype Message = Message(role: Role, content: Content)

  /** A message whose content is a single text part. */
  function TextMessage(role: Role, text: string): Message {
    Message(role, Parts([Text(text)]))
  }
}

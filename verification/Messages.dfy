/** The conversation messages that the context code passes around (src/ollama/types.ts). */
module Messages {

  datatype Option<+T> = None | Some(value: T)

  datatype Role = System | User | Assistant | Tool

  /** `toolCalls` is `None` where the source's optional `tool_calls` is absent; an empty list is present. */
  datatype Message = Message(role: Role, content: string, toolCalls: Option<seq<string>>)

  function Max(a: int, b: int): int {
    if a < b then b else a
  }

  function Min(a: int, b: int): int {
    if a < b then a else b
  }
}

/** The value types shared by the chat front-end (types.ts). */
module Types {
  import opened Wrappers

  /** Who produced a turn of the conversation. */
  datatype Role = User | Assistant | System

  /** The optional presentation tag of a turn; nothing in the core sets it. */
  datatype MessageKind = Thought | Hint | Question | Explanation

  /** One turn of the conversation. `imageUrl` is an optional data URI. */
  datatype Message = Message(
    id: string,
    role: Role,
    content: string,
    timestamp: int,
    imageUrl: Option<string>,
    kind: Option<MessageKind>)

  /** The progress of one step of the learning journey. */
  datatype StepStatus = Pending | Current | Completed

  /** One step of the learning journey (`label` is a Dafny keyword, so the
      field is called `caption`). */
  datatype Step = Step(id: string, caption: string, status: StepStatus)

  /** JavaScript truthiness of an optional string: absent and "" are both falsy. */
  predicate Truthy(s: Option<string>)
  {
    s.Some? && s.value != ""
  }
}

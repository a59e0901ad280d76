/** The value shapes shared by the chat client: transcript messages and model replies. */
module ChatTypes {

  /** A value that may be absent (`undefined` or `null` in the client). */
  datatype Option<+T> = None | Some(value: T)

  /** Who authored a transcript entry. */
  datatype Role = User | Assistant | System

  /** Token accounting the model returns with a reply. */
  datatype Usage = Usage(completionTokens: int, promptTokens: int, totalTokens: int)

  /**
   * One transcript entry. `usage` and `timeOfResponse` (milliseconds) stay
   * absent except on an assistant entry that has been reconciled.
   */
  datatype Message = Message(role: Role, content: string, usage: Option<Usage>, timeOfResponse: Option<int>)

  /** The reply text of one choice; its role is always `assistant`. */
  datatype ResponseMessage = ResponseMessage(content: string)

  datatype Choice = Choice(message: ResponseMessage)

  /** The parsed body of a model reply. */
  datatype ChatResponse = ChatResponse(choices: seq<Choice>, usage: Option<Usage>)

  /** A transcript entry as the client first creates it, with no reply metadata. */
  function Fresh(role: Role, content: string): (m: Message)
    ensures m.role == role && m.content == content
    ensures m.usage.None? && m.timeOfResponse.None?
  {
    Message(role, content, None, None)
  }
}

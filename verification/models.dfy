/** The request and response records of the chat endpoint. */
module Models {
  import opened Wrappers

  /** One conversation turn; `role` is "user" or "assistant" by convention, but any
      string is accepted. */
  datatype Message = Message(role: string, content: string)

  /** The request body. The history is optional and may be sent as `null`, which is
      `None` here; an omitted history is the empty list. */
  datatype ChatRequest = ChatRequest(message: string, conversationHistory: Option<seq<Message>>)

  datatype ChatResponse = ChatResponse(response: string, conversationHistory: seq<Message>)
}

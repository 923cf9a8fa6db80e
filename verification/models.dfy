/**
 The chat-completion records exchanged with the front door and the two
 backends (internal/models/types.go) and the client configuration
 (internal/clients/types.go).

 Go slices are sequences; a nil slice and an empty slice are the same value
 here. `Temperature` is a `float32` in Go and a `real` here.
 */
module Models {

  datatype Message = Message(role: string, content: string, reasoning: seq<string>)

  datatype Request = Request(
    model: string,
    messages: seq<Message>,
    stream: bool,
    requestId: string,
    temperature: real,
    maxTokens: int)

  datatype Choice = Choice(message: Message, finishReason: string)

  datatype Response = Response(
    id: string,
    objectType: string,
    created: int,
    model: string,
    choices: seq<Choice>)

  datatype ClientConfig = ClientConfig(
    apiBase: string,
    model: string,
    disabledParams: seq<string>)

  const System: string := "system"
  const User: string := "user"
  const Assistant: string := "assistant"
  const Stop: string := "stop"

  /** A request as the stages build it: a model, a system prompt and one user turn; every other field zero. */
  function TwoMessageRequest(model: string, systemPrompt: string, userInput: string, stream: bool): (r: Request)
    ensures r.model == model && r.stream == stream
    ensures |r.messages| == 2
    ensures r.messages[0] == Message(System, systemPrompt, [])
    ensures r.messages[1] == Message(User, userInput, [])
    ensures r.requestId == "" && r.temperature == 0.0 && r.maxTokens == 0
  {
    Request(model, [Message(System, systemPrompt, []), Message(User, userInput, [])], stream, "", 0.0, 0)
  }

  /** A response holding exactly one finished assistant choice; the id, object type, created and model fields are zero. */
  function AssistantReply(content: string, reasoning: seq<string>): (r: Response)
    ensures |r.choices| == 1
    ensures r.choices[0].message == Message(Assistant, content, reasoning)
    ensures r.choices[0].finishReason == Stop
    ensures r.id == "" && r.objectType == "" && r.created == 0 && r.model == ""
  {
    Response("", "", 0, "", [Choice(Message(Assistant, content, reasoning), Stop)])
  }
}

/** What the adapters send to the provider SDKs and what they get back,
    reduced to the parts the service reads. The SDK clients themselves are
    outside this model: each adapter holds a client as a function from the
    request it sends to the response or the exception the SDK call ends
    with. */
module Upstream {

  import opened Options
  import opened Json
  import opened Tools
  import opened Exceptions
  import opened DateTimes

  /** One `{"type": "text", "text": ...}` part of a message. */
  datatype Part = TextPart(text: string)

  /** A message's `"content"`: a plain string (the system message) or a
      list of parts (the user message). */
  datatype Content = PlainContent(text: string) | PartsContent(parts: seq<Part>)

  /** A `{"role": ..., "content": ...}` chat message. */
  datatype Message = Message(role: string, content: Content)

  /** One entry of the `functions` list of `chat.completions.create`. */
  datatype FunctionSpec = FunctionSpec(name: string, description: string, parameters: Json)

  /** A chat-completions request, through either SDK entry point. */
  datatype ChatRequest =
      /** `client.beta.chat.completions.parse(model, messages,
          max_completion_tokens, response_format)` */
    | ParseRequest(model: string, messages: seq<Message>, maxCompletionTokens: int,
                   responseFormat: PydanticModel)
      /** `client.chat.completions.create(model, messages, functions,
          function_call={"name": ...}, max_completion_tokens)` */
    | CreateRequest(model: string, messages: seq<Message>, functions: seq<FunctionSpec>,
                    functionCall: string, maxCompletionTokens: int)

  /** `message.function_call`: its `arguments` string. */
  datatype FunctionCall = FunctionCall(arguments: string)

  /** `completion.choices[i].message`: the optional content, function call
      and refusal, and its printed form (what an f-string shows). */
  datatype ChatMessage = ChatMessage(
    content: Option<string>, functionCall: Option<FunctionCall>,
    refusal: Option<string>, printed: string)

  /** A chat completion: the model that answered, `usage.prompt_tokens`,
      `usage.completion_tokens`, and the messages of `choices`. */
  datatype Completion = Completion(
    model: string, promptTokens: int, completionTokens: int, choices: seq<ChatMessage>)

  /** The OpenAI SDK client (also used for xAI). */
  type ChatClient = ChatRequest -> Result<Completion, Exc>

  /** One entry of the `tools` list of `messages.create`. */
  datatype ToolSpec = ToolSpec(name: string, description: string, inputSchema: Json)

  /** `tool_choice={"type": ..., "name": ...}` */
  datatype ToolChoice = ToolChoice(choiceType: string, name: string)

  /** `client.messages.create(model, max_tokens, tools, tool_choice,
      system, messages)`; `messages` is passed on as the caller gave it. */
  datatype MessagesRequest = MessagesRequest(
    model: string, maxTokens: int, tools: seq<ToolSpec>, toolChoice: ToolChoice,
    system: string, messages: Option<seq<Message>>)

  /** A block of `response.content`: a `tool_use` block carries the `input`
      the model produced; other blocks have no `input` attribute. */
  datatype ContentBlock = ToolUseBlock(input: Json) | TextBlock(text: string)

  /** A messages response: the model that answered, `usage.input_tokens`,
      `usage.output_tokens`, and the content blocks. */
  datatype MessagesResponse = MessagesResponse(
    model: string, inputTokens: int, outputTokens: int, content: seq<ContentBlock>)

  /** The Anthropic SDK client. */
  type MessagesClient = MessagesRequest -> Result<MessagesResponse, Exc>

  /** What a call takes from its surroundings: `json.loads`, the message of
      the `ValidationError` pydantic raises when a result that is not a dict
      is stored in `CallAPIResult.result`, and `datetime.utcnow()`. */
  datatype CallEnv = CallEnv(loads: Loads, notADict: Json -> string, now: DateTime)
}

/** The four task methods of `BaseLLMAPI` (`app/llm_interface.py`):
    `generate_email_response`, `rewrite_message`, `basic_prompt_response`
    and `summarize_text`. Each prepares the call for its own tool with its
    text under its own placeholder, raises the token budget to 4096 and
    hands the arguments to the adapter's `call_api`. The four are one
    function here, over a `Task` naming the method. */
module LlmTasks {

  import opened Options
  import opened Exceptions
  import opened Tools
  import opened Registry
  import opened PyFormat
  import opened Upstream
  import opened LlmInterface
  import opened CallResults
  import ToolsInit
  import EmailTool
  import MessageRewriteTool
  import PromptResponseTool
  import TextSummaryTool
  import OpenAiApi
  import XaiApi
  import AnthropicApi

  datatype Task = Email | MessageRewrite | PromptResponse | TextSummary

  /** The tool each task method asks for. */
  function ToolName(task: Task): (name: string)
    ensures name in ToolsInit.ToolNames
  {
    match task
    case Email => "email"
    case MessageRewrite => "message_rewrite"
    case PromptResponse => "prompt_response"
    case TextSummary => "text_summary"
  }

  /** The keyword under which each task method passes its text. */
  function Placeholder(task: Task): (key: string)
  {
    match task
    case Email => "email_body"
    case MessageRewrite => "message_content"
    case PromptResponse => "prompt"
    case TextSummary => "text_body"
  }

  /** The four tasks use four different tools. */
  lemma ToolNamesDistinct(a: Task, b: Task)
    ensures ToolName(a) == ToolName(b) <==> a == b
  {
  }

  /** The adapter object a task method runs on. */
  datatype Api =
    | OpenAi(openAi: OpenAiApi.OpenAiApi)
    | Xai(xai: XaiApi.XaiApi)
    | Anthropic(anthropic: AnthropicApi.AnthropicApi)

  predicate Valid(api: Api)
  {
    match api
    case OpenAi(a) => a.Valid()
    case Xai(a) => a.Valid()
    case Anthropic(a) => a.Valid()
  }

  function SettingsOf(api: Api): (s: Settings)
  {
    match api
    case OpenAi(a) => a.settings
    case Xai(a) => a.settings
    case Anthropic(a) => a.settings
  }

  function ToolMapOf(api: Api): (m: ToolDict)
  {
    match api
    case OpenAi(a) => a.toolMap
    case Xai(a) => a.toolMap
    case Anthropic(a) => a.toolMap
  }

  /** The request an adapter sent, by SDK. */
  datatype Sent = ChatSent(chat: ChatRequest) | MessagesSent(messages: MessagesRequest)

  function SentModel(s: Sent): (model: string)
  {
    match s
    case ChatSent(q) => q.model
    case MessagesSent(q) => q.model
  }

  function SentMaxTokens(s: Sent): (n: int)
  {
    match s
    case ChatSent(q) => q.maxCompletionTokens
    case MessagesSent(q) => q.maxTokens
  }

  /** The system prompt a request carries: the head message of a chat
      request, the `system` argument of a messages request. */
  function SentSystem(s: Sent): (system: Option<string>)
  {
    match s
    case ChatSent(q) =>
      if q.messages != [] && q.messages[0].content.PlainContent? then Some(q.messages[0].content.text) else None
    case MessagesSent(q) => Some(q.system)
  }

  /** The caller's messages as a request carries them: after the system
      message of a chat request, as the `messages` argument otherwise. */
  function SentMessages(s: Sent): (messages: Option<seq<Message>>)
  {
    match s
    case ChatSent(q) => if q.messages != [] then Some(q.messages[1..]) else None
    case MessagesSent(q) => q.messages
  }

  function ChatOutcome(o: Outcome<ChatRequest>): (r: Outcome<Sent>)
    ensures r.result == o.result
    ensures r.sent.Some? <==> o.sent.Some?
    ensures r.sent.Some? ==> r.sent.value == ChatSent(o.sent.value)
  {
    Outcome(o.result, if o.sent.Some? then Some(ChatSent(o.sent.value)) else None)
  }

  function MessagesOutcome(o: Outcome<MessagesRequest>): (r: Outcome<Sent>)
    ensures r.result == o.result
    ensures r.sent.Some? <==> o.sent.Some?
    ensures r.sent.Some? ==> r.sent.value == MessagesSent(o.sent.value)
  {
    Outcome(o.result, if o.sent.Some? then Some(MessagesSent(o.sent.value)) else None)
  }

  /** `self.call_api(**api_params)` on whichever adapter: it fails only
      with `InvalidModelError` (for a model it does not know, sending
      nothing) or `ServerError`, and whatever it sends carries the
      prepared budget, model, system prompt and messages. */
  function CallApi(api: Api, p: ApiParams, env: CallEnv): (o: Outcome<Sent>)
    requires Valid(api)
    ensures o.result.Err? ==> o.result.error.kind == InvalidModelError || o.result.error.kind == ServerError
    ensures var m := ModelOrDefault(Some(p.model), SettingsOf(api).defaultModel);
      !IsValidModel(SettingsOf(api), m) ==> o == Outcome(Err(InvalidModel(SettingsOf(api), m)), None)
    ensures o.sent.Some? ==> && SentMaxTokens(o.sent.value) == p.maxTokens
                             && SentModel(o.sent.value) == ModelOrDefault(Some(p.model), SettingsOf(api).defaultModel)
                             && SentSystem(o.sent.value) == Some(p.system)
                             && SentMessages(o.sent.value) == Some(p.messages)
    ensures api.OpenAi?
         ==> o == ChatOutcome(api.openAi.CallApi(p.maxTokens, Some(p.model), p.tool, p.system, Some(p.messages), env))
    ensures api.Xai?
         ==> o == ChatOutcome(api.xai.CallApi(p.maxTokens, Some(p.model), p.tool, p.system, Some(p.messages), env))
    ensures api.Anthropic?
         ==> o == MessagesOutcome(api.anthropic.CallApi(p.maxTokens, Some(p.model), p.tool, p.system, Some(p.messages), env))
  {
    match api
    case OpenAi(a) => OpenAiCall(a, p, env)
    case Xai(a) => XaiCall(a, p, env)
    case Anthropic(a) => AnthropicCall(a, p, env)
  }

  function OpenAiCall(a: OpenAiApi.OpenAiApi, p: ApiParams, env: CallEnv): (o: Outcome<Sent>)
    requires a.Valid()
    ensures o.result.Err? ==> o.result.error.kind == InvalidModelError || o.result.error.kind == ServerError
    ensures var m := ModelOrDefault(Some(p.model), a.settings.defaultModel);
      !IsValidModel(a.settings, m) ==> o == Outcome(Err(InvalidModel(a.settings, m)), None)
    ensures o.sent.Some? ==> && SentMaxTokens(o.sent.value) == p.maxTokens
                             && SentModel(o.sent.value) == ModelOrDefault(Some(p.model), a.settings.defaultModel)
                             && SentSystem(o.sent.value) == Some(p.system)
                             && SentMessages(o.sent.value) == Some(p.messages)
    ensures o == ChatOutcome(a.CallApi(p.maxTokens, Some(p.model), p.tool, p.system, Some(p.messages), env))
  {
    ChatOutcome(a.CallApi(p.maxTokens, Some(p.model), p.tool, p.system, Some(p.messages), env))
  }

  function XaiCall(a: XaiApi.XaiApi, p: ApiParams, env: CallEnv): (o: Outcome<Sent>)
    requires a.Valid()
    ensures o.result.Err? ==> o.result.error.kind == InvalidModelError || o.result.error.kind == ServerError
    ensures var m := ModelOrDefault(Some(p.model), a.settings.defaultModel);
      !IsValidModel(a.settings, m) ==> o == Outcome(Err(InvalidModel(a.settings, m)), None)
    ensures o.sent.Some? ==> && SentMaxTokens(o.sent.value) == p.maxTokens
                             && SentModel(o.sent.value) == ModelOrDefault(Some(p.model), a.settings.defaultModel)
                             && SentSystem(o.sent.value) == Some(p.system)
                             && SentMessages(o.sent.value) == Some(p.messages)
    ensures o == ChatOutcome(a.CallApi(p.maxTokens, Some(p.model), p.tool, p.system, Some(p.messages), env))
  {
    ChatOutcome(a.CallApi(p.maxTokens, Some(p.model), p.tool, p.system, Some(p.messages), env))
  }

  function AnthropicCall(a: AnthropicApi.AnthropicApi, p: ApiParams, env: CallEnv): (o: Outcome<Sent>)
    requires a.Valid()
    ensures o.result.Err? ==> o.result.error.kind == InvalidModelError || o.result.error.kind == ServerError
    ensures var m := ModelOrDefault(Some(p.model), a.settings.defaultModel);
      !IsValidModel(a.settings, m) ==> o == Outcome(Err(InvalidModel(a.settings, m)), None)
    ensures o.sent.Some? ==> && SentMaxTokens(o.sent.value) == p.maxTokens
                             && SentModel(o.sent.value) == ModelOrDefault(Some(p.model), a.settings.defaultModel)
                             && SentSystem(o.sent.value) == Some(p.system)
                             && SentMessages(o.sent.value) == Some(p.messages)
    ensures o == MessagesOutcome(a.CallApi(p.maxTokens, Some(p.model), p.tool, p.system, Some(p.messages), env))
  {
    MessagesOutcome(a.CallApi(p.maxTokens, Some(p.model), p.tool, p.system, Some(p.messages), env))
  }

  /** The user template of the task's registered tool, filled with the
      text under the task's placeholder. */
  function Prompt(api: Api, task: Task, text: string): (r: Result<string, FormatError>)
    reads ToolMapOf(api)
    requires ToolName(task) in ToolMapOf(api).entries
  {
    Format(ToolMapOf(api).entries[ToolName(task)].userPromptTemplate, map[Placeholder(task) := text])
  }

  /** A task method: `_prepare_api_call(tool_name, {placeholder: text},
      model)`, then `max_tokens = 4096`, then `call_api`. A missing tool
      raises `ConfigurationError` and nothing is sent. The call raises only
      `InvalidModelError`, `ServerError`, `ConfigurationError` or a Python
      exception of `str.format`; in particular a refusal never reaches the
      caller as `LLMRefusalError`, because the adapters rewrap it. With
      a valid default model the call never fails with `InvalidModelError`,
      because the model handed to `call_api` is already resolved; it is the
      model sent unless it is an empty name. When the tool's template fills
      without error, what is sent holds the tool's system prompt and one
      user message with the filled template, and with a valid default the
      call fails only with a `ServerError`. */
  function RunTask(api: Api, task: Task, text: string, model: Option<string>, env: CallEnv): (o: Outcome<Sent>)
    reads ToolMapOf(api)
    requires Valid(api)
    ensures ToolName(task) !in ToolMapOf(api).entries
         ==> o == Outcome(Err(Exc(ConfigurationError, "Tool '" + ToolName(task) + "' not found")), None)
    ensures ToolName(task) in ToolMapOf(api).entries && Prompt(api, task, text).Err?
         ==> o == Outcome(Err(FormatException(Prompt(api, task, text).error)), None)
    ensures ToolName(task) in ToolMapOf(api).entries && Prompt(api, task, text).Ok?
         ==> var t := ToolMapOf(api).entries[ToolName(task)];
             o == CallApi(api, ApiParams(4096, ResolveModel(SettingsOf(api), model), t, t.systemPrompt,
                                         [UserMessage(Prompt(api, task, text).value)]), env)
    ensures o.result.Err?
         ==> o.result.error.kind in {InvalidModelError, ServerError, ConfigurationError} || o.result.error.kind.Foreign?
    ensures IsValidModel(SettingsOf(api), SettingsOf(api).defaultModel) && o.result.Err?
         ==> o.result.error.kind != InvalidModelError
    ensures o.sent.Some? ==> SentMaxTokens(o.sent.value) == 4096 && IsValidModel(SettingsOf(api), SentModel(o.sent.value))
    ensures o.sent.Some? && "" !in SettingsOf(api).validModels
         ==> SentModel(o.sent.value) == ResolveModel(SettingsOf(api), model)
    ensures o.sent.Some? ==> && ToolName(task) in ToolMapOf(api).entries && Prompt(api, task, text).Ok?
                             && SentSystem(o.sent.value) == Some(ToolMapOf(api).entries[ToolName(task)].systemPrompt)
                             && SentMessages(o.sent.value) == Some([UserMessage(Prompt(api, task, text).value)])
    ensures IsValidModel(SettingsOf(api), SettingsOf(api).defaultModel)
            && ToolName(task) in ToolMapOf(api).entries && Prompt(api, task, text).Ok? && o.result.Err?
         ==> o.result.error.kind == ServerError
  {
    var s := SettingsOf(api);
    var params := PrepareApiCall(s, ToolMapOf(api), ToolName(task), map[Placeholder(task) := text], model);
    if params.Err? then
      Outcome(Err(params.error), None)
    else
      PreparedModel(s, model);
      CallApi(api, params.value.(maxTokens := 4096), env)
  }

  /** Once prepared, the model is valid when the default is, and survives
      `call_api`'s defaulting unchanged unless it is an empty name. */
  lemma PreparedModel(s: Settings, model: Option<string>)
    requires Consistent(s)
    ensures "" !in s.validModels ==> ModelOrDefault(Some(ResolveModel(s, model)), s.defaultModel) == ResolveModel(s, model)
    ensures IsValidModel(s, s.defaultModel)
         ==> IsValidModel(s, ModelOrDefault(Some(ResolveModel(s, model)), s.defaultModel))
  {
  }

  /** `generate_email_response` with the `email` tool registered: the
      adapter's `call_api` gets 4096 tokens, the resolved model, the tool,
      its system prompt and one user message holding the email body
      between the template's fixed parts, and its outcome is the task's. */
  lemma EmailTask(api: Api, text: string, model: Option<string>, env: CallEnv)
    requires Valid(api) && "email" in ToolMapOf(api).entries
    requires ToolMapOf(api).entries["email"].userPromptTemplate == EmailTool.User
    ensures var t := ToolMapOf(api).entries["email"];
      RunTask(api, Email, text, model, env)
      == CallApi(api, ApiParams(4096, ResolveModel(SettingsOf(api), model), t, t.systemPrompt,
                                [UserMessage(EmailTool.UserBefore + text + EmailTool.UserAfter)]), env)
  {
    assert Prompt(api, Email, text) == Ok(EmailTool.UserBefore + text + EmailTool.UserAfter) by {
      EmailTool.FormatUser(map[EmailTool.Placeholder := text]);
    }
  }

  /** `rewrite_message` with the `message_rewrite` tool registered: the
      message is sent spliced into the rewrite template. */
  lemma MessageRewriteTask(api: Api, text: string, model: Option<string>, env: CallEnv)
    requires Valid(api) && "message_rewrite" in ToolMapOf(api).entries
    requires ToolMapOf(api).entries["message_rewrite"].userPromptTemplate == MessageRewriteTool.User
    ensures var t := ToolMapOf(api).entries["message_rewrite"];
      RunTask(api, MessageRewrite, text, model, env)
      == CallApi(api, ApiParams(4096, ResolveModel(SettingsOf(api), model), t, t.systemPrompt,
                                [UserMessage(MessageRewriteTool.UserBefore + text + MessageRewriteTool.UserAfter)]), env)
  {
    assert Prompt(api, MessageRewrite, text) == Ok(MessageRewriteTool.UserBefore + text + MessageRewriteTool.UserAfter) by {
      MessageRewriteTool.FormatUser(map[MessageRewriteTool.Placeholder := text]);
    }
  }

  /** `basic_prompt_response` with the `prompt_response` tool registered:
      the one user message is the prompt itself. */
  lemma PromptResponseTask(api: Api, text: string, model: Option<string>, env: CallEnv)
    requires Valid(api) && "prompt_response" in ToolMapOf(api).entries
    requires ToolMapOf(api).entries["prompt_response"].userPromptTemplate == PromptResponseTool.User
    ensures var t := ToolMapOf(api).entries["prompt_response"];
      RunTask(api, PromptResponse, text, model, env)
      == CallApi(api, ApiParams(4096, ResolveModel(SettingsOf(api), model), t, t.systemPrompt,
                                [UserMessage(text)]), env)
  {
    assert Prompt(api, PromptResponse, text) == Ok(text) by {
      PromptResponseTool.FormatUser(map[PromptResponseTool.Placeholder := text]);
      assert PromptResponseTool.UserBefore + text + PromptResponseTool.UserAfter == text;
    }
  }

  /** `summarize_text` with the `text_summary` tool registered: the text
      is sent spliced into the summary template. */
  lemma TextSummaryTask(api: Api, text: string, model: Option<string>, env: CallEnv)
    requires Valid(api) && "text_summary" in ToolMapOf(api).entries
    requires ToolMapOf(api).entries["text_summary"].userPromptTemplate == TextSummaryTool.User
    ensures var t := ToolMapOf(api).entries["text_summary"];
      RunTask(api, TextSummary, text, model, env)
      == CallApi(api, ApiParams(4096, ResolveModel(SettingsOf(api), model), t, t.systemPrompt,
                                [UserMessage(TextSummaryTool.UserBefore + text + TextSummaryTool.UserAfter)]), env)
  {
    assert Prompt(api, TextSummary, text) == Ok(TextSummaryTool.UserBefore + text + TextSummaryTool.UserAfter) by {
      TextSummaryTool.FormatUser(map[TextSummaryTool.Placeholder := text]);
    }
  }
}

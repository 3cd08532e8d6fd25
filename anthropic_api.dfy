/** `app/anthropic_api.py`: the Anthropic adapter. Its constructor checks
    the `"anthropic"` catalog; `call_api` defaults and validates the model,
    then, inside one `try`, checks the prices, sends a `messages.create`
    request that forces the one tool, prices the usage and stores the
    `input` of the first content block as the result. There is no refusal
    check and no JSON parsing. */
module AnthropicApi {

  import opened Options
  import opened Json
  import opened Exceptions
  import opened Catalog
  import opened ProviderModels
  import opened Tools
  import opened Registry
  import opened Types
  import opened Upstream
  import opened LlmInterface
  import opened CallResults

  const Provider: string := "anthropic"

  /** What reading `.input` off a text block raises. */
  const NoInput: Exc := Exc(Foreign("AttributeError"), "'TextBlock' object has no " + "attribute 'input'")

  /** Everything `call_api` does with a response, in the order of the
      source: price the usage, take the first content block, read its
      `input` and store it as the result dict. Each step's exception ends
      the call; on success the result reports the model the response
      names, its usage, the costs and the time. */
  function ReadResponse(info: ModelInfo, c: MessagesResponse, env: CallEnv): (r: Result<CallApiResult, Exc>)
    ensures ComputeCosts(info.costs, c.inputTokens, c.outputTokens).Err?
         ==> r == Err(ComputeCosts(info.costs, c.inputTokens, c.outputTokens).error)
    ensures ComputeCosts(info.costs, c.inputTokens, c.outputTokens).Ok? && c.content == []
         ==> r == Err(IndexOutOfRange)
    ensures ComputeCosts(info.costs, c.inputTokens, c.outputTokens).Ok? && c.content != []
            && c.content[0].TextBlock?
         ==> r == Err(NoInput)
    ensures r.Ok? <==> && ComputeCosts(info.costs, c.inputTokens, c.outputTokens).Ok?
                       && c.content != [] && c.content[0].ToolUseBlock?
                       && c.content[0].input.JObject?
    ensures r.Ok? ==> && r.value.model == c.model
                      && r.value.usage == Usage(c.inputTokens, c.outputTokens)
                      && r.value.costs == ComputeCosts(info.costs, c.inputTokens, c.outputTokens).value
                      && r.value.result == c.content[0].input.fields
                      && r.value.timestamp == env.now
  {
    var costs := ComputeCosts(info.costs, c.inputTokens, c.outputTokens);
    if costs.Err? then Err(costs.error)
    else if c.content == [] then Err(IndexOutOfRange)
    else if c.content[0].TextBlock? then Err(NoInput)
    else
      var dict := ResultDict(c.content[0].input, env);
      if dict.Err? then Err(dict.error)
      else Ok(CallApiResult(c.model, Usage(c.inputTokens, c.outputTokens), costs.value, dict.value, env.now))
  }

  /** An `AnthropicAPI` object. Its attributes are set by the constructor
      and never reassigned; the tool map is the registry's live dict. */
  class AnthropicApi {
    const settings: Settings
    const client: MessagesClient
    const toolMap: ToolDict

    /** What the constructor establishes. */
    predicate Valid()
    {
      Consistent(settings) && settings.provider == Provider
    }

    /** Only `New` builds an adapter, from settings that passed the
        constructor's checks, so every adapter object is `Valid`. */
    constructor (settings: Settings, client: MessagesClient, toolMap: ToolDict)
      ensures this.settings == settings && this.client == client && this.toolMap == toolMap
      ensures Valid() <==> Consistent(settings) && settings.provider == Provider
    {
      this.settings := settings;
      this.client := client;
      this.toolMap := toolMap;
    }

    /** `AnthropicAPI()`: the `"anthropic"` catalog passes the checks, so the
        object is built, with a valid default model and the registry's
        tool dict. */
    static method New(client: MessagesClient, registry: ToolRegistry) returns (r: Result<AnthropicApi, Exc>)
      ensures r.Ok? && fresh(r.value) && r.value.Valid()
      ensures r.value.settings == Configure(Provider, Lookup(Provider)).value
      ensures IsValidModel(r.value.settings, r.value.settings.defaultModel)
      ensures r.value.client == client && r.value.toolMap == registry.tools
    {
      ConfigureProviders(Provider);
      var settings := Configure(Provider, Lookup(Provider));
      var api := new AnthropicApi(settings.value, client, registry.tools);
      r := Ok(api);
    }

    /** The body of the `try` for a valid model: the price check, then the
        request, then what the response yields. The request declares the
        tool as its only tool, with the tool's JSON schema as input schema,
        forces the model to use it, and passes the system prompt apart from
        the messages, which go as the caller gave them. */
    function Attempt(maxTokens: int, model: string, tool: Tool, system: string,
                     messages: Option<seq<Message>>, env: CallEnv): (o: Outcome<MessagesRequest>)
      requires Valid() && IsValidModel(settings, model)
      ensures !PricesComplete(settings.models[model]) ==> o == Outcome(Err(IncompleteCosts(model)), None)
      ensures o.sent.Some? <==> PricesComplete(settings.models[model])
      ensures o.sent.Some? ==> && o.sent.value.model == model && o.sent.value.maxTokens == maxTokens
                               && o.sent.value.tools == [ToolSpec(tool.name, tool.description, tool.jsonSchema)]
                               && o.sent.value.toolChoice == ToolChoice("tool", tool.name)
                               && o.sent.value.system == system && o.sent.value.messages == messages
      ensures o.sent.Some? && client(o.sent.value).Err? ==> o.result == Err(client(o.sent.value).error)
      ensures o.sent.Some? && client(o.sent.value).Ok?
           ==> o.result == ReadResponse(settings.models[model], client(o.sent.value).value, env)
    {
      var info := settings.models[model];
      if !PricesComplete(info) then Outcome(Err(IncompleteCosts(model)), None)
      else
        var request := MessagesRequest(model, maxTokens, [ToolSpec(tool.name, tool.description, tool.jsonSchema)],
                                       ToolChoice("tool", tool.name), system, messages);
        var response := client(request);
        if response.Err? then Outcome(Err(response.error), Some(request))
        else Outcome(ReadResponse(info, response.value, env), Some(request))
    }

    /** `call_api(...)`: an absent or empty model becomes the default; an
        invalid one raises `InvalidModelError` before the `try` and nothing
        is sent; otherwise the body runs and whatever it raises leaves as a
        `ServerError`. So the call fails only with those two kinds. */
    function CallApi(maxTokens: int, model: Option<string>, tool: Tool, system: string,
                     messages: Option<seq<Message>>, env: CallEnv): (o: Outcome<MessagesRequest>)
      requires Valid()
      ensures var m := ModelOrDefault(model, settings.defaultModel);
        !IsValidModel(settings, m) ==> o == Outcome(Err(InvalidModel(settings, m)), None)
      ensures var m := ModelOrDefault(model, settings.defaultModel);
        IsValidModel(settings, m) ==> && o.sent == Attempt(maxTokens, m, tool, system, messages, env).sent
                                      && o.result == Caught(Attempt(maxTokens, m, tool, system, messages, env).result)
      ensures o.result.Err? ==> o.result.error.kind == InvalidModelError || o.result.error.kind == ServerError
    {
      var m := ModelOrDefault(model, settings.defaultModel);
      if !IsValidModel(settings, m) then Outcome(Err(InvalidModel(settings, m)), None)
      else
        var attempt := Attempt(maxTokens, m, tool, system, messages, env);
        Outcome(Caught(attempt.result), attempt.sent)
    }
  }

  /** A valid model whose catalog entry lacks a price: nothing is sent,
      and the `ConfigurationError` leaves as an unexpected `ServerError`
      (`"Unexpected error: Cost information incomplete ..."`). */
  lemma IncompletePrices(api: AnthropicApi, maxTokens: int, model: Option<string>, tool: Tool,
                         system: string, messages: Option<seq<Message>>, env: CallEnv)
    requires api.Valid()
    requires IsValidModel(api.settings, ModelOrDefault(model, api.settings.defaultModel))
    requires !PricesComplete(api.settings.models[ModelOrDefault(model, api.settings.defaultModel)])
    ensures var o := api.CallApi(maxTokens, model, tool, system, messages, env);
      && o.sent.None?
      && o.result == Err(Unexpected(IncompleteCosts(ModelOrDefault(model, api.settings.defaultModel))))
  {
  }

  /** An `anthropic.APIError` from the SDK leaves as a `ServerError` with the
      SDK's message. */
  lemma SdkErrorPassedOn(api: AnthropicApi, maxTokens: int, model: Option<string>, tool: Tool,
                         system: string, messages: Option<seq<Message>>, env: CallEnv, message: string)
    requires api.Valid()
    requires var o := api.CallApi(maxTokens, model, tool, system, messages, env);
      o.sent.Some? && api.client(o.sent.value) == Err(Exc(SdkAPIError, message))
    ensures api.CallApi(maxTokens, model, tool, system, messages, env).result == Err(Exc(ServerError, message))
  {
  }

  /** A successful call prices the response's own usage at the catalog
      prices of the model it asked for: each cost is the token count times
      the unit price, exactly, and the total is their sum. */
  lemma SuccessCosts(api: AnthropicApi, maxTokens: int, model: Option<string>, tool: Tool,
                     system: string, messages: Option<seq<Message>>, env: CallEnv)
    requires api.Valid()
    requires api.CallApi(maxTokens, model, tool, system, messages, env).result.Ok?
    ensures var o := api.CallApi(maxTokens, model, tool, system, messages, env);
      var m := ModelOrDefault(model, api.settings.defaultModel);
      && o.sent.Some? && o.sent.value.model == m && api.client(o.sent.value).Ok?
      && var c := api.client(o.sent.value).value;
         && o.result.value.model == c.model
         && o.result.value.usage == Usage(c.inputTokens, c.outputTokens)
         && o.result.value.costs == ComputeCosts(api.settings.models[m].costs, c.inputTokens, c.outputTokens).value
  {
  }
}

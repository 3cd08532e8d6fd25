/** `app/xai_api.py`: the xAI adapter, which talks to xAI through the
    OpenAI SDK. Its constructor checks the `"xai"` catalog; `call_api`
    defaults and validates the model, then, inside one `try`, checks the
    prices, always sends a structured `parse` request, prices the usage,
    rejects a refusal, parses the message content as JSON and stores it in
    a `CallAPIResult`. The capability flags of the catalog are not read. */
module XaiApi {

  import opened Options
  import opened Json
  import opened Exceptions
  import opened Catalog
  import opened ProviderModels
  import opened Tools
  import opened Registry
  import opened Types
  import opened Upstream
  import opened LlmInterface
  import opened CallResults

  const Provider: string := "xai"

  /** What `json.loads(None)` raises when the message has no content. */
  const NotAString: Exc :=
    Exc(Foreign("TypeError"), "the JSON object must be str, " + "bytes or bytearray, not NoneType")

  /** Everything `call_api` does with a completion, in the order of the
      source: price the usage, take the first choice, reject a refusal,
      parse the content as JSON (an absent content cannot be parsed) and
      store it as the result dict. Each step's exception ends the call; on
      success the result reports the model the completion names, its
      usage, the costs and the time. */
  function ReadCompletion(info: ModelInfo, c: Completion, env: CallEnv): (r: Result<CallApiResult, Exc>)
    ensures ComputeCosts(info.costs, c.promptTokens, c.completionTokens).Err?
         ==> r == Err(ComputeCosts(info.costs, c.promptTokens, c.completionTokens).error)
    ensures ComputeCosts(info.costs, c.promptTokens, c.completionTokens).Ok? && c.choices == []
         ==> r == Err(IndexOutOfRange)
    ensures ComputeCosts(info.costs, c.promptTokens, c.completionTokens).Ok? && c.choices != []
            && Refused(c.choices[0].refusal)
         ==> r == Err(Exc(LLMRefusalError, c.choices[0].refusal.value))
    ensures ComputeCosts(info.costs, c.promptTokens, c.completionTokens).Ok? && c.choices != []
            && !Refused(c.choices[0].refusal) && c.choices[0].content.None?
         ==> r == Err(NotAString)
    ensures ComputeCosts(info.costs, c.promptTokens, c.completionTokens).Ok? && c.choices != []
            && !Refused(c.choices[0].refusal) && c.choices[0].content.Some?
            && env.loads(c.choices[0].content.value).Err?
         ==> r == Err(env.loads(c.choices[0].content.value).error)
    ensures r.Ok? <==> && ComputeCosts(info.costs, c.promptTokens, c.completionTokens).Ok?
                       && c.choices != [] && !Refused(c.choices[0].refusal)
                       && c.choices[0].content.Some?
                       && env.loads(c.choices[0].content.value).Ok?
                       && env.loads(c.choices[0].content.value).value.JObject?
    ensures r.Ok? ==> && r.value.model == c.model
                      && r.value.usage == Usage(c.promptTokens, c.completionTokens)
                      && r.value.costs == ComputeCosts(info.costs, c.promptTokens, c.completionTokens).value
                      && r.value.result == env.loads(c.choices[0].content.value).value.fields
                      && r.value.timestamp == env.now
  {
    var costs := ComputeCosts(info.costs, c.promptTokens, c.completionTokens);
    if costs.Err? then Err(costs.error)
    else if c.choices == [] then Err(IndexOutOfRange)
    else
      var message := c.choices[0];
      if Refused(message.refusal) then Err(Exc(LLMRefusalError, message.refusal.value))
      else if message.content.None? then Err(NotAString)
      else
        var obj := env.loads(message.content.value);
        if obj.Err? then Err(obj.error)
        else
          var dict := ResultDict(obj.value, env);
          if dict.Err? then Err(dict.error)
          else Ok(CallApiResult(c.model, Usage(c.promptTokens, c.completionTokens),
                                costs.value, dict.value, env.now))
  }

  /** An `xAIAPI` object. Its attributes are set by the constructor
      and never reassigned; the tool map is the registry's live dict. */
  class XaiApi {
    const settings: Settings
    const client: ChatClient
    const toolMap: ToolDict

    /** What the constructor establishes. */
    predicate Valid()
    {
      Consistent(settings) && settings.provider == Provider
    }

    /** Only `New` builds an adapter, from settings that passed the
        constructor's checks, so every adapter object is `Valid`. */
    constructor (settings: Settings, client: ChatClient, toolMap: ToolDict)
      ensures this.settings == settings && this.client == client && this.toolMap == toolMap
      ensures Valid() <==> Consistent(settings) && settings.provider == Provider
    {
      this.settings := settings;
      this.client := client;
      this.toolMap := toolMap;
    }

    /** `xAIAPI()`: the `"xai"` catalog passes the checks, so the
        object is built, with a valid default model and the registry's
        tool dict. */
    static method New(client: ChatClient, registry: ToolRegistry) returns (r: Result<XaiApi, Exc>)
      ensures r.Ok? && fresh(r.value) && r.value.Valid()
      ensures r.value.settings == Configure(Provider, Lookup(Provider)).value
      ensures IsValidModel(r.value.settings, r.value.settings.defaultModel)
      ensures r.value.client == client && r.value.toolMap == registry.tools
    {
      ConfigureProviders(Provider);
      var settings := Configure(Provider, Lookup(Provider));
      var api := new XaiApi(settings.value, client, registry.tools);
      r := Ok(api);
    }

    /** The body of the `try` for a valid model: the price check, then the
        request, then what the completion yields. The request is always
        `parse` with the tool's pydantic model, whatever the catalog says of
        the model's capabilities, with the system message first. */
    function Attempt(maxTokens: int, model: string, tool: Tool, system: string,
                     messages: Option<seq<Message>>, env: CallEnv): (o: Outcome<ChatRequest>)
      requires Valid() && IsValidModel(settings, model)
      ensures !PricesComplete(settings.models[model]) ==> o == Outcome(Err(IncompleteCosts(model)), None)
      ensures o.sent.Some? <==> PricesComplete(settings.models[model])
      ensures o.sent.Some? ==> o.sent.value == ParseRequest(model, WithSystem(system, messages), maxTokens, tool.pydanticModel)
      ensures o.sent.Some? && client(o.sent.value).Err? ==> o.result == Err(client(o.sent.value).error)
      ensures o.sent.Some? && client(o.sent.value).Ok?
           ==> o.result == ReadCompletion(settings.models[model], client(o.sent.value).value, env)
    {
      var info := settings.models[model];
      if !PricesComplete(info) then Outcome(Err(IncompleteCosts(model)), None)
      else
        var request := ParseRequest(model, WithSystem(system, messages), maxTokens, tool.pydanticModel);
        var response := client(request);
        if response.Err? then Outcome(Err(response.error), Some(request))
        else Outcome(ReadCompletion(info, response.value, env), Some(request))
    }

    /** `call_api(...)`: an absent or empty model becomes the default; an
        invalid one raises `InvalidModelError` before the `try` and nothing
        is sent; otherwise the body runs and whatever it raises leaves as a
        `ServerError`. So the call fails only with those two kinds. */
    function CallApi(maxTokens: int, model: Option<string>, tool: Tool, system: string,
                     messages: Option<seq<Message>>, env: CallEnv): (o: Outcome<ChatRequest>)
      requires Valid()
      ensures var m := ModelOrDefault(model, settings.defaultModel);
        !IsValidModel(settings, m) ==> o == Outcome(Err(InvalidModel(settings, m)), None)
      ensures var m := ModelOrDefault(model, settings.defaultModel);
        IsValidModel(settings, m) ==> && o.sent == Attempt(maxTokens, m, tool, system, messages, env).sent
                                      && o.result == Caught(Attempt(maxTokens, m, tool, system, messages, env).result)
      ensures o.result.Err? ==> o.result.error.kind == InvalidModelError || o.result.error.kind == ServerError
    {
      var m := ModelOrDefault(model, settings.defaultModel);
      if !IsValidModel(settings, m) then Outcome(Err(InvalidModel(settings, m)), None)
      else
        var attempt := Attempt(maxTokens, m, tool, system, messages, env);
        Outcome(Caught(attempt.result), attempt.sent)
    }
  }

  /** A valid model whose catalog entry lacks a price: nothing is sent,
      and the `ConfigurationError` leaves as an unexpected `ServerError`
      (`"Unexpected error: Cost information incomplete ..."`). */
  lemma IncompletePrices(api: XaiApi, maxTokens: int, model: Option<string>, tool: Tool,
                         system: string, messages: Option<seq<Message>>, env: CallEnv)
    requires api.Valid()
    requires IsValidModel(api.settings, ModelOrDefault(model, api.settings.defaultModel))
    requires !PricesComplete(api.settings.models[ModelOrDefault(model, api.settings.defaultModel)])
    ensures var o := api.CallApi(maxTokens, model, tool, system, messages, env);
      && o.sent.None?
      && o.result == Err(Unexpected(IncompleteCosts(ModelOrDefault(model, api.settings.defaultModel))))
  {
  }

  /** A refusal in the first choice raises `LLMRefusalError` inside the
      `try`, so the caller sees a `ServerError` whose message is
      `"Unexpected error: "` followed by the refusal, never the refusal
      error itself. */
  lemma RefusalRewrapped(api: XaiApi, maxTokens: int, model: Option<string>, tool: Tool,
                         system: string, messages: Option<seq<Message>>, env: CallEnv, c: Completion)
    requires api.Valid()
    requires IsValidModel(api.settings, ModelOrDefault(model, api.settings.defaultModel))
    requires var o := api.CallApi(maxTokens, model, tool, system, messages, env);
      o.sent.Some? && api.client(o.sent.value) == Ok(c)
    requires ComputeCosts(api.settings.models[ModelOrDefault(model, api.settings.defaultModel)].costs,
                          c.promptTokens, c.completionTokens).Ok?
    requires c.choices != [] && Refused(c.choices[0].refusal)
    ensures api.CallApi(maxTokens, model, tool, system, messages, env).result
         == Err(Exc(ServerError, "Unexpected error: " + c.choices[0].refusal.value))
  {
  }

  /** An `openai.APIError` from the SDK leaves as a `ServerError` with the
      SDK's message. */
  lemma SdkErrorPassedOn(api: XaiApi, maxTokens: int, model: Option<string>, tool: Tool,
                         system: string, messages: Option<seq<Message>>, env: CallEnv, message: string)
    requires api.Valid()
    requires var o := api.CallApi(maxTokens, model, tool, system, messages, env);
      o.sent.Some? && api.client(o.sent.value) == Err(Exc(SdkAPIError, message))
    ensures api.CallApi(maxTokens, model, tool, system, messages, env).result == Err(Exc(ServerError, message))
  {
  }

  /** A successful call prices the completion's own usage at the catalog
      prices of the model it asked for: each cost is the token count times
      the unit price, exactly, and the total is their sum. */
  lemma SuccessCosts(api: XaiApi, maxTokens: int, model: Option<string>, tool: Tool,
                     system: string, messages: Option<seq<Message>>, env: CallEnv)
    requires api.Valid()
    requires api.CallApi(maxTokens, model, tool, system, messages, env).result.Ok?
    ensures var o := api.CallApi(maxTokens, model, tool, system, messages, env);
      var m := ModelOrDefault(model, api.settings.defaultModel);
      && o.sent.Some? && o.sent.value.model == m && api.client(o.sent.value).Ok?
      && var c := api.client(o.sent.value).value;
         && o.result.value.model == c.model
         && o.result.value.usage == Usage(c.promptTokens, c.completionTokens)
         && o.result.value.costs == ComputeCosts(api.settings.models[m].costs, c.promptTokens, c.completionTokens).value
  {
  }
}

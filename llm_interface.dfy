/** `BaseLLMAPI` (`app/llm_interface.py`): what every provider adapter
    knows after construction (its provider name, default model, catalog of
    models and the set of valid model names), and the shared steps that
    resolve a model, look up a tool and prepare the arguments of
    `call_api`. The fields are held in a `Settings` value that each adapter
    class stores; the four task methods, which call `call_api`, are in the
    module `LlmTasks`. */
module LlmInterface {

  import opened Options
  import opened Exceptions
  import opened Catalog
  import opened ProviderModels
  import opened Tools
  import opened Registry
  import opened PyFormat
  import opened Upstream

  /** `PROVIDER`, `DEFAULT_MODEL`, `models` and `VALID_MODELS` of an
      adapter, as its constructor sets them. */
  datatype Settings = Settings(
    provider: string, defaultModel: string,
    models: map<string, ModelInfo>, validModels: set<string>)

  /** What the constructors establish and nothing later changes: the valid
      names are the catalog's model names and the default is not empty. */
  predicate Consistent(s: Settings)
  {
    s.validModels == s.models.Keys && s.defaultModel != ""
  }

  /** The catalog checks of the adapters' `__init__`: an empty catalog, then
      a missing or empty default model, raise `ConfigurationError`;
      otherwise the settings are read off the catalog. */
  function Configure(provider: string, config: ProviderConfig): (r: Result<Settings, Exc>)
    ensures IsEmpty(config)
         ==> r == Err(Exc(ConfigurationError, "No models found for provider " + provider))
    ensures !IsEmpty(config) && (config.defaultModel.None? || config.defaultModel.value == "")
         ==> r == Err(Exc(ConfigurationError, "No default model found for provider " + provider))
    ensures r.Ok? <==> !IsEmpty(config) && config.defaultModel.Some? && config.defaultModel.value != ""
    ensures r.Ok? ==> && r.value.provider == provider
                      && r.value.defaultModel == config.defaultModel.value
                      && r.value.models == Models(config)
                      && Consistent(r.value)
  {
    if IsEmpty(config) then
      Err(Exc(ConfigurationError, "No models found for provider " + provider))
    else if config.defaultModel.None? || config.defaultModel.value == "" then
      Err(Exc(ConfigurationError, "No default model found for provider " + provider))
    else
      var models := Models(config);
      Ok(Settings(provider, config.defaultModel.value, models, models.Keys))
  }

  /** A catalog that passes the constructor checks and names its default
      among its models gives settings whose default is valid. */
  lemma ConfigureWellFormed(provider: string, config: ProviderConfig)
    requires WellFormed(config)
    ensures Configure(provider, config).Ok?
    ensures Configure(provider, config).value.defaultModel in Configure(provider, config).value.validModels
  {
  }

  /** Each of the three service providers, looked up in `MODELS`, passes
      the constructor checks with a valid default model; any other name
      fails them with the empty-catalog error. */
  lemma ConfigureProviders(provider: string)
    ensures provider in Providers ==> && Configure(provider, Lookup(provider)).Ok?
                                      && var s := Configure(provider, Lookup(provider)).value;
                                         s.defaultModel in s.validModels
    ensures provider !in Providers
         ==> Configure(provider, Lookup(provider)) == Err(Exc(ConfigurationError, "No models found for provider " + provider))
  {
    LookupProviders(provider);
    if provider in Providers {
      ConfigureWellFormed(provider, Lookup(provider));
    }
  }

  /** `is_valid_model(model)` */
  predicate IsValidModel(s: Settings, model: string)
  {
    model in s.validModels
  }

  /** `valid_models()`: `list(self.VALID_MODELS)`. Python lists a frozenset
      in an order of its own; the model picks each next element freely, so
      every order is covered. The list holds each valid name exactly once. */
  method ValidModels(s: Settings) returns (r: seq<string>)
    ensures forall m :: m in r <==> IsValidModel(s, m)
    ensures forall i, j :: 0 <= i < j < |r| ==> r[i] != r[j]
    ensures |r| == |s.validModels|
  {
    r := [];
    var rest := s.validModels;
    while rest != {}
      invariant rest <= s.validModels
      invariant forall m :: m in r <==> m in s.validModels && m !in rest
      invariant forall i, j :: 0 <= i < j < |r| ==> r[i] != r[j]
      invariant |r| + |rest| == |s.validModels|
      decreases |rest|
    {
      var m :| m in rest;
      r := r + [m];
      rest := rest - {m};
    }
  }

  /** The model `_prepare_api_call` settles on: the given one when it is
      present and valid, the default otherwise. */
  function ResolveModel(s: Settings, model: Option<string>): (r: string)
    ensures model.Some? && IsValidModel(s, model.value) ==> r == model.value
    ensures model.None? || !IsValidModel(s, model.value) ==> r == s.defaultModel
  {
    if model.None? || !IsValidModel(s, model.value) then s.defaultModel else model.value
  }

  /** With a valid default, the resolved model is always valid. */
  lemma ResolveModelValid(s: Settings, model: Option<string>)
    requires IsValidModel(s, s.defaultModel)
    ensures IsValidModel(s, ResolveModel(s, model))
  {
  }

  /** `model or self.DEFAULT_MODEL` at the top of every `call_api`: an
      absent or empty model name becomes the default. */
  function ModelOrDefault(model: Option<string>, default: string): (r: string)
    ensures model.Some? && model.value != "" ==> r == model.value
    ensures model.None? || model.value == "" ==> r == default
  {
    if model.Some? && model.value != "" then model.value else default
  }

  /** A model that `_prepare_api_call` resolved is not changed again by
      `call_api`'s defaulting, and stays valid. */
  lemma ModelOrDefaultResolved(s: Settings, model: Option<string>)
    requires Consistent(s) && IsValidModel(s, s.defaultModel)
    ensures IsValidModel(s, ModelOrDefault(Some(ResolveModel(s, model)), s.defaultModel))
  {
  }

  /** The `InvalidModelError` raised by `call_api`. */
  function InvalidModel(s: Settings, model: string): (e: Exc)
    ensures e.kind == InvalidModelError && IsClientError(e.kind)
  {
    Exc(InvalidModelError, "Invalid model: '" + model + "' for provider '" + s.provider + "'")
  }

  /** `_get_tool(name)`: the tool registered under `name`, or a
      `ConfigurationError` naming it. */
  function GetTool(toolMap: ToolDict, name: string): (r: Result<Tool, Exc>)
    reads toolMap
    ensures name in toolMap.entries ==> r == Ok(toolMap.entries[name])
    ensures name !in toolMap.entries ==> r == Err(Exc(ConfigurationError, "Tool '" + name + "' not found"))
  {
    match toolMap.Get(name)
    case Some(t) => Ok(t)
    case None => Err(Exc(ConfigurationError, "Tool '" + name + "' not found"))
  }

  /** The keyword arguments `_prepare_api_call` assembles for `call_api`. */
  datatype ApiParams = ApiParams(
    maxTokens: int, model: string, tool: Tool, system: string, messages: seq<Message>)

  /** The one-message history: a `user` message with one text part. */
  function UserMessage(text: string): (m: Message)
    ensures m.role == "user" && m.content == PartsContent([TextPart(text)])
  {
    Message("user", PartsContent([TextPart(text)]))
  }

  /** `_prepare_api_call(tool_name, content, model)`: the model is
      resolved, then the tool is looked up (a missing tool raises), then its
      user template is formatted with `content` (a formatting error
      raises); the call gets 2048 tokens, the tool's system prompt and one
      user message holding the formatted template. */
  function PrepareApiCall(s: Settings, toolMap: ToolDict, toolName: string,
                          content: map<string, string>, model: Option<string>): (r: Result<ApiParams, Exc>)
    reads toolMap
    ensures r.Ok? <==> GetTool(toolMap, toolName).Ok?
                       && Format(GetTool(toolMap, toolName).value.userPromptTemplate, content).Ok?
    ensures GetTool(toolMap, toolName).Err? ==> r == Err(GetTool(toolMap, toolName).error)
    ensures GetTool(toolMap, toolName).Ok?
         && Format(GetTool(toolMap, toolName).value.userPromptTemplate, content).Err?
        ==> r == Err(FormatException(Format(GetTool(toolMap, toolName).value.userPromptTemplate, content).error))
    ensures r.Ok? ==> && toolName in toolMap.entries
                      && var t := toolMap.entries[toolName];
                      && r.value.tool == t
                      && r.value.maxTokens == 2048
                      && r.value.model == ResolveModel(s, model)
                      && r.value.system == t.systemPrompt
                      && Format(t.userPromptTemplate, content).Ok?
                      && r.value.messages == [UserMessage(Format(t.userPromptTemplate, content).value)]
  {
    var resolved := ResolveModel(s, model);
    var tool := GetTool(toolMap, toolName);
    if tool.Err? then Err(tool.error)
    else
      var prompt := Format(tool.value.userPromptTemplate, content);
      if prompt.Err? then Err(FormatException(prompt.error))
      else Ok(ApiParams(2048, resolved, tool.value, tool.value.systemPrompt, [UserMessage(prompt.value)]))
  }
}

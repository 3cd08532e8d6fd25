/** The shape of a provider's model catalog (the modules of `app/models`): a dict
    with a `"default_model"` name and a `"models"` dict from model name to
    its `"costs"` (price strings per token) and `"capabilities"` (flags). */
module Catalog {

  import opened Options

  /** One entry of `"models"`. A missing `"costs"` or `"capabilities"` key
      reads as the empty dict, which is how the adapters treat it
      (`.get("costs", {})`), so both are plain maps here. */
  datatype ModelInfo = ModelInfo(costs: map<string, string>, capabilities: map<string, bool>)

  /** A provider's catalog dict, by its two optional keys; the empty dict
      `{}` is `ProviderConfig(None, None)`. */
  datatype ProviderConfig = ProviderConfig(defaultModel: Option<string>, models: Option<map<string, ModelInfo>>)

  /** `not provider_models`: the dict has no keys. */
  predicate IsEmpty(c: ProviderConfig)
  {
    c.defaultModel.None? && c.models.None?
  }

  /** `provider_models.get("models", {})` */
  function Models(c: ProviderConfig): (r: map<string, ModelInfo>)
    ensures c.models.Some? ==> r == c.models.value
    ensures c.models.None? ==> r == map[]
  {
    c.models.GetOr(map[])
  }

  /** `costs.get(key)` is truthy: present and not the empty string. */
  predicate HasPrice(info: ModelInfo, key: string)
  {
    key in info.costs && info.costs[key] != ""
  }

  /** `all([costs.get("input"), costs.get("output")])` */
  predicate PricesComplete(info: ModelInfo)
  {
    HasPrice(info, "input") && HasPrice(info, "output")
  }

  /** `capabilities.get("structured_outputs", False)` */
  function StructuredOutputs(info: ModelInfo): (r: bool)
    ensures r <==> "structured_outputs" in info.capabilities && info.capabilities["structured_outputs"]
  {
    if "structured_outputs" in info.capabilities then info.capabilities["structured_outputs"] else false
  }

  /** A catalog entry with input and output prices and the two capability
      flags every catalog entry of the service carries. */
  function Entry(input: string, output: string, structuredOutputs: bool, jsonMode: bool): (r: ModelInfo)
    ensures r.costs.Keys == {"input", "output"}
    ensures r.costs["input"] == input && r.costs["output"] == output
    ensures StructuredOutputs(r) == structuredOutputs
    ensures r.capabilities.Keys == {"structured_outputs", "json_mode"}
    ensures r.capabilities["json_mode"] == jsonMode
  {
    ModelInfo(map["input" := input, "output" := output],
              map["structured_outputs" := structuredOutputs, "json_mode" := jsonMode])
  }

  /** The same, with an `"input_cached"` price as well. */
  function CachedEntry(input: string, inputCached: string, output: string,
                       structuredOutputs: bool, jsonMode: bool): (r: ModelInfo)
    ensures r.costs.Keys == {"input", "input_cached", "output"}
    ensures r.costs["input"] == input && r.costs["input_cached"] == inputCached
    ensures r.costs["output"] == output
    ensures StructuredOutputs(r) == structuredOutputs
    ensures r.capabilities.Keys == {"structured_outputs", "json_mode"}
    ensures r.capabilities["json_mode"] == jsonMode
  {
    ModelInfo(map["input" := input, "input_cached" := inputCached, "output" := output],
              map["structured_outputs" := structuredOutputs, "json_mode" := jsonMode])
  }

  /** The checks the adapters' constructors make, and what they keep: the
      catalog is not empty, has a non-empty default model, and that default
      names one of its models. */
  predicate WellFormed(c: ProviderConfig)
  {
    && !IsEmpty(c)
    && c.defaultModel.Some? && c.defaultModel.value != ""
    && c.defaultModel.value in Models(c)
  }

  /** Every model of the catalog has both prices, so the cost check of
      `call_api` passes for every valid model. */
  predicate AllPriced(c: ProviderConfig)
  {
    forall m :: m in Models(c) ==> PricesComplete(Models(c)[m])
  }
}

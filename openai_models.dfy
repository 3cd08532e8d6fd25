/** `app/models/openai.py`: the OpenAI model catalog. */
module OpenAiModels {

  import opened Options
  import opened Catalog

  const Default: string := "gpt-4o-2024-11-20"

  const OpenAi: ProviderConfig := ProviderConfig(Some(Default), Some(map[
    "gpt-4o-2024-11-20" := CachedEntry("0.0000025", "0.00000125", "0.00001", true, true),
    "gpt-4o-2024-08-06" := CachedEntry("0.0000025", "0.00000125", "0.00001", true, true),
    "gpt-4o" := CachedEntry("0.0000025", "0.00000125", "0.00001", true, true),
    "gpt-4o-mini" := CachedEntry("0.00000015", "0.000000075", "0.0000006", true, true),
    "gpt-4-turbo" := Entry("0.00001", "0.00003", false, true),
    "gpt-4" := Entry("0.00003", "0.00006", false, true),
    "gpt-4-32k" := Entry("0.00006", "0.00012", false, true)]))

  /** The models of the gpt-4o family. */
  const Gpt4o: set<string> := {"gpt-4o-2024-11-20", "gpt-4o-2024-08-06", "gpt-4o", "gpt-4o-mini"}

  /** The catalog passes the constructor checks and lists seven models. */
  lemma OpenAiWellFormed()
    ensures WellFormed(OpenAi) && OpenAi.defaultModel == Some(Default)
    ensures Models(OpenAi).Keys == Gpt4o + {"gpt-4-turbo", "gpt-4", "gpt-4-32k"}
  {
  }

  /** Every entry has both prices. */
  lemma OpenAiPriced()
    ensures AllPriced(OpenAi)
  {
  }

  /** Exactly the gpt-4o entries declare structured outputs, which sends
      their requests through `parse`. */
  lemma OpenAiStructuredOutputs()
    ensures forall m :: m in Models(OpenAi) ==> (StructuredOutputs(Models(OpenAi)[m]) <==> m in Gpt4o)
  {
  }

  /** Exactly the gpt-4o entries carry a cached-input price. */
  lemma OpenAiCachedPrices()
    ensures forall m :: m in Models(OpenAi) ==> ("input_cached" in Models(OpenAi)[m].costs <==> m in Gpt4o)
  {
  }

  /** The gpt-4o-mini prices. */
  lemma OpenAiMiniPrices()
    ensures Models(OpenAi)["gpt-4o-mini"].costs["input"] == "0.00000015"
    ensures Models(OpenAi)["gpt-4o-mini"].costs["output"] == "0.0000006"
  {
  }
}

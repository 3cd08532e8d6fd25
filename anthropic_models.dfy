/** `app/models/anthropic.py`: the Anthropic model catalog. */
module AnthropicModels {

  import opened Options
  import opened Catalog

  const Default: string := "claude-3-5-sonnet-20241022"

  const Anthropic: ProviderConfig := ProviderConfig(Some(Default), Some(map[
    "claude-3-5-sonnet-20241022" := Entry("0.000003", "0.000015", false, false),
    "claude-3-5-sonnet-20240620" := Entry("0.000003", "0.000015", false, false),
    "claude-3-sonnet-20240229" := Entry("0.000003", "0.000015", false, false),
    "claude-3-haiku-20240307" := Entry("0.00000025", "0.00000125", false, false),
    "claude-3-opus-20240229" := Entry("0.000015", "0.000075", false, false)]))

  /** The catalog passes the constructor checks; its default model is
      listed and priced at 0.000003 per input and 0.000015 per output token. */
  lemma AnthropicWellFormed()
    ensures WellFormed(Anthropic) && Anthropic.defaultModel == Some(Default)
    ensures Models(Anthropic)[Default].costs["input"] == "0.000003"
    ensures Models(Anthropic)[Default].costs["output"] == "0.000015"
  {
  }

  /** Every entry has both prices and none declares structured outputs. */
  lemma AnthropicEntries()
    ensures AllPriced(Anthropic)
    ensures forall m :: m in Models(Anthropic) ==> !StructuredOutputs(Models(Anthropic)[m])
  {
  }

  /** Haiku and Opus prices. */
  lemma AnthropicPrices()
    ensures Models(Anthropic)["claude-3-haiku-20240307"].costs["input"] == "0.00000025"
    ensures Models(Anthropic)["claude-3-haiku-20240307"].costs["output"] == "0.00000125"
    ensures Models(Anthropic)["claude-3-opus-20240229"].costs["input"] == "0.000015"
    ensures Models(Anthropic)["claude-3-opus-20240229"].costs["output"] == "0.000075"
  {
  }
}

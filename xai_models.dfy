/** `app/models/xai.py`: the xAI model catalog. */
module XaiModels {

  import opened Options
  import opened Catalog

  const Default: string := "grok-2-1212"

  const Xai: ProviderConfig := ProviderConfig(Some(Default), Some(map[
    "grok-2-vision-1212" := Entry("0.000002", "0.000010", true, true),
    "grok-2-1212" := Entry("0.000002", "0.000010", true, true),
    "grok-vision-beta" := Entry("0.000005", "0.000015", true, true),
    "grok-beta" := Entry("0.000005", "0.000015", true, true)]))

  /** The catalog passes the constructor checks; the default model is priced
      at `"0.000002"` and `"0.000010"`, the latter written with six
      fraction digits. */
  lemma XaiWellFormed()
    ensures WellFormed(Xai) && Xai.defaultModel == Some(Default)
    ensures Models(Xai)[Default].costs["input"] == "0.000002"
    ensures Models(Xai)[Default].costs["output"] == "0.000010"
  {
  }

  /** Every entry has both prices and declares structured outputs. */
  lemma XaiEntries()
    ensures AllPriced(Xai)
    ensures forall m :: m in Models(Xai) ==> StructuredOutputs(Models(Xai)[m])
  {
  }
}

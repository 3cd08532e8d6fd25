/** `app/models/__init__.py`: the catalogs of the three providers, by
    provider name. */
module ProviderModels {

  import opened Options
  import opened Catalog
  import AnthropicModels
  import OpenAiModels
  import XaiModels

  /** The providers the service has catalogs for: the keys of `MODELS`. */
  const Providers: set<string> := {"xai", "openai", "anthropic"}

  /** `MODELS.get(provider, {})`: the catalog stored under the provider's
      name, or the empty dict for any other name. */
  function Lookup(provider: string): (r: ProviderConfig)
    ensures provider !in Providers ==> IsEmpty(r)
  {
    if provider == "xai" then XaiModels.Xai
    else if provider == "openai" then OpenAiModels.OpenAi
    else if provider == "anthropic" then AnthropicModels.Anthropic
    else ProviderConfig(None, None)
  }

  /** `"xai"` maps to the xAI catalog. */
  lemma LookupXai()
    ensures Lookup("xai") == XaiModels.Xai
    ensures WellFormed(Lookup("xai")) && AllPriced(Lookup("xai"))
  {
    XaiModels.XaiWellFormed();
    XaiModels.XaiEntries();
  }

  /** `"openai"` maps to the OpenAI catalog. */
  lemma LookupOpenAi()
    ensures Lookup("openai") == OpenAiModels.OpenAi
    ensures WellFormed(Lookup("openai")) && AllPriced(Lookup("openai"))
  {
    OpenAiModels.OpenAiWellFormed();
    OpenAiModels.OpenAiPriced();
  }

  /** `"anthropic"` maps to the Anthropic catalog. */
  lemma LookupAnthropic()
    ensures Lookup("anthropic") == AnthropicModels.Anthropic
    ensures WellFormed(Lookup("anthropic")) && AllPriced(Lookup("anthropic"))
  {
    AnthropicModels.AnthropicWellFormed();
    AnthropicModels.AnthropicEntries();
  }

  /** A name has a non-empty catalog exactly when it is one of the three
      providers, and every such catalog passes the constructor checks. */
  lemma LookupProviders(provider: string)
    ensures !IsEmpty(Lookup(provider)) <==> provider in Providers
    ensures provider in Providers ==> WellFormed(Lookup(provider)) && AllPriced(Lookup(provider))
  {
    if provider == "xai" {
      LookupXai();
    } else if provider == "openai" {
      LookupOpenAi();
    } else if provider == "anthropic" {
      LookupAnthropic();
    }
  }
}

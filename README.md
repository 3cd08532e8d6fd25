# llm-api-service in Dafny

This project models the provider core of `llm-api-service`, a Flask service
that answers four kinds of request through a language-model provider:
email replies, message rewrites, plain prompt responses and text summaries.
The provider is OpenAI, xAI or Anthropic. The model covers:

- **The model catalogs.** These are the dictionaries `OPENAI`, `XAI` and
  `ANTHROPIC`, collected in `MODELS`. They give each provider's default model
  and its models' prices and capabilities.
- **The exception hierarchy.** Client errors answer with 4xx; server errors
  answer with 5xx.
- **The tools.** There are four tools: each has a name, a description, a
  pydantic response model with its JSON schema, a system prompt and a user
  prompt template. The model covers their registry and how the templates are
  filled by `str.format`.
- **`BaseLLMAPI`.**
  - The constructor's catalog checks.
  - Model resolution.
  - Tool lookup.
  - `_prepare_api_call`.
  - The four task methods.
- **The three adapters' `call_api`.**
  - The model check.
  - The price check.
  - The request each adapter builds for its SDK.
  - How each provider's response is read.
  - The exact decimal cost arithmetic.
  - How exceptions are rewrapped into `ServerError`.
- **`CallAPIResult` serialisation.** The decimal encoder of `Costs`, and the
  ISO form of the timestamp.
- **The service layer.**
  - `check_required_fields` and the health-check log filter.
  - The decision table of each POST route, which maps the required-field
    check, the task's outcome and the exception classes to status codes and
    JSON bodies.
  - The `/models` route.

Each adapter is a class whose constant fields are set by its constructor:
the settings read off the catalog, the SDK client and the live tool map. The
tool registry's dictionary is a class whose `entries` the registry updates in
place. Its `get_tool_map` result is the same object, so a tool registered
later is seen by an adapter built earlier. Everything else is a function
over values.

The SDK clients are total functions from the request the adapter builds to
the SDK's response or its `APIError`. `call_api` returns an `Outcome`: what
the call returned or raised, together with the request it sent, if any. The
properties are therefore stated against the request actually sent. Examples:
the max-token count, the resolved model, the system prompt and the one user
message holding the filled template.

The code does not deliver the refusal answer it is written to give. The
class `LLMRefusalError` is documented as "LLM refused to process the
request" (`app/exceptions.py:13-14`). The routes `/rewrite` and
`/summarize` catch it before any other client error and answer 400 with
`"type": "refusal"` (`app/service/routes/base_routes.py:53-54` and
`:101-102`). But the OpenAI and xAI adapters raise it inside the `try` of
`call_api` (`app/openai_api.py:121-122`, `app/xai_api.py:102-103`). The
`except Exception` of that `try` turns it into `ServerError("Unexpected
error: <refusal>")`, so a refusal leaves `call_api` as a server error. The
refusal branches of the two routes are therefore unreachable, and the
routes answer 500. The model follows the code:

- `OpenAiApi.RefusalRewrapped` and `XaiApi.RefusalRewrapped` show it per adapter.
- `LlmTasks.RunTask` shows it per task.
- `BaseRoutes.Handle` shows it per route.

## Model

| member | source | states |
|---|---|---|
| `Exceptions.Hierarchy` | app/exceptions.py:1-34 | the subclass relation: ClientError and ServerError under LLMAPIError, LLMRefusalError and InvalidModelError under ClientError, ConfigurationError under ServerError, and no class under both |
| `Exceptions.ClientKinds` | app/exceptions.py:7-28 | a class is a client error exactly when it is ClientError, LLMRefusalError or InvalidModelError |
| `Exceptions.ServerKinds` | app/exceptions.py:19-34 | a class is a server error exactly when it is ServerError or ConfigurationError |
| `Exceptions.ClientServerDisjoint` | app/exceptions.py:7-34 | no exception is both a client error and a server error |
| `Exceptions.ForeignOutside` | app/openai_api.py:149-154 | SDK errors and other Python exceptions belong to none of the service's classes |
| `Exceptions.Rewrap` | app/openai_api.py:149-154 | an SDK APIError becomes a ServerError with the same message; any other exception becomes the catch-all's ServerError |
| `Catalog.Models` | app/openai_api.py:46-47 | `provider_models.get("models", {})`: the catalog's models, or no models when the key is absent |
| `Catalog.StructuredOutputs` | app/openai_api.py:74-87 | the `structured_outputs` capability holds exactly when it is present and true (absent means false) |
| `OpenAiModels.OpenAiWellFormed` | app/models/openai.py:3-81 | the OpenAI catalog has its default `gpt-4o-2024-11-20` among its models, and its models are exactly the four gpt-4o models and gpt-4-turbo, gpt-4 and gpt-4-32k |
| `OpenAiModels.OpenAiPriced` | app/models/openai.py:3-81 | every OpenAI model has a non-empty input price and output price |
| `OpenAiModels.OpenAiStructuredOutputs` | app/models/openai.py:12-78 | an OpenAI model has structured outputs exactly when it is one of the gpt-4o models |
| `OpenAiModels.OpenAiCachedPrices` | app/models/openai.py:7-74 | an OpenAI model has a cached-input price exactly when it is one of the gpt-4o models |
| `OpenAiModels.OpenAiMiniPrices` | app/models/openai.py:39-44 | gpt-4o-mini costs 0.00000015 per input token and 0.0000006 per output token |
| `AnthropicModels.AnthropicWellFormed` | app/models/anthropic.py:3-10 | the Anthropic catalog has its default `claude-3-5-sonnet-20241022` among its models, priced 0.000003 and 0.000015 |
| `AnthropicModels.AnthropicEntries` | app/models/anthropic.py:3-57 | every Anthropic model is priced and none has structured outputs |
| `AnthropicModels.AnthropicPrices` | app/models/anthropic.py:36-54 | the haiku and opus prices as the catalog lists them |
| `XaiModels.XaiWellFormed` | app/models/xai.py:3-15 | the xAI catalog has its default `grok-2-1212` among its models, priced 0.000002 and 0.000010 |
| `XaiModels.XaiEntries` | app/models/xai.py:3-46 | every xAI model is priced and has structured outputs |
| `ProviderModels.Lookup` | app/models/__init__.py:5-9 | `MODELS.get(provider, {})`: a name other than the three providers finds an empty catalog |
| `ProviderModels.LookupXai` | app/models/__init__.py:6 | `MODELS["xai"]` is the xAI catalog, well formed and fully priced |
| `ProviderModels.LookupOpenAi` | app/models/__init__.py:7 | `MODELS["openai"]` is the OpenAI catalog, well formed and fully priced |
| `ProviderModels.LookupAnthropic` | app/models/__init__.py:8 | `MODELS["anthropic"]` is the Anthropic catalog, well formed and fully priced |
| `ProviderModels.LookupProviders` | app/models/__init__.py:5-9 | a catalog is found exactly for the three providers, and each found catalog is well formed and fully priced |
| `Tools.TitleChars` | app/tools/tool.py:27 | each character of a field's schema title is the name's character with `_` turned into a space, a letter that follows a non-letter (or starts the name) upper-cased and any other letter lower-cased |
| `Tools.TitleExample` | app/tools/definitions/email.py:12 | the title of `enthusiasm_level` is "Enthusiasm Level" |
| `Tools.Properties` | app/tools/tool.py:27 | the schema's properties are keyed by exactly the response model's field names |
| `Tools.Names` | app/tools/tool.py:27 | the schema's required list names every field of the response model, in order |
| `Tools.ModelJsonSchema` | app/tools/tool.py:27 | `model_json_schema()` is an object with exactly properties, required, title and type, of type "object", with every field required |
| `Tools.Tool.constructor` | app/tools/tool.py:13-27 | a tool holds the name, description, response model and prompts it is given, and the schema of its response model |
| `Tools.Tool.JsonSchema` | app/tools/tool.py:29-31 | the `json_schema` property is the schema of the tool's response model, computed once |
| `Tools.EqualHashConsistent` | app/tools/tool.py:35-39 | tool equality is by name, is an equivalence, and equal tools hash alike |
| `Registry.ToolDict.constructor` | app/tools/registry.py:9-10 | a new tool dictionary is empty |
| `Registry.ToolDict.Set` | app/tools/registry.py:13 | assigning a key replaces its entry and leaves every other entry as it was |
| `Registry.ToolDict.Get` | app/llm_interface.py:37 | `dict.get`: the entry under the key, or None exactly when the key is absent |
| `Registry.ToolRegistry.constructor` | app/tools/registry.py:9-10 | a new registry owns a fresh, empty dictionary |
| `Registry.ToolRegistry.Register` | app/tools/registry.py:12-13 | registering stores the tool under its name, replaces a tool of the same name and leaves every other entry as it was |
| `Registry.ToolRegistry.GetToolMap` | app/tools/registry.py:15-16 | `get_tool_map` returns the registry's own dictionary, not a copy |
| `Registry.LiveToolMap` | app/tools/registry.py:12-16 | a tool registered after the map was handed out is visible through that map |
| `Registry.RegisterLastWins` | app/tools/registry.py:13 | of two tools with the same name, the later registration wins |
| `ToolsInit.RegisterAll` | app/tools/__init__.py:11-16 | registering the four tools gives a dictionary with exactly their four names, each under its own |
| `ToolsInit.InitRegistry` | app/tools/__init__.py:1-16 | importing the tools package defines the email, message_rewrite, prompt_response and text_summary tools and registers exactly those four |
| `EmailTool.Define` | app/tools/definitions/email.py:8-48 | the email tool carries its name, description, EmailResponse model (two strings and two literal choices), prompts and schema |
| `EmailTool.FormatUser` | app/tools/definitions/email.py:34-40 | filling the email template splices the `email_body` argument verbatim between the fixed text, or raises KeyError without it |
| `MessageRewriteTool.Define` | app/tools/definitions/message_rewrite.py:8-39 | the message_rewrite tool carries its name, description, RewrittenMessage model, prompts and schema |
| `MessageRewriteTool.FormatUser` | app/tools/definitions/message_rewrite.py:31 | filling the rewrite template splices `message_content` verbatim inside `<message>` and `</message>`, or raises KeyError without it |
| `PromptResponseTool.Define` | app/tools/definitions/prompt_response.py:8-26 | the prompt_response tool carries its name, description, Response model, prompts and schema |
| `PromptResponseTool.FormatUser` | app/tools/definitions/prompt_response.py:18 | the template `{prompt}` fills to the prompt itself, or raises KeyError without it |
| `TextSummaryTool.Define` | app/tools/definitions/text_summary.py:8-28 | the text_summary tool carries its name, description, TextSummary model, prompts and schema |
| `TextSummaryTool.FormatUser` | app/tools/definitions/text_summary.py:18-20 | filling the summary template splices `text_body` verbatim between the fixed text, or raises KeyError without it |
| `PyFormat.FormatException` | app/llm_interface.py:54 | a missing keyword raises KeyError naming the key in quotes; every formatting error is a Python exception outside the service's classes |
| `PyFormat.FormatLiteral` | app/llm_interface.py:54 | a template without braces formats to itself |
| `PyFormat.FormatLiteralPrefix` | app/llm_interface.py:54 | a brace-free prefix is copied to the output unchanged in front of the rest |
| `PyFormat.FormatField` | app/llm_interface.py:54 | a named field is replaced by its argument, inserted verbatim, or raises KeyError when the argument is absent |
| `PyFormat.FormatOneField` | app/llm_interface.py:54 | a template with one named field between brace-free text formats to that text around the argument, or to KeyError |
| `LlmInterface.Configure` | app/openai_api.py:36-47 | the constructor's checks: an empty catalog, then a missing or empty default, raise their ConfigurationErrors; otherwise the settings are the catalog's, with the valid models exactly its model names |
| `LlmInterface.ConfigureWellFormed` | app/openai_api.py:36-47 | a well-formed catalog passes the checks, and its default is a valid model |
| `LlmInterface.ConfigureProviders` | app/xai_api.py:29-40 | construction succeeds with a valid default for each of the three providers; any other provider name fails with "No models found for provider" |
| `LlmInterface.ValidModels` | app/llm_interface.py:30-31 | `valid_models()` lists every valid model exactly once and nothing else |
| `LlmInterface.ResolveModel` | app/llm_interface.py:45-50 | the model given is kept when present and valid; otherwise the default is used |
| `LlmInterface.ResolveModelValid` | app/llm_interface.py:45-50 | with a valid default, the resolved model is always valid |
| `LlmInterface.ModelOrDefault` | app/openai_api.py:65 | `model or DEFAULT_MODEL`: an absent or empty name becomes the default, and any other name is kept |
| `LlmInterface.ModelOrDefaultResolved` | app/openai_api.py:65-69 | a model resolved by `_prepare_api_call` stays valid through the defaulting of `call_api` |
| `LlmInterface.InvalidModel` | app/openai_api.py:66-69 | the invalid-model exception is an InvalidModelError, a client error |
| `LlmInterface.GetTool` | app/llm_interface.py:36-40 | the registered tool, or ConfigurationError "Tool '<name>' not found" exactly when none is registered |
| `LlmInterface.PrepareApiCall` | app/llm_interface.py:42-76 | the call is prepared exactly when the tool is registered and its template fills; a missing tool or a formatting error is raised as is; a prepared call has 2048 tokens, the resolved model, the tool, its system prompt and one user message with the filled template |
| `CallResults.IncompleteCosts` | app/openai_api.py:76-79 | a missing price raises a ConfigurationError, a server error |
| `CallResults.Price` | app/openai_api.py:116-117 | `Decimal(costs.get(key))`: the parsed price, TypeError when the key is absent, InvalidOperation when the text is not a number |
| `CallResults.CostsOf` | app/openai_api.py:116-118 | each cost is its token count times its unit price, exactly; the total is their sum; the unit prices are echoed |
| `CallResults.ComputeCosts` | app/openai_api.py:116-118 | the costs exist exactly when both prices parse; the input price's error comes first |
| `CallResults.CostsExact` | app/anthropic_api.py:86-89 | every cost is exact at the scale of the price strings, and the total has the larger scale |
| `CallResults.ResultDict` | app/openai_api.py:134-146 | `CallAPIResult(result=...)` accepts a JSON object and raises ValidationError for anything else |
| `CallResults.Caught` | app/openai_api.py:149-154 | the two handlers pass a result through and turn every exception into a server error |
| `CallResults.WithSystem` | app/openai_api.py:81-84 | the messages sent are the system message followed by the caller's messages, or by none when there are none |
| `CallResults.ParseDefaultPrices` | app/models/anthropic.py:7-10 | "0.000003" and "0.000015" read as 3 and 15 millionths |
| `CallResults.WorkedExample` | app/anthropic_api.py:86-101 | at those prices 100 input and 50 output tokens cost 0.0003, 0.00075 and 0.00105 in all, which the encoder writes as "0.00105" |
| `Decimals.Mul` | app/openai_api.py:116 | the product of two decimals is exact, at the sum of their scales |
| `Decimals.Add` | app/openai_api.py:118 | the sum of two decimals is exact, at the larger of their scales |
| `Decimals.ParseRender` | app/openai_api.py:138-139 | reading back the plain form of a decimal gives that decimal |
| `Decimals.RoundToScale` | app/types.py:20 | rounding to twelve places keeps the sign, and keeps the value when nothing needs rounding |
| `Decimals.RoundToScaleError` | app/types.py:20 | rounding to fewer places is half-even and off by at most half a unit of the last place |
| `Decimals.ParseFormatFixed` | app/types.py:20 | `f"{v:.12f}"` reads back as the value rounded half-even to twelve places |
| `Types.EncodeValue` | app/types.py:20 | the encoder's text is a decimal with at most twelve places, equal to the value rounded to twelve places, and to the value itself when it has at most twelve |
| `Types.EncodeShape` | app/types.py:20 | the encoder's text never ends in a zero after a decimal point, nor in a bare point |
| `Types.EncodeCanonical` | app/types.py:20 | the encoder writes the sign and the rounded magnitude with its trailing zeros removed |
| `Types.EncodeExampleFive` | app/types.py:20 | 5 is written "5" |
| `Types.EncodeExampleZero` | app/types.py:20 | 0 is written "0" |
| `Types.SerializeTimestamp` | app/types.py:30-32 | the timestamp's ISO text reads back as the same time, 19 characters long, or 26 with microseconds |
| `DateTimes.ParseIsoFormat` | app/types.py:32 | `datetime.isoformat()` of a valid time reads back as that time |
| `DateTimes.IsoFormatLength` | app/types.py:32 | the ISO text has 19 characters, or 26 with microseconds |
| `OpenAiApi.MessageContent` | app/openai_api.py:22-27 | a non-empty content wins, then the function call's arguments, and nothing when neither is there |
| `OpenAiApi.NoContent` | app/openai_api.py:125-126 | a message without content raises a ServerError |
| `OpenAiApi.ReadCompletion` | app/openai_api.py:111-147 | in order: a price error, no choices (IndexError), a refusal (LLMRefusalError with its text), no content, a JSON error; a result exactly when none of those occurs and the JSON is an object, with the completion's model and usage, the costs, the object and the current time |
| `OpenAiApi.OpenAiApi.constructor` | app/openai_api.py:33-54 | the adapter keeps the settings, client and tool map it is given, and is valid exactly when the settings are consistent and belong to its provider |
| `OpenAiApi.OpenAiApi.New` | app/openai_api.py:33-54 | `OpenAIAPI()` succeeds, with the OpenAI catalog's settings, a valid default and the registry's live tool map |
| `OpenAiApi.OpenAiApi.Attempt` | app/openai_api.py:71-147 | incomplete prices raise before anything is sent; otherwise the model, system message plus messages and max tokens are sent, by `parse` with the response model exactly when the model has structured outputs, else by `create` with the tool as the one forced function; the SDK's error or its read completion is the result |
| `OpenAiApi.OpenAiApi.CallApi` | app/openai_api.py:56-154 | an invalid model raises InvalidModelError with nothing sent; otherwise the attempt's request is sent and its outcome caught; only InvalidModelError or ServerError can escape |
| `OpenAiApi.IncompletePrices` | app/openai_api.py:76-79 | a model without both prices fails as a server error "Unexpected error: Cost information incomplete ..." and sends nothing |
| `OpenAiApi.RefusalRewrapped` | app/openai_api.py:120-122 | a refusal leaves `call_api` as ServerError("Unexpected error: " + refusal), not as LLMRefusalError |
| `OpenAiApi.SdkErrorPassedOn` | app/openai_api.py:149-151 | an SDK APIError leaves as a ServerError with the SDK's message |
| `OpenAiApi.SuccessCosts` | app/openai_api.py:111-147 | a result reports the model and usage of the completion and the costs of the resolved model's prices |
| `XaiApi.ReadCompletion` | app/xai_api.py:92-125 | in order: a price error, no choices, a refusal, no content (TypeError from `json.loads(None)`), a JSON error; a result exactly when none of those occurs and the JSON is an object |
| `XaiApi.XaiApi.constructor` | app/xai_api.py:26-51 | the adapter keeps the settings, client and tool map it is given, and is valid exactly when the settings are consistent and belong to its provider |
| `XaiApi.XaiApi.New` | app/xai_api.py:26-51 | `xAIAPI()` succeeds, with the xAI catalog's settings, a valid default and the registry's live tool map |
| `XaiApi.XaiApi.Attempt` | app/xai_api.py:68-125 | incomplete prices raise before anything is sent; otherwise a `parse` request with the model, system message plus messages, response model and max tokens is sent, whatever the capabilities |
| `XaiApi.XaiApi.CallApi` | app/xai_api.py:53-132 | an invalid model raises InvalidModelError with nothing sent; otherwise the attempt's outcome is caught; only InvalidModelError or ServerError can escape |
| `XaiApi.IncompletePrices` | app/xai_api.py:72-75 | a model without both prices fails as a server error and sends nothing |
| `XaiApi.RefusalRewrapped` | app/xai_api.py:101-103 | a refusal leaves `call_api` as ServerError("Unexpected error: " + refusal) |
| `XaiApi.SdkErrorPassedOn` | app/xai_api.py:127-129 | an SDK APIError leaves as a ServerError with the SDK's message |
| `XaiApi.SuccessCosts` | app/xai_api.py:92-125 | a result reports the model and usage of the completion and the costs of the resolved model's prices |
| `AnthropicApi.ReadResponse` | app/anthropic_api.py:82-105 | in order: a price error, no content blocks (IndexError), a text block (AttributeError); a result exactly when the first block is a tool use whose input is an object, with the response's model, usage and costs |
| `AnthropicApi.AnthropicApi.constructor` | app/anthropic_api.py:20-41 | the adapter keeps the settings, client and tool map it is given, and is valid exactly when the settings are consistent and belong to its provider |
| `AnthropicApi.AnthropicApi.New` | app/anthropic_api.py:20-41 | `AnthropicAPI()` succeeds, with the Anthropic catalog's settings, a valid default and the registry's live tool map |
| `AnthropicApi.AnthropicApi.Attempt` | app/anthropic_api.py:58-105 | incomplete prices raise before anything is sent; otherwise the model, max tokens, the tool as the one forced tool, the system prompt and the messages unchanged are sent |
| `AnthropicApi.AnthropicApi.CallApi` | app/anthropic_api.py:43-112 | an invalid model raises InvalidModelError with nothing sent; otherwise the attempt's outcome is caught; only InvalidModelError or ServerError can escape |
| `AnthropicApi.IncompletePrices` | app/anthropic_api.py:62-65 | a model without both prices fails as a server error and sends nothing |
| `AnthropicApi.SdkErrorPassedOn` | app/anthropic_api.py:107-109 | an SDK APIError leaves as a ServerError with the SDK's message |
| `AnthropicApi.SuccessCosts` | app/anthropic_api.py:82-105 | a result reports the model and usage of the response and the costs of the resolved model's prices |
| `LlmTasks.ToolName` | app/llm_interface.py:83-120 | each task asks for one of the four registered tool names |
| `LlmTasks.ToolNamesDistinct` | app/llm_interface.py:83-120 | different tasks ask for different tools |
| `LlmTasks.CallApi` | app/llm_interface.py:91 | `self.call_api(**api_params)`: the outcome is the adapter's own `call_api` on the prepared max tokens, model, tool, system prompt and messages; it fails only with InvalidModelError or ServerError, an invalid model sends nothing, and what is sent carries the given max tokens, the defaulted model, the system prompt and the messages |
| `LlmTasks.OpenAiCall` | app/openai_api.py:56-154 | the outcome is the OpenAI adapter's `call_api` on the prepared arguments, with the same facts about its request |
| `LlmTasks.XaiCall` | app/xai_api.py:53-132 | the outcome is the xAI adapter's `call_api` on the prepared arguments, with the same facts about its request |
| `LlmTasks.AnthropicCall` | app/anthropic_api.py:43-112 | the outcome is the Anthropic adapter's `call_api` on the prepared arguments, with the same facts about its request |
| `LlmTasks.RunTask` | app/llm_interface.py:78-124 | a missing tool raises ConfigurationError and a template that does not fill raises its formatting exception, both with nothing sent; otherwise the outcome is exactly `call_api` on 4096 tokens, the resolved model, the tool, its system prompt and one user message with the filled template; only InvalidModelError, ServerError, ConfigurationError or a formatting exception escape, never LLMRefusalError; with a valid default never InvalidModelError and, once the template fills, only ServerError; what is sent has 4096 tokens and a valid model (the resolved one unless "" is a model name) |
| `LlmTasks.PreparedModel` | app/llm_interface.py:45-50 | the model `_prepare_api_call` resolves passes `call_api`'s check when the default is valid, and is sent unchanged unless it is "" |
| `LlmTasks.EmailTask` | app/llm_interface.py:78-91 | `generate_email_response`: the outcome is `call_api` on 4096 tokens, the resolved model, the email tool and its system prompt, and one user message holding the email body spliced verbatim between the template's fixed parts |
| `LlmTasks.MessageRewriteTask` | app/llm_interface.py:93-106 | `rewrite_message`: the outcome is `call_api` on 4096 tokens, the resolved model, the rewrite tool and its system prompt, and one user message holding the message spliced verbatim into the template |
| `LlmTasks.PromptResponseTask` | app/llm_interface.py:108-115 | `basic_prompt_response`: the outcome is `call_api` on 4096 tokens, the resolved model, the prompt tool and its system prompt, and one user message that is the prompt itself |
| `LlmTasks.TextSummaryTask` | app/llm_interface.py:117-124 | `summarize_text`: the outcome is `call_api` on 4096 tokens, the resolved model, the summary tool and its system prompt, and one user message holding the text spliced verbatim into the template |
| `Middleware.Missing` | app/service/middleware.py:30 | the missing fields are no more than the required ones |
| `Middleware.MissingMembers` | app/service/middleware.py:30 | a field is reported missing exactly when it is required and absent from the request |
| `Middleware.MissingAppend` | app/service/middleware.py:30 | the missing fields keep the order of the required list |
| `Middleware.MissingOne` | app/service/middleware.py:30 | one required field is reported exactly when it is absent |
| `Middleware.BadRequestNames` | app/service/middleware.py:32-37 | the message names every missing field, in order: each occurs at its offset after "Missing required field(s): ", and ", " separates it from the next |
| `Middleware.CheckRequiredFields` | app/service/middleware.py:29-38 | nothing exactly when every required field is present; otherwise the 400 naming the missing fields in order |
| `Middleware.NothingRequired` | app/service/middleware.py:29-38 | an empty required list always passes |
| `Middleware.OneFieldMissing` | app/service/middleware.py:29-38 | a single missing field is named on its own |
| `Middleware.HealthCheckFilter` | app/service/middleware.py:14-16 | a log record is kept exactly when its message does not contain `"GET /healthz` |
| `Middleware.HealthCheckDropped` | app/service/middleware.py:14-16 | a health-check request line is dropped whatever surrounds it |
| `BaseRoutes.Respond` | app/service/routes/base_routes.py:27-106 | a result gives 200 with `{"data": ...}`; a refusal gives 400 with type refusal on /rewrite and /summarize; any other client error gives 400 and a server error 500, with `{"errors": [message]}`; anything else gives the 500 handler's answer; so 200 exactly for a result and 400 exactly for a client error |
| `BaseRoutes.RefusalPlainElsewhere` | app/service/routes/base_routes.py:35-36 | on /email and /prompt_response a refusal is a plain 400 |
| `BaseRoutes.ModelArg` | app/service/routes/base_routes.py:32 | `request.json.get("model")`: a string is passed on; an absent, null, boolean or numeric model resolves as None |
| `BaseRoutes.TextOf` | app/service/routes/base_routes.py:31 | a string field is the text itself; any other value is formatted with `str()` |
| `BaseRoutes.Handle` | app/service/routes/base_routes.py:24-106 | a missing required field gives the 400 of `check_required_fields` before anything is sent; a list or object model raises an uncaught TypeError (500); otherwise the task's outcome is mapped; the status is always 200, 400 or 500, the refusal answer never occurs, and with a valid default the status is 400 exactly when the field is missing |
| `BaseRoutes.ModelsRoute` | app/service/routes/base_routes.py:62-69 | `/models` answers 200 with `{"data": names}`, listing every valid model exactly once |

## Left out

- The SDK clients (`openai.OpenAI`, `anthropic.Anthropic` and the xAI client), with their keys and base URL. Each is a total function from the request to a response or an `APIError`. The network, retries and timeouts are not modelled.
- `load_dotenv`, `os.getenv("XAI_API_KEY")` and all logging. These include the invalid-model warning of `_prepare_api_call` and the setup of the `werkzeug` logger, which have no observable result besides the filter's decision.
- `json.loads` is a parameter of the call (`CallEnv.loads`). The ValidationError message pydantic writes for a non-object result is another parameter, `CallEnv.notADict`.
- `datetime.utcnow()` is the parameter `CallEnv.now`.
- `result.model_dump()`, and Python's `str()` of a non-string JSON value, are parameters of `BaseRoutes.Handle`.
- The JSON provider of the Flask app (`CustomJSONProvider`, `format(o, "f")`) is not modelled, and neither is the HTTP encoding of responses. The route output is the JSON value before encoding. The `types.py` encoder is modelled on its own and is not claimed to be what the routes emit.
- Decimals are exact (coefficient and scale). Python's 28-digit context never rounds at these magnitudes, and exponent notation (`1E-7`) is not parsed. The catalog's prices use plain notation only.
- `Decimals.Parse`: reads only plain notation (an optional sign, digits and at most one point), which is all the catalog holds, rather than every string `Decimal()` accepts; surrounding whitespace, exponents, `Infinity` and `NaN` read as errors.
- `LlmInterface.ValidModels`: the order of `list(frozenset)` is Python's hash order. The model allows any order and states only the contents and that no name repeats.
- `PyFormat.Format` covers named fields, `{{`/`}}` escapes and the errors for unbalanced braces. Conversions, format specs, attribute or index access and positional fields are reported as unsupported, and the templates here use none of them.
- `request.json` is a map from field names to JSON values; a body that is not a JSON object is not modelled. Of the application's error handlers only the 500 answer `Internal server error` is modelled, as the fate of an exception no route catches; the 404 and 400 handlers are not. Blueprint creation, `with_provider_api` and the `before_request` logging are not modelled either.
- `/healthz`, CORS and `create_app` are application wiring with no decision logic.
- `LlmTasks.RunTask`: that the sent model is the resolved one is stated only when "" is not a valid model name. If a catalog listed "", `call_api` would replace it with the default. No catalog does.
- `Tools.TitleChars`: pydantic forms a title as `name.title().replace("_", " ").strip()`. The model leaves out the `strip()`, which matters only for a field name that starts or ends with `_`, and treats only ASCII letters as cased, where `str.title` knows every Unicode letter. No field of the four response models has either.
- `Tools.ModelJsonSchema` is the part of pydantic's `model_json_schema()` these four models use: string fields, literal choices and descriptions. Pydantic's other schema features are not modelled.
- The `abc` machinery of `LLMInterface` and the `**kwargs` of `call_api` are not modelled.

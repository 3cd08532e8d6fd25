/** `app/tools/__init__.py`: the package-level registry, filled by
    registering the four tool definitions in turn. */
module ToolsInit {

  import opened Tools
  import opened Registry
  import EmailTool
  import MessageRewriteTool
  import PromptResponseTool
  import TextSummaryTool

  /** The names under which the tools are registered. */
  const ToolNames: set<string> := {"email", "message_rewrite", "prompt_response", "text_summary"}

  /** `tool_registry = ToolRegistry()` followed by the four `register`
      calls, in the order of the source. The names differ, so no
      registration replaces another: each name maps to the object
      registered under it. */
  method RegisterAll(email: Tool, messageRewrite: Tool, promptResponse: Tool, textSummary: Tool)
    returns (registry: ToolRegistry)
    requires email.name == "email" && messageRewrite.name == "message_rewrite"
    requires promptResponse.name == "prompt_response" && textSummary.name == "text_summary"
    ensures fresh(registry) && fresh(registry.tools)
    ensures registry.tools.entries == map[
      "email" := email, "message_rewrite" := messageRewrite,
      "prompt_response" := promptResponse, "text_summary" := textSummary]
    ensures registry.tools.entries.Keys == ToolNames
  {
    registry := new ToolRegistry();
    registry.Register(email);
    registry.Register(messageRewrite);
    registry.Register(promptResponse);
    registry.Register(textSummary);
  }

  /** Importing the package: the four definition modules build their
      tools, which are then registered. */
  method InitRegistry() returns (registry: ToolRegistry, email: Tool, messageRewrite: Tool,
                                 promptResponse: Tool, textSummary: Tool)
    ensures fresh(registry) && fresh(registry.tools)
    ensures EmailTool.IsEmail(email) && MessageRewriteTool.IsMessageRewrite(messageRewrite)
    ensures PromptResponseTool.IsPromptResponse(promptResponse) && TextSummaryTool.IsTextSummary(textSummary)
    ensures registry.tools.entries == map[
      "email" := email, "message_rewrite" := messageRewrite,
      "prompt_response" := promptResponse, "text_summary" := textSummary]
    ensures registry.tools.entries.Keys == ToolNames
  {
    email := EmailTool.Define();
    messageRewrite := MessageRewriteTool.Define();
    promptResponse := PromptResponseTool.Define();
    textSummary := TextSummaryTool.Define();
    registry := RegisterAll(email, messageRewrite, promptResponse, textSummary);
  }
}

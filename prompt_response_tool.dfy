/** `app/tools/definitions/prompt_response.py`: the `prompt_response` tool, which answers a free-form prompt. */
module PromptResponseTool {

  import opened Options
  import opened Json
  import opened Tools
  import opened Digits
  import opened PyFormat

  const Name: string := "prompt_response"
  const Description: string := "Respond to the prompt"


  /** The response model `Response`. */
  const Response: PydanticModel := PydanticModel("Response", [
    ModelField("summary", StrField, Some("Response to the user's prompt"))])

  /** The system prompt, sent as it is. */
  const System: string :=
    "You are an LLM responding to a " +
    "user's prompt"

  /** The name of the template's one replacement field. */
  const Placeholder: string := "prompt"

  /** The user template up to its replacement field */
  const UserBefore: string := ""

  lemma UserBeforeNoBraces()
    ensures NoBraces(UserBefore)
  {
  }

  /** The user template after its replacement field */
  const UserAfter: string := ""

  lemma UserAfterNoBraces()
    ensures NoBraces(UserAfter)
  {
  }

  /** The user prompt template. */
  const User: string := UserBefore + "{" + Placeholder + "}" + UserAfter

  /** `t` is the `prompt_response` tool: it carries this module's name, description,
      response model and prompts, and the schema of that model. */
  predicate IsPromptResponse(t: Tool)
  {
    && t.name == Name && t.description == Description
    && t.pydanticModel == Response
    && t.systemPrompt == System && t.userPromptTemplate == User
    && t.Valid()
  }

  /** `prompt_response = Tool(...)`, run when the module is imported. */
  method Define() returns (t: Tool)
    ensures fresh(t) && IsPromptResponse(t)
  {
    t := new Tool(Name, Description, Response, System, User);
  }

  /** Formatting the user template: the argument named by the placeholder
      is spliced in verbatim between the fixed text before and after it
      (braces in the argument are not interpreted); without that argument
      the call raises `KeyError`. */
  lemma FormatUser(kwargs: map<string, string>)
    ensures Format(User, kwargs)
         == if Placeholder in kwargs then Ok(UserBefore + kwargs[Placeholder] + UserAfter)
            else Err(MissingKey(Placeholder))
  {
    UserBeforeNoBraces();
    UserAfterNoBraces();
    IdentifierIsNamedField(Placeholder);
    FormatOneField(UserBefore, Placeholder, UserAfter, kwargs);
  }
}

/** `app/tools/definitions/text_summary.py`: the `text_summary` tool, which summarises a text. */
module TextSummaryTool {

  import opened Options
  import opened Json
  import opened Tools
  import opened Digits
  import opened PyFormat

  const Name: string := "text_summary"
  const Description: string := "Summarize a given text into a concise and informative summary."


  /** The response model `TextSummary`. */
  const TextSummaryModel: PydanticModel := PydanticModel("TextSummary", [
    ModelField("text_summary", StrField, Some("The summary of the given text"))])

  /** The system prompt, sent as it is. */
  const System: string :=
    "\nYou are an expert at " +
    "summarizing long bodies of text " +
    "into concise and informative " +
    "summaries, using bullet points " +
    "if necessary.\n"

  /** The name of the template's one replacement field. */
  const Placeholder: string := "text_body"

  /** The user template up to its replacement field, in pieces short enough for the verifier to
      scan one at a time. */
  const UserBefore1: string := "\nPlease read and summarize the "
  const UserBefore2: string := "following text, maintaining all "
  const UserBefore3: string := "the key points and general gist "
  const UserBefore4: string := "of the text: <text_body>"
  const UserBefore: string := UserBefore1 + UserBefore2 + UserBefore3 + UserBefore4

  lemma UserBefore1NoBraces()
    ensures NoBraces(UserBefore1)
  {
  }

  lemma UserBefore2NoBraces()
    ensures NoBraces(UserBefore2)
  {
  }

  lemma UserBefore3NoBraces()
    ensures NoBraces(UserBefore3)
  {
  }

  lemma UserBefore4NoBraces()
    ensures NoBraces(UserBefore4)
  {
  }

  lemma UserBeforeNoBraces()
    ensures NoBraces(UserBefore)
  {
    UserBefore1NoBraces();
    UserBefore2NoBraces();
    NoBracesAppend(UserBefore1, UserBefore2);
    UserBefore3NoBraces();
    NoBracesAppend(UserBefore1 + UserBefore2, UserBefore3);
    UserBefore4NoBraces();
    NoBracesAppend(UserBefore1 + UserBefore2 + UserBefore3, UserBefore4);
  }

  /** The user template after its replacement field */
  const UserAfter: string := "</text_body>\n"

  lemma UserAfterNoBraces()
    ensures NoBraces(UserAfter)
  {
  }

  /** The user prompt template. */
  const User: string := UserBefore + "{" + Placeholder + "}" + UserAfter

  /** `t` is the `text_summary` tool: it carries this module's name, description,
      response model and prompts, and the schema of that model. */
  predicate IsTextSummary(t: Tool)
  {
    && t.name == Name && t.description == Description
    && t.pydanticModel == TextSummaryModel
    && t.systemPrompt == System && t.userPromptTemplate == User
    && t.Valid()
  }

  /** `text_summary = Tool(...)`, run when the module is imported. */
  method Define() returns (t: Tool)
    ensures fresh(t) && IsTextSummary(t)
  {
    t := new Tool(Name, Description, TextSummaryModel, System, User);
  }

  /** Formatting the user template: the argument named by the placeholder
      is spliced in verbatim between the fixed text before and after it
      (braces in the argument are not interpreted); without that argument
      the call raises `KeyError`. */
  lemma FormatUser(kwargs: map<string, string>)
    ensures Format(User, kwargs)
         == if Placeholder in kwargs then Ok(UserBefore + kwargs[Placeholder] + UserAfter)
            else Err(MissingKey(Placeholder))
  {
    UserBeforeNoBraces();
    UserAfterNoBraces();
    IdentifierIsNamedField(Placeholder);
    FormatOneField(UserBefore, Placeholder, UserAfter, kwargs);
  }
}

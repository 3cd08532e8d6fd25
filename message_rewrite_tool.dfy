/** `app/tools/definitions/message_rewrite.py`: the `message_rewrite` tool, which rewrites a message in a professional tone. */
module MessageRewriteTool {

  import opened Options
  import opened Json
  import opened Tools
  import opened Digits
  import opened PyFormat

  const Name: string := "message_rewrite"
  const Description: string := "Rewrite a message in a professional tone while preserving the main points."


  /** The response model `RewrittenMessage`. */
  const RewrittenMessage: PydanticModel := PydanticModel("RewrittenMessage", [
    ModelField("rewritten_message", StrField, Some("The professionally rewritten message"))])

  /** The system prompt, sent as it is. */
  const System: string :=
    "\nYou are an expert at improving " +
    "written communication. When " +
    "rewriting messages, follow " +
    "these guidelines:\n\n- Maintain a " +
    "professional and polite tone " +
    "while preserving the original " +
    "message's intent\n- Focus on " +
    "matching the tone and style of " +
    "the original message\n- Improve " +
    "clarity and structure while " +
    "keeping the authentic voice\n- " +
    "Ensure proper grammar and " +
    "punctuation\n- Keep the message " +
    "concise and well-organized\n- " +
    "Preserve all key points and " +
    "important details from the " +
    "original message\n- Do not add " +
    "new information or change the " +
    "meaning of the original message\n" +
    "- Try and avoid using filler " +
    "words like \"very\", \"really\", " +
    "etc. that don't add value to " +
    "the message\n"

  /** The name of the template's one replacement field. */
  const Placeholder: string := "message_content"

  /** The user template up to its replacement field, in pieces short enough for the verifier to
      scan one at a time. */
  const UserBefore1: string := "Please rewrite the following "
  const UserBefore2: string := "message in a more professional "
  const UserBefore3: string := "tone while maintaining all the "
  const UserBefore4: string := "key points: <message>"
  const UserBefore: string := UserBefore1 + UserBefore2 + UserBefore3 + UserBefore4

  lemma UserBefore1NoBraces()
    ensures NoBraces(UserBefore1)
  {
  }

  lemma UserBefore2NoBraces()
    ensures NoBraces(UserBefore2)
  {
  }

  lemma UserBefore3NoBraces()
    ensures NoBraces(UserBefore3)
  {
  }

  lemma UserBefore4NoBraces()
    ensures NoBraces(UserBefore4)
  {
  }

  lemma UserBeforeNoBraces()
    ensures NoBraces(UserBefore)
  {
    UserBefore1NoBraces();
    UserBefore2NoBraces();
    NoBracesAppend(UserBefore1, UserBefore2);
    UserBefore3NoBraces();
    NoBracesAppend(UserBefore1 + UserBefore2, UserBefore3);
    UserBefore4NoBraces();
    NoBracesAppend(UserBefore1 + UserBefore2 + UserBefore3, UserBefore4);
  }

  /** The user template after its replacement field */
  const UserAfter: string := "</message>"

  lemma UserAfterNoBraces()
    ensures NoBraces(UserAfter)
  {
  }

  /** The user prompt template. */
  const User: string := UserBefore + "{" + Placeholder + "}" + UserAfter

  /** `t` is the `message_rewrite` tool: it carries this module's name, description,
      response model and prompts, and the schema of that model. */
  predicate IsMessageRewrite(t: Tool)
  {
    && t.name == Name && t.description == Description
    && t.pydanticModel == RewrittenMessage
    && t.systemPrompt == System && t.userPromptTemplate == User
    && t.Valid()
  }

  /** `message_rewrite = Tool(...)`, run when the module is imported. */
  method Define() returns (t: Tool)
    ensures fresh(t) && IsMessageRewrite(t)
  {
    t := new Tool(Name, Description, RewrittenMessage, System, User);
  }

  /** Formatting the user template: the argument named by the placeholder
      is spliced in verbatim between the fixed text before and after it
      (braces in the argument are not interpreted); without that argument
      the call raises `KeyError`. */
  lemma FormatUser(kwargs: map<string, string>)
    ensures Format(User, kwargs)
         == if Placeholder in kwargs then Ok(UserBefore + kwargs[Placeholder] + UserAfter)
            else Err(MissingKey(Placeholder))
  {
    UserBeforeNoBraces();
    UserAfterNoBraces();
    IdentifierIsNamedField(Placeholder);
    FormatOneField(UserBefore, Placeholder, UserAfter, kwargs);
  }
}

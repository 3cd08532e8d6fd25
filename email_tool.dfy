/** `app/tools/definitions/email.py`: the `email` tool, which drafts a reply to an email. */
module EmailTool {

  import opened Options
  import opened Json
  import opened Tools
  import opened Digits
  import opened PyFormat

  const Name: string := "email"
  const Description: string := "Parse an email and generate an appropriate response."

  /** The choices of the `Literal` fields `tone` and `enthusiasm_level`. */
  const Tones: seq<string> := ["formal", "semi-formal", "casual", "friendly"]
  const EnthusiasmLevels: seq<string> := ["low", "medium", "high"]

  /** The response model `EmailResponse`. */
  const EmailResponse: PydanticModel := PydanticModel("EmailResponse", [
    ModelField("subject", StrField, None),
    ModelField("body", StrField, None),
    ModelField("tone", LiteralField(Tones), None),
    ModelField("enthusiasm_level", LiteralField(EnthusiasmLevels), None)])

  /** The system prompt, sent as it is. */
  const System: string :=
    "\nYou are an expert at parsing " +
    "emails and crafting " +
    "professional responses. When " +
    "processing this task, ensure " +
    "all fields are properly " +
    "formatted as JSON. For arrays " +
    "always use proper JSON array " +
    "notation, even if there's only " +
    "one item. If a piece of " +
    "information is unknown, use " +
    "null for optional fields or an " +
    "empty string for required " +
    "string fields.\n\nFollow these " +
    "guidelines:\n\n- Accurately " +
    "extract key information from " +
    "the email.\n- Generate a " +
    "response that matches the tone, " +
    "length, and depth of the " +
    "original email.\n- Maintain a " +
    "positive and professional tone " +
    "in the response.\n- Keep the " +
    "response concise and " +
    "conversational, avoiding formal " +
    "language or buzzwords.\n- " +
    "Address key points and " +
    "questions raised in the " +
    "original email without being " +
    "exhaustive.\n- Express interest " +
    "and enthusiasm without " +
    "over-committing or appearing " +
    "desperate.\n- If multiple items " +
    "are mentioned, acknowledge them " +
    "briefly.\n- Do not invent or " +
    "assume any information not " +
    "provided in the original email.\n" +
    "\nPay special attention to all " +
    "names, dates and contact " +
    "information, and remember not " +
    "to make anything up.\n"

  /** The name of the template's one replacement field. */
  const Placeholder: string := "email_body"

  /** The user template up to its replacement field, in pieces short enough for the verifier to
      scan one at a time. */
  const UserBefore1: string := "\nPlease parse the following "
  const UserBefore2: string := "body of an email and generate a "
  const UserBefore3: string := "suitable professional response, "
  const UserBefore4: string := "paying special attention to the "
  const UserBefore5: string := "tone and content of the "
  const UserBefore6: string := "original email. You MAY NOT "
  const UserBefore7: string := "make up information that is not "
  const UserBefore8: string := "found in the input.\n\n"
  const UserBefore9: string := "<email_body>\n"
  const UserBefore: string := UserBefore1 + UserBefore2 + UserBefore3 + UserBefore4 + UserBefore5 + UserBefore6 + UserBefore7 + UserBefore8 + UserBefore9

  lemma UserBefore1NoBraces()
    ensures NoBraces(UserBefore1)
  {
  }

  lemma UserBefore2NoBraces()
    ensures NoBraces(UserBefore2)
  {
  }

  lemma UserBefore3NoBraces()
    ensures NoBraces(UserBefore3)
  {
  }

  lemma UserBefore4NoBraces()
    ensures NoBraces(UserBefore4)
  {
  }

  lemma UserBefore5NoBraces()
    ensures NoBraces(UserBefore5)
  {
  }

  lemma UserBefore6NoBraces()
    ensures NoBraces(UserBefore6)
  {
  }

  lemma UserBefore7NoBraces()
    ensures NoBraces(UserBefore7)
  {
  }

  lemma UserBefore8NoBraces()
    ensures NoBraces(UserBefore8)
  {
  }

  lemma UserBefore9NoBraces()
    ensures NoBraces(UserBefore9)
  {
  }

  lemma UserBeforeNoBraces()
    ensures NoBraces(UserBefore)
  {
    UserBefore1NoBraces();
    UserBefore2NoBraces();
    NoBracesAppend(UserBefore1, UserBefore2);
    UserBefore3NoBraces();
    NoBracesAppend(UserBefore1 + UserBefore2, UserBefore3);
    UserBefore4NoBraces();
    NoBracesAppend(UserBefore1 + UserBefore2 + UserBefore3, UserBefore4);
    UserBefore5NoBraces();
    NoBracesAppend(UserBefore1 + UserBefore2 + UserBefore3 + UserBefore4, UserBefore5);
    UserBefore6NoBraces();
    NoBracesAppend(UserBefore1 + UserBefore2 + UserBefore3 + UserBefore4 + UserBefore5, UserBefore6);
    UserBefore7NoBraces();
    NoBracesAppend(UserBefore1 + UserBefore2 + UserBefore3 + UserBefore4 + UserBefore5 + UserBefore6, UserBefore7);
    UserBefore8NoBraces();
    NoBracesAppend(UserBefore1 + UserBefore2 + UserBefore3 + UserBefore4 + UserBefore5 + UserBefore6 + UserBefore7, UserBefore8);
    UserBefore9NoBraces();
    NoBracesAppend(UserBefore1 + UserBefore2 + UserBefore3 + UserBefore4 + UserBefore5 + UserBefore6 + UserBefore7 + UserBefore8, UserBefore9);
  }

  /** The user template after its replacement field */
  const UserAfter: string := "\n</email_body>\n"

  lemma UserAfterNoBraces()
    ensures NoBraces(UserAfter)
  {
  }

  /** The user prompt template. */
  const User: string := UserBefore + "{" + Placeholder + "}" + UserAfter

  /** `t` is the `email` tool: it carries this module's name, description,
      response model and prompts, and the schema of that model. */
  predicate IsEmail(t: Tool)
  {
    && t.name == Name && t.description == Description
    && t.pydanticModel == EmailResponse
    && t.systemPrompt == System && t.userPromptTemplate == User
    && t.Valid()
  }

  /** `email = Tool(...)`, run when the module is imported. */
  method Define() returns (t: Tool)
    ensures fresh(t) && IsEmail(t)
  {
    t := new Tool(Name, Description, EmailResponse, System, User);
  }

  /** Formatting the user template: the argument named by the placeholder
      is spliced in verbatim between the fixed text before and after it
      (braces in the argument are not interpreted); without that argument
      the call raises `KeyError`. */
  lemma FormatUser(kwargs: map<string, string>)
    ensures Format(User, kwargs)
         == if Placeholder in kwargs then Ok(UserBefore + kwargs[Placeholder] + UserAfter)
            else Err(MissingKey(Placeholder))
  {
    UserBeforeNoBraces();
    UserAfterNoBraces();
    IdentifierIsNamedField(Placeholder);
    FormatOneField(UserBefore, Placeholder, UserAfter, kwargs);
  }
}

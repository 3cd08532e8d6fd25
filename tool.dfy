/** `app/tools/tool.py`: the record that configures one tool (name,
    description, response schema, prompts), with the JSON schema of its
    response model computed once at construction, and equality and hashing
    by name. */
module Tools {

  import opened Options
  import opened Json

  /** The type of one field of a response model: `str`, or a `Literal` of
      string choices. */
  datatype FieldType = StrField | LiteralField(choices: seq<string>)

  /** One required field of a pydantic response model. */
  datatype ModelField = ModelField(name: string, ty: FieldType, description: Option<string>)

  /** A pydantic `BaseModel` subclass, by its class name and fields. */
  datatype PydanticModel = PydanticModel(name: string, fields: seq<ModelField>)

  /** pydantic's default title for a field: words split at `_`, each
      capitalised (`enthusiasm_level` becomes `Enthusiasm Level`). */
  function Title(name: string): (r: string)
    ensures |r| == |name|
  {
    TitleFrom(name, true)
  }

  /** An ASCII letter, the characters `str.title` treats as cased. */
  predicate IsCased(c: char)
  {
    ('a' <= c <= 'z') || ('A' <= c <= 'Z')
  }

  /** One character of `name.title().replace("_", " ")`: `_` becomes a
      space, a letter that starts a word is upper-cased and any other
      letter lower-cased. */
  function TitleChar(c: char, wordStart: bool): (t: char)
  {
    if c == '_' then ' '
    else if wordStart && 'a' <= c <= 'z' then (c as int - 32) as char
    else if !wordStart && 'A' <= c <= 'Z' then (c as int + 32) as char
    else c
  }

  /** Whether character `i` of `s` starts a word: the first does when
      `first` says so, any other when the character before it is not a
      letter. */
  predicate WordStartAt(s: string, first: bool, i: nat)
    requires i < |s|
  {
    if i == 0 then first else !IsCased(s[i - 1])
  }

  /** The title of `s`, where `wordStart` says whether `s` starts a word. */
  function TitleFrom(s: string, wordStart: bool): (r: string)
    ensures |r| == |s|
  {
    if s == [] then [] else [TitleChar(s[0], wordStart)] + TitleFrom(s[1..], !IsCased(s[0]))
  }

  /** Each character of the title is `TitleChar` of the name's character,
      as a word start exactly when it is the first (and `wordStart`) or
      follows a character that is not a letter. */
  lemma {:induction false} TitleChars(s: string, wordStart: bool)
    ensures forall i :: 0 <= i < |s| ==> TitleFrom(s, wordStart)[i] == TitleChar(s[i], WordStartAt(s, wordStart, i))
  {
    if s != [] {
      var rest := TitleFrom(s[1..], !IsCased(s[0]));
      TitleChars(s[1..], !IsCased(s[0]));
      forall i | 1 <= i < |s|
        ensures rest[i - 1] == TitleChar(s[i], WordStartAt(s, wordStart, i))
      {
        assert s[1..][i - 1] == s[i];
        if i >= 2 {
          assert s[1..][i - 2] == s[i - 1];
        }
      }
    }
  }

  /** A word of lower-case ASCII letters. */
  predicate LowerWord(w: string)
  {
    w == [] || ('a' <= w[0] <= 'z' && LowerWord(w[1..]))
  }

  /** A lower-case word that starts a word is capitalised, and what
      follows it does not start a word. */
  lemma {:induction false} TitleWord(w: string, rest: string, wordStart: bool)
    requires w != [] && LowerWord(w)
    ensures TitleFrom(w + rest, wordStart) == [TitleChar(w[0], wordStart)] + w[1..] + TitleFrom(rest, false)
  {
    var tail := w[1..] + rest;
    assert w + rest == [w[0]] + tail;
    if w[1..] == [] {
      assert tail == rest;
    } else {
      TitleWord(w[1..], rest, false);
      assert TitleChar(w[1], false) == w[1];
      assert [w[1]] + w[2..] == w[1..];
    }
  }

  /** An underscore becomes a space and starts a word. */
  lemma TitleUnderscore(rest: string, wordStart: bool)
    ensures TitleFrom("_" + rest, wordStart) == " " + TitleFrom(rest, true)
  {
    assert ("_" + rest)[1..] == rest;
  }

  /** The two words of the example are lower-case. */
  lemma ExampleWords()
    ensures LowerWord("enthusiasm") && LowerWord("level")
  {
  }

  /** The title of the enum field of `EmailResponse`. */
  lemma TitleExample(n: string)
    requires n == "enthusiasm_level"
    ensures Title(n) == "Enthusiasm Level"
  {
    TitleWords(n, "enthusiasm", "_level", "level");
  }

  /** The example, over its two words and the underscore between them. */
  lemma TitleWords(n: string, a: string, u: string, b: string)
    requires a == "enthusiasm" && b == "level" && u == "_" + b && n == a + u
    ensures TitleFrom(n, true) == "Enthusiasm Level"
  {
    assert LowerWord(a) && LowerWord(b) by {
      ExampleWords();
    }
    assert TitleChar('e', true) == 'E' && TitleChar('l', true) == 'L';
    var tb := TitleFrom(b, true);
    assert tb == "L" + b[1..] by {
      TitleWord(b, [], true);
      assert b + [] == b;
    }
    var tu := TitleFrom(u, false);
    assert tu == " " + tb by {
      TitleUnderscore(b, false);
    }
    assert TitleFrom(n, true) == "E" + a[1..] + tu by {
      TitleWord(a, u, true);
    }
    assert "E" + a[1..] + (" " + ("L" + b[1..])) == "Enthusiasm Level";
  }

  /** The schema pydantic gives one field. */
  function PropertySchema(f: ModelField): Json
  {
    var base := map["title" := JString(Title(f.name)), "type" := JString("string")];
    var withEnum := if f.ty.LiteralField? then base["enum" := JArray(Strings(f.ty.choices))] else base;
    JObject(if f.description.Some? then withEnum["description" := JString(f.description.value)] else withEnum)
  }

  function Properties(fs: seq<ModelField>): (r: map<string, Json>)
    ensures r.Keys == set i | 0 <= i < |fs| :: fs[i].name
  {
    if fs == [] then map[]
    else
      var last := fs[|fs| - 1];
      var rest := Properties(fs[..|fs| - 1]);
      assert rest.Keys + {last.name} == set i | 0 <= i < |fs| :: fs[i].name by {
        assert forall i :: 0 <= i < |fs| - 1 ==> fs[..|fs| - 1][i] == fs[i];
      }
      rest[last.name := PropertySchema(last)]
  }

  function Names(fs: seq<ModelField>): (r: seq<string>)
    ensures |r| == |fs| && forall i :: 0 <= i < |fs| ==> r[i] == fs[i].name
  {
    if fs == [] then [] else Names(fs[..|fs| - 1]) + [fs[|fs| - 1].name]
  }

  /** `model.model_json_schema()` for a model whose fields are all required. */
  function ModelJsonSchema(m: PydanticModel): (r: Json)
    ensures r.JObject? && r.fields.Keys == {"properties", "required", "title", "type"}
    ensures r.fields["properties"] == JObject(Properties(m.fields))
    ensures r.fields["required"] == JArray(Strings(Names(m.fields)))
    ensures r.fields["type"] == JString("object")
  {
    JObject(map[
      "properties" := JObject(Properties(m.fields)),
      "required" := JArray(Strings(Names(m.fields))),
      "title" := JString(m.name),
      "type" := JString("object")])
  }

  /** A `Tool` object. The five constructor arguments are stored as given
      and the JSON schema of the response model is computed once, into
      `jsonSchema` (the source's `_json_schema`); nothing assigns these
      attributes afterwards. */
  class Tool {
    const name: string
    const description: string
    const pydanticModel: PydanticModel
    const systemPrompt: string
    const userPromptTemplate: string
    const jsonSchema: Json

    /** The cached schema is the schema of the stored model. */
    predicate Valid()
    {
      jsonSchema == ModelJsonSchema(pydanticModel)
    }

    constructor (name: string, description: string, pydanticModel: PydanticModel,
                 systemPrompt: string, userPromptTemplate: string)
      ensures this.name == name && this.description == description
      ensures this.pydanticModel == pydanticModel
      ensures this.systemPrompt == systemPrompt && this.userPromptTemplate == userPromptTemplate
      ensures Valid()
    {
      this.name := name;
      this.description := description;
      this.pydanticModel := pydanticModel;
      this.systemPrompt := systemPrompt;
      this.userPromptTemplate := userPromptTemplate;
      this.jsonSchema := ModelJsonSchema(pydanticModel);
    }

    /** `tool.json_schema`: the cached value, which is the model's schema
        with its fields, required list and `"object"` type. */
    function JsonSchema(): (r: Json)
      ensures Valid() ==> r == ModelJsonSchema(pydanticModel)
      ensures Valid() ==> r.JObject? && r.fields["required"] == JArray(Strings(Names(pydanticModel.fields)))
    {
      jsonSchema
    }

    /** `self == other`: tools are compared by name only. */
    predicate Equal(other: Tool)
    {
      name == other.name
    }

    /** `hash(self)`, given Python's (per-process) string hash. */
    function Hash(strHash: string -> int): int
    {
      strHash(name)
    }
  }

  /** `==` is an equivalence, and tools equal under it hash equally, as
      Python requires of `__eq__` and `__hash__`; distinct objects with the
      same name are equal. */
  lemma EqualHashConsistent(a: Tool, b: Tool, c: Tool, strHash: string -> int)
    ensures a.Equal(a)
    ensures a.Equal(b) ==> b.Equal(a)
    ensures a.Equal(b) && b.Equal(c) ==> a.Equal(c)
    ensures a.Equal(b) ==> a.Hash(strHash) == b.Hash(strHash)
    ensures a.Equal(b) <==> a.name == b.name
  {
  }
}

/** The handlers `create_provider_blueprint` registers for each provider
    (`app/service/routes/base_routes.py`): the four POST endpoints, each
    checking its one required field, running its task on the provider's
    adapter and mapping the outcome to a status and a JSON body, and the
    `/models` endpoint. A handler sees the request's JSON body as a map;
    its reply is the response and the request, if any, that reached the
    provider's SDK. */
module BaseRoutes {

  import opened Options
  import opened Exceptions
  import opened Json
  import JsonValues = Json
  import opened Types
  import opened Upstream
  import opened LlmInterface
  import opened CallResults
  import opened Middleware
  import opened LlmTasks

  /** The four POST routes: `/email`, `/rewrite`, `/prompt_response` and
      `/summarize`. */
  datatype Endpoint = EmailEndpoint | RewriteEndpoint | PromptResponseEndpoint | SummarizeEndpoint

  /** The field each route requires and reads its text from. */
  function RequiredField(e: Endpoint): (field: string)
  {
    match e
    case EmailEndpoint => "email"
    case RewriteEndpoint => "message"
    case PromptResponseEndpoint => "message"
    case SummarizeEndpoint => "text"
  }

  /** The task method each route calls. */
  function TaskOf(e: Endpoint): (task: Task)
  {
    match e
    case EmailEndpoint => Email
    case RewriteEndpoint => MessageRewrite
    case PromptResponseEndpoint => PromptResponse
    case SummarizeEndpoint => TextSummary
  }

  /** Only `/rewrite` and `/summarize` have an `except LLMRefusalError`
      handler of their own. */
  predicate ReportsRefusal(e: Endpoint)
  {
    e == RewriteEndpoint || e == SummarizeEndpoint
  }

  /** `{"errors": [message]}` */
  function Errors(message: string): Json
  {
    JObject(map["errors" := JArray([JString(message)])])
  }

  /** `{"errors": [message], "type": "refusal"}` */
  function RefusalBody(message: string): Json
  {
    JObject(map["errors" := JArray([JString(message)]), "type" := JString("refusal")])
  }

  /** The application's 500 handler, which answers every exception no
      route catches. */
  const InternalError: Response := Response(500, Errors("Internal server error"))

  /** A response that reports a refusal carries a `type` field. */
  predicate IsRefusal(r: Response)
  {
    r.body.JObject? && "type" in r.body.fields
  }

  /** The `try` of a POST route around its task call: a result becomes
      `{"data": result.model_dump()}` with 200; a refusal, on the two routes
      that catch it first, 400 with `"type": "refusal"`; any other client
      error 400 and a server error 500, both with `{"errors": [str(e)]}`;
      any other exception escapes to the 500 handler. So the status is 200
      exactly for a result and 400 exactly for a client error. */
  function Respond(e: Endpoint, result: Result<CallApiResult, Exc>, dump: CallApiResult -> Json): (r: Response)
    ensures result.Ok? ==> r == Response(200, JObject(map["data" := dump(result.value)]))
    ensures result.Err? && ReportsRefusal(e) && result.error.kind == LLMRefusalError
         ==> r == Response(400, RefusalBody(result.error.message))
    ensures result.Err? && !(ReportsRefusal(e) && result.error.kind == LLMRefusalError)
            && IsClientError(result.error.kind)
         ==> r == Response(400, Errors(result.error.message))
    ensures result.Err? && IsServerError(result.error.kind) ==> r == Response(500, Errors(result.error.message))
    ensures result.Err? && !IsClientError(result.error.kind) && !IsServerError(result.error.kind)
         ==> r == InternalError
    ensures r.status == 200 <==> result.Ok?
    ensures r.status == 400 <==> result.Err? && IsClientError(result.error.kind)
    ensures r.status == 500 <==> result.Err? && !IsClientError(result.error.kind)
    ensures IsRefusal(r) <==> result.Err? && ReportsRefusal(e) && result.error.kind == LLMRefusalError
  {
    if result.Ok? then Response(200, JObject(map["data" := dump(result.value)]))
    else
      var exc := result.error;
      ClientServerDisjoint(exc.kind);
      if ReportsRefusal(e) && exc.kind == LLMRefusalError then Response(400, RefusalBody(exc.message))
      else if IsClientError(exc.kind) then Response(400, Errors(exc.message))
      else if IsServerError(exc.kind) then Response(500, Errors(exc.message))
      else InternalError
  }

  /** On `/email` and `/prompt_response` a refusal is answered like any
      other client error. */
  lemma RefusalPlainElsewhere(e: Endpoint, message: string, dump: CallApiResult -> Json)
    requires !ReportsRefusal(e)
    ensures Respond(e, Err(Exc(LLMRefusalError, message)), dump) == Response(400, Errors(message))
  {
    Hierarchy();
  }

  /** `request.json.get("model")` as the task sees it: a string is passed
      on; an absent field or JSON `null` is `None`; a boolean or a number is
      not a valid model name, so it is resolved to the default exactly as
      `None` is. */
  function ModelArg(request: map<string, Json>): (m: Option<string>)
    ensures "model" in request && request["model"].JString? ==> m == Some(request["model"].s)
    ensures "model" !in request || !request["model"].JString? ==> m == None
  {
    if "model" in request && request["model"].JString? then Some(request["model"].s) else None
  }

  /** A list or object under `model` cannot be looked up in the set of
      valid models: the membership test raises `TypeError` before anything
      else happens. */
  predicate Unhashable(request: map<string, Json>)
  {
    "model" in request && (request["model"].JArray? || request["model"].JObject?)
  }

  /** The text a route passes to its task: a JSON string as it is, any
      other value as `str.format` renders it, which is Python's `str()` of
      the decoded value, given here as `show`. */
  function TextOf(value: Json, show: Json -> string): (t: string)
    ensures value.JString? ==> t == value.s
    ensures !value.JString? ==> t == show(value)
  {
    if value.JString? then value.s else show(value)
  }

  /** A handler's response and the request it caused the adapter to send. */
  datatype Reply = Reply(response: Response, sent: Option<Sent>)

  /** A POST route. The required field is checked first and a missing one
      is answered with the 400 of `check_required_fields`, before any call;
      an unhashable model raises an uncaught `TypeError`; otherwise the
      task's outcome is mapped by `Respond`. Every answer is 200, 400 or
      500; the refusal answer of `/rewrite` and `/summarize` is never
      given, since the adapters rewrap refusals as server errors; and with
      a valid default model the status is 400 exactly when the required
      field is missing. */
  function Handle(api: Api, e: Endpoint, request: map<string, Json>,
                  show: Json -> string, dump: CallApiResult -> Json, env: CallEnv): (r: Reply)
    reads ToolMapOf(api)
    requires Valid(api)
    ensures RequiredField(e) !in request ==> r == Reply(BadRequest([RequiredField(e)]), None)
    ensures RequiredField(e) in request && Unhashable(request) ==> r == Reply(InternalError, None)
    ensures RequiredField(e) in request && !Unhashable(request)
         ==> var o := RunTask(api, TaskOf(e), TextOf(request[RequiredField(e)], show), ModelArg(request), env);
             r == Reply(Respond(e, o.result, dump), o.sent)
    ensures r.response.status == 200 || r.response.status == 400 || r.response.status == 500
    ensures !IsRefusal(r.response)
    ensures IsValidModel(SettingsOf(api), SettingsOf(api).defaultModel)
         ==> (r.response.status == 400 <==> RequiredField(e) !in request)
  {
    var field := RequiredField(e);
    var check := CheckRequiredFields([field], request);
    MissingOne(field, request);
    if check.Some? then Reply(check.value, None)
    else if Unhashable(request) then Reply(InternalError, None)
    else
      var o := RunTask(api, TaskOf(e), TextOf(request[field], show), ModelArg(request), env);
      if o.result.Err? then
        ClientKinds(o.result.error.kind);
        Reply(Respond(e, o.result, dump), o.sent)
      else
        Reply(Respond(e, o.result, dump), o.sent)
  }

  /** `/models`: `check_required_fields([])` always passes
      (`NothingRequired`), so the route answers 200 with `{"data": names}`,
      `names` listing every valid model of the adapter once. */
  method ModelsRoute(api: Api) returns (r: Response)
    ensures r.status == 200 && r.body.JObject? && r.body.fields.Keys == {"data"}
    ensures r.body.fields["data"].JArray?
    ensures var items := r.body.fields["data"].items;
      && |items| == |SettingsOf(api).validModels|
      && (forall i :: 0 <= i < |items| ==> items[i].JString? && IsValidModel(SettingsOf(api), items[i].s))
      && (forall m :: IsValidModel(SettingsOf(api), m) ==> JString(m) in items)
      && (forall i, j :: 0 <= i < j < |items| ==> items[i] != items[j])
  {
    var names := ValidModels(SettingsOf(api));
    var items := JsonValues.Strings(names);
    forall m | IsValidModel(SettingsOf(api), m)
      ensures JString(m) in items
    {
      var i :| 0 <= i < |names| && names[i] == m;
      assert items[i] == JString(m);
    }
    r := Response(200, JObject(map["data" := JArray(items)]));
  }
}

/** `app/service/middleware.py`: the required-field check every POST
    endpoint runs first, and the log filter that hides health checks.
    A request's JSON body is a map from field names to JSON values, and a
    Flask response is its status code and JSON body. */
module Middleware {

  import opened Options
  import opened Json
  import Strings

  /** A `jsonify(body), status` response. */
  datatype Response = Response(status: int, body: Json)

  /** `[field for field in required_fields if field not in request.json]`:
      the required fields the request lacks, in the order they are
      required. */
  function Missing(required: seq<string>, request: map<string, Json>): (r: seq<string>)
    ensures |r| <= |required|
  {
    if required == [] then []
    else MissingField(required[0], request) + Missing(required[1..], request)
  }

  /** The one-field step of the comprehension. */
  function MissingField(f: string, request: map<string, Json>): (r: seq<string>)
    ensures r == (if f in request then [] else [f])
  {
    if f in request then [] else [f]
  }

  /** A field is listed as missing exactly when it is required and the
      request lacks it. */
  lemma {:induction false} MissingMembers(required: seq<string>, request: map<string, Json>)
    ensures forall f :: f in Missing(required, request) <==> f in required && f !in request
  {
    if required != [] {
      MissingMembers(required[1..], request);
      assert forall f :: f in required <==> f == required[0] || f in required[1..];
    }
  }

  /** The comprehension keeps order: the fields missing from a list of
      required fields are those missing from its first part, then those
      missing from the rest. */
  lemma {:induction false} MissingAppend(a: seq<string>, b: seq<string>, request: map<string, Json>)
    ensures Missing(a + b, request) == Missing(a, request) + Missing(b, request)
  {
    if a != [] {
      assert (a + b)[0] == a[0];
      assert (a + b)[1..] == a[1..] + b;
      MissingAppend(a[1..], b, request);
      var h := MissingField(a[0], request);
      assert Missing(a + b, request) == h + (Missing(a[1..], request) + Missing(b, request));
    } else {
      assert a + b == b;
    }
  }

  /** One required field is missing exactly when the request lacks it. */
  lemma MissingOne(f: string, request: map<string, Json>)
    ensures Missing([f], request) == if f in request then [] else [f]
  {
    assert [f][1..] == [];
  }

  /** The 400 response naming the missing fields. */
  function BadRequest(missing: seq<string>): (r: Response)
    ensures r.status == 400
    ensures r.body == JObject(map[
      "error" := JString("Bad Request"),
      "message" := JString("Missing required field(s): " + Strings.Join(missing, ", "))])
  {
    Response(400, JObject(map[
      "error" := JString("Bad Request"),
      "message" := JString("Missing required field(s): " + Strings.Join(missing, ", "))]))
  }

  /** The message names every missing field, in order: the `i`-th
      starts at its `JoinOffset` after the fixed prefix, and `", "`
      separates it from the next. */
  lemma BadRequestNames(missing: seq<string>, i: nat)
    requires i < |missing|
    ensures var message := BadRequest(missing).body.fields["message"].s;
      && var k := |"Missing required field(s): "| + Strings.JoinOffset(missing, ", ", i);
      && Strings.OccursAt(message, missing[i], k)
      && (i + 1 < |missing| ==> && Strings.OccursAt(message, ", ", k + |missing[i]|)
                                && Strings.JoinOffset(missing, ", ", i + 1) == Strings.JoinOffset(missing, ", ", i) + |missing[i]| + 2)
  {
    var prefix := "Missing required field(s): ";
    var joined := Strings.Join(missing, ", ");
    var k := Strings.JoinOffset(missing, ", ", i);
    assert BadRequest(missing).body.fields["message"].s == prefix + joined;
    Strings.JoinAt(missing, ", ", i);
    Strings.OccursShift(prefix, joined, missing[i], k);
    if i + 1 < |missing| {
      Strings.OccursShift(prefix, joined, ", ", k + |missing[i]|);
      Strings.JoinOffsetStep(missing, ", ", i);
    }
  }

  /** `check_required_fields(required_fields)`: nothing when the request
      has every required field, otherwise the 400 response listing the
      missing ones in order, joined by `", "`. */
  function CheckRequiredFields(required: seq<string>, request: map<string, Json>): (r: Option<Response>)
    ensures r.None? <==> forall f :: f in required ==> f in request
    ensures r.Some? ==> r.value == BadRequest(Missing(required, request))
  {
    var missing := Missing(required, request);
    MissingMembers(required, request);
    if missing == [] then None
    else
      assert missing[0] in required && missing[0] !in request;
      Some(BadRequest(missing))
  }

  /** No required fields, no error: the check of the `/models` route
      always passes. */
  lemma NothingRequired(request: map<string, Json>)
    ensures CheckRequiredFields([], request).None?
  {
  }

  /** A single missing field is named on its own. */
  lemma OneFieldMissing(f: string, request: map<string, Json>)
    requires f !in request
    ensures CheckRequiredFields([f], request) == Some(BadRequest([f]))
  {
    MissingOne(f, request);
  }

  /** `HealthCheckFilter.filter(record)`: a log record is kept unless its
      message contains `"GET /healthz`. */
  function HealthCheckFilter(message: string): (keep: bool)
    ensures keep <==> !exists i: nat :: Strings.OccursAt(message, "\"GET /healthz", i)
  {
    !Strings.Contains(message, "\"GET /healthz")
  }

  /** The request line werkzeug logs for a health check is dropped,
      whatever surrounds it. */
  lemma HealthCheckDropped(before: string, after: string)
    ensures !HealthCheckFilter(before + "\"GET /healthz" + after)
  {
    var s := before + "\"GET /healthz" + after;
    assert s[|before|..|before| + |"\"GET /healthz"|] == "\"GET /healthz";
    assert Strings.OccursAt(s, "\"GET /healthz", |before|);
  }
}

/** JSON values as Python's `json` module and pydantic produce them
    (`None`, `bool`, numbers, `str`, `list`, `dict`). */
module Json {

  import opened Options
  import opened Decimals
  import opened Exceptions

  datatype Json =
    | JNull
    | JBool(b: bool)
    | JNumber(n: Decimal)
    | JString(s: string)
    | JArray(items: seq<Json>)
    | JObject(fields: map<string, Json>)

  /** `json.loads`: text to a value, or the `json.JSONDecodeError` it raises.
      The decoder itself is not part of this model; callers receive it as a
      parameter of this type. */
  type Loads = string -> Result<Json, Exc>

  /** `[JString(x) for x in xs]` */
  function Strings(xs: seq<string>): (r: seq<Json>)
    ensures |r| == |xs|
    ensures forall i :: 0 <= i < |xs| ==> r[i] == JString(xs[i])
  {
    if xs == [] then [] else Strings(xs[..|xs| - 1]) + [JString(xs[|xs| - 1])]
  }
}

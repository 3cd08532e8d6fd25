/** The steps that each adapter's `call_api` writes out in the same way:
    the price check, the cost arithmetic, and storing the tool's result in
    a `CallAPIResult`. */
module CallResults {

  import opened Options
  import opened Decimals
  import opened Exceptions
  import opened Json
  import opened Catalog
  import opened Types
  import opened Upstream
  import Digits

  /** The `ConfigurationError` raised when a model lacks a price. */
  function IncompleteCosts(model: string): (e: Exc)
    ensures e.kind == ConfigurationError && IsServerError(e.kind)
  {
    Exc(ConfigurationError, "Cost information incomplete for model '" + model + "'")
  }

  /** What `Decimal(x)` raises for a string that is not a number. */
  const ConversionSyntax: Exc := Exc(Foreign("InvalidOperation"), "[<class 'decimal." + "ConversionSyntax'>]")

  /** What `Decimal(None)` raises. */
  const NoneToDecimal: Exc :=
    Exc(Foreign("TypeError"), "conversion from NoneType " + "to Decimal is not supported")

  /** What indexing an empty list raises. */
  const IndexOutOfRange: Exc := Exc(Foreign("IndexError"), "list index out of range")

  /** `Decimal(costs.get(key))` */
  function Price(costs: map<string, string>, key: string): (r: Result<Decimal, Exc>)
    ensures r.Ok? <==> key in costs && Parse(costs[key]).Some?
    ensures r.Ok? ==> r.value == Parse(costs[key]).value
    ensures key !in costs ==> r == Err(NoneToDecimal)
    ensures key in costs && Parse(costs[key]).None? ==> r == Err(ConversionSyntax)
  {
    if key !in costs then Err(NoneToDecimal)
    else match Parse(costs[key])
      case None => Err(ConversionSyntax)
      case Some(d) => Ok(d)
  }

  /** The cost lines of `call_api` once both prices are read: each token
      count times its unit price, exactly, and the total as their sum; the
      unit prices are echoed. */
  function CostsOf(inputPrice: Decimal, outputPrice: Decimal, inputTokens: int, outputTokens: int): (c: Costs)
    ensures c.inputTokenCost == inputPrice && c.outputTokenCost == outputPrice
    ensures Value(c.inputCost) == (inputTokens as real) * Value(inputPrice)
    ensures Value(c.outputCost) == (outputTokens as real) * Value(outputPrice)
    ensures Value(c.totalCost) == Value(c.inputCost) + Value(c.outputCost)
  {
    var inputCost := Mul(FromInt(inputTokens), inputPrice);
    var outputCost := Mul(FromInt(outputTokens), outputPrice);
    Costs(inputPrice, outputPrice, inputCost, outputCost, Add(inputCost, outputCost))
  }

  /** Pricing a call: the input price is read first, so its error wins;
      with both prices read, the costs are `CostsOf` them. */
  function ComputeCosts(costs: map<string, string>, inputTokens: int, outputTokens: int): (r: Result<Costs, Exc>)
    ensures r.Ok? <==> Price(costs, "input").Ok? && Price(costs, "output").Ok?
    ensures Price(costs, "input").Err? ==> r == Err(Price(costs, "input").error)
    ensures Price(costs, "input").Ok? && Price(costs, "output").Err? ==> r == Err(Price(costs, "output").error)
    ensures r.Ok? ==> r.value == CostsOf(Price(costs, "input").value, Price(costs, "output").value, inputTokens, outputTokens)
  {
    var inputPrice := Price(costs, "input");
    if inputPrice.Err? then Err(inputPrice.error)
    else
      var outputPrice := Price(costs, "output");
      if outputPrice.Err? then Err(outputPrice.error)
      else Ok(CostsOf(inputPrice.value, outputPrice.value, inputTokens, outputTokens))
  }

  /** With both prices in the catalog, every cost is exact at the scale
      of the price strings: nothing rounds. */
  lemma CostsExact(costs: map<string, string>, inputTokens: int, outputTokens: int)
    requires ComputeCosts(costs, inputTokens, outputTokens).Ok?
    ensures var c := ComputeCosts(costs, inputTokens, outputTokens).value;
      && c.inputCost == Decimal(inputTokens * c.inputTokenCost.coef, c.inputTokenCost.scale)
      && c.outputCost == Decimal(outputTokens * c.outputTokenCost.coef, c.outputTokenCost.scale)
      && c.totalCost.scale == Max(c.inputTokenCost.scale, c.outputTokenCost.scale)
  {
  }

  /** `CallAPIResult(result=obj)`: pydantic accepts a dict and rejects
      anything else. */
  function ResultDict(obj: Json, env: CallEnv): (r: Result<map<string, Json>, Exc>)
    ensures r.Ok? <==> obj.JObject?
    ensures r.Ok? ==> r.value == obj.fields
    ensures r.Err? ==> r.error == Exc(Foreign("ValidationError"), env.notADict(obj))
  {
    if obj.JObject? then Ok(obj.fields) else Err(Exc(Foreign("ValidationError"), env.notADict(obj)))
  }

  /** What a `call_api` ends with (its result or the exception it raises)
      and the request it sent to the SDK, if it got that far. */
  datatype Outcome<Q> = Outcome(result: Result<CallApiResult, Exc>, sent: Option<Q>)

  /** The two `except` handlers around the body of `call_api`: a result
      passes through, an exception leaves rewrapped as a `ServerError`. */
  function Caught(r: Result<CallApiResult, Exc>): (c: Result<CallApiResult, Exc>)
    ensures c.Ok? <==> r.Ok?
    ensures r.Ok? ==> c == r
    ensures r.Err? ==> c.error == Rewrap(r.error) && IsServerError(c.error.kind)
  {
    if r.Ok? then r else Err(Rewrap(r.error))
  }

  /** `message.refusal` is truthy: present and not empty. */
  predicate Refused(refusal: Option<string>)
  {
    refusal.Some? && refusal.value != ""
  }

  /** `[{"role": "system", "content": system}] + (messages or [])`: a new
      list whose head is the system message and whose tail is the caller's
      messages, which are left as they were. */
  function WithSystem(system: string, messages: Option<seq<Message>>): (r: seq<Message>)
    ensures |r| >= 1 && r[0] == Message("system", PlainContent(system))
    ensures messages.Some? ==> r[1..] == messages.value
    ensures messages.None? ==> r[1..] == []
  {
    [Message("system", PlainContent(system))] + messages.GetOr([])
  }

  /** The price strings of the Anthropic default model read as `3 * 10^-6`
      and `15 * 10^-6`. */
  lemma ParseDefaultPrices()
    ensures Parse("0.000003") == Some(Decimal(3, 6))
    ensures Parse("0.000015") == Some(Decimal(15, 6))
  {
    RenderInputPrice();
    ParseRender(Decimal(3, 6));
    RenderOutputPrice();
    ParseRender(Decimal(15, 6));
  }

  lemma RenderInputPrice()
    ensures Render(Decimal(3, 6)) == "0.000003"
  {
    assert Digits.Pow10(6) == 1000000;
    assert Digits.Quot(3, 1000000) == 0 && Digits.Rem(3, 1000000) == 3;
    assert Digits.NatToDigits(0) == "0";
    assert Digits.PadDigits(3, 6) == "000003";
  }

  lemma RenderOutputPrice()
    ensures Render(Decimal(15, 6)) == "0.000015"
  {
    assert Digits.Pow10(6) == 1000000;
    assert Digits.Quot(15, 1000000) == 0 && Digits.Rem(15, 1000000) == 15;
    assert Digits.NatToDigits(0) == "0";
    assert Digits.PadDigits(15, 6) == "000015";
  }

  /** The worked example of the Anthropic default prices: 100 input and 50
      output tokens cost 0.0003 and 0.00075, 0.00105 in all, which the
      encoder writes as `"0.00105"`. */
  lemma WorkedExample(costs: map<string, string>)
    requires "input" in costs && costs["input"] == "0.000003"
    requires "output" in costs && costs["output"] == "0.000015"
    ensures ComputeCosts(costs, 100, 50)
         == Ok(Costs(Decimal(3, 6), Decimal(15, 6), Decimal(300, 6), Decimal(750, 6), Decimal(1050, 6)))
    ensures EncodeDecimal(ComputeCosts(costs, 100, 50).value.totalCost) == "0.00105"
  {
    assert Price(costs, "input") == Ok(Decimal(3, 6)) && Price(costs, "output") == Ok(Decimal(15, 6)) by {
      ParseDefaultPrices();
    }
    assert CostsOf(Decimal(3, 6), Decimal(15, 6), 100, 50)
        == Costs(Decimal(3, 6), Decimal(15, 6), Decimal(300, 6), Decimal(750, 6), Decimal(1050, 6)) by {
      ExampleCostsOf();
    }
    assert EncodeDecimal(Decimal(1050, 6)) == "0.00105" by {
      EncodeExampleFraction(Decimal(1050, 6));
    }
  }

  lemma ExampleCostsOf()
    ensures CostsOf(Decimal(3, 6), Decimal(15, 6), 100, 50)
         == Costs(Decimal(3, 6), Decimal(15, 6), Decimal(300, 6), Decimal(750, 6), Decimal(1050, 6))
  {
    assert Mul(FromInt(100), Decimal(3, 6)) == Decimal(300, 6);
    assert Mul(FromInt(50), Decimal(15, 6)) == Decimal(750, 6);
    assert Add(Decimal(300, 6), Decimal(750, 6)) == Decimal(1050, 6) by {
      assert Digits.Pow10(0) == 1;
    }
  }
}

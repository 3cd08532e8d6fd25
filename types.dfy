/** `app/types.py`: the records a call returns (token usage, costs, and
    the whole result), the JSON encoder of the cost decimals and the ISO
    form of the timestamp. */
module Types {

  import opened Options
  import opened Strings
  import opened Digits
  import opened Decimals
  import opened Json
  import opened DateTimes

  /** `Usage`: the token counts the provider reports. */
  datatype Usage = Usage(inputTokens: int, outputTokens: int)

  /** `Costs`: the two unit prices and the three amounts, all decimals. */
  datatype Costs = Costs(
    inputTokenCost: Decimal, outputTokenCost: Decimal,
    inputCost: Decimal, outputCost: Decimal, totalCost: Decimal)

  /** `CallAPIResult`: the model used, usage, costs, the tool's JSON
      result and the time of the call. */
  datatype CallApiResult = CallApiResult(
    model: string, usage: Usage, costs: Costs,
    result: map<string, Json>, timestamp: DateTime)

  /** The number of fraction digits the encoder prints before stripping. */
  const Places: nat := 12

  /** The `Decimal` JSON encoder of `Costs`: twelve fraction digits, then
      trailing zeros stripped, then a trailing point stripped. */
  function EncodeDecimal(d: Decimal): string
  {
    RStrip(RStrip(FormatFixed(d, Places), '0'), '.')
  }

  /** `m * 10^-s` with its trailing fraction zeros removed: the result
      `(c, k)` names the same number as `c * 10^-k`, keeps at most `s`
      places, and either keeps no place or ends in a non-zero digit. */
  function StripZeros(m: nat, s: nat): (r: (nat, nat))
    ensures r.1 <= s
    ensures (r.0 as int) * Pow10(s - r.1) == m
    ensures r.1 == 0 || r.0 % 10 != 0
    decreases s
  {
    if s > 0 && m % 10 == 0 then
      var r := StripZeros(m / 10, s - 1);
      assert (r.0 as int) * Pow10(s - r.1) == m by {
        Mul10Assoc(r.0, Pow10(s - 1 - r.1));
      }
      r
    else
      (m, s)
  }

  /** Scaling both sides of `c == a * K + b` by `J` keeps the quotient and
      scales the remainder. */
  lemma ScaleQuotRem(c: nat, a: nat, b: nat, K: nat, J: nat)
    requires K >= 1 && J >= 1 && (a as int) * K + b == c && b < K
    ensures Quot(c * J, K * J) == a && Rem(c * J, K * J) == b * J
  {
    assert (b as int) * J < (K as int) * J by { MulLess(b, K, J); }
    assert (c as int) * J == ((K as int) * J) * a + (b as int) * J by { Distribute(a, K, b, J); }
    ModUnique(c * J, K * J, a, b * J);
  }

  lemma MulLess(b: nat, K: nat, J: nat)
    requires b < K && J >= 1
    ensures (b as int) * J < (K as int) * J
  {
  }

  lemma Distribute(a: int, K: int, b: int, J: int)
    ensures (a * K + b) * J == (K * J) * a + b * J
  {
  }

  /** The last digit of `c` is the last digit of `c % 10^k` when `k > 0`. */
  lemma LastDigit(c: nat, k: nat)
    requires k >= 1
    ensures Rem(c, Pow10(k)) % 10 == c % 10
  {
    var K := Pow10(k);
    var a, b := Quot(c, K), Rem(c, K);
    QuotRem(c, K);
    var t := (a as int) * Pow10(k - 1);
    assert c == 10 * t + b by { Mul10Assoc(a, Pow10(k - 1)); }
    DivMod(b, 10);
    ModUnique(c, 10, t + b / 10, b % 10);
  }

  /** After stripping, the kept fraction digits end in a non-zero digit. */
  lemma StrippedLast(c: nat, k: nat)
    requires k >= 1 && c % 10 != 0
    ensures var p := PadDigits(Rem(c, Pow10(k)), k); p[k - 1] != '0' && p[k - 1] != '.'
  {
    PadDigitsLast(Rem(c, Pow10(k)), k);
    LastDigit(c, k);
  }

  /** Stripping the text `format` prints: trailing zeros go, then a bare
      point; a fraction `frac` that does not end in `0` survives whole. */
  lemma StripFixed(sign: string, whole: string, frac: string, j: nat)
    requires |whole| >= 1 && IsDigit(whole[|whole| - 1])
    requires frac == [] || (frac[|frac| - 1] != '0' && frac[|frac| - 1] != '.')
    ensures RStrip(RStrip(sign + whole + "." + frac + Repeat('0', j), '0'), '.')
         == sign + Positional(whole, frac)
  {
    var T := sign + whole + "." + frac;
    StripZerosTail(T, j);
    if frac == [] {
      StripBarePoint(sign, whole);
    } else {
      StripNothing(sign, whole, frac);
    }
  }

  lemma StripZerosTail(t: string, j: nat)
    ensures RStrip(t + Repeat('0', j), '0') == RStrip(t, '0')
  {
    RStripConcat(t, Repeat('0', j), '0');
    RStripRepeat('0', j);
  }

  /** `"12."` strips to `"12"`. */
  lemma StripBarePoint(sign: string, whole: string)
    requires |whole| >= 1 && IsDigit(whole[|whole| - 1])
    ensures RStrip(RStrip(sign + whole + "." + [], '0'), '.') == sign + Positional(whole, [])
  {
    var w := sign + whole;
    assert w[|w| - 1] == whole[|whole| - 1];
    assert sign + whole + "." + [] == w + ['.'];
    RStripKeep(w + ['.'], '0');
    RStripDrop(w, '.');
    RStripKeep(w, '.');
  }

  /** `"1.25"` is left as it is. */
  lemma StripNothing(sign: string, whole: string, frac: string)
    requires frac != [] && frac[|frac| - 1] != '0' && frac[|frac| - 1] != '.'
    ensures RStrip(RStrip(sign + whole + "." + frac, '0'), '.') == sign + Positional(whole, frac)
  {
    var t := sign + whole + "." + frac;
    assert t[|t| - 1] == frac[|frac| - 1];
    RStripKeep(t, '0');
    RStripKeep(t, '.');
    PointAssoc(sign, whole, frac);
  }

  lemma PointAssoc(sign: string, whole: string, frac: string)
    requires frac != []
    ensures sign + whole + "." + frac == sign + Positional(whole, frac)
  {
    assert sign + whole + "." + frac == sign + (whole + ("." + frac));
  }

  /** The digits `format(d, ".12f")` prints, split at the point where the
      stripped fraction ends: whole part, kept fraction, then `j` zeros. */
  lemma FixedSplit(d: Decimal)
    ensures var sz := StripZeros(Abs(RoundToScale(d, Places).coef), Places);
      var K := Pow10(sz.1);
      FormatFixed(d, Places)
        == Sign(d.coef < 0) + NatToDigits(Quot(sz.0, K)) + "."
           + PadDigits(Rem(sz.0, K), sz.1) + Repeat('0', Places - sz.1)
  {
    var m := Abs(RoundToScale(d, Places).coef);
    assert FormatFixed(d, Places) == Sign(d.coef < 0) + RenderMagnitude(m, Places);
    MagnitudeText(Sign(d.coef < 0), m, Places);
  }

  lemma MagnitudeText(sign: string, m: nat, s: nat)
    requires s > 0
    ensures var sz := StripZeros(m, s);
      var K := Pow10(sz.1);
      sign + RenderMagnitude(m, s)
        == sign + NatToDigits(Quot(sz.0, K)) + "."
           + PadDigits(Rem(sz.0, K), sz.1) + Repeat('0', s - sz.1)
  {
    var sz := StripZeros(m, s);
    var c, k := sz.0, sz.1;
    var j := s - k;
    var K := Pow10(k);
    assert m == c * Pow10(j) && s == k + j;
    MagnitudeSplit(c, k, j);
    PointSplit(sign, NatToDigits(Quot(c, K)), PadDigits(Rem(c, K), k), Repeat('0', j));
  }

  /** The positional digits of `c * 10^j` at `k + j` places: those of `c`
      at `k` places, then `j` zeros. */
  lemma MagnitudeSplit(c: nat, k: nat, j: nat)
    ensures RenderMagnitude(c * Pow10(j), k + j)
         == Positional(NatToDigits(Quot(c, Pow10(k))), PadDigits(Rem(c, Pow10(k)), k) + Repeat('0', j))
  {
    ShiftedQuotRem(c, k, j);
    PadDigitsShift(Rem(c, Pow10(k)), k, j);
  }

  /** Appending `j` zeros to `c` keeps its quotient by `10^k`, now taken
      by `10^(k + j)`, and appends them to the remainder. */
  lemma ShiftedQuotRem(c: nat, k: nat, j: nat)
    ensures Quot(c * Pow10(j), Pow10(k + j)) == Quot(c, Pow10(k))
    ensures Rem(c * Pow10(j), Pow10(k + j)) == Rem(c, Pow10(k)) * Pow10(j)
  {
    var K, J := Pow10(k), Pow10(j);
    QuotRem(c, K);
    assert Pow10(k + j) == K * J by { Pow10Add(k, j); }
    ScaleQuotRem(c, Quot(c, K), Rem(c, K), K, J);
  }

  lemma PointSplit(sign: string, whole: string, frac: string, zeros: string)
    requires |frac + zeros| > 0
    ensures sign + Positional(whole, frac + zeros) == sign + whole + "." + frac + zeros
  {
    assert sign + whole + "." + frac + zeros == sign + (whole + ("." + (frac + zeros)));
  }

  /** What the encoder prints: the sign of `d`, then the rounded magnitude
      with its trailing fraction zeros (and a bare point) removed. */
  lemma EncodeCanonical(d: Decimal)
    ensures var sz := StripZeros(Abs(RoundToScale(d, Places).coef), Places);
      EncodeDecimal(d) == Sign(d.coef < 0) + RenderMagnitude(sz.0, sz.1)
  {
    var sz := StripZeros(Abs(RoundToScale(d, Places).coef), Places);
    FixedSplit(d);
    StripText(Sign(d.coef < 0), sz.0, sz.1, Places - sz.1);
  }

  /** Stripping the fixed text of `c * 10^-k` followed by `j` zeros, when
      `c` has no trailing zero to strip, leaves the positional digits of
      `c * 10^-k`. */
  lemma StripText(sign: string, c: nat, k: nat, j: nat)
    requires k == 0 || c % 10 != 0
    ensures var K := Pow10(k);
      RStrip(RStrip(sign + NatToDigits(Quot(c, K)) + "." + PadDigits(Rem(c, K), k) + Repeat('0', j), '0'), '.')
        == sign + RenderMagnitude(c, k)
  {
    var K := Pow10(k);
    var whole := NatToDigits(Quot(c, K));
    assert IsDigit(whole[|whole| - 1]);
    if k > 0 {
      StrippedLast(c, k);
    }
    StripFixed(sign, whole, PadDigits(Rem(c, K), k), j);
  }

  /** The encoded text reads back as a decimal of value `d` rounded to
      twelve places, so as `d` itself when `d` has at most twelve places. */
  lemma EncodeValue(d: Decimal)
    ensures Parse(EncodeDecimal(d)).Some?
    ensures Parse(EncodeDecimal(d)).value.scale <= Places
    ensures Value(Parse(EncodeDecimal(d)).value) == Value(RoundToScale(d, Places))
    ensures d.scale <= Places ==> Value(Parse(EncodeDecimal(d)).value) == Value(d)
  {
    var R := RoundToScale(d, Places);
    var m := Abs(R.coef);
    var sz := StripZeros(m, Places);
    var c, k := sz.0, sz.1;
    var j := Places - k;
    EncodeCanonical(d);
    ParseSignedMagnitude(d.coef < 0, c, k);
    var neg := d.coef < 0;
    assert Signed(neg, c) * Pow10(j) == R.coef by {
      SignedScale(neg, c, Pow10(j));
    }
    Rescale(Signed(neg, c), k, j);
  }

  lemma SignedScale(neg: bool, c: nat, p: nat)
    ensures Signed(neg, c) * p == Signed(neg, c * p)
  {
    if neg {
      MulNeg(c, p);
    }
  }

  /** The shape of the encoded text: at most twelve digits follow the point,
      and text with a point ends in neither `0` nor `.`. */
  lemma EncodeShape(d: Decimal)
    ensures var e := EncodeDecimal(d); var i := IndexOf(e, '.');
      i < |e| ==> |e| - i - 1 <= Places && e[|e| - 1] != '0' && e[|e| - 1] != '.'
  {
    var sz := StripZeros(Abs(RoundToScale(d, Places).coef), Places);
    EncodeCanonical(d);
    CanonicalShape(Sign(d.coef < 0), sz.0, sz.1);
  }

  lemma CanonicalShape(sign: string, c: nat, k: nat)
    requires sign == "" || sign == "-"
    requires k == 0 || c % 10 != 0
    ensures var e := sign + RenderMagnitude(c, k); var i := IndexOf(e, '.');
      (k == 0 ==> i == |e|)
      && (k > 0 ==> i < |e| && |e| - i - 1 == k && e[|e| - 1] != '0' && e[|e| - 1] != '.')
  {
    var K := Pow10(k);
    var whole, frac := NatToDigits(Quot(c, K)), PadDigits(Rem(c, K), k);
    var head := sign + whole;
    var e := sign + RenderMagnitude(c, k);
    assert forall i :: 0 <= i < |head| ==> head[i] != '.' by {
      forall i | 0 <= i < |head| ensures head[i] != '.' {
        if i >= |sign| {
          assert head[i] == whole[i - |sign|];
        }
      }
    }
    if k == 0 {
      assert e == head;
      IndexOfIsFirst(e, '.', |e|);
    } else {
      assert e == head + ("." + frac);
      StrippedLast(c, k);
      IndexOfIsFirst(e, '.', |head|);
    }
  }

  /** The encoder on the examples: 0.00105 (at the six places of a sum of
      prices), 5 and 0. */
  lemma EncodeExampleFraction(d: Decimal)
    requires d == Decimal(1050, 6)
    ensures EncodeDecimal(d) == "0.00105"
  {
    EncodeCanonical(d);
    RoundExamples();
    StripExample();
    RenderExample();
  }

  lemma RoundExamples()
    ensures RoundToScale(Decimal(1050, 6), 12) == Decimal(1050000000, 12)
    ensures RoundToScale(Decimal(5, 0), 12) == Decimal(5000000000000, 12)
    ensures RoundToScale(Decimal(0, 0), 12) == Decimal(0, 12)
  {
    assert Pow10(6) == 1000000;
    assert Pow10(12) == 1000000000000;
  }

  lemma StripExample()
    ensures StripZeros(1050000000, 12) == (105, 5)
  {
  }

  lemma RenderExample()
    ensures RenderMagnitude(105, 5) == "0.00105"
  {
    assert Pow10(5) == 100000;
    assert Quot(105, 100000) == 0 && Rem(105, 100000) == 105;
    assert NatToDigits(0) == "0";
    assert PadDigits(105, 5) == "00105";
  }

  lemma EncodeExampleFive(d: Decimal)
    requires d == Decimal(5, 0)
    ensures EncodeDecimal(d) == "5"
  {
    EncodeCanonical(d);
    RoundExamples();
    StripWholeExamples();
    RenderWholeExamples();
  }

  lemma EncodeExampleZero(d: Decimal)
    requires d == Decimal(0, 0)
    ensures EncodeDecimal(d) == "0"
  {
    EncodeCanonical(d);
    RoundExamples();
    StripWholeExamples();
    RenderWholeExamples();
  }

  lemma RenderWholeExamples()
    ensures RenderMagnitude(5, 0) == "5" && RenderMagnitude(0, 0) == "0"
  {
    assert Pow10(0) == 1;
    assert Quot(5, 1) == 5 && Rem(5, 1) == 0 && NatToDigits(5) == "5";
    assert Quot(0, 1) == 0 && Rem(0, 1) == 0 && NatToDigits(0) == "0";
  }

  lemma StripWholeExamples()
    ensures StripZeros(5000000000000, 12) == (5, 0)
    ensures StripZeros(0, 12) == (0, 0)
  {
  }

  /** The timestamp field serialiser: `dt.isoformat()`. */
  function SerializeTimestamp(dt: DateTime): (r: string)
    ensures Valid(dt) ==> ParseIso(r) == Some(dt)
    ensures |r| == if dt.microsecond == 0 then 19 else 26
  {
    ParseIsoFormatOf(dt);
    IsoFormat(dt)
  }

  lemma ParseIsoFormatOf(dt: DateTime)
    ensures Valid(dt) ==> ParseIso(IsoFormat(dt)) == Some(dt)
    ensures |IsoFormat(dt)| == if dt.microsecond == 0 then 19 else 26
  {
    IsoFormatLength(dt);
    if Valid(dt) {
      ParseIsoFormat(dt);
    }
  }
}

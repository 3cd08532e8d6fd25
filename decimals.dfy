/** The part of Python's `decimal.Decimal` that the cost arithmetic uses:
    a coefficient and a (non-positive) exponent, construction from an `int`
    and from a plain decimal string, exact `*` and `+`, and fixed-point
    formatting `format(d, ".Nf")` with the default ROUND_HALF_EVEN. */
module Decimals {
  import opened Digits
  import opened Options
  import opened Strings

  /** `coef * 10^-scale`; Python's exponent is `-scale`. */
  datatype Decimal = Decimal(coef: int, scale: nat)

  /** The number a decimal denotes. */
  function Value(d: Decimal): real
  {
    (d.coef as real) / (Pow10(d.scale) as real)
  }

  /** `Decimal(n)` for an `int`: exponent 0. */
  function FromInt(n: int): (d: Decimal)
    ensures Value(d) == n as real && d.scale == 0
  {
    Decimal(n, 0)
  }

  lemma CastMul(a: int, b: int)
    ensures (a * b) as real == (a as real) * (b as real)
  {
  }

  lemma RealDivMul(x: real, y: real, p: real, q: real)
    requires p > 0.0 && q > 0.0
    ensures (x * y) / (p * q) == (x / p) * (y / q)
  {
  }

  lemma RealDivCancel(x: real, p: real, q: real)
    requires p > 0.0 && q > 0.0
    ensures (x * p) / (p * q) == x / q
  {
    assert (x * p) / (p * q) == (x / q) * (p / p);
  }

  /** Multiplying the coefficient by `10^k` and raising the scale by `k`
      keeps the value. */
  lemma Rescale(c: int, s: nat, k: nat)
    ensures Value(Decimal(c * Pow10(k), s + k)) == Value(Decimal(c, s))
  {
    Pow10Add(s, k);
    CancelFactor(c, Pow10(k), Pow10(s), Pow10(s + k));
  }

  /** `(c * p) / (q * p) == c / q` over the reals. */
  lemma CancelFactor(c: int, p: int, q: int, qp: int)
    requires p >= 1 && q >= 1 && qp == q * p
    ensures ((c * p) as real) / (qp as real) == (c as real) / (q as real)
  {
    var x, rp, rq := c as real, p as real, q as real;
    assert (c * p) as real == x * rp by { CastMul(c, p); }
    assert qp as real == rp * rq by { CastMul(q, p); }
    RealDivCancel(x, rp, rq);
  }

  /** The value of a product of decimals is the product of their values. */
  lemma MulValue(a: Decimal, b: Decimal)
    ensures Value(Decimal(a.coef * b.coef, a.scale + b.scale)) == Value(a) * Value(b)
  {
    Pow10Add(a.scale, b.scale);
    QuotientProduct(a.coef, b.coef, Pow10(a.scale), Pow10(b.scale), Pow10(a.scale + b.scale));
  }

  /** `(x * y) / (p * q) == (x / p) * (y / q)` for integers read as reals. */
  lemma QuotientProduct(x: int, y: int, p: int, q: int, pq: int)
    requires p >= 1 && q >= 1 && pq == p * q
    ensures ((x * y) as real) / (pq as real) == ((x as real) / (p as real)) * ((y as real) / (q as real))
  {
    assert (x * y) as real == (x as real) * (y as real) by { CastMul(x, y); }
    assert pq as real == (p as real) * (q as real) by { CastMul(p, q); }
    RealDivMul(x as real, y as real, p as real, q as real);
  }

  /** `a * b`: coefficients multiply, exponents add, nothing is rounded. */
  function Mul(a: Decimal, b: Decimal): (r: Decimal)
    ensures r.scale == a.scale + b.scale
    ensures Value(r) == Value(a) * Value(b)
  {
    MulValue(a, b);
    Decimal(a.coef * b.coef, a.scale + b.scale)
  }

  function Max(a: nat, b: nat): nat
  {
    if a >= b then a else b
  }

  lemma RealDivAdd(x: real, y: real, p: real)
    requires p > 0.0
    ensures (x + y) / p == x / p + y / p
  {
  }

  /** Two decimals at the same scale add by their coefficients. */
  lemma AddSameScale(a: int, b: int, s: nat)
    ensures Value(Decimal(a + b, s)) == Value(Decimal(a, s)) + Value(Decimal(b, s))
  {
    var p := Pow10(s) as real;
    assert (a + b) as real == a as real + b as real;
    RealDivAdd(a as real, b as real, p);
  }

  /** `a + b`: both operands are brought to the smaller exponent (the larger
      scale) and the coefficients added; nothing is rounded. */
  function Add(a: Decimal, b: Decimal): (r: Decimal)
    ensures r.scale == Max(a.scale, b.scale)
    ensures Value(r) == Value(a) + Value(b)
  {
    var s := Max(a.scale, b.scale);
    var ka, kb := s - a.scale, s - b.scale;
    var ca, cb := a.coef * Pow10(ka), b.coef * Pow10(kb);
    Rescale(a.coef, a.scale, ka);
    Rescale(b.coef, b.scale, kb);
    AddSameScale(ca, cb, s);
    Decimal(ca + cb, s)
  }

  function Abs(n: int): nat
  {
    if n < 0 then -n else n
  }

  function Sign(negative: bool): string
  {
    if negative then "-" else ""
  }

  /** The integer with magnitude `m`, negated when `negative`. */
  function Signed(negative: bool, m: nat): int
  {
    if negative then 0 - m else m
  }

  /** Integer digits, then a point and the fraction digits when there are any. */
  function Positional(whole: string, frac: string): string
  {
    whole + (if frac == [] then "" else "." + frac)
  }

  /** Positional digits of `m * 10^-s`: the integer part without leading
      zeros and, when `s > 0`, a point followed by exactly `s` digits. */
  function RenderMagnitude(m: nat, s: nat): string
  {
    var p := Pow10(s);
    Positional(NatToDigits(Quot(m, p)), PadDigits(Rem(m, p), s))
  }

  /** `format(d, "f")`: the decimal at its own exponent, never in
      scientific notation. */
  function Render(d: Decimal): string
  {
    Sign(d.coef < 0) + RenderMagnitude(Abs(d.coef), d.scale)
  }

  /** `Decimal(s)` for a string in plain notation: an optional sign, digits,
      and at most one point, with at least one digit in all. `None` stands
      for the `InvalidOperation` that Python raises. */
  function Parse(s: string): Option<Decimal>
  {
    if s != [] && (s[0] == '-' || s[0] == '+') then
      match ParseUnsigned(s[1..])
      case None => None
      case Some(u) => Some(if s[0] == '-' then Decimal(-u.coef, u.scale) else u)
    else
      ParseUnsigned(s)
  }

  function ParseUnsigned(s: string): Option<Decimal>
  {
    var k := IndexOf(s, '.');
    var whole := s[..k];
    var frac := if k < |s| then s[k + 1..] else "";
    if AllDigits(whole) && AllDigits(frac) && |whole| + |frac| > 0 then
      AllDigitsConcat(whole, frac);
      Some(Decimal(DigitsToNat(whole + frac), |frac|))
    else
      None
  }

  /** A positional string reads back as the digits it was built from. */
  lemma ParsePositional(whole: string, frac: string)
    requires AllDigits(whole) && AllDigits(frac) && |whole| >= 1
    ensures ParseUnsigned(Positional(whole, frac)) == Some(Decimal(DigitsToNat(whole + frac), |frac|))
  {
    PositionalSplit(whole, frac);
  }

  /** Splitting a positional string at its first point gives back both parts. */
  lemma PositionalSplit(whole: string, frac: string)
    requires AllDigits(whole)
    ensures var body := Positional(whole, frac);
            var k := IndexOf(body, '.');
            && k == |whole|
            && body[..k] == whole
            && (if k < |body| then body[k + 1..] else "") == frac
  {
    var body := Positional(whole, frac);
    PositionalPoint(whole, frac);
    assert body[..|whole|] == whole;
    if frac != [] {
      assert body[|whole| + 1..] == frac;
    }
  }

  /** The first point of a positional string follows the integer digits. */
  lemma PositionalPoint(whole: string, frac: string)
    requires AllDigits(whole)
    ensures IndexOf(Positional(whole, frac), '.') == |whole|
  {
    var body := Positional(whole, frac);
    forall i | 0 <= i < |whole| ensures body[i] != '.' {
      assert body[i] == whole[i];
    }
    if frac != [] {
      assert body[|whole|] == '.';
    }
    IndexOfIsFirst(body, '.', |whole|);
  }

  /** The digits of `m // 10^s` followed by the `s` digits of `m % 10^s` read as `m`. */
  lemma MagnitudeDigits(m: nat, s: nat)
    ensures AllDigits(NatToDigits(Quot(m, Pow10(s))) + PadDigits(Rem(m, Pow10(s)), s))
    ensures DigitsToNat(NatToDigits(Quot(m, Pow10(s))) + PadDigits(Rem(m, Pow10(s)), s)) == m
  {
    var p := Pow10(s);
    var q, r := Quot(m, p), Rem(m, p);
    var whole, frac := NatToDigits(q), PadDigits(r, s);
    AllDigitsConcat(whole, frac);
    assert DigitsToNat(whole) == q by { NatToDigitsValue(q); }
    assert DigitsToNat(frac) == r by {
      PadDigitsValue(r, s);
      QuotRem(m, p);
      ModOfMod(r, p);
    }
    assert DigitsToNat(whole + frac) == (q as int) * p + r by {
      DigitsToNatConcat(whole, frac);
    }
    QuotRem(m, p);
  }

  lemma ModOfMod(r: nat, p: nat)
    requires 0 <= r < p
    ensures r % p == r
  {
  }

  /** Reading back a positional rendering recovers coefficient and scale. */
  lemma ParseUnsignedMagnitude(m: nat, s: nat)
    ensures ParseUnsigned(RenderMagnitude(m, s)) == Some(Decimal(m, s))
  {
    var p := Pow10(s);
    ParsePositional(NatToDigits(Quot(m, p)), PadDigits(Rem(m, p), s));
    MagnitudeDigits(m, s);
  }

  /** Reading back a signed positional rendering recovers its coefficient
      and scale. */
  lemma ParseSignedMagnitude(negative: bool, m: nat, s: nat)
    ensures Parse(Sign(negative) + RenderMagnitude(m, s))
         == Some(Decimal(Signed(negative, m), s))
  {
    var body := RenderMagnitude(m, s);
    ParseUnsignedMagnitude(m, s);
    RenderMagnitudeHead(m, s);
    ParseSign(negative, body, m, s);
  }

  /** A positional rendering starts with a digit. */
  lemma RenderMagnitudeHead(m: nat, s: nat)
    ensures RenderMagnitude(m, s) != [] && IsDigit(RenderMagnitude(m, s)[0])
  {
    var whole := NatToDigits(Quot(m, Pow10(s)));
    assert RenderMagnitude(m, s)[0] == whole[0];
  }

  /** A leading `-` negates what the rest parses to; a body starting with a
      digit carries no sign. */
  lemma ParseSign(negative: bool, body: string, m: nat, s: nat)
    requires body != [] && IsDigit(body[0])
    requires ParseUnsigned(body) == Some(Decimal(m, s))
    ensures Parse(Sign(negative) + body) == Some(Decimal(Signed(negative, m), s))
  {
    var t := Sign(negative) + body;
    if negative {
      assert t[0] == '-' && t[1..] == body;
    } else {
      assert t == body;
    }
  }

  /** Round trip: `Decimal(format(d, "f")) == d`, digit for digit. */
  lemma ParseRender(d: Decimal)
    ensures Parse(Render(d)) == Some(d)
  {
    ParseSignedMagnitude(d.coef < 0, Abs(d.coef), d.scale);
  }

  /** `m / p` rounded to the nearest integer, ties to the even neighbour
      (ROUND_HALF_EVEN). */
  function RoundHalfEven(m: nat, p: nat): nat
    requires p >= 1
  {
    var q, r := Quot(m, p), Rem(m, p);
    if 2 * r > p || (2 * r == p && q % 2 == 1) then q + 1 else q
  }

  /** Half-even rounding picks a neighbour of the quotient, lands within
      half the divisor of `m`, and resolves an exact tie to an even result. */
  lemma RoundHalfEvenError(m: nat, p: nat)
    requires p >= 1
    ensures var q := RoundHalfEven(m, p);
            && (q == Quot(m, p) || q == Quot(m, p) + 1)
            && -(p as int) <= 2 * ((q as int) * p - m) <= p
            && (2 * Rem(m, p) == p ==> q % 2 == 0)
  {
    var q0, r := Quot(m, p), Rem(m, p);
    QuotRem(m, p);
    if 2 * r > p || (2 * r == p && q0 % 2 == 1) {
      MulSucc(q0, p);
      assert (RoundHalfEven(m, p) as int) * p - m == p - r;
    } else {
      assert (RoundHalfEven(m, p) as int) * p - m == -r;
    }
  }

  lemma MulSucc(q: int, p: int)
    ensures (q + 1) * p == q * p + p
  {
  }

  /** `d.quantize(Decimal(10) ** -s)` under ROUND_HALF_EVEN, which is what
      `format(d, ".{s}f")` does before printing: the result has scale `s`,
      is `d` itself when `d` already fits, and keeps the sign of `d`. */
  function RoundToScale(d: Decimal, s: nat): (r: Decimal)
    ensures r.scale == s
    ensures d.scale <= s ==> Value(r) == Value(d)
    ensures Signed(d.coef < 0, Abs(r.coef)) == r.coef
  {
    if d.scale <= s then
      var k := s - d.scale;
      Rescale(d.coef, d.scale, k);
      MulSign(d.coef, Pow10(k));
      Decimal(d.coef * Pow10(k), s)
    else
      Decimal(Signed(d.coef < 0, RoundHalfEven(Abs(d.coef), Pow10(d.scale - s))), s)
  }

  lemma MulSign(c: int, p: nat)
    requires p >= 1
    ensures c < 0 ==> c * p < 0
    ensures c >= 0 ==> c * p >= 0
  {
  }

  /** Rounding moves the value by at most half a unit in the last kept
      place: counted in units of `10^-d.scale`, the rounded result differs
      from `d` by at most half of `10^(d.scale - s)`. (When `d.scale <= s`
      the result has the same value as `d`; see `RoundToScale`.) */
  lemma RoundToScaleError(d: Decimal, s: nat)
    requires d.scale > s
    ensures var p := Pow10(d.scale - s);
            -(p as int) <= 2 * (RoundToScale(d, s).coef * p - d.coef) <= p
  {
    var p := Pow10(d.scale - s);
    var m := Abs(d.coef);
    var q := RoundHalfEven(m, p);
    RoundHalfEvenError(m, p);
    assert RoundToScale(d, s).coef == Signed(d.coef < 0, q);
    if d.coef < 0 {
      MulNeg(q, p);
    }
  }

  lemma MulNeg(q: int, p: int)
    ensures (0 - q) * p == -(q * p)
  {
  }

  /** `format(d, ".{places}f")`: round to `places` digits after the point,
      then print positionally; the sign of `d` is kept even when the rounded
      magnitude is zero (`"-0.000"`). */
  function FormatFixed(d: Decimal, places: nat): string
  {
    Sign(d.coef < 0) + RenderMagnitude(Abs(RoundToScale(d, places).coef), places)
  }

  /** What `format(d, ".Nf")` prints reads back as the rounded decimal. */
  lemma ParseFormatFixed(d: Decimal, places: nat)
    ensures Parse(FormatFixed(d, places)) == Some(RoundToScale(d, places))
  {
    var r := RoundToScale(d, places);
    ParseSignedMagnitude(d.coef < 0, Abs(r.coef), places);
  }
}

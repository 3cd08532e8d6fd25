/** Decimal digit strings: the building block of Python's integer and
    fixed-point formatting (`str(int)`, `"%02d"`, `f"{v:.12f}"`) and of the
    parsers that read such text back. */
module Digits {

  import Strings

  predicate IsDigit(c: char)
  {
    '0' <= c <= '9'
  }

  predicate AllDigits(s: string)
  {
    forall i :: 0 <= i < |s| ==> IsDigit(s[i])
  }

  function DigitChar(d: nat): (c: char)
    requires d < 10
    ensures IsDigit(c)
  {
    (('0' as int) + d) as char
  }

  function DigitValue(c: char): (d: nat)
    requires IsDigit(c)
    ensures d < 10
  {
    (c as int) - ('0' as int)
  }

  lemma DigitRoundTrip(d: nat)
    requires d < 10
    ensures DigitValue(DigitChar(d)) == d
  {
  }

  function Pow10(n: nat): (r: nat)
    ensures r >= 1
  {
    if n == 0 then 1 else 10 * Pow10(n - 1)
  }

  lemma {:induction false} Pow10Add(a: nat, b: nat)
    ensures Pow10(a + b) == (Pow10(a) as int) * Pow10(b)
  {
    if b == 0 {
      assert a + b == a;
    } else {
      Pow10Add(a, b - 1);
      assert Pow10(a + b) == 10 * Pow10(a + b - 1);
      Mul10Assoc(Pow10(a), Pow10(b - 1));
    }
  }

  lemma Mul10Assoc(x: int, y: int)
    ensures 10 * (x * y) == x * (10 * y)
  {
  }

  lemma {:induction false} Pow10Monotone(a: nat, b: nat)
    requires a <= b
    ensures Pow10(a) <= Pow10(b)
  {
    if a < b {
      Pow10Monotone(a, b - 1);
    }
  }

  /** The value of a string of decimal digits, most significant first;
      the empty string reads as 0. */
  function DigitsToNat(s: string): nat
    requires AllDigits(s)
  {
    if s == [] then 0 else 10 * DigitsToNat(s[..|s| - 1]) + DigitValue(s[|s| - 1])
  }

  /** `str(n)` for a natural number: shortest digit string, "0" for zero. */
  function NatToDigits(n: nat): (s: string)
    ensures |s| >= 1 && AllDigits(s)
    ensures n > 0 ==> s[0] != '0'
  {
    if n < 10 then [DigitChar(n)] else NatToDigits(n / 10) + [DigitChar(n % 10)]
  }

  /** The last `width` decimal digits of `n`, zero-padded on the left
      (`f"{n:0{width}d}"` when `n < 10^width`). */
  function PadDigits(n: nat, width: nat): (s: string)
    ensures |s| == width && AllDigits(s)
  {
    if width == 0 then [] else PadDigits(n / 10, width - 1) + [DigitChar(n % 10)]
  }

  lemma AllDigitsConcat(a: string, b: string)
    requires AllDigits(a) && AllDigits(b)
    ensures AllDigits(a + b)
  {
    forall i | 0 <= i < |a + b| ensures IsDigit((a + b)[i]) {
      if i < |a| {
        assert (a + b)[i] == a[i];
      } else {
        assert (a + b)[i] == b[i - |a|];
      }
    }
  }

  /** Appending one digit multiplies by ten and adds it. */
  lemma DigitsToNatSnoc(s: string, c: char)
    requires AllDigits(s) && IsDigit(c)
    ensures AllDigits(s + [c])
    ensures DigitsToNat(s + [c]) == 10 * DigitsToNat(s) + DigitValue(c)
  {
    AllDigitsConcat(s, [c]);
    assert (s + [c])[..|s|] == s;
  }

  lemma {:induction false} DigitsToNatConcat(a: string, b: string)
    requires AllDigits(a) && AllDigits(b)
    ensures AllDigits(a + b)
    ensures DigitsToNat(a + b) == (DigitsToNat(a) as int) * Pow10(|b|) + DigitsToNat(b)
  {
    AllDigitsConcat(a, b);
    if b == [] {
      assert a + b == a;
    } else {
      var b', c := b[..|b| - 1], b[|b| - 1];
      assert b == b' + [c];
      assert a + b == (a + b') + [c];
      DigitsToNatConcat(a, b');
      DigitsToNatSnoc(a + b', c);
      DigitsToNatSnoc(b', c);
      ConcatStep(DigitsToNat(a), Pow10(|b'|), DigitsToNat(b'), DigitValue(c));
    }
  }

  /** `10 * (x * p + y) + d == x * (10 * p) + (10 * y + d)` */
  lemma ConcatStep(x: int, p: int, y: int, d: int)
    ensures 10 * (x * p + y) + d == x * (10 * p) + (10 * y + d)
  {
  }

  /** Euclidean division of a natural number by a positive one. */
  lemma DivMod(m: nat, p: nat)
    requires p >= 1
    ensures m / p >= 0 && 0 <= m % p < p
    ensures ((m / p) as int) * p + m % p == m
  {
  }

  /** `m // p`, for a positive divisor. */
  function Quot(m: nat, p: nat): nat
    requires p >= 1
  {
    DivMod(m, p);
    m / p
  }

  /** `m % p`, for a positive divisor. */
  function Rem(m: nat, p: nat): nat
    requires p >= 1
  {
    DivMod(m, p);
    m % p
  }

  lemma QuotRem(m: nat, p: nat)
    requires p >= 1
    ensures (Quot(m, p) as int) * p + Rem(m, p) == m && Rem(m, p) < p
  {
    DivMod(m, p);
  }

  lemma {:induction false} NatToDigitsValue(n: nat)
    ensures DigitsToNat(NatToDigits(n)) == n
  {
    if n < 10 {
      assert NatToDigits(n) == [] + [DigitChar(n)];
      DigitsToNatSnoc([], DigitChar(n));
    } else {
      NatToDigitsValue(n / 10);
      DigitsToNatSnoc(NatToDigits(n / 10), DigitChar(n % 10));
    }
  }

  lemma {:induction false} PadDigitsValue(n: nat, width: nat)
    ensures DigitsToNat(PadDigits(n, width)) == n % Pow10(width)
  {
    if width > 0 {
      PadDigitsValue(n / 10, width - 1);
      DigitsToNatSnoc(PadDigits(n / 10, width - 1), DigitChar(n % 10));
      DivModNested(n, Pow10(width - 1));
    }
  }

  /** `n % (10 * p) == 10 * ((n / 10) % p) + n % 10`. */
  lemma DivModNested(n: nat, p: nat)
    requires p >= 1
    ensures n % (10 * p) == 10 * ((n / 10) % p) + n % 10
  {
    var q, r := n / 10, n % 10;
    var q1, r1 := q / p, q % p;
    DivMod(q, p);
    NestedStep(n, p, q, r, q1, r1);
    ModUnique(n, 10 * p, q1, 10 * r1 + r);
  }

  lemma NestedStep(n: int, p: int, q: int, r: int, q1: int, r1: int)
    requires n == 10 * q + r && q == q1 * p + r1
    ensures n == (10 * p) * q1 + (10 * r1 + r)
  {
  }

  lemma ModUnique(n: int, d: int, q: int, r: int)
    requires d > 0 && 0 <= r < d && n == d * q + r
    ensures n % d == r && n / d == q
  {
    var q0, r0 := n / d, n % d;
    var k := q0 - q;
    assert d * k == r - r0 by {
      assert d * q0 + r0 == d * q + r;
      MulSub(d, q0, q);
    }
    if k > 0 {
      MulAtLeast(d, k);
    } else if k < 0 {
      MulAtLeast(d, -k);
    }
  }

  lemma MulSub(d: int, a: int, b: int)
    ensures d * (a - b) == d * a - d * b
  {
  }

  lemma MulAtLeast(d: int, k: int)
    requires d > 0 && k >= 1
    ensures d * k >= d && d * -k <= -d
  {
  }

  /** A digit string reads back through `PadDigits` at its own width. */
  lemma {:induction false} PadDigitsOfValue(s: string)
    requires AllDigits(s)
    ensures DigitsToNat(s) < Pow10(|s|)
    ensures PadDigits(DigitsToNat(s), |s|) == s
  {
    if s != [] {
      var s', c := s[..|s| - 1], s[|s| - 1];
      assert s == s' + [c];
      PadDigitsOfValue(s');
      DigitsToNatSnoc(s', c);
      var d := DigitValue(c);
      DivMod10(DigitsToNat(s'), d);
      assert DigitChar(d) == c;
    }
  }

  lemma DivMod10(x: nat, d: nat)
    requires d < 10
    ensures (10 * x + d) / 10 == x && (10 * x + d) % 10 == d
  {
  }

  /** The last digit `PadDigits` writes is the last decimal digit of `n`. */
  lemma PadDigitsLast(n: nat, width: nat)
    requires width >= 1
    ensures PadDigits(n, width)[width - 1] == DigitChar(n % 10)
  {
  }

  /** Appending `k` zero digits: `n * 10^k` written in `width + k` digits is
      `n` written in `width` digits followed by `k` zeros. */
  lemma {:induction false} PadDigitsShift(n: nat, width: nat, k: nat)
    ensures PadDigits(n * Pow10(k), width + k) == PadDigits(n, width) + Strings.Repeat('0', k)
  {
    if k == 0 {
      assert n * Pow10(k) == n;
      assert PadDigits(n, width) + Strings.Repeat('0', 0) == PadDigits(n, width);
    } else {
      var x := n * Pow10(k - 1);
      assert n * Pow10(k) == 10 * x by { Mul10Assoc(n, Pow10(k - 1)); }
      DivMod10(x, 0);
      assert DigitChar(0) == '0';
      PadDigitsShift(n, width, k - 1);
      assert PadDigits(n * Pow10(k), width + k) == PadDigits(x, width + (k - 1)) + ['0'];
    }
  }
}

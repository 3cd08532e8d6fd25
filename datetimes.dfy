/** Naive `datetime.datetime` values, as `datetime.utcnow()` returns them,
    and `datetime.isoformat()`, the form in which `CallAPIResult` serialises
    its timestamp. `ParseIso` reads that form back (the subset of
    `datetime.fromisoformat` that `isoformat` produces); it is the inverse
    against which `IsoFormat` is checked. */
module DateTimes {

  import opened Options
  import opened Digits

  datatype DateTime = DateTime(
    year: nat, month: nat, day: nat,
    hour: nat, minute: nat, second: nat, microsecond: nat)

  predicate IsLeapYear(y: nat)
  {
    y % 4 == 0 && (y % 100 != 0 || y % 400 == 0)
  }

  function DaysInMonth(y: nat, m: nat): nat
  {
    if m == 2 then (if IsLeapYear(y) then 29 else 28)
    else if m in {4, 6, 9, 11} then 30
    else 31
  }

  /** The range checks of the `datetime` constructor. */
  predicate Valid(dt: DateTime)
  {
    && 1 <= dt.year <= 9999
    && 1 <= dt.month <= 12
    && 1 <= dt.day <= DaysInMonth(dt.year, dt.month)
    && dt.hour < 24 && dt.minute < 60 && dt.second < 60
    && dt.microsecond < 1000000
  }

  /** `dt.isoformat()`: the date, `T`, then the time; CPython writes the
      time as `HH:MM:SS`, followed by `.ffffff` only when the microsecond
      is not zero. */
  function IsoFormat(dt: DateTime): string
  {
    IsoDate(dt) + "T" + IsoTime(dt)
  }

  function IsoDate(dt: DateTime): string
  {
    PadDigits(dt.year, 4) + "-" + PadDigits(dt.month, 2) + "-" + PadDigits(dt.day, 2)
  }

  function IsoTime(dt: DateTime): string
  {
    PadDigits(dt.hour, 2) + ":" + PadDigits(dt.minute, 2) + ":" + PadDigits(dt.second, 2)
    + (if dt.microsecond == 0 then "" else "." + PadDigits(dt.microsecond, 6))
  }

  /** The number written in `s[i..i + w]`, when those are all digits. */
  function NumberAt(s: string, i: nat, w: nat): (r: Option<nat>)
    requires i + w <= |s|
    ensures r.Some? <==> AllDigits(s[i..i + w])
    ensures r.Some? ==> r.value == DigitsToNat(s[i..i + w])
  {
    if AllDigits(s[i..i + w]) then Some(DigitsToNat(s[i..i + w])) else None
  }

  /** `YYYY-MM-DD` as (year, month, day). */
  function ParseDate(s: string): Option<(nat, nat, nat)>
  {
    if |s| != 10 || s[4] != '-' || s[7] != '-' then None
    else
      var y, m, d := NumberAt(s, 0, 4), NumberAt(s, 5, 2), NumberAt(s, 8, 2);
      if y.None? || m.None? || d.None? then None else Some((y.value, m.value, d.value))
  }

  /** `HH:MM:SS` or `HH:MM:SS.ffffff` as (hour, minute, second, microsecond). */
  function ParseTime(s: string): Option<(nat, nat, nat, nat)>
  {
    if (|s| != 8 && |s| != 15) || s[2] != ':' || s[5] != ':' || (|s| == 15 && s[8] != '.') then None
    else
      var h, m, sec := NumberAt(s, 0, 2), NumberAt(s, 3, 2), NumberAt(s, 6, 2);
      var us := if |s| == 15 then NumberAt(s, 9, 6) else Some(0);
      if h.None? || m.None? || sec.None? || us.None? then None
      else Some((h.value, m.value, sec.value, us.value))
  }

  /** `YYYY-MM-DDTHH:MM:SS[.ffffff]` read back into a valid `DateTime`. */
  function ParseIso(s: string): Option<DateTime>
  {
    if |s| < 11 || s[10] != 'T' then None
    else
      var date, time := ParseDate(s[..10]), ParseTime(s[11..]);
      if date.None? || time.None? then None
      else
        var dt := DateTime(date.value.0, date.value.1, date.value.2,
                           time.value.0, time.value.1, time.value.2, time.value.3);
        if Valid(dt) then Some(dt) else None
  }

  /** `isoformat` is 19 characters long, or 26 with microseconds. */
  lemma IsoFormatLength(dt: DateTime)
    ensures |IsoFormat(dt)| == if dt.microsecond == 0 then 19 else 26
  {
  }

  /** A number below `10^w` reads back from its `w`-digit rendering. */
  lemma NumberAtPad(s: string, i: nat, n: nat, w: nat)
    requires i + w <= |s| && s[i..i + w] == PadDigits(n, w) && n < Pow10(w)
    ensures NumberAt(s, i, w) == Some(n)
  {
    PadDigitsValue(n, w);
    ModUnique(n, Pow10(w), 0, n);
  }

  /** Where the pieces of `a + [p] + b + [q] + c` sit. */
  lemma Layout(a: string, p: char, b: string, q: char, c: string)
    ensures var x := a + [p] + b + [q] + c;
      && |x| == |a| + |b| + |c| + 2
      && x[..|a|] == a && x[|a|] == p && x[|a| + 1..|a| + 1 + |b|] == b
      && x[|a| + 1 + |b|] == q && x[|a| + |b| + 2..] == c
  {
    var x := a + [p] + b + [q] + c;
    assert x == a + ([p] + b + [q] + c);
    assert x[|a| + 1..] == b + [q] + c;
  }

  lemma ParseDateOf(dt: DateTime)
    requires Valid(dt)
    ensures ParseDate(IsoDate(dt)) == Some((dt.year, dt.month, dt.day))
  {
    var s := IsoDate(dt);
    var ys, ms, ds := PadDigits(dt.year, 4), PadDigits(dt.month, 2), PadDigits(dt.day, 2);
    Layout(ys, '-', ms, '-', ds);
    assert Pow10(2) == 100 && Pow10(4) == 10000;
    assert NumberAt(s, 0, 4) == Some(dt.year) by { NumberAtPad(s, 0, dt.year, 4); }
    assert NumberAt(s, 5, 2) == Some(dt.month) by { NumberAtPad(s, 5, dt.month, 2); }
    assert NumberAt(s, 8, 2) == Some(dt.day) by { NumberAtPad(s, 8, dt.day, 2); }
  }

  /** `HH:MM:SS` with or without the fraction after it. */
  lemma ClockLayout(dt: DateTime)
    requires Valid(dt)
    ensures var s := IsoTime(dt);
      && |s| >= 8 && s[2] == ':' && s[5] == ':'
      && NumberAt(s, 0, 2) == Some(dt.hour)
      && NumberAt(s, 3, 2) == Some(dt.minute)
      && NumberAt(s, 6, 2) == Some(dt.second)
  {
    var hs, ms, ss := PadDigits(dt.hour, 2), PadDigits(dt.minute, 2), PadDigits(dt.second, 2);
    var clock := hs + ":" + ms + ":" + ss;
    var frac := if dt.microsecond == 0 then "" else "." + PadDigits(dt.microsecond, 6);
    var s := IsoTime(dt);
    assert s == clock + frac;
    Layout(hs, ':', ms, ':', ss);
    assert s[..8] == clock;
    assert Pow10(2) == 100;
    assert NumberAt(s, 0, 2) == Some(dt.hour) by { NumberAtPad(s, 0, dt.hour, 2); }
    assert NumberAt(s, 3, 2) == Some(dt.minute) by { NumberAtPad(s, 3, dt.minute, 2); }
    assert NumberAt(s, 6, 2) == Some(dt.second) by { NumberAtPad(s, 6, dt.second, 2); }
  }

  lemma ParseTimeOf(dt: DateTime)
    requires Valid(dt)
    ensures ParseTime(IsoTime(dt)) == Some((dt.hour, dt.minute, dt.second, dt.microsecond))
  {
    var s := IsoTime(dt);
    ClockLayout(dt);
    if dt.microsecond != 0 {
      var us := PadDigits(dt.microsecond, 6);
      var clock := PadDigits(dt.hour, 2) + ":" + PadDigits(dt.minute, 2) + ":" + PadDigits(dt.second, 2);
      assert s == clock + ("." + us);
      assert |clock| == 8;
      assert s[8] == '.' && s[9..15] == us;
      assert Pow10(6) == 1000000;
      NumberAtPad(s, 9, dt.microsecond, 6);
    }
  }

  /** Round trip: `ParseIso(IsoFormat(dt)) == dt` for every valid `dt`. */
  lemma ParseIsoFormat(dt: DateTime)
    requires Valid(dt)
    ensures ParseIso(IsoFormat(dt)) == Some(dt)
  {
    var s, date, time := IsoFormat(dt), IsoDate(dt), IsoTime(dt);
    assert |date| == 10;
    assert s[..10] == date && s[10] == 'T' && s[11..] == time;
    ParseDateOf(dt);
    ParseTimeOf(dt);
  }
}

/** The few `str` operations of Python that the service uses:
    `s.rstrip(c)` for a single character, `sep.join(parts)`, `pat in s`,
    and locating the first occurrence of a character. */
module Strings {

  /** A string made of `n` copies of `c`. */
  function Repeat(c: char, n: nat): (s: string)
    ensures |s| == n && forall i :: 0 <= i < n ==> s[i] == c
  {
    if n == 0 then [] else Repeat(c, n - 1) + [c]
  }

  /** `s.rstrip(c)`: `s` with every trailing `c` removed. */
  function RStrip(s: string, c: char): (r: string)
    ensures |r| <= |s| && r == s[..|r|]
    ensures r == [] || r[|r| - 1] != c
    ensures forall i :: |r| <= i < |s| ==> s[i] == c
  {
    if s != [] && s[|s| - 1] == c then RStrip(s[..|s| - 1], c) else s
  }

  /** What `rstrip` removes is exactly a run of `c`: `s == RStrip(s, c) + c*k`. */
  lemma RStripSplit(s: string, c: char)
    ensures s == RStrip(s, c) + Repeat(c, |s| - |RStrip(s, c)|)
  {
    var r := RStrip(s, c);
    var t := Repeat(c, |s| - |r|);
    assert forall i :: 0 <= i < |s| ==> s[i] == (r + t)[i];
  }

  /** A string that does not end in `c` is left as it is. */
  lemma RStripKeep(s: string, c: char)
    requires s == [] || s[|s| - 1] != c
    ensures RStrip(s, c) == s
  {
  }

  /** One trailing `c` goes, and stripping goes on from there. */
  lemma RStripDrop(s: string, c: char)
    ensures RStrip(s + [c], c) == RStrip(s, c)
  {
    assert (s + [c])[..|s|] == s;
  }

  /** A run of `c` strips away entirely. */
  lemma {:induction false} RStripRepeat(c: char, n: nat)
    ensures RStrip(Repeat(c, n), c) == []
  {
    if n > 0 {
      assert Repeat(c, n)[..n - 1] == Repeat(c, n - 1);
      RStripRepeat(c, n - 1);
    }
  }

  /** Stripping the tail of a concatenation: if `b` does not vanish, `a` is kept whole. */
  lemma {:induction false} RStripConcat(a: string, b: string, c: char)
    ensures RStrip(a + b, c) == if RStrip(b, c) == [] then RStrip(a, c) else a + RStrip(b, c)
  {
    if b == [] {
      assert a + b == a;
    } else if b[|b| - 1] == c {
      assert (a + b)[..|a + b| - 1] == a + b[..|b| - 1];
      RStripConcat(a, b[..|b| - 1], c);
    }
  }

  /** Index of the first `c` in `s`, or `|s|` when there is none. */
  function IndexOf(s: string, c: char): (k: nat)
    ensures k <= |s|
    ensures k < |s| ==> s[k] == c
    ensures forall i :: 0 <= i < k ==> s[i] != c
  {
    if s == [] then 0 else if s[0] == c then 0 else 1 + IndexOf(s[1..], c)
  }

  /** The first `c` in `s` is at `k` (or there is none and `k == |s|`). */
  lemma IndexOfIsFirst(s: string, c: char, k: nat)
    requires k <= |s| && (k < |s| ==> s[k] == c)
    requires forall i :: 0 <= i < k ==> s[i] != c
    ensures IndexOf(s, c) == k
  {
  }

  /** `sep.join(parts)`. */
  function Join(parts: seq<string>, sep: string): string
  {
    if |parts| == 0 then ""
    else if |parts| == 1 then parts[0]
    else parts[0] + sep + Join(parts[1..], sep)
  }

  /** Where `parts[i]` starts in `Join(parts, sep)`: after each earlier
      part and the separator that follows it. */
  function JoinOffset(parts: seq<string>, sep: string, i: nat): (k: nat)
    requires i <= |parts|
  {
    if i == 0 then 0 else |parts[0]| + |sep| + JoinOffset(parts[1..], sep, i - 1)
  }

  /** An occurrence in `b` is one in `a + b`, shifted by `|a|`. */
  lemma OccursShift(a: string, b: string, pat: string, k: nat)
    requires OccursAt(b, pat, k)
    ensures OccursAt(a + b, pat, |a| + k)
  {
    assert (a + b)[|a| + k..|a| + k + |pat|] == b[k..k + |pat|];
  }

  /** `a` occurs at the start of `a + b`. */
  lemma OccursFront(a: string, b: string)
    ensures OccursAt(a + b, a, 0)
  {
    assert (a + b)[..|a|] == a;
  }

  /** Two or more parts join as the head, the separator, and the rest joined. */
  lemma JoinCons(parts: seq<string>, sep: string)
    requires |parts| >= 2
    ensures Join(parts, sep) == parts[0] + (sep + Join(parts[1..], sep))
  {
  }

  /** What occurs in the join of the later parts occurs in the whole join,
      after the head part and a separator. */
  lemma JoinShift(parts: seq<string>, sep: string, pat: string, k: nat)
    requires |parts| >= 2 && OccursAt(Join(parts[1..], sep), pat, k)
    ensures OccursAt(Join(parts, sep), pat, |parts[0]| + |sep| + k)
  {
    var rest := Join(parts[1..], sep);
    JoinCons(parts, sep);
    OccursShift(sep, rest, pat, k);
    OccursShift(parts[0], sep + rest, pat, |sep| + k);
  }

  /** The first part starts the join, and a separator follows it when
      another part comes after. */
  lemma JoinHead(parts: seq<string>, sep: string)
    requires |parts| >= 1
    ensures OccursAt(Join(parts, sep), parts[0], 0)
    ensures |parts| >= 2 ==> OccursAt(Join(parts, sep), sep, |parts[0]|)
  {
    if |parts| == 1 {
      assert Join(parts, sep) == parts[0] + "";
      OccursFront(parts[0], "");
    } else {
      var rest := Join(parts[1..], sep);
      JoinCons(parts, sep);
      OccursFront(parts[0], sep + rest);
      OccursFront(sep, rest);
      OccursShift(parts[0], sep + rest, sep, 0);
    }
  }

  /** Each part occurs in the joined string at its offset, and the
      separator follows it when another part comes after. */
  lemma {:induction false} JoinAt(parts: seq<string>, sep: string, i: nat)
    requires i < |parts|
    ensures OccursAt(Join(parts, sep), parts[i], JoinOffset(parts, sep, i))
    ensures i + 1 < |parts| ==> OccursAt(Join(parts, sep), sep, JoinOffset(parts, sep, i) + |parts[i]|)
  {
    if i == 0 {
      JoinHead(parts, sep);
    } else {
      var k := JoinOffset(parts[1..], sep, i - 1);
      assert parts[1..][i - 1] == parts[i];
      assert JoinOffset(parts, sep, i) == |parts[0]| + |sep| + k;
      JoinAt(parts[1..], sep, i - 1);
      JoinShift(parts, sep, parts[i], k);
      if i + 1 < |parts| {
        JoinShift(parts, sep, sep, k + |parts[i]|);
      }
    }
  }

  /** The offsets step by one part and one separator. */
  lemma {:induction false} JoinOffsetStep(parts: seq<string>, sep: string, i: nat)
    requires i < |parts|
    ensures JoinOffset(parts, sep, i + 1) == JoinOffset(parts, sep, i) + |parts[i]| + |sep|
  {
    if i > 0 {
      JoinOffsetStep(parts[1..], sep, i - 1);
    }
  }

  /** `pat` occurs in `s` starting at index `i`. */
  predicate OccursAt(s: string, pat: string, i: nat)
  {
    i + |pat| <= |s| && s[i..i + |pat|] == pat
  }

  /** Python's `pat in s`, as the scan CPython performs: try every start
      position from left to right. */
  function Contains(s: string, pat: string): (b: bool)
    ensures b <==> exists i: nat :: OccursAt(s, pat, i)
    decreases |s|
  {
    if |pat| > |s| then
      assert forall i: nat :: !OccursAt(s, pat, i);
      false
    else if s[..|pat|] == pat then
      assert OccursAt(s, pat, 0);
      true
    else
      var rest := Contains(s[1..], pat);
      ContainsShift(s, pat);
      rest
  }

  /** When `pat` does not start `s`, its occurrences in `s` are those in `s[1..]`. */
  lemma ContainsShift(s: string, pat: string)
    requires |pat| <= |s| && s[..|pat|] != pat
    ensures (exists i: nat :: OccursAt(s, pat, i)) <==> (exists i: nat :: OccursAt(s[1..], pat, i))
  {
    if exists i: nat :: OccursAt(s, pat, i) {
      var i: nat :| OccursAt(s, pat, i);
      assert i != 0;
      assert s[1..][i - 1..i - 1 + |pat|] == s[i..i + |pat|];
      assert OccursAt(s[1..], pat, i - 1);
    }
    if exists i: nat :: OccursAt(s[1..], pat, i) {
      var i: nat :| OccursAt(s[1..], pat, i);
      assert s[i + 1..i + 1 + |pat|] == s[1..][i..i + |pat|];
      assert OccursAt(s, pat, i + 1);
    }
  }
}

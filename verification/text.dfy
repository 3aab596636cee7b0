/**
 * String helpers shared by the scripts: ASCII lower-casing, substring search,
 * whitespace stripping, decimal rendering of naturals (and its parser),
 * zero padding and joining.
 */
module Text {

  /** A character Python's `str.lower()` maps to a different character (ASCII range only). */
  predicate IsUpper(c: char) {
    'A' <= c <= 'Z'
  }

  function LowerChar(c: char): (r: char)
    ensures !IsUpper(r)
    ensures IsUpper(c) ==> r as int == c as int + 32
    ensures !IsUpper(c) ==> r == c
  {
    if IsUpper(c) then (c as int + 32) as char else c
  }

  /** `s.lower()` for ASCII text. */
  function Lower(s: string): (r: string)
    ensures |r| == |s|
    ensures forall i :: 0 <= i < |s| ==> r[i] == LowerChar(s[i])
  {
    seq(|s|, i requires 0 <= i < |s| => LowerChar(s[i]))
  }

  lemma LowerConcat(a: string, b: string)
    ensures Lower(a + b) == Lower(a) + Lower(b)
  {
    assert forall i :: 0 <= i < |a + b| ==> Lower(a + b)[i] == (Lower(a) + Lower(b))[i];
  }

  lemma LowerIdempotent(s: string)
    ensures Lower(Lower(s)) == Lower(s)
  {
  }

  predicate StartsWith(s: string, p: string) {
    |p| <= |s| && s[..|p|] == p
  }

  predicate EndsWith(s: string, p: string) {
    |p| <= |s| && s[|s| - |p|..] == p
  }

  lemma StartsWithConcat(p: string, t: string)
    ensures StartsWith(p + t, p)
  {
    assert (p + t)[..|p|] == p;
  }

  lemma EndsWithConcat(t: string, p: string)
    ensures EndsWith(t + p, p)
  {
    assert (t + p)[|t|..] == p;
  }

  /** A prefix of `t` stays a prefix whatever is appended to `t`. */
  lemma StartsWithLonger(t: string, p: string, u: string)
    requires StartsWith(t, p)
    ensures StartsWith(t + u, p)
  {
    assert (t + u)[..|p|] == t[..|p|];
  }

  /** A suffix of `t` stays a suffix whatever is put in front of `t`. */
  lemma EndsWithLonger(u: string, t: string, p: string)
    requires EndsWith(t, p)
    ensures EndsWith(u + t, p)
  {
    assert (u + t)[|u + t| - |p|..] == t[|t| - |p|..];
  }

  /** Appending the same tail to a string and to one of its suffixes keeps the suffix relation. */
  lemma EndsWithExtended(t: string, p: string, u: string)
    requires EndsWith(t, p)
    ensures EndsWith(t + u, p + u)
  {
    assert (t + u)[|t + u| - |p + u|..] == t[|t| - |p|..] + u;
  }

  /** When `p + u` ends `t + u`, the last characters of `t` and `p` agree. */
  lemma EndsWithSameLast(t: string, p: string, u: string)
    requires |t| > 0 && |p| > 0 && EndsWith(t + u, p + u)
    ensures t[|t| - 1] == p[|p| - 1]
  {
    var n := |t + u|;
    assert (t + u)[n - |p + u|..][|p| - 1] == (p + u)[|p| - 1];
    assert (t + u)[n - |p + u|..][|p| - 1] == (t + u)[|t| - 1];
  }

  /** The 68-character separator line both analyzer scripts print. */
  const Rule: string := "===================================================================="

  /** `w` occurs in `s` starting at index `i`. */
  predicate OccursAt(s: string, w: string, i: int) {
    0 <= i <= |s| - |w| && s[i..i + |w|] == w
  }

  /** Python's `w in s` on strings: `w` occurs as a contiguous piece of `s`. */
  predicate Contains(s: string, w: string) {
    exists i | 0 <= i <= |s| - |w| :: OccursAt(s, w, i)
  }

  lemma ContainsLeft(a: string, b: string, w: string)
    requires Contains(a, w)
    ensures Contains(a + b, w)
  {
    var i :| 0 <= i <= |a| - |w| && OccursAt(a, w, i);
    assert (a + b)[i..i + |w|] == a[i..i + |w|];
    assert OccursAt(a + b, w, i);
  }

  lemma ContainsRight(a: string, b: string, w: string)
    requires Contains(b, w)
    ensures Contains(a + b, w)
  {
    var i :| 0 <= i <= |b| - |w| && OccursAt(b, w, i);
    assert (a + b)[|a| + i..|a| + i + |w|] == b[i..i + |w|];
    assert OccursAt(a + b, w, |a| + i);
  }

  /** `Contains` checked position by position from the front. */
  predicate Mentions(s: string, w: string)
    decreases |s|
  {
    if |s| < |w| then false else s[..|w|] == w || (|s| > 0 && Mentions(s[1..], w))
  }

  /** An occurrence past the first character is an occurrence in the tail. */
  lemma OccursInTail(s: string, w: string, i: int)
    requires 1 <= i && |s| >= 1
    ensures OccursAt(s, w, i) <==> OccursAt(s[1..], w, i - 1)
  {
    if 0 <= i - 1 <= |s| - 1 - |w| {
      assert s[1..][i - 1..i - 1 + |w|] == s[i..i + |w|];
    }
  }

  lemma {:induction false} MentionsContains(s: string, w: string)
    ensures Mentions(s, w) <==> Contains(s, w)
    decreases |s|
  {
    if |w| == 0 {
      assert OccursAt(s, w, 0);
    } else if |s| >= |w| {
      MentionsContains(s[1..], w);
      if Mentions(s[1..], w) {
        var i :| 0 <= i <= |s| - 1 - |w| && OccursAt(s[1..], w, i);
        OccursInTail(s, w, i + 1);
      }
      if Contains(s, w) && s[..|w|] != w {
        var i :| 0 <= i <= |s| - |w| && OccursAt(s, w, i);
        assert i != 0;
        OccursInTail(s, w, i);
      }
      if s[..|w|] == w {
        assert OccursAt(s, w, 0);
      }
    }
  }

  /** The characters Python's `str.isspace()` accepts among ASCII, NEL and NBSP. */
  predicate IsSpace(c: char) {
    c == ' ' || ('\t' <= c <= '\r') || ('\U{1c}' <= c <= '\U{1f}') || c == '\U{85}' || c == '\U{a0}'
  }

  predicate NoSpace(w: string) {
    forall i :: 0 <= i < |w| ==> !IsSpace(w[i])
  }

  /** The first index at or after `i` that does not hold whitespace, or `|s|`. */
  function SkipSpaces(s: string, i: nat): (j: nat)
    requires i <= |s|
    ensures i <= j <= |s|
    decreases |s| - i
  {
    if i < |s| && IsSpace(s[i]) then SkipSpaces(s, i + 1) else i
  }

  /** The end of `s[..j]` once its trailing whitespace is dropped. */
  function BackSpaces(s: string, j: nat): (k: nat)
    requires j <= |s|
    ensures k <= j
  {
    if j > 0 && IsSpace(s[j - 1]) then BackSpaces(s, j - 1) else j
  }

  lemma {:induction false} SkipSpacesSkipsSpaces(s: string, i: nat)
    requires i <= |s|
    ensures forall k :: i <= k < SkipSpaces(s, i) ==> IsSpace(s[k])
    ensures SkipSpaces(s, i) < |s| ==> !IsSpace(s[SkipSpaces(s, i)])
    decreases |s| - i
  {
    if i < |s| && IsSpace(s[i]) {
      SkipSpacesSkipsSpaces(s, i + 1);
    }
  }

  lemma {:induction false} BackSpacesSkipsSpaces(s: string, j: nat)
    requires j <= |s|
    ensures forall k :: BackSpaces(s, j) <= k < j ==> IsSpace(s[k])
    ensures BackSpaces(s, j) > 0 ==> !IsSpace(s[BackSpaces(s, j) - 1])
  {
    if j > 0 && IsSpace(s[j - 1]) {
      BackSpacesSkipsSpaces(s, j - 1);
    }
  }

  /** `s.strip()`: drop leading and trailing whitespace. */
  function Strip(s: string): (r: string)
    ensures |r| <= |s|
  {
    var a := SkipSpaces(s, 0);
    var b := BackSpaces(s, |s|);
    if a < b then s[a..b] else []
  }

  /** What `Strip` keeps: no whitespace at either end, and nothing at all from an all-whitespace line. */
  lemma StripTrims(s: string)
    ensures Strip(s) == [] || (!IsSpace(Strip(s)[0]) && !IsSpace(Strip(s)[|Strip(s)| - 1]))
    ensures Strip(s) == [] <==> forall k :: 0 <= k < |s| ==> IsSpace(s[k])
  {
    var a := SkipSpaces(s, 0);
    var b := BackSpaces(s, |s|);
    SkipSpacesSkipsSpaces(s, 0);
    BackSpacesSkipsSpaces(s, |s|);
    if a < |s| {
      assert !IsSpace(s[a]);
      assert b > a;
    }
  }

  /** `Strip` keeps one contiguous slice of the input and drops only whitespace around it. */
  lemma StripIsSlice(s: string)
    ensures exists a, b ::
              && 0 <= a <= b <= |s| && Strip(s) == s[a..b]
              && (forall k :: 0 <= k < a ==> IsSpace(s[k]))
              && (forall k :: b <= k < |s| ==> IsSpace(s[k]))
  {
    var a := SkipSpaces(s, 0);
    var b := BackSpaces(s, |s|);
    SkipSpacesSkipsSpaces(s, 0);
    BackSpacesSkipsSpaces(s, |s|);
    if a < b {
      assert Strip(s) == s[a..b];
    } else {
      assert Strip(s) == s[a..a];
    }
  }

  /** Stripping whitespace never creates or destroys an occurrence of a whitespace-free word. */
  lemma StripKeepsWords(s: string, w: string)
    requires NoSpace(w)
    ensures Contains(Strip(s), w) <==> Contains(s, w)
  {
    if |w| == 0 {
      assert OccursAt(s, w, 0);
      assert OccursAt(Strip(s), w, 0);
    } else {
      if Contains(Strip(s), w) {
        StrippedWordOccurs(s, w);
      }
      if Contains(s, w) {
        WordSurvivesStrip(s, w);
      }
    }
  }

  lemma SliceOfSlice(s: string, a: nat, b: nat, x: nat, y: nat)
    requires a <= b <= |s| && x <= y <= b - a
    ensures s[a..b][x..y] == s[a + x..a + y]
  {
    assert forall k :: 0 <= k < y - x ==> s[a..b][x..y][k] == s[a + x + k];
  }

  lemma StrippedWordOccurs(s: string, w: string)
    requires Contains(Strip(s), w)
    ensures Contains(s, w)
  {
    var a := SkipSpaces(s, 0);
    var b := BackSpaces(s, |s|);
    var t := Strip(s);
    var i :| 0 <= i <= |t| - |w| && OccursAt(t, w, i);
    if a < b {
      assert t == s[a..b];
      SliceOfSlice(s, a, b, i, i + |w|);
      assert OccursAt(s, w, a + i);
    } else {
      assert OccursAt(s, w, 0);
    }
  }

  lemma WordSurvivesStrip(s: string, w: string)
    requires NoSpace(w) && |w| > 0 && Contains(s, w)
    ensures Contains(Strip(s), w)
  {
    var a := SkipSpaces(s, 0);
    var b := BackSpaces(s, |s|);
    SkipSpacesSkipsSpaces(s, 0);
    BackSpacesSkipsSpaces(s, |s|);
    var i :| 0 <= i <= |s| - |w| && OccursAt(s, w, i);
    assert s[i] == w[0] && s[i + |w| - 1] == w[|w| - 1];
    assert a <= i;
    assert i + |w| <= b;
    var t := Strip(s);
    var j := i - a;
    assert t == s[a..b];
    assert 0 <= j && j + |w| <= |t|;
    SliceOfSlice(s, a, b, j, j + |w|);
    assert OccursAt(t, w, j);
  }

  /** Lower-casing changes no whitespace character and makes none. */
  lemma LowerKeepsSpaces(c: char)
    ensures IsSpace(LowerChar(c)) == IsSpace(c)
  {
  }

  lemma {:induction false} LowerSkipSpaces(s: string, i: nat)
    requires i <= |s|
    ensures SkipSpaces(Lower(s), i) == SkipSpaces(s, i)
    decreases |s| - i
  {
    if i < |s| {
      LowerKeepsSpaces(s[i]);
      LowerSkipSpaces(s, i + 1);
    }
  }

  lemma {:induction false} LowerBackSpaces(s: string, j: nat)
    requires j <= |s|
    ensures BackSpaces(Lower(s), j) == BackSpaces(s, j)
  {
    if j > 0 {
      LowerKeepsSpaces(s[j - 1]);
      LowerBackSpaces(s, j - 1);
    }
  }

  /** Lower-casing and stripping commute (`s.strip().lower() == s.lower().strip()`). */
  lemma LowerStrip(s: string)
    ensures Lower(Strip(s)) == Strip(Lower(s))
  {
    LowerSkipSpaces(s, 0);
    LowerBackSpaces(s, |s|);
    var a := SkipSpaces(s, 0);
    var b := BackSpaces(s, |s|);
    if a < b {
      assert Lower(s[a..b]) == Lower(s)[a..b];
    }
  }

  // ---------------------------------------------------------------------------
  // Decimal rendering, as Python's `str(n)` / `f"{n}"` of a non-negative int

  predicate IsDigit(c: char) {
    '0' <= c <= '9'
  }

  function DigitChar(d: nat): (c: char)
    requires d < 10
    ensures IsDigit(c)
  {
    ('0' as int + d) as char
  }

  function DigitValue(c: char): (d: nat)
    requires IsDigit(c)
    ensures d < 10
  {
    c as int - '0' as int
  }

  /** `str(n)`: decimal digits, most significant first. */
  function NatToString(n: nat): string {
    if n < 10 then [DigitChar(n)] else NatToString(n / 10) + [DigitChar(n % 10)]
  }

  /** The rendering is all digits, a single one exactly below ten, with no leading zero. */
  lemma {:induction false} NatToStringDigits(n: nat)
    ensures 1 <= |NatToString(n)|
    ensures forall i :: 0 <= i < |NatToString(n)| ==> IsDigit(NatToString(n)[i])
    ensures n < 10 <==> |NatToString(n)| == 1
    ensures n >= 10 ==> NatToString(n)[0] != '0'
  {
    if n >= 10 {
      NatToStringDigits(n / 10);
    }
  }

  /** Reads a string of decimal digits back into its value (leading zeros allowed). */
  function ParseNat(s: string): (n: nat)
    requires forall i :: 0 <= i < |s| ==> IsDigit(s[i])
  {
    if s == [] then 0 else ParseNat(s[..|s| - 1]) * 10 + DigitValue(s[|s| - 1])
  }

  lemma {:induction false} ParseNatToString(n: nat)
    ensures forall i :: 0 <= i < |NatToString(n)| ==> IsDigit(NatToString(n)[i])
    ensures ParseNat(NatToString(n)) == n
  {
    NatToStringDigits(n);
    if n >= 10 {
      var s := NatToString(n);
      assert s[..|s| - 1] == NatToString(n / 10);
      ParseNatToString(n / 10);
    }
  }

  /** Distinct numbers render to distinct strings. */
  lemma NatToStringInjective(m: nat, n: nat)
    requires NatToString(m) == NatToString(n)
    ensures m == n
  {
    ParseNatToString(m);
    ParseNatToString(n);
  }

  /** `f"{n:02d}"`: at least two digits, zero-padded on the left. */
  function Pad2(n: nat): string {
    if n < 10 then "0" + NatToString(n) else NatToString(n)
  }

  /** Two digits below a hundred, reading back as `n`. */
  lemma Pad2Digits(n: nat)
    ensures forall i :: 0 <= i < |Pad2(n)| ==> IsDigit(Pad2(n)[i])
    ensures n < 100 ==> |Pad2(n)| == 2
    ensures ParseNat(Pad2(n)) == n
  {
    ParseNatToString(n);
    NatToStringDigits(n);
    if n >= 10 {
      NatToStringDigits(n / 10);
    }
  }

  /** `sep.join(xs)`. */
  function Join(xs: seq<string>, sep: string): (r: string)
    ensures xs == [] ==> r == ""
    ensures |xs| == 1 ==> r == xs[0]
  {
    if xs == [] then "" else if |xs| == 1 then xs[0] else xs[0] + sep + Join(xs[1..], sep)
  }

  /** Joining one more item adds the separator and that item. */
  lemma {:induction false} JoinSnoc(xs: seq<string>, x: string, sep: string)
    requires xs != []
    ensures Join(xs + [x], sep) == Join(xs, sep) + sep + x
    decreases |xs|
  {
    assert (xs + [x])[0] == xs[0];
    if |xs| > 1 {
      assert (xs + [x])[1..] == xs[1..] + [x];
      JoinSnoc(xs[1..], x, sep);
    } else {
      assert (xs + [x])[1..] == [x];
    }
  }
}

/**
 * The handful of Python `str` operations the services rely on, over `string`
 * (a sequence of Unicode scalar values, so `len` counts code points as Python does).
 */
module Text {

  import opened Wrappers

  // ---------------------------------------------------------------------------
  // str.strip()
  // ---------------------------------------------------------------------------

  /** The characters for which Python's `str.isspace()` holds. */
  predicate IsSpace(c: char) {
    var n := c as int;
    (9 <= n <= 13) || (28 <= n <= 32) || n == 0x85 || n == 0xA0 || n == 0x1680 ||
    (0x2000 <= n <= 0x200A) || n == 0x2028 || n == 0x2029 || n == 0x202F ||
    n == 0x205F || n == 0x3000
  }

  predicate AllSpace(s: string) {
    forall i :: 0 <= i < |s| ==> IsSpace(s[i])
  }

  /** `s.lstrip()`: the suffix of `s` left after dropping its leading whitespace. */
  function LStrip(s: string): (r: string)
    ensures |r| <= |s|
    ensures r == [] || !IsSpace(r[0])
  {
    if |s| > 0 && IsSpace(s[0]) then LStrip(s[1..]) else s
  }

  /** What `lstrip` drops is whitespace, and what it keeps is the rest of `s`. */
  lemma {:induction false} LStripSuffix(s: string)
    ensures var r := LStrip(s); r == s[|s| - |r|..] && AllSpace(s[..|s| - |r|])
    decreases |s|
  {
    if |s| > 0 && IsSpace(s[0]) {
      LStripSuffix(s[1..]);
      var r := LStrip(s);
      var k := |s| - |r|;
      assert s[1..][|s| - 1 - |r|..] == s[k..];
      forall i | 0 <= i < k ensures IsSpace(s[..k][i]) {
        if i > 0 { assert s[..k][i] == s[1..][..k - 1][i - 1]; }
      }
    }
  }

  /** `s.rstrip()`: the prefix of `s` left after dropping its trailing whitespace. */
  function RStrip(s: string): (r: string)
    ensures |r| <= |s|
    ensures r == [] || !IsSpace(r[|r| - 1])
  {
    if |s| > 0 && IsSpace(s[|s| - 1]) then RStrip(s[..|s| - 1]) else s
  }

  /** What `rstrip` drops is whitespace, and what it keeps is the start of `s`. */
  lemma {:induction false} RStripPrefix(s: string)
    ensures var r := RStrip(s); r == s[..|r|] && AllSpace(s[|r|..])
    decreases |s|
  {
    if |s| > 0 && IsSpace(s[|s| - 1]) {
      var t := s[..|s| - 1];
      RStripPrefix(t);
      var r := RStrip(s);
      assert t[..|r|] == s[..|r|];
      forall i | 0 <= i < |s| - |r| ensures IsSpace(s[|r|..][i]) {
        if |r| + i < |t| { assert s[|r|..][i] == t[|r|..][i]; }
      }
    }
  }

  /** `s.strip()`. */
  function Strip(s: string): (r: string)
  {
    RStrip(LStrip(s))
  }

  /** A string neither starting nor ending with whitespace. */
  predicate Trimmed(s: string) {
    s == [] || (!IsSpace(s[0]) && !IsSpace(s[|s| - 1]))
  }

  /** `s.strip()` is `s[i:j]` for the bounds that cut off exactly the whitespace at both ends. */
  lemma StripBounds(s: string) returns (i: nat, j: nat)
    ensures i <= j <= |s| && Strip(s) == s[i..j]
    ensures AllSpace(s[..i]) && AllSpace(s[j..])
    ensures Trimmed(Strip(s))
  {
    var l := LStrip(s);
    var r := RStrip(l);
    LStripSuffix(s);
    RStripPrefix(l);
    i := |s| - |l|;
    j := i + |r|;
    forall k | 0 <= k < |r|
      ensures s[i..j][k] == r[k]
    {
      assert r[k] == l[k] == s[i + k];
    }
    assert s[i..j] == r;
    forall k | 0 <= k < |s| - j
      ensures IsSpace(s[j..][k])
    {
      assert s[j + k] == l[|r| + k] == l[|r|..][k];
    }
    StripTrimmed(s);
  }

  /** Only the window of `StripBounds`, for proofs that need nothing more. */
  lemma StripWindow(s: string) returns (i: nat, j: nat)
    ensures i <= j <= |s| && Strip(s) == s[i..j]
  {
    var l := LStrip(s);
    LStripSuffix(s);
    RStripPrefix(l);
    i := |s| - |l|;
    j := i + |RStrip(l)|;
    assert s[i..j] == l[..|RStrip(l)|];
  }

  /** `lstrip` removes exactly a whitespace prefix in front of a non-space character. */
  lemma {:induction false} LStripSpaces(w: string, y: string)
    requires AllSpace(w) && (y == [] || !IsSpace(y[0]))
    ensures LStrip(w + y) == y
    decreases |w|
  {
    if w == [] {
      assert w + y == y;
    } else {
      assert (w + y)[1..] == w[1..] + y;
      LStripSpaces(w[1..], y);
    }
  }

  /** `rstrip` removes exactly a whitespace suffix behind a non-space character. */
  lemma {:induction false} RStripSpaces(y: string, w: string)
    requires AllSpace(w) && (y == [] || !IsSpace(y[|y| - 1]))
    ensures RStrip(y + w) == y
    decreases |w|
  {
    if w == [] {
      assert y + w == y;
    } else {
      var s := y + w;
      assert s[..|s| - 1] == y + w[..|w| - 1];
      RStripSpaces(y, w[..|w| - 1]);
    }
  }

  lemma StripTrimmed(s: string)
    ensures Trimmed(Strip(s))
  {
    var l := LStrip(s);
    var r := RStrip(l);
    RStripPrefix(l);
    if r != [] {
      assert r[0] == l[0];
    }
  }

  /** Stripping a string that has no whitespace at either end leaves it alone. */
  lemma StripNoop(s: string)
    requires Trimmed(s)
    ensures Strip(s) == s
  {
    assert LStrip(s) == s;
  }

  /** `strip` is idempotent. */
  lemma StripIdempotent(s: string)
    ensures Strip(Strip(s)) == Strip(s)
  {
    StripTrimmed(s);
    StripNoop(Strip(s));
  }

  /** `s.strip()` is empty exactly when `s` is all whitespace. */
  lemma StripEmptyIff(s: string)
    ensures Strip(s) == [] <==> AllSpace(s)
  {
    var i, j := StripBounds(s);
    if Strip(s) == [] {
      assert i == j;
      forall k | 0 <= k < |s| ensures IsSpace(s[k]) {
        if k < i { assert s[..i][k] == s[k]; } else { assert s[j..][k - j] == s[k]; }
      }
    }
  }

  // ---------------------------------------------------------------------------
  // str.lower(), str.startswith / endswith, `in`
  // ---------------------------------------------------------------------------

  /** Lower-casing of one character, for the ASCII letters. */
  function LowerChar(c: char): (r: char)
  {
    if 'A' <= c <= 'Z' then (c as int + 32) as char else c
  }

  /** `s.lower()`, restricted to ASCII case mapping. */
  function Lower(s: string): (r: string)
    ensures |r| == |s|
    ensures forall i :: 0 <= i < |s| ==> r[i] == LowerChar(s[i])
  {
    if s == [] then [] else [LowerChar(s[0])] + Lower(s[1..])
  }

  /** A string without ASCII capitals, which `Lower` leaves alone. */
  predicate NoUpper(w: string) {
    forall k :: 0 <= k < |w| ==> !('A' <= w[k] <= 'Z')
  }

  /** A lower-case word occurring at `i` in `s` still occurs in `s.lower()`. */
  lemma LowerKeepsWord(s: string, w: string, i: nat, j: nat)
    requires i <= j <= |s| && s[i..j] == w && NoUpper(w)
    ensures Contains(Lower(s), w)
  {
    var l := Lower(s);
    forall k | 0 <= k < |w|
      ensures l[i + k] == w[k]
    {
      assert s[i + k] == w[k];
    }
    assert l[i..i + |w|] == w;
    ContainsAt(l, w, i);
  }

  /** A string that strips to a lower-case word contains that word once lower-cased. */
  lemma StrippedWord(s: string, w: string)
    requires NoUpper(w) && Strip(s) == w
    ensures Contains(Lower(s), w)
  {
    var i, j := StripWindow(s);
    LowerKeepsWord(s, w, i, j);
  }

  predicate StartsWith(s: string, p: string) {
    |p| <= |s| && s[..|p|] == p
  }

  predicate EndsWith(s: string, p: string) {
    |p| <= |s| && s[|s| - |p|..] == p
  }

  /** Python's `w in s` for strings: `w` occurs in `s` as a contiguous substring. */
  predicate Contains(s: string, w: string)
    decreases |s|
  {
    StartsWith(s, w) || (|s| > 0 && Contains(s[1..], w))
  }

  /** `s[i:j]` is a contiguous substring of `s`. */
  predicate IsInfix(r: string, s: string) {
    exists i, j :: 0 <= i <= j <= |s| && s[i..j] == r
  }

  /** A slice of a slice is a slice. */
  lemma SliceOfSlice(s: string, lo: nat, hi: nat, i: nat, j: nat)
    requires lo <= hi <= |s| && i <= j <= hi - lo
    ensures s[lo..hi][i..j] == s[lo + i..lo + j]
  {
    forall k | 0 <= k < j - i
      ensures s[lo..hi][i..j][k] == s[lo + i..lo + j][k]
    {
      assert s[lo..hi][i..j][k] == s[lo..hi][i + k] == s[lo + i + k];
    }
  }

  /** Dropping an optional prefix `a`, then an optional prefix `b`, then an optional suffix `b` leaves a slice. */
  lemma DropAffixesSlice(s: string, a: string, b: string) returns (lo: nat, hi: nat)
    ensures lo <= hi <= |s|
    ensures var s2 := if StartsWith(s, a) then s[|a|..] else s;
      var s3 := if StartsWith(s2, b) then s2[|b|..] else s2;
      (if EndsWith(s3, b) then s3[..|s3| - |b|] else s3) == s[lo..hi]
  {
    lo, hi := 0, |s|;
    var s2 := s;
    assert s == s[0..|s|];
    if StartsWith(s, a) {
      s2 := s[|a|..];
      lo := |a|;
    }
    var s3 := s2;
    if StartsWith(s2, b) {
      SliceOfSlice(s, lo, hi, |b|, hi - lo);
      s3 := s2[|b|..];
      lo := lo + |b|;
    }
    if EndsWith(s3, b) {
      SliceOfSlice(s, lo, hi, 0, hi - lo - |b|);
      hi := hi - |b|;
    }
  }

  /** `Contains` agrees with the infix definition. */
  lemma {:induction false} ContainsAt(s: string, w: string, i: nat)
    requires i + |w| <= |s| && s[i..i + |w|] == w
    ensures Contains(s, w)
    decreases i
  {
    if i > 0 {
      assert s[1..][i - 1..i - 1 + |w|] == w;
      ContainsAt(s[1..], w, i - 1);
    }
  }

  /** A string occurs in any text built around it. */
  lemma ContainsMiddle(x: string, w: string, y: string)
    ensures Contains(x + w + y, w)
  {
    assert (x + w + y)[|x|..|x| + |w|] == w;
    ContainsAt(x + w + y, w, |x|);
  }

  /** A piece of a piece of `s` is a piece of `s`. */
  lemma InfixTransitive(a: string, b: string, c: string)
    requires IsInfix(a, b) && IsInfix(b, c)
    ensures IsInfix(a, c)
  {
    var i, j :| 0 <= i <= j <= |b| && b[i..j] == a;
    var k, l :| 0 <= k <= l <= |c| && c[k..l] == b;
    forall m | 0 <= m < j - i ensures c[k + i + m] == a[m] {
      assert a[m] == b[i + m] == c[k..l][i + m];
    }
    assert c[k + i..k + j] == a;
  }

  lemma StripIsInfix(s: string)
    ensures IsInfix(Strip(s), s)
  {
    var i, j := StripWindow(s);
  }

  /** Any `any(word in s for word in words)` test, in list order. */
  predicate MentionsAny(s: string, words: seq<string>)
    decreases |words|
  {
    |words| > 0 && (Contains(s, words[0]) || MentionsAny(s, words[1..]))
  }

  lemma {:induction false} MentionsAnyIff(s: string, words: seq<string>)
    ensures MentionsAny(s, words) <==> exists k :: 0 <= k < |words| && Contains(s, words[k])
    decreases |words|
  {
    if |words| > 0 {
      MentionsAnyIff(s, words[1..]);
      if !Contains(s, words[0]) && exists k :: 0 <= k < |words| && Contains(s, words[k]) {
        var k :| 0 <= k < |words| && Contains(s, words[k]);
        assert words[1..][k - 1] == words[k];
      }
    }
  }

  // ---------------------------------------------------------------------------
  // str.replace(pattern, "")
  // ---------------------------------------------------------------------------

  /** `s.replace(pat, "")`: a left-to-right scan removing non-overlapping occurrences. */
  function RemoveAll(s: string, pat: string): (r: string)
    requires |pat| > 0
    ensures |r| <= |s|
    decreases |s|
  {
    if |s| == 0 then []
    else if StartsWith(s, pat) then RemoveAll(s[|pat|..], pat)
    else [s[0]] + RemoveAll(s[1..], pat)
  }

  /** Removing a pattern that does not occur changes nothing. */
  lemma {:induction false} RemoveAllAbsent(s: string, pat: string)
    requires |pat| > 0 && !Contains(s, pat)
    ensures RemoveAll(s, pat) == s
    decreases |s|
  {
    if |s| > 0 {
      RemoveAllAbsent(s[1..], pat);
      assert [s[0]] + s[1..] == s;
    }
  }

  // ---------------------------------------------------------------------------
  // re.findall(r'\d+', s)[0] and int()
  // ---------------------------------------------------------------------------

  /** An ASCII decimal digit. */
  predicate IsDigit(c: char) {
    '0' <= c <= '9'
  }

  predicate AllDigits(s: string) {
    forall i :: 0 <= i < |s| ==> IsDigit(s[i])
  }

  predicate NoDigits(s: string) {
    forall i :: 0 <= i < |s| ==> !IsDigit(s[i])
  }

  /** The longest all-digit prefix of `s`. */
  function TakeDigits(s: string): (r: string)
    ensures |r| <= |s| && r == s[..|r|]
    ensures AllDigits(r)
    ensures |r| < |s| ==> !IsDigit(s[|r|])
  {
    if |s| > 0 && IsDigit(s[0]) then [s[0]] + TakeDigits(s[1..]) else []
  }

  /** The first maximal run of digits in `s`, as `re.findall(r'\d+', s)[0]` finds it; `None` when there is none. */
  function FirstDigitRun(s: string): (r: Option<string>)
    ensures r.None? <==> NoDigits(s)
    ensures r.Some? ==> |r.value| > 0 && AllDigits(r.value)
    decreases |s|
  {
    if |s| == 0 then None
    else if IsDigit(s[0]) then Some(TakeDigits(s))
    else FirstDigitRun(s[1..])
  }

  /** The run found is the one that follows a digit-free prefix and is not followed by a digit. */
  lemma {:induction false} FirstDigitRunOf(p: string, d: string, t: string)
    requires NoDigits(p) && |d| > 0 && AllDigits(d)
    requires t == [] || !IsDigit(t[0])
    ensures FirstDigitRun(p + d + t) == Some(d)
    decreases |p|
  {
    var s := p + d + t;
    if |p| > 0 {
      assert s[1..] == p[1..] + d + t;
      FirstDigitRunOf(p[1..], d, t);
    } else {
      assert s == d + t;
      TakeDigitsOf(d, t);
    }
  }

  lemma {:induction false} TakeDigitsOf(d: string, t: string)
    requires AllDigits(d)
    requires t == [] || !IsDigit(t[0])
    ensures TakeDigits(d + t) == d
    decreases |d|
  {
    if |d| > 0 {
      assert (d + t)[1..] == d[1..] + t;
      TakeDigitsOf(d[1..], t);
    } else {
      assert d + t == t;
    }
  }

  function DigitValue(c: char): nat
    requires IsDigit(c)
  {
    c as int - '0' as int
  }

  /** `int(ds)` for a non-empty string of ASCII digits (leading zeros allowed). */
  function DigitsValue(ds: string): nat
    requires AllDigits(ds)
  {
    if ds == [] then 0 else 10 * DigitsValue(ds[..|ds| - 1]) + DigitValue(ds[|ds| - 1])
  }

  /** `str(n)` for a natural number. */
  function NatToString(n: nat): (r: string)
    ensures |r| > 0 && AllDigits(r)
  {
    if n < 10 then [('0' as int + n) as char] else NatToString(n / 10) + [('0' as int + n % 10) as char]
  }

  /** `int(str(n)) == n`. */
  lemma {:induction false} DigitsRoundTrip(n: nat)
    ensures DigitsValue(NatToString(n)) == n
  {
    var s := NatToString(n);
    if n >= 10 {
      DigitsRoundTrip(n / 10);
      assert s[..|s| - 1] == NatToString(n / 10);
    }
  }

  // ---------------------------------------------------------------------------
  // path.split('/')[-1]
  // ---------------------------------------------------------------------------

  /** `s.split(sep)[-1]`: the longest suffix of `s` free of `sep`. */
  function AfterLast(s: string, sep: char): (r: string)
    ensures sep !in r
    ensures |r| <= |s| && r == s[|s| - |r|..]
    ensures |r| < |s| ==> s[|s| - |r| - 1] == sep
    decreases |s|
  {
    if |s| == 0 || s[|s| - 1] == sep then [] else AfterLast(s[..|s| - 1], sep) + [s[|s| - 1]]
  }

  /** A string without the separator is its own last segment. */
  lemma {:induction false} AfterLastFree(s: string, sep: char)
    requires sep !in s
    ensures AfterLast(s, sep) == s
    decreases |s|
  {
    if |s| > 0 {
      AfterLastFree(s[..|s| - 1], sep);
    }
  }

  /** The last segment is what follows the final separator. */
  lemma {:induction false} AfterLastAfterSep(pre: string, sep: char, name: string)
    requires sep !in name
    ensures AfterLast(pre + [sep] + name, sep) == name
    decreases |name|
  {
    var s := pre + [sep] + name;
    if |name| > 0 {
      assert s[..|s| - 1] == pre + [sep] + name[..|name| - 1];
      AfterLastAfterSep(pre, sep, name[..|name| - 1]);
    }
  }
}

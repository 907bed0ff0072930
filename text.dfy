/**
 * String helpers with Python's meaning: whitespace as `str.isspace` and the
 * `\s` class of a `str` regular expression see it, `str.strip()`,
 * `str.replace`, `os.path.join` and decimal rendering of integers.
 */
module Text {

  /** The characters for which Python's `str.isspace()` holds; `\s` in a `str` pattern
      matches the same set. */
  const SpaceChars: set<char> := {
    '\t', '\n', '\U{0B}', '\U{0C}', '\r', '\U{1C}', '\U{1D}', '\U{1E}', '\U{1F}', ' ',
    '\U{85}', '\U{A0}', '\U{1680}',
    '\U{2000}', '\U{2001}', '\U{2002}', '\U{2003}', '\U{2004}', '\U{2005}', '\U{2006}',
    '\U{2007}', '\U{2008}', '\U{2009}', '\U{200A}',
    '\U{2028}', '\U{2029}', '\U{202F}', '\U{205F}', '\U{3000}'
  }

  predicate IsSpace(c: char) {
    c in SpaceChars
  }

  predicate IsDigit(c: char) {
    '0' <= c <= '9'
  }

  predicate AllSpace(s: string) {
    forall i :: 0 <= i < |s| ==> IsSpace(s[i])
  }

  predicate AllDigits(s: string) {
    forall i :: 0 <= i < |s| ==> IsDigit(s[i])
  }

  /** `p` occurs in `s` at position `i`. */
  predicate StartsAt(s: string, i: nat, p: string) {
    i + |p| <= |s| && s[i..i + |p|] == p
  }

  /** Python's `p in s` for strings. */
  predicate Occurs(p: string, s: string) {
    exists i :: 0 <= i <= |s| && StartsAt(s, i, p)
  }

  /** A pattern without newlines cannot start before position `i` of `s` when the text
      before `i` ends with a newline (or is empty) and does not contain it. */
  lemma {:induction false} NoOccurrenceBefore(p: string, s: string, i: nat)
    requires i <= |s|
    requires forall k :: 0 <= k < |p| ==> p[k] != '\n'
    requires i == 0 || s[i - 1] == '\n'
    requires !Occurs(p, s[..i])
    ensures forall m :: 0 <= m < i ==> !StartsAt(s, m, p)
  {
    forall m | 0 <= m < i
      ensures !StartsAt(s, m, p)
    {
      if m + |p| <= i {
        assert s[m..m + |p|] == s[..i][m..m + |p|];
        assert !StartsAt(s[..i], m, p);
      } else if m + |p| <= |s| {
        assert s[m..m + |p|][i - 1 - m] == '\n' != p[i - 1 - m];
      }
    }
  }

  // ---------------------------------------------------------------------------
  // str.strip()

  function TrimLeft(s: string): (r: string)
    ensures |r| <= |s| && r == s[|s| - |r|..]
    ensures AllSpace(s[..|s| - |r|])
    ensures r == [] || !IsSpace(r[0])
  {
    if s != [] && IsSpace(s[0]) then
      var r := TrimLeft(s[1..]);
      assert s[..|s| - |r|] == [s[0]] + s[1..][..|s| - 1 - |r|];
      r
    else s
  }

  function TrimRight(s: string): (r: string)
    ensures |r| <= |s| && r == s[..|r|]
    ensures AllSpace(s[|r|..])
    ensures r == [] || !IsSpace(r[|r| - 1])
  {
    if s != [] && IsSpace(s[|s| - 1]) then
      var r := TrimRight(s[..|s| - 1]);
      assert s[|r|..] == s[..|s| - 1][|r|..] + [s[|s| - 1]];
      r
    else s
  }

  /** Python's `s.strip()`: the text between the leading and the trailing whitespace. */
  function Strip(s: string): (r: string)
    ensures r == [] || (!IsSpace(r[0]) && !IsSpace(r[|r| - 1]))
    ensures var k := |s| - |TrimLeft(s)|;
      k + |r| <= |s| && s[k..k + |r|] == r && AllSpace(s[..k]) && AllSpace(s[k + |r|..])
  {
    var t := TrimLeft(s);
    var r := TrimRight(t);
    StripFrame(s, t, r);
    r
  }

  lemma StripFrame(s: string, t: string, r: string)
    requires |t| <= |s| && t == s[|s| - |t|..]
    requires |r| <= |t| && r == t[..|r|]
    ensures var k := |s| - |t|; k + |r| <= |s| && s[k..k + |r|] == r && s[k + |r|..] == t[|r|..]
  {
  }

  lemma {:induction false} TrimLeftPadding(a: string, rest: string)
    requires AllSpace(a)
    requires rest == [] || !IsSpace(rest[0])
    ensures TrimLeft(a + rest) == rest
  {
    if a != [] {
      assert (a + rest)[1..] == a[1..] + rest;
      TrimLeftPadding(a[1..], rest);
    }
  }

  lemma {:induction false} TrimRightPadding(rest: string, b: string)
    requires AllSpace(b)
    requires rest == [] || !IsSpace(rest[|rest| - 1])
    ensures TrimRight(rest + b) == rest
  {
    if b != [] {
      assert (rest + b)[..|rest + b| - 1] == rest + b[..|b| - 1];
      TrimRightPadding(rest, b[..|b| - 1]);
    }
  }

  /** Stripping recovers exactly the text framed by whitespace: `s.strip() == t`
      whenever `s` is `t` padded on both sides with whitespace and `t` has none at its ends. */
  lemma {:induction false} StripPadded(a: string, t: string, b: string)
    requires AllSpace(a) && AllSpace(b)
    requires t == [] || (!IsSpace(t[0]) && !IsSpace(t[|t| - 1]))
    ensures Strip(a + t + b) == t
  {
    if t == [] {
      assert a + t + b == (a + b) + [];
      TrimLeftPadding(a + b, []);
    } else {
      assert a + t + b == a + (t + b);
      TrimLeftPadding(a, t + b);
      TrimRightPadding(t, b);
    }
  }

  // ---------------------------------------------------------------------------
  // str.replace(pat, rep)

  /** Python's `s.replace(pat, rep)`: every non-overlapping occurrence, scanned left to right. */
  function ReplaceAll(s: string, pat: string, rep: string): (r: string)
    requires pat != []
    decreases |s|
  {
    if |s| < |pat| then s
    else if s[..|pat|] == pat then rep + ReplaceAll(s[|pat|..], pat, rep)
    else [s[0]] + ReplaceAll(s[1..], pat, rep)
  }

  /** Replacing leaves a string without occurrences untouched. */
  lemma {:induction false} ReplaceAllNoOccurrence(s: string, pat: string, rep: string)
    requires pat != []
    requires !Occurs(pat, s)
    ensures ReplaceAll(s, pat, rep) == s
    decreases |s|
  {
    if |s| >= |pat| {
      assert !StartsAt(s, 0, pat);
      if !Occurs(pat, s[1..]) {
        ReplaceAllNoOccurrence(s[1..], pat, rep);
        assert [s[0]] + s[1..] == s;
      } else {
        var i :| 0 <= i <= |s[1..]| && StartsAt(s[1..], i, pat);
        assert s[i + 1..i + 1 + |pat|] == s[1..][i..i + |pat|];
        assert StartsAt(s, i + 1, pat);
      }
    }
  }

  /** An occurrence at the very start is replaced, and the scan goes on after it. */
  lemma ReplaceAllLeading(pat: string, s: string, rep: string)
    requires pat != []
    ensures ReplaceAll(pat + s, pat, rep) == rep + ReplaceAll(s, pat, rep)
  {
    assert (pat + s)[..|pat|] == pat;
    assert (pat + s)[|pat|..] == s;
  }

  /** Text in which no occurrence starts is copied unchanged, and the scan goes on
      after it. */
  lemma {:induction false} ReplaceAllSkip(x: string, rest: string, pat: string, rep: string)
    requires pat != []
    requires forall m :: 0 <= m < |x| ==> !StartsAt(x + rest, m, pat)
    ensures ReplaceAll(x + rest, pat, rep) == x + ReplaceAll(rest, pat, rep)
    decreases |x|
  {
    var s := x + rest;
    if x == [] {
      assert s == rest;
    } else if |s| < |pat| {
      assert ReplaceAll(rest, pat, rep) == rest;
    } else {
      assert !StartsAt(s, 0, pat);
      assert s[1..] == x[1..] + rest;
      forall m | 0 <= m < |x| - 1
        ensures !StartsAt(x[1..] + rest, m, pat)
      {
        assert !StartsAt(s, m + 1, pat);
        if m + |pat| <= |s| - 1 {
          assert s[m + 1..m + 1 + |pat|] == (x[1..] + rest)[m..m + |pat|];
        }
      }
      ReplaceAllSkip(x[1..], rest, pat, rep);
      assert [s[0]] + (x[1..] + ReplaceAll(rest, pat, rep)) == x + ReplaceAll(rest, pat, rep);
    }
  }

  // ---------------------------------------------------------------------------
  // os.path.join(a, b) on POSIX

  /** Python's `posixpath.join(a, b)`: an absolute `b` replaces `a`; otherwise a `/` is
      inserted unless `a` is empty or already ends in one. */
  function Join(a: string, b: string): (r: string)
  {
    if |b| > 0 && b[0] == '/' then b
    else if a == [] || a[|a| - 1] == '/' then a + b
    else a + "/" + b
  }

  /** An absolute `b` replaces `a`; otherwise the result starts with `a`, and a single `/`
      separates the two exactly when `a` is non-empty and does not already end in one; it
      always ends with `b`. */
  lemma JoinSpec(a: string, b: string)
    ensures var r := Join(a, b);
      (b != [] && b[0] == '/' ==> r == b)
      && ((b == [] || b[0] != '/') ==> |a| <= |r| && r[..|a|] == a)
      && |b| <= |r| && r[|r| - |b|..] == b
      && ((b == [] || b[0] != '/') && a != [] && a[|a| - 1] != '/' ==> r == a + "/" + b)
      && ((b == [] || b[0] != '/') && (a == [] || a[|a| - 1] == '/') ==> r == a + b)
  {
  }

  // ---------------------------------------------------------------------------
  // Decimal numbers: int(digits) and str(n)

  /** Python's `int(s)` for a run of ASCII digits. */
  function DigitsValue(s: string): (n: nat)
    requires AllDigits(s)
  {
    if s == [] then 0
    else DigitsValue(s[..|s| - 1]) * 10 + (s[|s| - 1] as int - '0' as int)
  }

  function DigitChar(d: nat): (c: char)
    requires d < 10
    ensures IsDigit(c) && c as int - '0' as int == d
  {
    ('0' as int + d) as char
  }

  /** Python's `str(n)` for a natural number. */
  function NatText(n: nat): (s: string)
    ensures s != [] && AllDigits(s)
    ensures |s| > 1 ==> s[0] != '0'
  {
    if n < 10 then [DigitChar(n)] else NatText(n / 10) + [DigitChar(n % 10)]
  }

  /** Python's `str(i)` for an integer. */
  function IntText(i: int): (s: string)
    ensures s != []
  {
    if i < 0 then "-" + NatText(-i) else NatText(i)
  }
}

/**
 * Reading the descriptor file `info-instancia.txt` of an instance. Each field is
 * found by a regular-expression search over the whole text, independently of the
 * others: `Puerto:\s*(\d+)`, `Dominio:\s*https?://([^\s]+)`,
 * `Base de datos:\s*([^\s]+)` and `Servicio systemd:\s*([^\s]+)`. The search is not
 * line-oriented: the whitespace after a label may include newlines, and a label
 * whose value does not match is skipped in favour of a later one that does.
 */
module Descriptor {
  import opened Wrappers
  import opened Text

  /** The captured group: `\d+` or `[^\s]+`. */
  datatype TokenKind = Digits | NonSpace

  predicate TokenChar(kind: TokenKind, c: char) {
    match kind
    case Digits => IsDigit(c)
    case NonSpace => !IsSpace(c)
  }

  /** `<key>\s*` then, when `url`, `https?://`, then one or more token characters. */
  datatype Pattern = Pattern(key: string, url: bool, token: TokenKind)

  const PortPattern := Pattern("Puerto:", false, Digits)
  const DomainPattern := Pattern("Dominio:", true, NonSpace)
  const DatabasePattern := Pattern("Base de datos:", false, NonSpace)
  const ServicePattern := Pattern("Servicio systemd:", false, NonSpace)

  /** End of the whitespace run starting at `i` (what greedy `\s*` consumes). */
  function SkipSpace(t: string, i: nat): (j: nat)
    requires i <= |t|
    ensures i <= j <= |t|
    decreases |t| - i
  {
    if i < |t| && IsSpace(t[i]) then SkipSpace(t, i + 1) else i
  }

  /** End of the run of token characters starting at `i` (what greedy `\d+` or `[^\s]+` consumes). */
  function RunEnd(t: string, i: nat, kind: TokenKind): (j: nat)
    requires i <= |t|
    ensures i <= j <= |t|
    decreases |t| - i
  {
    if i < |t| && TokenChar(kind, t[i]) then RunEnd(t, i + 1, kind) else i
  }

  /** Where the host starts when `https?://` begins at `j`, if it does. */
  function SchemeEnd(t: string, j: nat): (r: Option<nat>)
    requires j <= |t|
    ensures r.Some? ==> j < r.value <= |t|
  {
    if "https://" <= t[j..] then Some(j + 8)
    else if "http://" <= t[j..] then Some(j + 7)
    else None
  }

  /** The group captured by the pattern anchored at the start of `t`, or None when the
      pattern does not match there. Whitespace, the scheme and the token characters
      follow one another without overlap, so greedy matching never backtracks. */
  function MatchPrefix(t: string, p: Pattern): (r: Option<string>)
    ensures r.Some? ==> p.key <= t && r.value != []
  {
    if !(p.key <= t) then None
    else
      var j := SkipSpace(t, |p.key|);
      var start := if p.url then SchemeEnd(t, j) else Some(j);
      if start.None? then None
      else
        var e := RunEnd(t, start.value, p.token);
        if e == start.value then None else Some(t[start.value..e])
  }

  /** The group the pattern captures when matched at position `i` of `s`. */
  function MatchAt(s: string, i: nat, p: Pattern): (r: Option<string>)
    requires i <= |s|
  {
    MatchPrefix(s[i..], p)
  }

  /** `re.search` from position `from`: the leftmost position at which the pattern matches. */
  function FirstMatch(s: string, from: nat, p: Pattern): (r: Option<nat>)
    requires from <= |s|
    ensures r.Some? ==> from <= r.value <= |s|
    decreases |s| - from
  {
    if MatchAt(s, from, p).Some? then Some(from)
    else if from == |s| then None
    else FirstMatch(s, from + 1, p)
  }

  /** The value the pattern captures at its leftmost match in `s`, or None when it matches
      nowhere. */
  function Extract(s: string, p: Pattern): (r: Option<string>)
    ensures r.Some? ==> r.value != [] && forall k :: 0 <= k < |r.value| ==> TokenChar(p.token, r.value[k])
  {
    match FirstMatch(s, 0, p)
    case None => None
    case Some(i) => MatchPrefixToken(s[i..], p); MatchAt(s, i, p)
  }

  /** The optional fields of an instance record that come from its descriptor. */
  datatype Fields = Fields(port: Option<nat>, domain: Option<string>,
                           database: Option<string>, service: Option<string>)

  const NoFields := Fields(None, None, None, None)

  /** The four independent searches over the descriptor text; the port is the decimal
      value of its digit run. */
  function Parse(content: string): (fields: Fields)
  {
    var port := Extract(content, PortPattern);
    Fields(if port.Some? then Some(DigitsValue(port.value)) else None,
           Extract(content, DomainPattern),
           Extract(content, DatabasePattern),
           Extract(content, ServicePattern))
  }

  // ---------------------------------------------------------------------------
  // Properties

  /** `\s*` consumes exactly the whitespace that follows `i`. */
  lemma {:induction false} SkipSpaceSpec(t: string, i: nat)
    requires i <= |t|
    ensures var j := SkipSpace(t, i);
      (forall k :: i <= k < j ==> IsSpace(t[k])) && (j == |t| || !IsSpace(t[j]))
    decreases |t| - i
  {
    if i < |t| && IsSpace(t[i]) {
      SkipSpaceSpec(t, i + 1);
    }
  }

  /** The token run is maximal: every character in it is a token character and the one
      after it is not. */
  lemma {:induction false} RunEndSpec(t: string, i: nat, kind: TokenKind)
    requires i <= |t|
    ensures var j := RunEnd(t, i, kind);
      (forall k :: i <= k < j ==> TokenChar(kind, t[k])) && (j == |t| || !TokenChar(kind, t[j]))
    decreases |t| - i
  {
    if i < |t| && TokenChar(kind, t[i]) {
      RunEndSpec(t, i + 1, kind);
    }
  }

  /** The search returns the leftmost position at which the pattern matches, and None
      only when it matches nowhere from `from` on. */
  lemma {:induction false} FirstMatchSpec(s: string, from: nat, p: Pattern)
    requires from <= |s|
    ensures var r := FirstMatch(s, from, p);
      (r.Some? ==> MatchAt(s, r.value, p).Some? && forall j :: from <= j < r.value ==> MatchAt(s, j, p).None?)
      && (r.None? ==> forall j :: from <= j <= |s| ==> MatchAt(s, j, p).None?)
    decreases |s| - from
  {
    if MatchAt(s, from, p).None? && from < |s| {
      FirstMatchSpec(s, from + 1, p);
    }
  }

  /** A field is absent exactly when no occurrence of its label is followed by a
      well-formed value; the port is present exactly when some `Puerto:` is followed by
      digits. */
  lemma ParseAbsence(content: string)
    ensures Parse(content).port.None? <==> forall j :: 0 <= j <= |content| ==> MatchAt(content, j, PortPattern).None?
    ensures Parse(content).domain.None? <==> forall j :: 0 <= j <= |content| ==> MatchAt(content, j, DomainPattern).None?
    ensures Parse(content).database.None? <==> forall j :: 0 <= j <= |content| ==> MatchAt(content, j, DatabasePattern).None?
    ensures Parse(content).service.None? <==> forall j :: 0 <= j <= |content| ==> MatchAt(content, j, ServicePattern).None?
  {
    FirstMatchSpec(content, 0, PortPattern);
    FirstMatchSpec(content, 0, DomainPattern);
    FirstMatchSpec(content, 0, DatabasePattern);
    FirstMatchSpec(content, 0, ServicePattern);
  }

  /** A value found by the search is what the pattern captures at an occurrence of the
      label. */
  lemma ExtractFound(s: string, p: Pattern)
    requires Extract(s, p).Some?
    ensures exists i :: 0 <= i <= |s| && StartsAt(s, i, p.key) && MatchAt(s, i, p) == Extract(s, p)
  {
    var i := FirstMatch(s, 0, p).value;
    assert p.key <= s[i..];
    assert s[i..i + |p.key|] == s[i..][..|p.key|];
  }

  /** What the anchored pattern captures is a nonempty run of token characters. */
  lemma MatchPrefixToken(t: string, p: Pattern)
    ensures var r := MatchPrefix(t, p);
      r.Some? ==> r.value != [] && forall k :: 0 <= k < |r.value| ==> TokenChar(p.token, r.value[k])
  {
    if p.key <= t {
      var j := SkipSpace(t, |p.key|);
      var start := if p.url then SchemeEnd(t, j) else Some(j);
      if start.Some? {
        RunEndSpec(t, start.value, p.token);
        var e := RunEnd(t, start.value, p.token);
        forall k | 0 <= k < e - start.value
          ensures TokenChar(p.token, t[start.value..e][k])
        {
          assert t[start.value..e][k] == t[start.value + k];
        }
      }
    }
  }

  /** A label occurrence at `i` is where the pattern can match, and nowhere else. */
  lemma MatchNeedsKey(s: string, i: nat, p: Pattern)
    requires i <= |s| && !StartsAt(s, i, p.key)
    ensures MatchAt(s, i, p).None?
  {
  }

  /** Text without the label yields no value for that field. */
  lemma {:induction false} NoLabelNoValue(content: string, p: Pattern)
    requires !Occurs(p.key, content)
    ensures Extract(content, p).None?
  {
    FirstMatchSpec(content, 0, p);
    forall j | 0 <= j <= |content|
      ensures MatchAt(content, j, p).None?
    {
      assert !StartsAt(content, j, p.key);
      MatchNeedsKey(content, j, p);
    }
  }

  /** Whether the pattern matches at a position depends only on the text from there on. */
  lemma MatchAtShift(s: string, i: nat, m: nat, p: Pattern)
    requires i <= m <= |s|
    ensures MatchAt(s, m, p) == MatchAt(s[i..], m - i, p)
  {
    assert s[m..] == s[i..][m - i..];
  }

  /** The leftmost match determines the search result. */
  lemma FirstMatchIs(s: string, p: Pattern, r: Option<nat>)
    requires r.Some? ==> r.value <= |s| && MatchAt(s, r.value, p).Some?
    requires r.Some? ==> forall j :: 0 <= j < r.value ==> MatchAt(s, j, p).None?
    requires r.None? ==> forall j :: 0 <= j <= |s| ==> MatchAt(s, j, p).None?
    ensures FirstMatch(s, 0, p) == r
  {
    FirstMatchSpec(s, 0, p);
  }

  /** Lines before a field's line that do not mention its label have no effect on it:
      a field does not depend on the other fields' lines or their order. */
  lemma {:induction false} ExtractIgnoresCleanLines(pre: string, rest: string, p: Pattern)
    requires forall k :: 0 <= k < |p.key| ==> p.key[k] != '\n'
    requires pre == [] || pre[|pre| - 1] == '\n'
    requires !Occurs(p.key, pre)
    ensures Extract(pre + rest, p) == Extract(rest, p)
  {
    var s := pre + rest;
    assert s[..|pre|] == pre;
    NoOccurrenceBefore(p.key, s, |pre|);
    assert s[|pre|..] == rest;
    forall j | 0 <= j <= |rest|
      ensures MatchAt(s, |pre| + j, p) == MatchAt(rest, j, p)
    {
      MatchAtShift(s, |pre|, |pre| + j, p);
    }
    forall m | 0 <= m < |pre|
      ensures MatchAt(s, m, p).None?
    {
      MatchNeedsKey(s, m, p);
    }
    var r := FirstMatch(rest, 0, p);
    FirstMatchSpec(rest, 0, p);
    var r' := if r.Some? then Some(|pre| + r.value) else None;
    forall j | 0 <= j <= |s| && (r.None? || j < |pre| + r.value)
      ensures MatchAt(s, j, p).None?
    {
      if j >= |pre| {
        assert MatchAt(s, |pre| + (j - |pre|), p) == MatchAt(rest, j - |pre|, p);
      }
    }
    FirstMatchIs(s, p, r');
  }

  lemma {:induction false} SkipSpaceStopsAt(t: string, i: nat, j: nat)
    requires i <= j <= |t| && forall k :: i <= k < j ==> IsSpace(t[k])
    requires j == |t| || !IsSpace(t[j])
    ensures SkipSpace(t, i) == j
    decreases j - i
  {
    if i < j {
      SkipSpaceStopsAt(t, i + 1, j);
    }
  }

  lemma {:induction false} RunEndStopsAt(t: string, k: nat, e: nat, kind: TokenKind)
    requires k <= e <= |t|
    requires forall m :: k <= m < e ==> TokenChar(kind, t[m])
    requires e == |t| || !TokenChar(kind, t[e])
    ensures RunEnd(t, k, kind) == e
    decreases e - k
  {
    if k < e {
      RunEndStopsAt(t, k + 1, e, kind);
    }
  }

  /** The anchored pattern captures `t[k..e]` when the key is at the start, whitespace
      runs to `j`, the scheme (if any) runs to `k` and token characters run to `e`. */
  lemma MatchPrefixAt(t: string, p: Pattern, j: nat, k: nat, e: nat)
    requires p.key <= t && |p.key| <= j <= k < e <= |t|
    requires (forall m :: |p.key| <= m < j ==> IsSpace(t[m])) && !IsSpace(t[j])
    requires if p.url then SchemeEnd(t, j) == Some(k) else k == j
    requires forall m :: k <= m < e ==> TokenChar(p.token, t[m])
    requires e == |t| || !TokenChar(p.token, t[e])
    ensures MatchPrefix(t, p) == Some(t[k..e])
  {
    SkipSpaceStopsAt(t, |p.key|, j);
    RunEndStopsAt(t, k, e, p.token);
  }

  lemma SchemeEndOf(t: string, j: nat, scheme: string)
    requires j <= |t| && scheme <= t[j..]
    requires scheme == "https://" || scheme == "http://"
    ensures SchemeEnd(t, j) == Some(j + |scheme|)
  {
    if scheme == "http://" {
      assert t[j..][4] == ':';
    }
  }

  /** Where the parts of `key + sep + scheme + tok + post` lie. */
  lemma {:induction false} Parts(t: string, key: string, sep: string, scheme: string, tok: string, post: string)
    requires t == key + sep + scheme + tok + post
    ensures var j := |key| + |sep|; var k := j + |scheme|; var e := k + |tok|;
      e + |post| == |t| && key <= t
      && (forall m :: |key| <= m < j ==> t[m] == sep[m - |key|])
      && scheme <= t[j..] && t[k..e] == tok
      && (forall m :: k <= m < e ==> t[m] == tok[m - k])
      && (j < |t| ==> t[j] == (scheme + tok + post)[0])
      && (e < |t| ==> t[e] == post[0])
  {
    var j := |key| + |sep|;
    assert t[j..] == scheme + tok + post;
  }

  /** A text that starts with the label gives the value after it. Whitespace between
      label and value may span lines, `https://` and `http://` are both stripped from a
      domain, and the value runs to the next character outside its class (so a domain
      keeps any path after its host). */
  lemma {:induction false} ExtractLabelledValue(sep: string, scheme: string, tok: string,
                                                post: string, p: Pattern)
    requires AllSpace(sep)
    requires if p.url then scheme == "https://" || scheme == "http://" else scheme == ""
    requires tok != [] && forall k :: 0 <= k < |tok| ==> TokenChar(p.token, tok[k])
    requires post == [] || !TokenChar(p.token, post[0])
    ensures Extract(p.key + sep + scheme + tok + post, p) == Some(tok)
  {
    var t := p.key + sep + scheme + tok + post;
    Parts(t, p.key, sep, scheme, tok, post);
    var j := |p.key| + |sep|;
    var k := j + |scheme|;
    var e := k + |tok|;
    assert !IsSpace(t[j]) by {
      if scheme == "" {
        assert t[j] == tok[0];
      } else {
        assert t[j] == scheme[0];
      }
    }
    if p.url {
      SchemeEndOf(t, j, scheme);
    }
    MatchPrefixAt(t, p, j, k, e);
    assert t[0..] == t;
    assert FirstMatch(t, 0, p) == Some(0);
  }

  /** A field's line, after lines that do not mention its label, gives the field's
      value. */
  lemma {:induction false} FieldFromLine(pre: string, sep: string, scheme: string, tok: string,
                                         post: string, p: Pattern)
    requires forall k :: 0 <= k < |p.key| ==> p.key[k] != '\n'
    requires pre == [] || pre[|pre| - 1] == '\n'
    requires !Occurs(p.key, pre)
    requires AllSpace(sep)
    requires if p.url then scheme == "https://" || scheme == "http://" else scheme == ""
    requires tok != [] && forall k :: 0 <= k < |tok| ==> TokenChar(p.token, tok[k])
    requires post == [] || !TokenChar(p.token, post[0])
    ensures Extract(pre + (p.key + sep + scheme + tok + post), p) == Some(tok)
  {
    ExtractIgnoresCleanLines(pre, p.key + sep + scheme + tok + post, p);
    ExtractLabelledValue(sep, scheme, tok, post, p);
  }

  /** The port is the decimal value of the digits the search finds. */
  lemma ParsePortOf(content: string, digits: string)
    requires Extract(content, PortPattern) == Some(digits)
    ensures AllDigits(digits) && Parse(content).port == Some(DigitsValue(digits))
  {
  }

  /** The port line `Puerto: <digits>`, after lines that do not mention the port, gives
      the decimal value of the digits. */
  lemma PortFromLine(pre: string, sep: string, digits: string, post: string)
    requires pre == [] || pre[|pre| - 1] == '\n'
    requires !Occurs("Puerto:", pre)
    requires AllSpace(sep)
    requires digits != [] && AllDigits(digits)
    requires post == [] || !IsDigit(post[0])
    ensures Extract(pre + ("Puerto:" + sep + digits + post), PortPattern) == Some(digits)
  {
    assert "Puerto:" + sep + digits + post == "Puerto:" + sep + "" + digits + post;
    FieldFromLine(pre, sep, "", digits, post, PortPattern);
  }

  /** The domain line `Dominio: https://<host>`, after lines that do not mention the
      domain, gives everything up to the next whitespace without the scheme: the host
      together with any port or path written after it. */
  lemma DomainFromLine(pre: string, sep: string, scheme: string, host: string, post: string)
    requires pre == [] || pre[|pre| - 1] == '\n'
    requires !Occurs("Dominio:", pre)
    requires AllSpace(sep)
    requires scheme == "https://" || scheme == "http://"
    requires host != [] && forall k :: 0 <= k < |host| ==> !IsSpace(host[k])
    requires post == [] || IsSpace(post[0])
    ensures Extract(pre + ("Dominio:" + sep + scheme + host + post), DomainPattern) == Some(host)
  {
    FieldFromLine(pre, sep, scheme, host, post, DomainPattern);
  }
}

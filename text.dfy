/**
 * The string primitives the order gate relies on: str.strip(), str.isdigit(),
 * int() and str() on integers, and the `^https?://` match of looks_like_url.
 */
module Text {
  import opened Wrappers

  // ---------------------------------------------------------------- strip

  /** The characters Python's str.isspace() accepts, which str.strip() removes. */
  predicate IsSpace(c: char) {
    || ('\t' <= c <= '\r')
    || ('\U{1C}' <= c <= '\U{1F}')
    || c == ' ' || c == '\U{85}' || c == '\U{A0}' || c == '\U{1680}'
    || ('\U{2000}' <= c <= '\U{200A}')
    || c == '\U{2028}' || c == '\U{2029}' || c == '\U{202F}' || c == '\U{205F}' || c == '\U{3000}'
  }

  predicate AllSpace(s: string) {
    forall i :: 0 <= i < |s| ==> IsSpace(s[i])
  }

  function TrimStart(s: string): (r: string)
    ensures |r| <= |s| && r == s[|s| - |r|..]
    ensures AllSpace(s[..|s| - |r|])
    ensures r == [] || !IsSpace(r[0])
  {
    if |s| > 0 && IsSpace(s[0]) then
      var r := TrimStart(s[1..]);
      assert s[..|s| - |r|] == [s[0]] + s[1..][..|s| - 1 - |r|];
      r
    else
      s
  }

  function TrimEnd(s: string): (r: string)
    ensures |r| <= |s| && r == s[..|r|]
    ensures AllSpace(s[|r|..])
    ensures r == [] || !IsSpace(r[|r| - 1])
  {
    if |s| > 0 && IsSpace(s[|s| - 1]) then
      var r := TrimEnd(s[..|s| - 1]);
      assert s[|r|..] == s[..|s| - 1][|r|..] + [s[|s| - 1]];
      r
    else
      s
  }

  /** `r` is `s` with a run of whitespace removed from each end. */
  predicate IsTrimOf(s: string, r: string) {
    exists i :: 0 <= i <= |s| && TrimmedAt(s, r, i)
  }

  /** `r` occurs in `s` at position `i`, with only whitespace before and after it. */
  predicate TrimmedAt(s: string, r: string, i: int) {
    0 <= i <= |s| - |r| && s[i..i + |r|] == r && AllSpace(s[..i]) && AllSpace(s[i + |r|..])
  }

  /** Python's str.strip() with no argument. */
  function Strip(s: string): (r: string)
    ensures r == [] || (!IsSpace(r[0]) && !IsSpace(r[|r| - 1]))
  {
    TrimEnd(TrimStart(s))
  }

  /** What strip() removes is whitespace, from the two ends only. */
  lemma StripIsTrim(s: string)
    ensures IsTrimOf(s, Strip(s))
  {
    var t := TrimStart(s);
    var r := TrimEnd(t);
    var i := |s| - |t|;
    assert t == s[i..];
    assert s[i..i + |r|] == t[..|r|] == r;
    assert s[i + |r|..] == t[|r|..];
    assert TrimmedAt(s, r, i);
  }

  /** Stripping twice is stripping once. */
  lemma StripIdempotent(s: string)
    ensures Strip(Strip(s)) == Strip(s)
  {
    var r := Strip(s);
    if r != [] {
      assert TrimStart(r) == r;
      assert TrimEnd(r) == r;
    }
  }

  /** A string of whitespace only strips to the empty string, and only such strings do. */
  lemma StripEmptyIff(s: string)
    ensures Strip(s) == "" <==> AllSpace(s)
  {
    StripIsTrim(s);
    var i :| 0 <= i <= |s| && TrimmedAt(s, Strip(s), i);
    if Strip(s) == "" {
      forall k | 0 <= k < |s| ensures IsSpace(s[k]) {
        if k < i { assert s[..i][k] == s[k]; } else { assert s[i..][k - i] == s[k]; }
      }
    } else {
      assert s[i..i + |Strip(s)|][0] == s[i];
    }
  }

  // --------------------------------------------------------------- digits

  predicate IsDigit(c: char) {
    '0' <= c <= '9'
  }

  predicate AllDigits(s: string) {
    forall i :: 0 <= i < |s| ==> IsDigit(s[i])
  }

  /** Python's str.isdigit() over ASCII: false on the empty string. */
  predicate IsDigits(s: string) {
    |s| > 0 && AllDigits(s)
  }

  /** The value of a run of decimal digits, most significant first. */
  function DigitsValue(s: string): nat
    requires AllDigits(s)
  {
    if s == [] then 0 else 10 * DigitsValue(s[..|s| - 1]) + (s[|s| - 1] as int - '0' as int)
  }

  function DigitChar(d: nat): (c: char)
    requires d < 10
    ensures IsDigit(c) && c as int - '0' as int == d
  {
    ('0' as int + d) as char
  }

  /** Decimal digits without a redundant leading zero: what str() prints for a natural number. */
  predicate IsCanonicalDecimal(s: string) {
    IsDigits(s) && (s[0] == '0' ==> |s| == 1)
  }

  /** Python's str() on a non-negative int. */
  function NatToString(n: nat): (r: string)
    ensures IsCanonicalDecimal(r) && DigitsValue(r) == n
  {
    if n < 10 then
      [DigitChar(n)]
    else
      var p := NatToString(n / 10);
      var r := p + [DigitChar(n % 10)];
      assert r[..|r| - 1] == p;
      r
  }

  /** Python's str() on an int. */
  function IntToString(n: int): (r: string)
    ensures |r| > 0 && r[|r| - 1] != '-'
    ensures n < 0 <==> r[0] == '-'
  {
    if n < 0 then "-" + NatToString(-n) else NatToString(n)
  }

  /**
   * CPython's default `sys.get_int_max_str_digits()`: int() refuses a
   * decimal string with more digits than this, and str() an int that long.
   */
  const MaxStrDigits: nat := 4300

  /**
   * The ASCII information separators U+001C to U+001F. str.isspace() accepts
   * them, but int() does not skip them: it turns every non-ASCII whitespace
   * character into a space and then skips only `\t\n\v\f\r` and space.
   */
  predicate IsSeparator(c: char) {
    '\U{1C}' <= c <= '\U{1F}'
  }

  /** The whitespace int() skips around a number. */
  predicate IsIntSpace(c: char) {
    IsSpace(c) && !IsSeparator(c)
  }

  predicate HasSeparator(s: string) {
    exists i :: 0 <= i < |s| && IsSeparator(s[i])
  }

  /** An optional sign, then a non-empty run of ASCII digits. */
  predicate IsNumeral(t: string) {
    if |t| > 0 && (t[0] == '+' || t[0] == '-') then IsDigits(t[1..]) else IsDigits(t)
  }

  /**
   * Python's int() on a string: whitespace is ignored at both ends, then an
   * optional sign and a non-empty run of at most MaxStrDigits ASCII decimal
   * digits. A separator anywhere in the string makes it raise, since int()
   * does not skip it and it is no part of a numeral (`SeparatorNeverNumeral`);
   * without one, int()'s whitespace is exactly str.isspace()'s, so Strip is
   * the trim int() does.
   */
  function ParseInt(s: string): Option<int> {
    if HasSeparator(s) then None else ParseNumeral(Strip(s))
  }

  /** The stripped text read as an optional sign and a digit run. */
  function ParseNumeral(t: string): Option<int> {
    if |t| > 0 && (t[0] == '+' || t[0] == '-') then
      ParseDigits(t[1..], t[0] == '-')
    else
      ParseDigits(t, false)
  }

  /** The digit run after the optional sign: its value, or None when it is not one or is too long. */
  function ParseDigits(d: string, negative: bool): Option<int> {
    if IsDigits(d) && |d| <= MaxStrDigits then
      Some(if negative then -(DigitsValue(d) as int) else DigitsValue(d))
    else
      None
  }

  /** However int() trims `s`, a separator in it stays inside what is left, which is then no numeral. */
  lemma SeparatorNeverNumeral(s: string, i: int, j: int)
    requires HasSeparator(s)
    requires 0 <= i <= j <= |s|
    requires forall k :: 0 <= k < i ==> IsIntSpace(s[k])
    requires forall k :: j <= k < |s| ==> IsIntSpace(s[k])
    ensures !IsNumeral(s[i..j])
  {
    var k :| 0 <= k < |s| && IsSeparator(s[k]);
    var t := s[i..j];
    assert i <= k < j;
    assert t[k - i] == s[k];
    if |t| > 0 && (t[0] == '+' || t[0] == '-') {
      assert t[1..][k - i - 1] == s[k];
    }
  }

  /** A string with no whitespace at either end is its own strip. */
  lemma StripUnchanged(r: string)
    requires r != [] && !IsSpace(r[0]) && !IsSpace(r[|r| - 1])
    ensures Strip(r) == r
  {
    assert TrimStart(r) == r;
    assert TrimEnd(r) == r;
  }

  /** A run of more than MaxStrDigits digits is refused. */
  lemma TooManyDigitsRejected(s: string)
    requires IsDigits(s) && |s| > MaxStrDigits
    ensures ParseInt(s) == None
  {
    StripUnchanged(s);
    assert !(s[0] == '+' || s[0] == '-');
  }

  /** So is such a run after a sign `c`. */
  lemma TooManySignedDigitsRejected(c: char, s: string)
    requires c == '+' || c == '-'
    requires IsDigits(s) && |s| > MaxStrDigits
    ensures ParseInt([c] + s) == None
  {
    var t := [c] + s;
    assert t[1..] == s && t[|t| - 1] == s[|s| - 1];
    StripUnchanged(t);
  }

  /** str() of an int holds digits and a sign only. */
  lemma IntToStringNoSeparator(n: int)
    ensures !HasSeparator(IntToString(n))
  {
    var r := IntToString(n);
    forall k | 0 <= k < |r| ensures !IsSeparator(r[k]) {
      if n < 0 && k > 0 { assert r[k] == NatToString(-n)[k - 1]; }
    }
  }

  /** int(str(n)) == n, for every n whose str() CPython prints. */
  lemma ParseIntToString(n: int)
    requires |NatToString(if n < 0 then -n else n)| <= MaxStrDigits
    ensures ParseInt(IntToString(n)) == Some(n)
  {
    var r := IntToString(n);
    IntToStringNoSeparator(n);
    StripUnchanged(r);
    if n < 0 {
      assert r[1..] == NatToString(-n);
    } else {
      assert r == NatToString(n);
    }
  }

  /** A decimal whose digits are all zeros has value zero and conversely. */
  lemma {:induction false} ZeroValueAllZeros(s: string)
    requires AllDigits(s)
    ensures DigitsValue(s) == 0 <==> forall i :: 0 <= i < |s| ==> s[i] == '0'
  {
    if s != [] {
      var p := s[..|s| - 1];
      ZeroValueAllZeros(p);
      if DigitsValue(s) == 0 {
        forall i | 0 <= i < |s| ensures s[i] == '0' {
          if i < |s| - 1 { assert p[i] == s[i]; }
        }
      }
      if forall i :: 0 <= i < |s| ==> s[i] == '0' {
        forall i | 0 <= i < |p| ensures p[i] == '0' { assert p[i] == s[i]; }
      }
    }
  }

  /** Each natural number has exactly one canonical decimal spelling: the one str() prints. */
  lemma {:induction false} CanonicalDecimalUnique(s: string)
    requires IsCanonicalDecimal(s)
    ensures s == NatToString(DigitsValue(s))
  {
    var n := DigitsValue(s);
    if |s| > 1 {
      var p := s[..|s| - 1];
      var d := s[|s| - 1] as int - '0' as int;
      assert p[0] == s[0] != '0';
      assert IsCanonicalDecimal(p);
      ZeroValueAllZeros(p);
      assert DigitsValue(p) >= 1;
      assert n / 10 == DigitsValue(p) && n % 10 == d;
      CanonicalDecimalUnique(p);
      assert s == p + [DigitChar(d)];
    }
  }

  // ------------------------------------------------- the url prefix regex

  /** ASCII lower-casing, the fold re.IGNORECASE applies to these pattern letters. */
  function Lower(c: char): char {
    if 'A' <= c <= 'Z' then (c as int + 32) as char else c
  }

  /**
   * Whether subject character `x` matches the lower-case pattern character
   * `c` under re.IGNORECASE; Python's re also folds U+017F (long s) onto 's'.
   */
  predicate FoldEq(x: char, c: char) {
    Lower(x) == c || (c == 's' && x == '\U{17F}')
  }

  /** One element of a regular expression made of literals and optional literals. */
  datatype Atom = Lit(c: char) | Opt(c: char)

  /** re.match: whether the pattern matches some prefix of `s`. */
  predicate MatchesPrefix(p: seq<Atom>, s: string)
    decreases |p|
  {
    if p == [] then
      true
    else
      match p[0]
      case Lit(c) => |s| > 0 && FoldEq(s[0], c) && MatchesPrefix(p[1..], s[1..])
      case Opt(c) =>
        || (|s| > 0 && FoldEq(s[0], c) && MatchesPrefix(p[1..], s[1..]))
        || MatchesPrefix(p[1..], s)
  }

  /** The pattern `^https?://`. */
  const UrlPattern: seq<Atom> := [Lit('h'), Lit('t'), Lit('t'), Lit('p'), Opt('s'), Lit(':'), Lit('/'), Lit('/')]

  /** looks_like_url(x): the stripped text (None read as "") starts with the pattern. */
  predicate LooksLikeUrl(x: Option<string>) {
    MatchesPrefix(UrlPattern, Strip(OrEmpty(x)))
  }

  /** `s` starts with `w`, compared case-insensitively. */
  predicate FoldPrefix(w: string, s: string) {
    |w| <= |s| && forall i :: 0 <= i < |w| ==> FoldEq(s[i], w[i])
  }

  /** The pattern that matches the literal `w`. */
  function Lits(w: string): (p: seq<Atom>)
    ensures |p| == |w|
  {
    if w == [] then [] else [Lit(w[0])] + Lits(w[1..])
  }

  lemma {:induction false} LitsMatch(w: string, s: string)
    ensures MatchesPrefix(Lits(w), s) <==> FoldPrefix(w, s)
  {
    if w != [] {
      assert Lits(w)[1..] == Lits(w[1..]);
      if |s| > 0 {
        LitsMatch(w[1..], s[1..]);
        if FoldPrefix(w, s) {
          assert FoldPrefix(w[1..], s[1..]) by {
            forall i | 0 <= i < |w| - 1 ensures FoldEq(s[1..][i], w[1..][i]) {
              assert FoldEq(s[i + 1], w[i + 1]);
            }
          }
        }
        if FoldEq(s[0], w[0]) && FoldPrefix(w[1..], s[1..]) {
          forall i | 0 <= i < |w| ensures FoldEq(s[i], w[i]) {
            if i > 0 { assert FoldEq(s[1..][i - 1], w[1..][i - 1]); }
          }
        }
      }
    }
  }

  /** A pattern `a c? b` matches exactly the strings starting with `acb` or with `ab`. */
  lemma {:induction false} OptMatch(a: string, c: char, b: string, s: string)
    ensures MatchesPrefix(Lits(a) + [Opt(c)] + Lits(b), s) <==> FoldPrefix(a + [c] + b, s) || FoldPrefix(a + b, s)
  {
    var p := Lits(a) + [Opt(c)] + Lits(b);
    if a == [] {
      assert p[0] == Opt(c) && p[1..] == Lits(b);
      assert Lits([c] + b) == [Lit(c)] + Lits(b) by { assert ([c] + b)[1..] == b; }
      LitsMatch([c] + b, s);
      LitsMatch(b, s);
      assert a + [c] + b == [c] + b && a + b == b;
      if |s| > 0 { LitsMatch(b, s[1..]); }
    } else {
      assert p[0] == Lit(a[0]);
      assert p[1..] == Lits(a[1..]) + [Opt(c)] + Lits(b);
      var acb, ab := a + [c] + b, a + b;
      assert acb[1..] == a[1..] + [c] + b && ab[1..] == a[1..] + b;
      if |s| > 0 {
        OptMatch(a[1..], c, b, s[1..]);
        FoldPrefixCons(acb, s);
        FoldPrefixCons(ab, s);
      }
    }
  }

  lemma FoldPrefixCons(w: string, s: string)
    requires |w| > 0 && |s| > 0
    ensures FoldPrefix(w, s) <==> FoldEq(s[0], w[0]) && FoldPrefix(w[1..], s[1..])
  {
    if FoldEq(s[0], w[0]) && FoldPrefix(w[1..], s[1..]) {
      forall i | 0 <= i < |w| ensures FoldEq(s[i], w[i]) {
        if i > 0 { assert FoldEq(s[1..][i - 1], w[1..][i - 1]); }
      }
    }
    if FoldPrefix(w, s) {
      forall i | 0 <= i < |w| - 1 ensures FoldEq(s[1..][i], w[1..][i]) {
        assert FoldEq(s[i + 1], w[i + 1]);
      }
    }
  }

  lemma UrlPatternShape()
    ensures UrlPattern == Lits("http") + [Opt('s')] + Lits("://")
  {
    assert Lits("://") == [Lit(':'), Lit('/'), Lit('/')] by {
      assert Lits("/") == [Lit('/')] by { assert "/"[1..] == []; }
      assert "//"[1..] == "/" && "://"[1..] == "//";
    }
    assert Lits("http") == [Lit('h'), Lit('t'), Lit('t'), Lit('p')] by {
      assert Lits("p") == [Lit('p')] by { assert "p"[1..] == []; }
      assert "tp"[1..] == "p" && "ttp"[1..] == "tp" && "http"[1..] == "ttp";
    }
  }

  /** `^https?://` matches a prefix of `t` exactly when `t` starts with http:// or https://, ignoring case as `re.I` does. */
  lemma UrlPatternMatch(t: string)
    ensures MatchesPrefix(UrlPattern, t) <==> FoldPrefix("http://", t) || FoldPrefix("https://", t)
  {
    UrlPatternShape();
    assert "http" + ['s'] + "://" == "https://";
    assert "http" + "://" == "http://";
    OptMatch("http", 's', "://", t);
  }

  /** looks_like_url is true exactly when the stripped text starts with http:// or https://, ignoring ASCII case and reading U+017F as `s`. */
  lemma LooksLikeUrlIff(x: Option<string>)
    ensures var t := Strip(OrEmpty(x));
            LooksLikeUrl(x) <==> FoldPrefix("http://", t) || FoldPrefix("https://", t)
  {
    UrlPatternMatch(Strip(OrEmpty(x)));
  }

  /** Stripping the link before the check does not change its verdict. */
  lemma LooksLikeUrlOfStripped(x: string)
    ensures LooksLikeUrl(Some(Strip(x))) == LooksLikeUrl(Some(x))
  {
    StripIdempotent(x);
    assert OrEmpty(Some(Strip(x))) == Strip(x);
    assert Strip(OrEmpty(Some(Strip(x)))) == Strip(OrEmpty(Some(x)));
  }
}

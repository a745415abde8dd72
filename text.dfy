/** String operations of Python that the pipeline relies on: `str.strip()`,
    `str.lstrip(c)`, `str(n)` on integers, `f"{n:03d}"`, `sep.join(parts)`
    and `str.lower()` on ASCII letters. */
module Text {
  import opened Wrappers

  /** The characters for which Python's `str.isspace()` holds; `str.strip()`
      with no argument removes exactly these from both ends. */
  predicate IsSpace(c: char) {
    || c == ' '
    || ('\t' <= c <= '\r')
    || ('\U{1c}' <= c <= '\U{1f}')
    || c == '\U{85}' || c == '\U{a0}' || c == '\U{1680}'
    || ('\U{2000}' <= c <= '\U{200a}')
    || c == '\U{2028}' || c == '\U{2029}' || c == '\U{202f}'
    || c == '\U{205f}' || c == '\U{3000}'
  }

  predicate AllSpace(s: string) {
    forall k :: 0 <= k < |s| ==> IsSpace(s[k])
  }

  /** The first index at or after `i` that does not hold whitespace. */
  function SkipSpace(s: string, i: nat): (k: nat)
    requires i <= |s|
    ensures i <= k <= |s|
    ensures forall m :: i <= m < k ==> IsSpace(s[m])
    ensures k < |s| ==> !IsSpace(s[k])
    decreases |s| - i
  {
    if i == |s| || !IsSpace(s[i]) then i else SkipSpace(s, i + 1)
  }

  /** The smallest index `k` with `lo <= k <= j` such that `s[k..j]` is all
      whitespace. */
  function BackSpace(s: string, lo: nat, j: nat): (k: nat)
    requires lo <= j <= |s|
    ensures lo <= k <= j
    ensures forall m :: k <= m < j ==> IsSpace(s[m])
    ensures k > lo ==> !IsSpace(s[k - 1])
    decreases j
  {
    if j == lo || !IsSpace(s[j - 1]) then j else BackSpace(s, lo, j - 1)
  }

  function StripStart(s: string): nat
    ensures StripStart(s) <= |s|
  {
    SkipSpace(s, 0)
  }

  function StripEnd(s: string): nat
    ensures StripStart(s) <= StripEnd(s) <= |s|
  {
    BackSpace(s, StripStart(s), |s|)
  }

  /** Python's `s.strip()`: never longer than `s`, and neither beginning
      nor ending with whitespace. */
  function Strip(s: string): (r: string)
    ensures |r| <= |s|
    ensures r == [] || (!IsSpace(r[0]) && !IsSpace(r[|r| - 1]))
  {
    s[StripStart(s)..StripEnd(s)]
  }

  /** The strip is the longest infix of `s` that neither begins nor ends
      with whitespace, everything around it being whitespace. */
  lemma StripSpec(s: string)
    ensures var r := Strip(s);
            && AllSpace(s[..StripStart(s)]) && AllSpace(s[StripEnd(s)..])
            && (r == [] || (!IsSpace(r[0]) && !IsSpace(r[|r| - 1])))
            && (r == [] ==> AllSpace(s))
  {
    var i, j := StripStart(s), StripEnd(s);
    assert forall m :: 0 <= m < i ==> IsSpace(s[m]);
    assert forall m :: j <= m < |s| ==> IsSpace(s[m]);
  }

  /** A string with no surrounding whitespace is its own strip. */
  lemma {:induction false} StripOfTrimmed(s: string)
    requires s == [] || (!IsSpace(s[0]) && !IsSpace(s[|s| - 1]))
    ensures Strip(s) == s
  {
    if s != [] {
      assert StripStart(s) == 0;
      assert StripEnd(s) == |s|;
    }
  }

  /** Whitespace appended at the end does not survive a strip. */
  lemma {:induction false} StripIgnoresTrailingSpace(s: string, w: string)
    requires AllSpace(w)
    ensures Strip(s + w) == Strip(s)
  {
    if StripStart(s) < |s| {
      StripTrailingContent(s, w);
    } else {
      assert s[..StripStart(s)] == s;
      ConcatAllSpace(s, w);
      AllSpaceStripsToEmpty(s + w);
    }
  }

  /** Appending whitespace to text that is not all whitespace moves
      neither end of the strip. */
  lemma StripBoundsOfAppend(s: string, w: string)
    requires AllSpace(w) && StripStart(s) < |s|
    ensures StripStart(s + w) == StripStart(s) && StripEnd(s + w) == StripEnd(s)
  {
    var t := s + w;
    assert t[..|s|] == s;
    SkipSpaceAgrees(s, t, 0);
    assert forall m :: |s| <= m < |t| ==> IsSpace(t[m]) by {
      forall m | |s| <= m < |t| ensures IsSpace(t[m]) { assert t[m] == w[m - |s|]; }
    }
    BackSpaceSkipsSuffix(t, StripStart(s), |s|);
    BackSpaceAgrees(s, t, StripStart(s), |s|);
  }

  lemma StripTrailingContent(s: string, w: string)
    requires AllSpace(w) && StripStart(s) < |s|
    ensures Strip(s + w) == Strip(s)
  {
    StripBoundsOfAppend(s, w);
    var t, i, e := s + w, StripStart(s), StripEnd(s);
    assert t[i..e] == s[i..e];
  }

  lemma ConcatAllSpace(s: string, w: string)
    requires AllSpace(s) && AllSpace(w)
    ensures AllSpace(s + w)
  {
    var t := s + w;
    forall m | 0 <= m < |t| ensures IsSpace(t[m]) {
      if m < |s| { assert t[m] == s[m]; } else { assert t[m] == w[m - |s|]; }
    }
  }

  lemma AllSpaceStripsToEmpty(s: string)
    requires AllSpace(s)
    ensures Strip(s) == []
  {
    assert StripStart(s) == |s|;
  }

  /** `SkipSpace` only looks at the part of the string before the first
      non-space, so it agrees on strings that agree up to there. */
  lemma {:induction false} SkipSpaceAgrees(s: string, t: string, i: nat)
    requires i <= |s| <= |t| && SkipSpace(s, i) < |s|
    requires s == t[..|s|]
    ensures SkipSpace(t, i) == SkipSpace(s, i)
    decreases |s| - i
  {
    assert t[i] == s[i];
    if IsSpace(s[i]) {
      SkipSpaceAgrees(s, t, i + 1);
    }
  }

  /** Scanning back over a whitespace suffix `t[j..]` lands at `j` or before. */
  lemma {:induction false} BackSpaceSkipsSuffix(t: string, lo: nat, j: nat)
    requires lo <= j <= |t|
    requires forall m :: j <= m < |t| ==> IsSpace(t[m])
    ensures BackSpace(t, lo, |t|) == BackSpace(t, lo, j)
    decreases |t| - j
  {
    if j < |t| {
      BackSpaceSkipsSuffix(t, lo, j + 1);
      assert BackSpace(t, lo, j + 1) == BackSpace(t, lo, j);
    }
  }

  lemma {:induction false} BackSpaceAgrees(s: string, t: string, lo: nat, j: nat)
    requires lo <= j <= |s| <= |t|
    requires s == t[..|s|]
    ensures BackSpace(t, lo, j) == BackSpace(s, lo, j)
    decreases j
  {
    if j > lo {
      assert t[j - 1] == s[j - 1];
      BackSpaceAgrees(s, t, lo, j - 1);
    }
  }

  /** Python's `s.lstrip(c)`: drop every leading `c`. */
  function LStripChar(s: string, c: char): (r: string)
    ensures |r| <= |s| && forall k :: 0 <= k < |r| ==> r[k] == s[|s| - |r| + k]
    ensures r == [] || r[0] != c
    ensures forall k :: 0 <= k < |s| - |r| ==> s[k] == c
  {
    if s != [] && s[0] == c then LStripChar(s[1..], c) else s
  }

  // ---------------------------------------------------------------- joining

  /** Python's `sep.join(parts)`. */
  function Join(parts: seq<string>, sep: string): string
  {
    if |parts| == 0 then []
    else if |parts| == 1 then parts[0]
    else parts[0] + sep + Join(parts[1..], sep)
  }

  ghost predicate InfixAt(a: string, s: string, i: int) {
    0 <= i <= |s| - |a| && s[i..i + |a|] == a
  }

  /** `a in s` for strings. */
  ghost predicate IsInfix(a: string, s: string) {
    exists i :: InfixAt(a, s, i)
  }

  lemma InfixOfSum(a: string, s: string, before: string, after: string)
    requires IsInfix(a, s)
    ensures IsInfix(a, before + s + after)
  {
    var i :| InfixAt(a, s, i);
    var t := before + s + after;
    assert t[|before| + i..|before| + i + |a|] == a;
    assert InfixAt(a, t, |before| + i);
  }

  lemma InfixTransitive(a: string, b: string, c: string)
    requires IsInfix(a, b) && IsInfix(b, c)
    ensures IsInfix(a, c)
  {
    var i :| InfixAt(a, b, i);
    var j :| InfixAt(b, c, j);
    forall t | 0 <= t < |a|
      ensures c[j + i + t] == a[t]
    {
      assert c[j..j + |b|][i + t] == c[j + i + t];
      assert b[i..i + |a|][t] == b[i + t];
    }
    assert c[j + i..j + i + |a|] == a;
    assert InfixAt(a, c, j + i);
  }

  /** A value that is one of the parts appears in the join. */
  lemma JoinContainsValue(parts: seq<string>, sep: string, k: nat, value: string)
    requires k < |parts| && parts[k] == value
    ensures IsInfix(value, Join(parts, sep))
  {
    JoinContainsPart(parts, sep, k);
  }

  /** Every part of a join appears in it verbatim. */
  lemma {:induction false} JoinContainsPart(parts: seq<string>, sep: string, k: nat)
    requires k < |parts|
    ensures IsInfix(parts[k], Join(parts, sep))
  {
    if |parts| == 1 {
      assert Join(parts, sep)[0..|parts[0]|] == parts[0];
      assert InfixAt(parts[k], Join(parts, sep), 0);
    } else if k == 0 {
      var j := Join(parts, sep);
      assert j[0..|parts[0]|] == parts[0];
      assert InfixAt(parts[k], j, 0);
    } else {
      JoinContainsPart(parts[1..], sep, k - 1);
      InfixOfSum(parts[k], Join(parts[1..], sep), parts[0] + sep, []);
      assert parts[0] + sep + Join(parts[1..], sep) + [] == Join(parts, sep);
    }
  }

  /** The text does not end in whitespace (empty text does not either). */
  predicate EndsPlain(s: string) {
    s == [] || !IsSpace(s[|s| - 1])
  }

  /** A join whose last part is non-empty and does not end in whitespace
      does not end in whitespace either. */
  lemma {:induction false} JoinEndsPlain(parts: seq<string>, sep: string)
    requires |parts| > 0 && parts[|parts| - 1] != [] && EndsPlain(parts[|parts| - 1])
    ensures Join(parts, sep) != [] && EndsPlain(Join(parts, sep))
  {
    if |parts| > 1 {
      var rest := parts[1..];
      assert rest[|rest| - 1] == parts[|parts| - 1];
      JoinEndsPlain(rest, sep);
      var j := Join(rest, sep);
      var whole := parts[0] + sep + j;
      assert Join(parts, sep) == whole;
      assert whole[|whole| - 1] == j[|j| - 1];
    }
  }

  // ----------------------------------------------------------------- digits

  predicate IsDigit(c: char) { '0' <= c <= '9' }

  predicate AllDigits(s: string) {
    forall k :: 0 <= k < |s| ==> IsDigit(s[k])
  }

  function DigitChar(d: nat): (c: char)
    requires d < 10
    ensures IsDigit(c) && c as int - '0' as int == d
  {
    ('0' as int + d) as char
  }

  /** Python's `str(n)` for a non-negative integer: decimal, no leading zero. */
  function NatToString(n: nat): (s: string)
    ensures |s| >= 1 && AllDigits(s)
    ensures |s| > 1 ==> s[0] != '0'
    ensures n < 10 <==> |s| == 1
  {
    if n < 10 then [DigitChar(n)] else NatToString(n / 10) + [DigitChar(n % 10)]
  }

  /** Python's `str(i)` for any integer. */
  function IntToString(i: int): (s: string)
    ensures |s| >= 1
    ensures i >= 0 ==> s == NatToString(i)
    ensures i < 0 ==> s == "-" + NatToString(-i)
  {
    if i < 0 then "-" + NatToString(-i) else NatToString(i)
  }

  /** The value of a string of decimal digits (leading zeros allowed). */
  function DigitsValue(s: string): nat
    requires AllDigits(s)
  {
    if s == [] then 0
    else DigitsValue(s[..|s| - 1]) * 10 + (s[|s| - 1] as int - '0' as int)
  }

  /** `int(s)` restricted to plain decimal digits. */
  function ParseNat(s: string): (r: Option<nat>)
    ensures r.Some? <==> s != [] && AllDigits(s)
  {
    if s != [] && AllDigits(s) then Some(DigitsValue(s)) else None
  }

  lemma {:induction false} NatToStringRoundTrip(n: nat)
    ensures ParseNat(NatToString(n)) == Some(n)
  {
    var s := NatToString(n);
    if n < 10 {
      assert s == [DigitChar(n)] && s[..0] == [];
      assert DigitsValue(s) == DigitsValue([]) * 10 + n;
    } else {
      var front := NatToString(n / 10);
      assert s == front + [DigitChar(n % 10)];
      assert s[..|s| - 1] == front;
      NatToStringRoundTrip(n / 10);
      assert DigitsValue(front) == n / 10;
      assert DigitsValue(s) == DigitsValue(front) * 10 + n % 10;
      assert n == (n / 10) * 10 + n % 10;
    }
  }

  /** Leading zeros do not change the value of a digit string. */
  lemma {:induction false} LeadingZerosValue(z: nat, s: string)
    requires AllDigits(s)
    ensures AllDigits(Zeros(z) + s) && DigitsValue(Zeros(z) + s) == DigitsValue(s)
    decreases z, |s|
  {
    var t := Zeros(z) + s;
    assert AllDigits(t) by {
      forall k | 0 <= k < |t| ensures IsDigit(t[k]) {
        if k < z { assert t[k] == Zeros(z)[k]; } else { assert t[k] == s[k - z]; }
      }
    }
    if s == [] {
      assert t == Zeros(z);
      if z > 0 {
        assert t[..|t| - 1] == Zeros(z - 1);
        LeadingZerosValue(z - 1, []);
        assert Zeros(z - 1) + [] == Zeros(z - 1);
      }
    } else {
      LeadingZerosValue(z, s[..|s| - 1]);
      assert t[..|t| - 1] == Zeros(z) + s[..|s| - 1];
    }
  }

  function Zeros(n: nat): (z: string)
    ensures |z| == n && forall k :: 0 <= k < n ==> z[k] == '0'
  {
    if n == 0 then [] else Zeros(n - 1) + ['0']
  }

  /** Python's `f"{n:0Wd}"` for a non-negative `n`: decimal, left-padded with
      zeros to at least `width` characters, never truncated. */
  function ZeroPadded(n: nat, width: nat): (s: string)
    ensures |s| == if |NatToString(n)| < width then width else |NatToString(n)|
    ensures AllDigits(s) && ParseNat(s) == Some(n)
  {
    var d := NatToString(n);
    var z := if |d| < width then width - |d| else 0;
    NatToStringRoundTrip(n);
    LeadingZerosValue(z, d);
    Zeros(z) + d
  }

  // ------------------------------------------------------ ASCII lower case

  /** `c.lower()` for ASCII letters; other characters are left unchanged. */
  function LowerChar(c: char): char {
    if 'A' <= c <= 'Z' then (c as int + 32) as char else c
  }

  function Lower(s: string): (r: string)
    ensures |r| == |s| && forall k :: 0 <= k < |s| ==> r[k] == LowerChar(s[k])
  {
    seq(|s|, k requires 0 <= k < |s| => LowerChar(s[k]))
  }
}

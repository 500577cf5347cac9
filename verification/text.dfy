/** The string operations the modelled code relies on: Python's `str.strip`,
    `str.isdigit`, `str.startswith`, the `in` substring test, case-insensitive
    matching, and the `f"{n:0Wd}"` zero-padded decimal format. */
module Text {

  /** Python's `str.isspace` for one character: the ASCII whitespace and
      separators, plus the Unicode space separators and line/paragraph separators. */
  predicate IsSpace(c: char)
  {
    || c == ' ' || c == '\t' || c == '\n' || c == '\r' || c == '\U{000B}' || c == '\U{000C}'
    || ('\U{001C}' <= c <= '\U{001F}')
    || c == '\U{0085}' || c == '\U{00A0}' || c == '\U{1680}'
    || ('\U{2000}' <= c <= '\U{200A}')
    || c == '\U{2028}' || c == '\U{2029}' || c == '\U{202F}' || c == '\U{205F}' || c == '\U{3000}'
  }

  predicate AllSpace(s: string)
  {
    forall i :: 0 <= i < |s| ==> IsSpace(s[i])
  }

  /** Number of whitespace characters at the start of `s`. */
  function LeadingSpaces(s: string): (k: nat)
    ensures k <= |s|
    ensures AllSpace(s[..k])
    ensures k < |s| ==> !IsSpace(s[k])
  {
    if s == [] || !IsSpace(s[0]) then 0
    else
      var k' := LeadingSpaces(s[1..]);
      assert s[..k' + 1] == [s[0]] + s[1..][..k'];
      k' + 1
  }

  /** Number of whitespace characters at the end of `s`. */
  function TrailingSpaces(s: string): (k: nat)
    ensures k <= |s|
    ensures AllSpace(s[|s| - k..])
    ensures k < |s| ==> !IsSpace(s[|s| - 1 - k])
  {
    if s == [] || !IsSpace(s[|s| - 1]) then 0
    else
      var t := s[..|s| - 1];
      var k' := TrailingSpaces(t);
      assert s[|s| - (k' + 1)..] == t[|t| - k'..] + [s[|s| - 1]];
      k' + 1
  }

  /** `r` occurs in `s` at offset `a`. */
  predicate SliceAt(s: string, a: int, r: string)
  {
    0 <= a && a + |r| <= |s| && s[a..a + |r|] == r
  }

  /** Python's `s.strip()`: `s` without its leading and trailing whitespace. */
  function Strip(s: string): (r: string)
    ensures |r| <= |s|
    ensures r == [] || (!IsSpace(r[0]) && !IsSpace(r[|r| - 1]))
    ensures exists a :: SliceAt(s, a, r) && AllSpace(s[..a]) && AllSpace(s[a + |r|..])
  {
    var a := LeadingSpaces(s);
    var t := s[a..];
    var k := TrailingSpaces(t);
    var r := t[..|t| - k];
    assert SliceAt(s, a, r);
    assert s[a + |r|..] == t[|t| - k..];
    assert r != [] ==> r[0] == s[a];
    r
  }

  /** Stripping a string that has no whitespace at either end leaves it alone. */
  lemma StripTrimmed(s: string)
    requires s == [] || (!IsSpace(s[0]) && !IsSpace(s[|s| - 1]))
    ensures Strip(s) == s
  {
    assert LeadingSpaces(s) == 0;
    assert s[0..] == s;
    assert TrailingSpaces(s) == 0;
  }

  /** `strip` is idempotent. */
  lemma StripIdempotent(s: string)
    ensures Strip(Strip(s)) == Strip(s)
  {
    StripTrimmed(Strip(s));
  }

  /** A string made only of whitespace strips to the empty string. */
  lemma StripAllSpace(s: string)
    requires AllSpace(s)
    ensures Strip(s) == []
  {
  }

  predicate IsDigit(c: char)
  {
    '0' <= c <= '9'
  }

  /** Python's `str.isdigit` restricted to ASCII digits: non-empty and all digits. */
  predicate IsDigits(s: string)
  {
    |s| > 0 && forall i :: 0 <= i < |s| ==> IsDigit(s[i])
  }

  /** Python's `s.startswith(prefix)`. */
  predicate StartsWith(s: string, prefix: string)
  {
    |prefix| <= |s| && s[..|prefix|] == prefix
  }

  /** Python's `sub in s`. */
  predicate Contains(s: string, sub: string)
  {
    exists a :: 0 <= a <= |s| - |sub| && SliceAt(s, a, sub)
  }

  /** Substring containment is transitive. */
  lemma ContainsTransitive(s: string, t: string, u: string)
    requires Contains(s, t) && Contains(t, u)
    ensures Contains(s, u)
  {
    var a :| 0 <= a <= |s| - |t| && SliceAt(s, a, t);
    var b :| 0 <= b <= |t| - |u| && SliceAt(t, b, u);
    assert s[a..a + |t|] == t;
    assert t[b..b + |u|] == u;
    var x, y := s[a + b..a + b + |u|], t[b..b + |u|];
    forall i | 0 <= i < |u|
      ensures x[i] == y[i]
    {
      assert t[b + i] == s[a..a + |t|][b + i];
    }
    assert x == y;
    assert SliceAt(s, a + b, u);
  }

  /** ASCII case folding, as the SQL `LIKE` of the default database does it. */
  function LowerChar(c: char): char
  {
    if 'A' <= c <= 'Z' then (c as int - 'A' as int + 'a' as int) as char else c
  }

  function Lower(s: string): (r: string)
    ensures |r| == |s|
    ensures forall i :: 0 <= i < |s| ==> r[i] == LowerChar(s[i])
  {
    seq(|s|, i requires 0 <= i < |s| => LowerChar(s[i]))
  }

  /** Case folding keeps an occurrence of `u` in `t` an occurrence of the folded strings. */
  lemma LowerPreservesContains(t: string, u: string)
    requires Contains(t, u)
    ensures Contains(Lower(t), Lower(u))
  {
    var b :| 0 <= b <= |t| - |u| && SliceAt(t, b, u);
    assert t[b..b + |u|] == u;
    assert Lower(t)[b..b + |u|] == Lower(u);
    assert SliceAt(Lower(t), b, Lower(u));
  }

  /** Django's `icontains` lookup: case-insensitive substring test. */
  predicate ContainsIgnoreCase(s: string, sub: string)
  {
    Contains(Lower(s), Lower(sub))
  }

  /** The character of a decimal digit 0..9. */
  function DigitChar(d: nat): (c: char)
    requires d < 10
    ensures IsDigit(c)
  {
    ('0' as int + d) as char
  }

  function DigitValue(c: char): (d: nat)
    requires IsDigit(c)
    ensures d < 10
  {
    c as int - '0' as int
  }

  /** The shortest decimal representation of `n` (Python's `str(n)`). */
  function Digits(n: nat): (s: string)
    ensures IsDigits(s)
    ensures |s| == 1 || s[0] != '0'
  {
    if n < 10 then [DigitChar(n)] else Digits(n / 10) + [DigitChar(n % 10)]
  }

  /** The value of a string of decimal digits, leading zeros allowed. */
  function DigitsValue(s: string): nat
    requires forall i :: 0 <= i < |s| ==> IsDigit(s[i])
  {
    if s == [] then 0 else DigitsValue(s[..|s| - 1]) * 10 + DigitValue(s[|s| - 1])
  }

  function Repeat(c: char, k: nat): (s: string)
    ensures |s| == k
    ensures forall i :: 0 <= i < k ==> s[i] == c
  {
    if k == 0 then [] else [c] + Repeat(c, k - 1)
  }

  /** Python's `f"{n:0{width}d}"` for a non-negative `n`: the decimal digits of `n`,
      left-padded with zeros to at least `width` characters. */
  function ZeroPad(n: nat, width: nat): (s: string)
    ensures |s| == if |Digits(n)| < width then width else |Digits(n)|
    ensures forall i :: 0 <= i < |s| ==> IsDigit(s[i])
  {
    var d := Digits(n);
    if |d| < width then Repeat('0', width - |d|) + d else d
  }

  lemma {:induction false} DigitsRoundTrip(n: nat)
    ensures DigitsValue(Digits(n)) == n
  {
    if n >= 10 {
      var s := Digits(n);
      assert s[..|s| - 1] == Digits(n / 10);
      DigitsRoundTrip(n / 10);
    }
  }

  /** Leading zeros do not change the value of a digit string. */
  lemma {:induction false} LeadingZerosValue(k: nat, s: string)
    requires forall i :: 0 <= i < |s| ==> IsDigit(s[i])
    ensures DigitsValue(Repeat('0', k) + s) == DigitsValue(s)
    decreases |s|
  {
    var z := Repeat('0', k);
    if s == [] {
      assert z + s == z;
      ZerosValue(k);
    } else {
      var t := z + s;
      assert t[..|t| - 1] == z + s[..|s| - 1];
      LeadingZerosValue(k, s[..|s| - 1]);
    }
  }

  lemma {:induction false} ZerosValue(k: nat)
    ensures DigitsValue(Repeat('0', k)) == 0
  {
    if k > 0 {
      var z := Repeat('0', k);
      assert z[..|z| - 1] == Repeat('0', k - 1);
      ZerosValue(k - 1);
    }
  }

  /** The zero-padded code reads back as the number it was made from. */
  lemma ZeroPadRoundTrip(n: nat, width: nat)
    ensures DigitsValue(ZeroPad(n, width)) == n
  {
    var d := Digits(n);
    DigitsRoundTrip(n);
    if |d| < width {
      LeadingZerosValue(width - |d|, d);
    }
  }

  /** `prefix + f"{n:0{width}d}"`: the numbered codes the models assign on
      first save. The digits after the prefix read back as `n`. */
  function PrefixedCode(prefix: string, n: nat, width: nat): (code: string)
    ensures |code| == |prefix| + (if |Digits(n)| < width then width else |Digits(n)|)
    ensures code[..|prefix|] == prefix
    ensures forall i :: |prefix| <= i < |code| ==> IsDigit(code[i])
    ensures DigitsValue(code[|prefix|..]) == n
  {
    ZeroPadRoundTrip(n, width);
    var code := prefix + ZeroPad(n, width);
    assert code[|prefix|..] == ZeroPad(n, width);
    code
  }

  /** Distinct numbers get distinct codes under the same prefix and width. */
  lemma PrefixedCodeInjective(prefix: string, m: nat, n: nat, width: nat)
    ensures PrefixedCode(prefix, m, width) == PrefixedCode(prefix, n, width) <==> m == n
  {
  }
}

/**
 * String helpers with the meaning JavaScript gives them: `startsWith`,
 * `endsWith`, `includes`, `trim` (and the `\s` class of regular
 * expressions), and the decimal rendering of a non-negative number.
 */
module Text {

  predicate StartsWith(s: string, prefix: string) {
    prefix <= s
  }

  predicate EndsWith(s: string, suffix: string) {
    |suffix| <= |s| && s[|s| - |suffix|..] == suffix
  }

  /** `part` occurs in `s` at position `k`. */
  predicate OccursAt(s: string, part: string, k: int) {
    0 <= k && k + |part| <= |s| && s[k..k + |part|] == part
  }

  /** `s.includes(part)`, scanning from the left. */
  function Contains(s: string, part: string): (b: bool)
    ensures StartsWith(s, part) ==> b
    ensures b ==> |part| <= |s|
    decreases |s|
  {
    StartsWith(s, part) || (s != [] && Contains(s[1..], part))
  }

  lemma {:induction false} ContainsIff(s: string, part: string)
    ensures Contains(s, part) <==> exists k :: OccursAt(s, part, k)
    decreases |s|
  {
    if exists k :: OccursAt(s, part, k) {
      var k :| OccursAt(s, part, k);
      if k > 0 {
        assert s[1..][k - 1..k - 1 + |part|] == s[k..k + |part|];
        assert OccursAt(s[1..], part, k - 1);
        ContainsIff(s[1..], part);
      }
    }
    if StartsWith(s, part) {
      assert OccursAt(s, part, 0);
    } else if Contains(s, part) {
      ContainsIff(s[1..], part);
      var k :| OccursAt(s[1..], part, k);
      assert s[k + 1..k + 1 + |part|] == s[1..][k..k + |part|];
      assert OccursAt(s, part, k + 1);
    }
  }

  /**
   * The characters JavaScript's `trim` removes and `\s` matches: the
   * WhiteSpace and LineTerminator code points of ECMAScript.
   */
  predicate IsJsWhitespace(c: char) {
    || c == ' ' || c == '\t' || c == '\n' || c == '\U{B}' || c == '\U{C}' || c == '\r'
    || c == '\U{A0}' || c == '\U{1680}' || ('\U{2000}' <= c <= '\U{200A}')
    || c == '\U{2028}' || c == '\U{2029}' || c == '\U{202F}' || c == '\U{205F}'
    || c == '\U{3000}' || c == '\U{FEFF}'
  }

  predicate AllWhitespace(s: string) {
    forall i :: 0 <= i < |s| ==> IsJsWhitespace(s[i])
  }

  predicate NoWhitespace(s: string) {
    forall i :: 0 <= i < |s| ==> !IsJsWhitespace(s[i])
  }

  function TrimStart(s: string): (t: string)
    ensures |t| <= |s| && s[|s| - |t|..] == t
    decreases |s|
  {
    if s != [] && IsJsWhitespace(s[0]) then TrimStart(s[1..]) else s
  }

  function TrimEnd(s: string): (t: string)
    ensures t <= s
    decreases |s|
  {
    if s != [] && IsJsWhitespace(s[|s| - 1]) then TrimEnd(s[..|s| - 1]) else s
  }

  /** `trimStart` empties exactly an all-whitespace string, and otherwise stops at a non-whitespace character. */
  lemma {:induction false} TrimStartEnds(s: string)
    ensures TrimStart(s) == [] <==> AllWhitespace(s)
    ensures TrimStart(s) != [] ==> !IsJsWhitespace(TrimStart(s)[0])
    decreases |s|
  {
    if s != [] && IsJsWhitespace(s[0]) {
      TrimStartEnds(s[1..]);
      if AllWhitespace(s[1..]) {
        forall k | 0 <= k < |s| ensures IsJsWhitespace(s[k]) {
          if k > 0 { assert s[k] == s[1..][k - 1]; }
        }
      }
    } else if s != [] {
      assert !IsJsWhitespace(s[0]);
    }
  }

  /** `trimEnd` empties exactly an all-whitespace string, and otherwise stops at a non-whitespace character. */
  lemma {:induction false} TrimEndEnds(s: string)
    ensures TrimEnd(s) == [] <==> AllWhitespace(s)
    ensures TrimEnd(s) != [] ==> !IsJsWhitespace(TrimEnd(s)[|TrimEnd(s)| - 1])
    decreases |s|
  {
    if s != [] && IsJsWhitespace(s[|s| - 1]) {
      var p := s[..|s| - 1];
      TrimEndEnds(p);
      if AllWhitespace(p) {
        forall k | 0 <= k < |s| ensures IsJsWhitespace(s[k]) {
          if k < |s| - 1 { assert s[k] == p[k]; }
        }
      } else {
        var k :| 0 <= k < |p| && !IsJsWhitespace(p[k]);
        assert s[k] == p[k];
      }
    } else if s != [] {
      assert !IsJsWhitespace(s[|s| - 1]);
    }
  }

  /**
   * `s.trim()`: the piece of `s` left once whitespace is removed from both
   * ends; it neither begins nor ends with whitespace.
   */
  function Trim(s: string): (t: string)
    ensures |t| <= |s|
    ensures t == [] <==> AllWhitespace(s)
    ensures t != [] ==> !IsJsWhitespace(t[0]) && !IsJsWhitespace(t[|t| - 1])
  {
    TrimEmpty(s);
    TrimEnd(TrimStart(s))
  }

  /** The two ends of the trimmed string, as `Trim` promises them. */
  lemma TrimEmpty(s: string)
    ensures TrimEnd(TrimStart(s)) == [] <==> AllWhitespace(s)
    ensures TrimEnd(TrimStart(s)) != [] ==> !IsJsWhitespace(TrimEnd(TrimStart(s))[0])
    ensures TrimEnd(TrimStart(s)) != [] ==> !IsJsWhitespace(TrimEnd(TrimStart(s))[|TrimEnd(TrimStart(s))| - 1])
  {
    var u := TrimStart(s);
    TrimStartEnds(s);
    TrimEndEnds(u);
    if u != [] {
      assert !IsJsWhitespace(u[0]);
      assert !AllWhitespace(u);
    }
  }

  /** A string trims to nothing exactly when every character is whitespace. */
  lemma TrimEmptyIff(s: string)
    ensures Trim(s) == [] <==> AllWhitespace(s)
  {
  }

  /** `trimStart` removes only whitespace: what it drops from the front is all whitespace. */
  lemma {:induction false} TrimStartDropsWhitespace(s: string)
    ensures AllWhitespace(s[..|s| - |TrimStart(s)|])
    decreases |s|
  {
    if s != [] && IsJsWhitespace(s[0]) {
      var d := |s| - |TrimStart(s)|;
      TrimStartDropsWhitespace(s[1..]);
      forall k | 0 <= k < d
        ensures IsJsWhitespace(s[..d][k])
      {
        if k > 0 {
          assert s[..d][k] == s[1..][..d - 1][k - 1];
        } else {
          assert s[..d][k] == s[0];
        }
      }
    }
  }

  /** `trimEnd` removes only whitespace: what it drops from the back is all whitespace. */
  lemma {:induction false} TrimEndDropsWhitespace(s: string)
    ensures AllWhitespace(s[|TrimEnd(s)|..])
    decreases |s|
  {
    if s != [] && IsJsWhitespace(s[|s| - 1]) {
      var p := s[..|s| - 1];
      var e := |TrimEnd(s)|;
      TrimEndDropsWhitespace(p);
      forall k | 0 <= k < |s| - e
        ensures IsJsWhitespace(s[e..][k])
      {
        if k < |s| - 1 - e {
          assert s[e..][k] == p[e..][k];
        }
      }
    }
  }

  /**
   * `s.trim()` is the contiguous piece of `s` that starts where `trimStart`
   * stops, and everything cut away on either side of it is whitespace.
   */
  lemma TrimIsInfix(s: string)
    ensures |s| - |TrimStart(s)| + |Trim(s)| <= |s|
    ensures Trim(s) == s[|s| - |TrimStart(s)|..|s| - |TrimStart(s)| + |Trim(s)|]
    ensures AllWhitespace(s[..|s| - |TrimStart(s)|])
    ensures AllWhitespace(s[|s| - |TrimStart(s)| + |Trim(s)|..])
  {
    TrimEndOfTrimStart(s, Trim(s));
  }

  /** `TrimIsInfix` for `t`, the result of `trimEnd` after `trimStart`. */
  lemma TrimEndOfTrimStart(s: string, t: string)
    requires t == TrimEnd(TrimStart(s))
    ensures |s| - |TrimStart(s)| + |t| <= |s|
    ensures t == s[|s| - |TrimStart(s)|..|s| - |TrimStart(s)| + |t|]
    ensures AllWhitespace(s[..|s| - |TrimStart(s)|])
    ensures AllWhitespace(s[|s| - |TrimStart(s)| + |t|..])
  {
    var u := TrimStart(s);
    TrimStartDropsWhitespace(s);
    TrimEndDropsWhitespace(u);
    WhitespaceTailOfSuffix(s, u, t);
  }

  /**
   * A prefix `t` of a suffix `u` of `s` sits in `s` where `u` starts, and
   * if `u` has only whitespace after `t`, so does `s`.
   */
  lemma WhitespaceTailOfSuffix(s: string, u: string, t: string)
    requires |u| <= |s| && s[|s| - |u|..] == u && t <= u
    requires AllWhitespace(u[|t|..])
    ensures |s| - |u| + |t| <= |s|
    ensures t == s[|s| - |u|..|s| - |u| + |t|]
    ensures AllWhitespace(s[|s| - |u| + |t|..])
  {
    var d := |s| - |u|;
    assert t == u[..|t|];
    assert s[d + |t|..] == u[|t|..];
  }

  /** Trimming leaves a string that has no whitespace at all unchanged. */
  lemma TrimNoWhitespace(s: string)
    requires NoWhitespace(s)
    ensures Trim(s) == s
  {
    if s != [] {
      assert !IsJsWhitespace(s[0]);
      assert !IsJsWhitespace(s[|s| - 1]);
    }
  }

  function DigitChar(d: nat): (c: char)
    requires d < 10
    ensures '0' <= c <= '9'
    ensures DigitValue(c) == d
  {
    ('0' as int + d) as char
  }

  /** The number a decimal digit character stands for. */
  function DigitValue(c: char): nat {
    if '0' <= c <= '9' then c as int - '0' as int else 0
  }

  /** The number a string of decimal digits denotes, read from the left. */
  function DigitsValue(r: string): nat
    decreases |r|
  {
    if r == [] then 0 else DigitsValue(r[..|r| - 1]) * 10 + DigitValue(r[|r| - 1])
  }

  /** The decimal text of a non-negative number, as template literals print it. */
  function DecimalString(n: nat): (r: string)
    ensures |r| > 0 && forall i :: 0 <= i < |r| ==> '0' <= r[i] <= '9'
    ensures |r| == 1 <==> n < 10
  {
    if n < 10 then [DigitChar(n)] else DecimalString(n / 10) + [DigitChar(n % 10)]
  }

  /** The printed digits denote `n`, with no leading zero. */
  lemma {:induction false} DecimalStringValue(n: nat)
    ensures DigitsValue(DecimalString(n)) == n
    ensures |DecimalString(n)| > 1 ==> DecimalString(n)[0] != '0'
  {
    var r := DecimalString(n);
    if n >= 10 {
      DecimalStringValue(n / 10);
      assert r[..|r| - 1] == DecimalString(n / 10);
      assert r[|r| - 1] == DigitChar(n % 10);
      if |DecimalString(n / 10)| == 1 {
        assert r[0] == DigitChar(n / 10);
      } else {
        assert r[0] == DecimalString(n / 10)[0];
      }
    }
  }
}

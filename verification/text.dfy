/** The string builtins the input validator relies on: `str.strip()`,
    `str.lower()`, `str(int)` and `int(str)`, over Dafny strings. */
module Text {

  /** Python's `str.isspace()` for one character: the characters a bare
      `strip()` removes from both ends. */
  predicate IsSpace(c: char)
    ensures c == ' ' || c == '\t' || c == '\n' || c == '\r' ==> IsSpace(c)
    ensures IsSpace(c) ==> !IsDigit(c) && c != '-' && c != 'q' && c != 'Q'
  {
    var n := c as int;
    (0x09 <= n <= 0x0D) || (0x1C <= n <= 0x20) || n == 0x85 || n == 0xA0 || n == 0x1680
    || (0x2000 <= n <= 0x200A) || n == 0x2028 || n == 0x2029 || n == 0x202F
    || n == 0x205F || n == 0x3000
  }

  predicate AllSpace(s: string) {
    forall k :: 0 <= k < |s| ==> IsSpace(s[k])
  }

  /** Drops leading whitespace; what is left does not start with whitespace. */
  function TrimStart(s: string): (r: string)
    ensures |r| <= |s|
    ensures r != [] ==> !IsSpace(r[0])
  {
    if s != [] && IsSpace(s[0]) then TrimStart(s[1..]) else s
  }

  /** What TrimStart keeps is a suffix of `s`, and all it drops is whitespace. */
  lemma {:induction false} TrimStartIsSuffix(s: string)
    ensures TrimStart(s) == s[|s| - |TrimStart(s)|..]
    ensures AllSpace(s[..|s| - |TrimStart(s)|])
  {
    if s != [] && IsSpace(s[0]) {
      TrimStartIsSuffix(s[1..]);
      assert s[1..][..|s| - 1 - |TrimStart(s)|] == s[1..|s| - |TrimStart(s)|];
    }
  }

  /** Drops trailing whitespace; what is left does not end with whitespace. */
  function TrimEnd(s: string): (r: string)
    ensures |r| <= |s|
    ensures r != [] ==> !IsSpace(r[|r| - 1])
  {
    if s != [] && IsSpace(s[|s| - 1]) then TrimEnd(s[..|s| - 1]) else s
  }

  /** What TrimEnd keeps is a prefix of `s`, and all it drops is whitespace. */
  lemma {:induction false} TrimEndIsPrefix(s: string)
    ensures TrimEnd(s) == s[..|TrimEnd(s)|]
    ensures AllSpace(s[|TrimEnd(s)|..])
  {
    if s != [] && IsSpace(s[|s| - 1]) {
      var u := s[..|s| - 1];
      TrimEndIsPrefix(u);
      assert s[|TrimEnd(s)|..] == u[|TrimEnd(u)|..] + [s[|s| - 1]];
    }
  }

  /** `s.strip()`: the text between the leading and the trailing whitespace. */
  function Strip(s: string): (r: string)
    ensures r != [] ==> !IsSpace(r[0]) && !IsSpace(r[|r| - 1])
  {
    var t := TrimStart(s);
    TrimEndIsPrefix(t);
    TrimEnd(t)
  }

  /** A line strips to nothing exactly when it is all whitespace. */
  lemma StripBlank(s: string)
    ensures Strip(s) == [] <==> AllSpace(s)
  {
    var t := TrimStart(s);
    TrimStartIsSuffix(s);
    TrimEndIsPrefix(t);
    if t != [] {
      assert s[|s| - |t|] == t[0];
    }
  }

  /** Stripping a stripped line changes nothing, so the validator sees the
      same text however much surrounding whitespace the operator typed. */
  lemma StripIdempotent(s: string)
    ensures Strip(Strip(s)) == Strip(s)
  {
  }

  /** Surrounding whitespace never changes what `strip()` returns. */
  lemma {:induction false} StripIgnoresPadding(pre: string, s: string, post: string)
    requires AllSpace(pre) && AllSpace(post)
    ensures Strip(pre + s + post) == Strip(s)
  {
    if pre != [] {
      assert (pre + s + post)[1..] == pre[1..] + s + post;
      StripIgnoresPadding(pre[1..], s, post);
    } else if post != [] {
      assert pre + s + post == s + post;
      StripTrailing(s, post);
    } else {
      assert pre + s + post == s;
    }
  }

  lemma {:induction false} StripTrailing(s: string, post: string)
    requires AllSpace(post)
    ensures Strip(s + post) == Strip(s)
  {
    if post == [] {
      assert s + post == s;
    } else if AllSpace(s) {
      assert AllSpace(s + post);
      StripBlank(s);
      StripBlank(s + post);
    } else {
      StripBlank(s);
      TrimStartOfPadded(s, post);
      var t := TrimStart(s);
      TrimEndPadded(t, post);
    }
  }

  lemma {:induction false} TrimStartOfPadded(s: string, post: string)
    requires !AllSpace(s)
    ensures TrimStart(s + post) == TrimStart(s) + post
  {
    if IsSpace(s[0]) {
      assert (s + post)[1..] == s[1..] + post;
      assert !AllSpace(s[1..]) by {
        var k :| 0 <= k < |s| && !IsSpace(s[k]);
        assert s[1..][k - 1] == s[k];
      }
      TrimStartOfPadded(s[1..], post);
    }
  }

  lemma {:induction false} TrimEndPadded(t: string, post: string)
    requires AllSpace(post)
    ensures TrimEnd(t + post) == TrimEnd(t)
    decreases |post|
  {
    if post != [] {
      var u := t + post;
      assert u[..|u| - 1] == t + post[..|post| - 1];
      TrimEndPadded(t, post[..|post| - 1]);
    } else {
      assert t + post == t;
    }
  }

  /** `str.lower()` on one character, for the ASCII letters. */
  function LowerChar(c: char): char {
    if 'A' <= c <= 'Z' then (c as int - 'A' as int + 'a' as int) as char else c
  }

  /** `s.lower()`, character by character. */
  function ToLower(s: string): (r: string)
    ensures |r| == |s|
  {
    if s == [] then [] else [LowerChar(s[0])] + ToLower(s[1..])
  }

  /** The quit test of the formula prompt: the stripped input, lower-cased, is "q". */
  predicate IsQuitToken(t: string) {
    ToLower(t) == "q"
  }

  /** The quit token is exactly "q" or "Q": nothing else lower-cases to "q". */
  lemma QuitTokenIsQ(t: string)
    ensures IsQuitToken(t) <==> t == "q" || t == "Q"
  {
  }

  predicate IsDigit(c: char) {
    '0' <= c <= '9'
  }

  function DigitChar(d: nat): (c: char)
    requires d < 10
  {
    ('0' as int + d) as char
  }

  function DigitValue(c: char): nat {
    if IsDigit(c) then c as int - '0' as int else 0
  }

  /** `str(n)` for a natural number: decimal digits, most significant first,
      never empty and with no leading zero except in "0" itself. */
  function NatToString(n: nat): (s: string)
    ensures s != [] && forall k :: 0 <= k < |s| ==> IsDigit(s[k])
    ensures |s| > 1 ==> s[0] != '0'
  {
    if n < 10 then [DigitChar(n)] else NatToString(n / 10) + [DigitChar(n % 10)]
  }

  /** `str(n)` for an integer: a minus sign before the digits of |n| when n < 0. */
  function IntToString(n: int): (s: string)
    ensures s != []
    ensures s[0] == '-' <==> n < 0
  {
    if n < 0 then "-" + NatToString(-n) else NatToString(n)
  }

  /** The value of a string of decimal digits. */
  function DigitsValue(s: string): nat {
    if s == [] then 0 else DigitsValue(s[..|s| - 1]) * 10 + DigitValue(s[|s| - 1])
  }

  /** `int(s)` on an optionally signed string of decimal digits. The validator
      calls it only on strings produced by `str`, so no error path is needed. */
  function ParseInt(s: string): (n: int)
    ensures s != [] && s[0] == '-' ==> n <= 0
    ensures !(s != [] && s[0] == '-') ==> n >= 0
  {
    if s != [] && s[0] == '-' then -(DigitsValue(s[1..]) as int) else DigitsValue(s)
  }

  lemma {:induction false} NatRoundTrip(n: nat)
    ensures DigitsValue(NatToString(n)) == n
  {
    var s := NatToString(n);
    if n >= 10 {
      NatRoundTrip(n / 10);
      assert s[..|s| - 1] == NatToString(n / 10);
    }
  }

  /** `int(str(n)) == n` for every integer. */
  lemma IntRoundTrip(n: int)
    ensures ParseInt(IntToString(n)) == n
  {
    if n < 0 {
      NatRoundTrip(-n);
      assert IntToString(n)[1..] == NatToString(-n);
    } else {
      NatRoundTrip(n);
    }
  }

  lemma AllIntsRoundTrip()
    ensures forall n :: ParseInt(IntToString(n)) == n
  {
    forall n ensures ParseInt(IntToString(n)) == n {
      IntRoundTrip(n);
    }
  }

  /** Two integers with the same decimal string are equal. */
  lemma IntToStringInjective(a: int, b: int)
    requires IntToString(a) == IntToString(b)
    ensures a == b
  {
    IntRoundTrip(a);
    IntRoundTrip(b);
  }
}

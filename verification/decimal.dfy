/**
 * Decimal text of integers: what `operator<<` writes for an unsigned number and
 * what the property tree accepts when it reads a value as an `int`.
 */
module Decimal {
  import opened Wrappers

  /** An unsigned 32-bit integer (`uint32_t`). */
  type Uint32 = x: nat | x < 0x1_0000_0000

  const Int32Min: int := -0x8000_0000
  const Int32Max: int := 0x7fff_ffff

  predicate IsDigit(c: char) {
    '0' <= c <= '9'
  }

  predicate AllDigits(s: string) {
    forall i :: 0 <= i < |s| ==> IsDigit(s[i])
  }

  function DigitChar(d: nat): (c: char)
    requires d < 10
    ensures IsDigit(c) && c as int - '0' as int == d
  {
    ('0' as int + d) as char
  }

  /** The decimal text of `n`: digits only, never empty, no leading zero. */
  function DecimalString(n: nat): (s: string)
    ensures |s| > 0 && AllDigits(s)
    ensures s[0] == '0' <==> n == 0
    ensures n >= 10 ==> |s| > 1
    decreases n
  {
    if n < 10 then [DigitChar(n)] else DecimalString(n / 10) + [DigitChar(n % 10)]
  }

  /** The value of a string of decimal digits (the empty string reads as 0). */
  function ParseDigits(s: string): nat
    requires AllDigits(s)
  {
    if s == [] then 0 else ParseDigits(s[..|s| - 1]) * 10 + (s[|s| - 1] as int - '0' as int)
  }

  /** Reading back the decimal text of a number yields the number. */
  lemma {:induction false} ParseDecimal(n: nat)
    ensures ParseDigits(DecimalString(n)) == n
  {
    if n >= 10 {
      var s := DecimalString(n);
      assert s[..|s| - 1] == DecimalString(n / 10);
      ParseDecimal(n / 10);
    }
  }

  /** Decimal text is injective: two numbers with the same text are equal. */
  lemma DecimalInjective(m: nat, n: nat)
    requires DecimalString(m) == DecimalString(n)
    ensures m == n
  {
    ParseDecimal(m);
    ParseDecimal(n);
  }

  /**
   * The longest prefix of `s` made of digits, and what follows it.
   */
  function TakeDigits(s: string): (r: (string, string))
    ensures r.0 + r.1 == s && AllDigits(r.0)
    ensures r.1 == [] || !IsDigit(r.1[0])
  {
    if s != [] && IsDigit(s[0]) then
      var rest := TakeDigits(s[1..]);
      ([s[0]] + rest.0, rest.1)
    else
      ([], s)
  }

  /** A run of digits followed by a non-digit (or nothing) splits back into the two. */
  lemma {:induction false} TakeDigitsOf(d: string, rest: string)
    requires AllDigits(d)
    requires rest == [] || !IsDigit(rest[0])
    ensures TakeDigits(d + rest) == (d, rest)
  {
    if d != [] {
      assert (d + rest)[1..] == d[1..] + rest;
      TakeDigitsOf(d[1..], rest);
      assert [d[0]] + d[1..] == d;
    } else {
      assert d + rest == rest;
    }
  }

  /** The characters the C library counts as white space. */
  predicate IsSpace(c: char) {
    c == ' ' || c == '\t' || c == '\n' || c == '\U{000B}' || c == '\U{000C}' || c == '\r'
  }

  predicate AllSpaces(s: string) {
    forall i :: 0 <= i < |s| ==> IsSpace(s[i])
  }

  /** `s` without its leading white space. */
  function TrimStart(s: string): (r: string)
    ensures r == [] || !IsSpace(r[0])
  {
    if s != [] && IsSpace(s[0]) then TrimStart(s[1..]) else s
  }

  /** `s` without its trailing white space. */
  function TrimEnd(s: string): (r: string)
    ensures r == [] || !IsSpace(r[|r| - 1])
  {
    if s != [] && IsSpace(s[|s| - 1]) then TrimEnd(s[..|s| - 1]) else s
  }

  /** What `TrimStart` drops is white space in front of what it keeps. */
  lemma {:induction false} TrimStartSplits(s: string)
    ensures |TrimStart(s)| <= |s| && TrimStart(s) == s[|s| - |TrimStart(s)|..]
    ensures AllSpaces(s[..|s| - |TrimStart(s)|])
  {
    if s != [] && IsSpace(s[0]) {
      TrimStartSplits(s[1..]);
      assert s[1..][..|s| - 1 - |TrimStart(s)|] == s[1..|s| - |TrimStart(s)|];
    }
  }

  /** What `TrimEnd` drops is white space after what it keeps. */
  lemma {:induction false} TrimEndSplits(s: string)
    ensures |TrimEnd(s)| <= |s| && TrimEnd(s) == s[..|TrimEnd(s)|]
    ensures AllSpaces(s[|TrimEnd(s)|..])
  {
    if s != [] && IsSpace(s[|s| - 1]) {
      TrimEndSplits(s[..|s| - 1]);
      assert s[..|s| - 1][|TrimEnd(s)|..] == s[|TrimEnd(s)|..|s| - 1];
    }
  }

  /** White space in front of text that starts with something else is dropped, and only it. */
  lemma {:induction false} TrimStartOf(pre: string, t: string)
    requires AllSpaces(pre)
    requires t == [] || !IsSpace(t[0])
    ensures TrimStart(pre + t) == t
  {
    if pre != [] {
      assert (pre + t)[1..] == pre[1..] + t;
      TrimStartOf(pre[1..], t);
    } else {
      assert pre + t == t;
    }
  }

  /** White space after text that ends with something else is dropped, and only it. */
  lemma {:induction false} TrimEndOf(t: string, post: string)
    requires AllSpaces(post)
    requires t == [] || !IsSpace(t[|t| - 1])
    ensures TrimEnd(t + post) == t
  {
    if post != [] {
      assert (t + post)[..|t + post| - 1] == t + post[..|post| - 1];
      TrimEndOf(t, post[..|post| - 1]);
    } else {
      assert t + post == t;
    }
  }

  /**
   * An `int` read from text the way a string stream reads one: white space
   * around it is skipped, and the rest must be an `int` as `ReadSigned` reads it.
   */
  function ParseInt(s: string): (r: Option<int>)
    ensures r.Some? ==> Int32Min <= r.value <= Int32Max
    ensures r.Some? ==>
      var t := TrimEnd(TrimStart(s));
      |t| > 0 && AllDigits(if t[0] == '-' || t[0] == '+' then t[1..] else t)
  {
    ReadSigned(TrimEnd(TrimStart(s)))
  }

  /**
   * An optional `+` or `-` sign and at least one digit, within the range of a
   * 32-bit `int`; anything else is not an `int`.
   */
  function ReadSigned(t: string): (r: Option<int>)
    ensures r.Some? ==> Int32Min <= r.value <= Int32Max
    ensures r.Some? ==> |t| > 0 && AllDigits(if t[0] == '-' || t[0] == '+' then t[1..] else t)
  {
    if |t| > 1 && (t[0] == '-' || t[0] == '+') && AllDigits(t[1..]) then
      var v := if t[0] == '-' then 0 - ParseDigits(t[1..]) as int else ParseDigits(t[1..]);
      if Int32Min <= v <= Int32Max then Some(v) else None
    else if |t| > 0 && AllDigits(t) then
      var v := ParseDigits(t);
      if v <= Int32Max then Some(v) else None
    else
      None
  }

  /**
   * Every `int` in range is read back from its text, with a minus sign when
   * negative, and also with an explicit plus sign.
   */
  lemma ParseIntOfDecimal(n: nat)
    ensures n <= Int32Max ==> ParseInt(DecimalString(n)) == Some(n)
    ensures n <= Int32Max ==> ParseInt("+" + DecimalString(n)) == Some(n)
    ensures n <= -Int32Min ==> ParseInt("-" + DecimalString(n)) == Some(-(n as int))
  {
    var s := DecimalString(n);
    ParseDecimal(n);
    ParseUnsignedDigits(s);
    ParseSignedDigits(s, '+');
    ParseSignedDigits(s, '-');
  }

  /** Digits alone are read as the number they spell. */
  lemma ParseUnsignedDigits(s: string)
    requires |s| > 0 && AllDigits(s)
    ensures ParseInt(s) == if ParseDigits(s) <= Int32Max then Some(ParseDigits(s)) else None
  {
    assert IsDigit(s[0]) && IsDigit(s[|s| - 1]);
    Unpadded(s);
  }

  /** A sign in front of digits is read as that sign. */
  lemma ParseSignedDigits(s: string, sign: char)
    requires |s| > 0 && AllDigits(s)
    requires sign == '+' || sign == '-'
    ensures ParseInt([sign] + s)
         == (var v := if sign == '-' then 0 - ParseDigits(s) as int else ParseDigits(s);
             if Int32Min <= v <= Int32Max then Some(v) else None)
  {
    var t := [sign] + s;
    assert t[|t| - 1] == s[|s| - 1] && IsDigit(s[|s| - 1]);
    Unpadded(t);
    ReadSignedDigits(s, sign);
  }

  /** `ParseSignedDigits` for text already free of surrounding white space. */
  lemma ReadSignedDigits(s: string, sign: char)
    requires |s| > 0 && AllDigits(s)
    requires sign == '+' || sign == '-'
    ensures ReadSigned([sign] + s)
         == (var v := if sign == '-' then 0 - ParseDigits(s) as int else ParseDigits(s);
             if Int32Min <= v <= Int32Max then Some(v) else None)
  {
    assert ([sign] + s)[1..] == s;
  }

  /** Text that neither starts nor ends with white space is read as it stands. */
  lemma Unpadded(t: string)
    requires |t| > 0 && !IsSpace(t[0]) && !IsSpace(t[|t| - 1])
    ensures ParseInt(t) == ReadSigned(t)
  {
    assert TrimStart(t) == t;
    assert TrimEnd(t) == t;
  }

  /** White space before and after the text does not change the `int` read from it. */
  lemma ParseIntPadded(pre: string, t: string, post: string)
    requires AllSpaces(pre) && AllSpaces(post)
    requires |t| > 0 && !IsSpace(t[0]) && !IsSpace(t[|t| - 1])
    ensures ParseInt(pre + t + post) == ParseInt(t)
  {
    assert pre + t + post == pre + (t + post);
    TrimStartOf(pre, t + post);
    TrimEndOf(t, post);
    assert TrimEnd(TrimStart(pre + t + post)) == t;
    Unpadded(t);
  }
}

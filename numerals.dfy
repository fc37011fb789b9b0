/**
 * Decimal integers as text: Python's `str(n)` for an `int`, and the decimal
 * case of `int(s)` for a `str`.
 */
module Numerals {
  import opened Wrappers
  import opened Text

  predicate IsDigit(c: char)
  {
    '0' <= c <= '9'
  }

  predicate AllDigits(s: string)
  {
    forall i :: 0 <= i < |s| ==> IsDigit(s[i])
  }

  function DigitChar(d: nat): (c: char)
    requires d < 10
    ensures IsDigit(c)
  {
    (('0' as int) + d) as char
  }

  /** The value of a string of decimal digits (leading zeros allowed). */
  function DigitsValue(ds: string): nat
    requires AllDigits(ds)
    decreases |ds|
  {
    if ds == [] then 0
    else 10 * DigitsValue(ds[..|ds| - 1]) + ((ds[|ds| - 1] as int) - ('0' as int))
  }

  /** `str(n)` for `n >= 0`: the shortest decimal rendering of `n`. */
  function DecimalString(n: nat): (r: string)
    ensures r != [] && AllDigits(r)
    ensures DigitsValue(r) == n
    ensures |r| > 1 ==> r[0] != '0'
  {
    if n < 10 then [DigitChar(n)]
    else
      var r := DecimalString(n / 10) + [DigitChar(n % 10)];
      assert r[..|r| - 1] == DecimalString(n / 10);
      r
  }

  /** `str(i)` for any `int`. */
  function IntString(i: int): (r: string)
    ensures r != [] && !IsSpace(r[0]) && !IsSpace(r[|r| - 1])
    ensures i < 0 <==> r[0] == '-'
  {
    if i < 0 then "-" + DecimalString(-i) else DecimalString(i)
  }

  /** `str(i)` holds no separator: a sign and decimal digits only. */
  lemma IntStringNoSeparator(i: int)
    ensures !HasSeparator(IntString(i))
  {
    var r := IntString(i);
    if i < 0 {
      assert r[1..] == DecimalString(-i);
      assert forall k :: 1 <= k < |r| ==> r[k] == r[1..][k - 1];
    }
    assert NoSeparator(r);
    HasSeparatorIff(r);
  }

  /** An optional sign followed by at least one decimal digit. */
  function ParseDigits(ds: string): (r: Option<nat>)
    ensures r.Some? <==> ds != [] && AllDigits(ds)
  {
    if ds != [] && AllDigits(ds) then Some(DigitsValue(ds)) else None
  }

  /**
   * The four information separators U+001C..U+001F: `str.strip()` removes
   * them, but `int()` skips only the other whitespace characters, so a
   * string holding one of them never parses.
   */
  predicate IsSeparator(c: char)
  {
    0x1C <= c as int <= 0x1F
  }

  /** The whitespace `int()` skips around a number. */
  predicate IsIntSpace(c: char)
  {
    IsSpace(c) && !IsSeparator(c)
  }

  predicate NoSeparator(s: string)
  {
    forall i :: 0 <= i < |s| ==> !IsSeparator(s[i])
  }

  /** Whether `s` holds a separator, scanned from the front. */
  predicate HasSeparator(s: string)
  {
    s != [] && (IsSeparator(s[0]) || HasSeparator(s[1..]))
  }

  lemma {:induction false} HasSeparatorIff(s: string)
    ensures HasSeparator(s) <==> !NoSeparator(s)
  {
    if s != [] {
      HasSeparatorIff(s[1..]);
      assert forall i :: 1 <= i < |s| ==> s[i] == s[1..][i - 1];
    }
  }

  /**
   * `int(s)` for base 10: surrounding whitespace is ignored, one optional
   * `+` or `-` sign, then decimal digits; anything else is a `ValueError`,
   * read here as `None`.
   */
  function ParseInt(s: string): (r: Option<int>)
    ensures IsBlank(s) ==> r == None
    ensures HasSeparator(s) ==> r == None
  {
    var t := Strip(s);
    if HasSeparator(s) then None
    else if t != [] && (t[0] == '+' || t[0] == '-') then
      match ParseDigits(t[1..])
      case None => None
      case Some(v) => Some(if t[0] == '-' then -(v as int) else v as int)
    else
      match ParseDigits(t)
      case None => None
      case Some(v) => Some(v)
  }

  /** `int(str(i)) == i`: rendering then parsing gives back every integer. */
  lemma {:induction false} ParseIntString(i: int)
    ensures ParseInt(IntString(i)) == Some(i)
  {
    var r := IntString(i);
    StripUnchanged(r);
    IntStringNoSeparator(i);
    if i < 0 {
      assert r[1..] == DecimalString(-i);
    }
  }

  /**
   * `int(s)` ignores the whitespace it skips around the number, as
   * `int(" 2 ") == 2`.
   */
  lemma {:induction false} ParseIntPadded(pre: string, s: string, post: string)
    requires forall i :: 0 <= i < |pre| ==> IsIntSpace(pre[i])
    requires forall i :: 0 <= i < |post| ==> IsIntSpace(post[i])
    ensures ParseInt(pre + s + post) == ParseInt(s)
  {
    StripPadded(pre, s, post);
    SeparatorPadded(pre, s, post);
    SameStripSameParse(pre + s + post, s);
  }

  /** Padding with the whitespace `int()` skips adds no separator. */
  lemma {:induction false} SeparatorPadded(pre: string, s: string, post: string)
    requires forall i :: 0 <= i < |pre| ==> IsIntSpace(pre[i])
    requires forall i :: 0 <= i < |post| ==> IsIntSpace(post[i])
    ensures IsBlank(pre) && IsBlank(post)
    ensures NoSeparator(pre + s + post) <==> NoSeparator(s)
  {
    var x := pre + s + post;
    assert forall i :: 0 <= i < |s| ==> x[|pre| + i] == s[i];
    assert forall i :: 0 <= i < |pre| ==> x[i] == pre[i];
    assert forall i :: |pre| + |s| <= i < |x| ==> x[i] == post[i - |pre| - |s|];
  }

  /** `int()` reads only what `strip()` keeps, once no separator is present. */
  lemma SameStripSameParse(a: string, b: string)
    requires Strip(a) == Strip(b) && (NoSeparator(a) <==> NoSeparator(b))
    ensures ParseInt(a) == ParseInt(b)
  {
    HasSeparatorIff(a);
    HasSeparatorIff(b);
  }

  /** A separator next to a number makes `int()` fail, though `strip()` would remove it. */
  lemma SeparatorRejected(d: nat)
    requires d < 10
    ensures var s := [0x1C as char, DigitChar(d)];
      Strip(s) == [DigitChar(d)] && ParseInt(s) == None
  {
    var s := [0x1C as char, DigitChar(d)];
    StripAt(s, 1, 2);
  }
}

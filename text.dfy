/**
 * Python string operations the modelled code relies on: `str.isspace`,
 * `str.strip`, `"sep".join(parts)` and the slice-based preview used by
 * `short_preview`.
 */
module Text {

  /** The characters Python's `str.strip()` removes (its whitespace set). */
  predicate IsSpace(c: char)
  {
    var n := c as int;
    || 0x09 <= n <= 0x0D
    || 0x1C <= n <= 0x20
    || n == 0x85 || n == 0xA0 || n == 0x1680
    || 0x2000 <= n <= 0x200A
    || n == 0x2028 || n == 0x2029 || n == 0x202F || n == 0x205F || n == 0x3000
  }

  /** `not s.strip()`: the string is empty or only whitespace. */
  predicate IsBlank(s: string)
  {
    forall i :: 0 <= i < |s| ==> IsSpace(s[i])
  }

  /** How many whitespace characters `s.lstrip()` removes. */
  function LeadingSpaces(s: string): (n: nat)
    ensures n <= |s|
    ensures forall i :: 0 <= i < n ==> IsSpace(s[i])
    ensures n < |s| ==> !IsSpace(s[n])
  {
    if s != [] && IsSpace(s[0]) then 1 + LeadingSpaces(s[1..]) else 0
  }

  /** How many whitespace characters `s.rstrip()` removes. */
  function TrailingSpaces(s: string): (n: nat)
    ensures n <= |s|
    ensures forall i :: |s| - n <= i < |s| ==> IsSpace(s[i])
    ensures n < |s| ==> !IsSpace(s[|s| - n - 1])
  {
    if s != [] && IsSpace(s[|s| - 1]) then 1 + TrailingSpaces(s[..|s| - 1]) else 0
  }

  /**
   * `s.strip()`: whitespace cut from both ends; it is empty exactly when `s`
   * is blank.
   */
  function Strip(s: string): (r: string)
    ensures r == [] <==> IsBlank(s)
    ensures r == [] || (!IsSpace(r[0]) && !IsSpace(r[|r| - 1]))
  {
    var start := LeadingSpaces(s);
    var trailing := TrailingSpaces(s[start..]);
    StripEnds(s, start, trailing);
    s[start..|s| - trailing]
  }

  /**
   * Cutting `start` leading and then `trailing` trailing whitespace
   * characters, each count maximal, leaves the middle of `s` with no
   * whitespace at its ends.
   */
  lemma {:induction false} StripEnds(s: string, start: nat, trailing: nat)
    requires start <= |s| && (forall i :: 0 <= i < start ==> IsSpace(s[i])) && (start < |s| ==> !IsSpace(s[start]))
    requires var rest := s[start..];
      && trailing <= |rest|
      && (forall i :: |rest| - trailing <= i < |rest| ==> IsSpace(rest[i]))
      && (trailing < |rest| ==> !IsSpace(rest[|rest| - trailing - 1]))
    ensures var end := |s| - trailing;
      && start <= end
      && (start == end <==> IsBlank(s))
      && (start < end ==> !IsSpace(s[start]) && !IsSpace(s[end - 1]))
      && (forall i :: end <= i < |s| ==> IsSpace(s[i]))
  {
    var rest, end := s[start..], |s| - trailing;
    assert forall i :: start <= i < |s| ==> s[i] == rest[i - start];
    if start == end {
      assert start == |s|;
    }
  }

  /** What `strip()` keeps is the middle of `s`, with only whitespace before and after it. */
  lemma {:induction false} StripIsMiddle(s: string)
    ensures var start, r := LeadingSpaces(s), Strip(s);
      && start + |r| <= |s|
      && r == s[start..start + |r|]
      && (forall i :: 0 <= i < start ==> IsSpace(s[i]))
      && (forall i :: start + |r| <= i < |s| ==> IsSpace(s[i]))
  {
    var start := LeadingSpaces(s);
    var trailing := TrailingSpaces(s[start..]);
    StripEnds(s, start, trailing);
    var r := Strip(s);
    assert r == s[start..|s| - trailing];
    assert start + |r| == |s| - trailing;
  }

  /**
   * `strip()` is determined by where the text starts and ends: if `x[a..b]`
   * has whitespace before and after it and none at its own ends, it is
   * what `strip()` keeps.
   */
  lemma {:induction false} StripAt(x: string, a: nat, b: nat)
    requires a <= b <= |x|
    requires forall i :: 0 <= i < a ==> IsSpace(x[i])
    requires forall i :: b <= i < |x| ==> IsSpace(x[i])
    requires a < b ==> !IsSpace(x[a]) && !IsSpace(x[b - 1])
    ensures Strip(x) == x[a..b]
  {
    if a == b {
      assert IsBlank(x);
    } else {
      var start := LeadingSpaces(x);
      assert start == a;
      var rest := x[a..];
      var trailing := TrailingSpaces(rest);
      assert forall i :: 0 <= i < |rest| ==> rest[i] == x[a + i];
      assert trailing == |x| - b;
    }
  }

  /** Whitespace added around a string does not change what `strip()` keeps. */
  lemma {:induction false} StripPadded(pre: string, s: string, post: string)
    requires IsBlank(pre) && IsBlank(post)
    ensures Strip(pre + s + post) == Strip(s)
  {
    StripIsMiddle(s);
    StripAround(pre, s, post, LeadingSpaces(s), Strip(s));
  }

  /** Any middle `r` of `s`, as `StripIsMiddle` describes it, is what `strip()` keeps of `s` padded with whitespace. */
  lemma {:induction false} StripAround(pre: string, s: string, post: string, k: nat, r: string)
    requires IsBlank(pre) && IsBlank(post)
    requires k + |r| <= |s| && r == s[k..k + |r|]
    requires (forall i :: 0 <= i < k ==> IsSpace(s[i])) && (forall i :: k + |r| <= i < |s| ==> IsSpace(s[i]))
    requires r == [] || (!IsSpace(r[0]) && !IsSpace(r[|r| - 1]))
    ensures Strip(pre + s + post) == r
  {
    PaddedMiddle(pre, s, post, k, r);
    StripAt(pre + s + post, |pre| + k, |pre| + k + |r|);
  }

  /** The index facts behind `StripAround`, for any middle `r` of `s` starting at `k`. */
  lemma {:induction false} PaddedMiddle(pre: string, s: string, post: string, k: nat, r: string)
    requires IsBlank(pre) && IsBlank(post)
    requires k + |r| <= |s| && r == s[k..k + |r|]
    requires (forall i :: 0 <= i < k ==> IsSpace(s[i])) && (forall i :: k + |r| <= i < |s| ==> IsSpace(s[i]))
    requires r == [] || (!IsSpace(r[0]) && !IsSpace(r[|r| - 1]))
    ensures var x, a, b := pre + s + post, |pre| + k, |pre| + k + |r|;
      && b <= |x|
      && (forall i :: 0 <= i < a ==> IsSpace(x[i]))
      && (forall i :: b <= i < |x| ==> IsSpace(x[i]))
      && (a < b ==> !IsSpace(x[a]) && !IsSpace(x[b - 1]))
      && x[a..b] == r
  {
    var x := pre + s + post;
    assert forall i :: 0 <= i < |s| ==> x[|pre| + i] == s[i];
    assert forall i :: 0 <= i < |pre| ==> x[i] == pre[i];
    assert forall i :: |pre| + |s| <= i < |x| ==> x[i] == post[i - |pre| - |s|];
    assert forall i :: 0 <= i < |r| ==> r[i] == s[k + i];
  }

  /** A string with no whitespace at either end is left alone by `strip()`. */
  lemma StripUnchanged(s: string)
    requires s == [] || (!IsSpace(s[0]) && !IsSpace(s[|s| - 1]))
    ensures Strip(s) == s
  {
  }

  /** `strip()` is idempotent. */
  lemma StripIdempotent(s: string)
    ensures Strip(Strip(s)) == Strip(s)
  {
    StripUnchanged(Strip(s));
  }

  /** `sep.join(parts)` */
  function Join(sep: string, parts: seq<string>): (r: string)
    ensures parts == [] ==> r == ""
    ensures parts != [] ==> parts[0] <= r && |parts[|parts| - 1]| <= |r|
    ensures parts != [] ==> r[|r| - |parts[|parts| - 1]|..] == parts[|parts| - 1]
    decreases |parts|
  {
    if parts == [] then ""
    else if |parts| == 1 then parts[0]
    else
      var rest := Join(sep, parts[1..]);
      var r := parts[0] + sep + rest;
      assert r[|r| - |parts[|parts| - 1]|..] == rest[|rest| - |parts[|parts| - 1]|..];
      r
  }

  /** `s[:n]`: a negative `n` counts from the end of `s`. */
  function SlicePrefix(s: string, n: int): (r: string)
    ensures r <= s
    ensures 0 <= n ==> |r| == if n < |s| then n else |s|
    ensures n < 0 ==> |r| == if |s| + n < 0 then 0 else |s| + n
  {
    if 0 <= n then (if n < |s| then s[..n] else s)
    else if |s| + n < 0 then [] else s[..|s| + n]
  }

  /**
   * `s if len(s) <= length else f"{s[:length]}..."`, the body shared by
   * `Question.short_preview` and `Response.short_preview`.
   */
  function Preview(s: string, length: int): (r: string)
    ensures |s| <= length ==> r == s
    ensures |s| > length ==> r == SlicePrefix(s, length) + "..."
    ensures 0 <= length < |s| ==> |r| == length + 3 && r[..length] == s[..length] && r[length..] == "..."
    ensures length < 0 < |s| ==> |r| < |s| + 3 && r[..|r| - 3] <= s
  {
    if |s| <= length then s else SlicePrefix(s, length) + "..."
  }
}

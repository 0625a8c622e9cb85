/** The few pieces of JavaScript's string and array semantics the application
    relies on: truthiness of strings and `||`, `includes`, `startsWith`,
    `toLowerCase`, `trim`, `substring` and `slice`. */
module Js {
  import opened Wrappers

  /** A string value is truthy when it is defined and not empty. */
  predicate Truthy(s: Option<string>) {
    s.Some? && s.value != ""
  }

  /** `a || b` on two optional strings. */
  function Or(a: Option<string>, b: Option<string>): (r: Option<string>)
    ensures Truthy(a) ==> r == a
    ensures !Truthy(a) ==> r == b
  {
    if Truthy(a) then a else b
  }

  /** `s.startsWith(prefix)`. */
  predicate StartsWith(s: string, prefix: string) {
    |prefix| <= |s| && s[..|prefix|] == prefix
  }

  /** `s.includes(sub)`: some suffix of `s` starts with `sub`. */
  predicate Contains(s: string, sub: string)
    decreases |s|
  {
    StartsWith(s, sub) || (|s| > 0 && Contains(s[1..], sub))
  }

  /** `sub` occurs in `s` at position `i`. */
  predicate OccursAt(s: string, sub: string, i: int) {
    0 <= i && i + |sub| <= |s| && s[i..i + |sub|] == sub
  }

  /** `Contains` agrees with the positional definition of "occurs somewhere". */
  lemma {:induction false} ContainsIffOccurs(s: string, sub: string)
    ensures Contains(s, sub) <==> exists i :: OccursAt(s, sub, i)
    decreases |s|
  {
    if Contains(s, sub) {
      if StartsWith(s, sub) {
        assert OccursAt(s, sub, 0);
      } else {
        ContainsIffOccurs(s[1..], sub);
        var i :| OccursAt(s[1..], sub, i);
        assert s[1..][i..i + |sub|] == s[i + 1..i + 1 + |sub|];
        assert OccursAt(s, sub, i + 1);
      }
    }
    if exists i :: OccursAt(s, sub, i) {
      var i :| OccursAt(s, sub, i);
      if i == 0 {
        assert s[..|sub|] == s[0..|sub|];
      } else {
        assert s[1..][i - 1..i - 1 + |sub|] == s[i..i + |sub|];
        assert OccursAt(s[1..], sub, i - 1);
        ContainsIffOccurs(s[1..], sub);
      }
    }
  }

  /** If `s` contains `mid` and `mid` contains `sub`, then `s` contains `sub`. */
  lemma ContainsTransitive(s: string, mid: string, sub: string)
    requires Contains(s, mid) && Contains(mid, sub)
    ensures Contains(s, sub)
  {
    ContainsIffOccurs(s, mid);
    ContainsIffOccurs(mid, sub);
    var i :| OccursAt(s, mid, i);
    var j :| OccursAt(mid, sub, j);
    forall k | 0 <= k < |sub|
      ensures s[i + j + k] == sub[k]
    {
      assert sub[k] == mid[j + k] == s[i..i + |mid|][j + k];
    }
    assert s[i + j..i + j + |sub|] == sub;
    assert OccursAt(s, sub, i + j);
    ContainsIffOccurs(s, sub);
  }

  /** `c.toLowerCase()` for one character, restricted to ASCII letters. */
  function LowerChar(c: char): char {
    if 'A' <= c <= 'Z' then (c as int + 32) as char else c
  }

  /** `s.toLowerCase()` (ASCII case mapping only). */
  function ToLower(s: string): (r: string)
    ensures |r| == |s|
    ensures forall i :: 0 <= i < |s| ==> r[i] == LowerChar(s[i])
    ensures forall i :: 0 <= i < |r| ==> !('A' <= r[i] <= 'Z')
  {
    seq(|s|, i requires 0 <= i < |s| => LowerChar(s[i]))
  }

  /** The characters `String.prototype.trim` removes: ECMAScript's WhiteSpace
      and LineTerminator code points. */
  predicate IsWhitespace(c: char) {
    c == '\t' || c == '\n' || c == '\U{B}' || c == '\U{C}' || c == '\r' || c == ' '
    || c == '\U{A0}' || c == '\U{1680}' || ('\U{2000}' <= c <= '\U{200A}')
    || c == '\U{2028}' || c == '\U{2029}' || c == '\U{202F}' || c == '\U{205F}'
    || c == '\U{3000}' || c == '\U{FEFF}'
  }

  /** Every character of `s` is whitespace (this includes the empty string). */
  predicate IsBlank(s: string) {
    forall i :: 0 <= i < |s| ==> IsWhitespace(s[i])
  }

  function TrimStart(s: string): (r: string)
    ensures |r| <= |s| && r == s[|s| - |r|..]
    ensures r == [] || !IsWhitespace(r[0])
    ensures IsBlank(s[..|s| - |r|])
    decreases |s|
  {
    if |s| > 0 && IsWhitespace(s[0]) then TrimStart(s[1..]) else s
  }

  function TrimEnd(s: string): (r: string)
    ensures |r| <= |s| && r == s[..|r|]
    ensures r == [] || !IsWhitespace(r[|r| - 1])
    ensures IsBlank(s[|r|..])
    decreases |s|
  {
    if |s| > 0 && IsWhitespace(s[|s| - 1]) then TrimEnd(s[..|s| - 1]) else s
  }

  /** `s.trim()`. */
  function Trim(s: string): string {
    TrimEnd(TrimStart(s))
  }

  /** `!s.trim()`: the trimmed string is empty exactly when `s` is all whitespace. */
  lemma TrimEmptyIffBlank(s: string)
    ensures Trim(s) == "" <==> IsBlank(s)
  {
    var t := TrimStart(s);
    if Trim(s) == "" {
      assert t == t[..0] + t[0..];
      assert IsBlank(t);
      assert s == s[..|s| - |t|] + t;
    }
  }

  /** Clamps a `substring` argument into `[0, len]`. */
  function Clamp(x: int, len: nat): (r: nat)
    ensures r <= len
    ensures 0 <= x <= len ==> r == x
  {
    if x < 0 then 0 else if x > len then len else x
  }

  /** `s.substring(start, end)`: both indices are clamped, and swapped when
      `start > end`. */
  function Substring(s: string, start: int, end: int): (r: string)
    ensures |r| <= |s|
    ensures 0 <= start <= end ==> r == s[Clamp(start, |s|)..Clamp(end, |s|)]
    ensures 0 <= end <= start ==> r == s[Clamp(end, |s|)..Clamp(start, |s|)]
  {
    var a, b := Clamp(start, |s|), Clamp(end, |s|);
    if a <= b then s[a..b] else s[b..a]
  }

  /** `s.substring(start)`: everything from `start` on. */
  function SubstringFrom(s: string, start: int): (r: string)
    ensures r == s[Clamp(start, |s|)..]
  {
    Substring(s, start, |s|)
  }

  /** `s.substring(0, n)` for `n >= 0` is the prefix of length `min(n, |s|)`. */
  lemma SubstringPrefix(s: string, n: nat)
    ensures |Substring(s, 0, n)| == if n <= |s| then n else |s|
    ensures Substring(s, 0, n) == s[..|Substring(s, 0, n)|]
  {
  }

  /** `a.slice(0, end)` on an array: a negative `end` counts from the end. */
  function SliceTo<T>(a: seq<T>, end: int): (r: seq<T>)
    ensures |r| <= |a| && r == a[..|r|]
    ensures end >= 0 ==> |r| == if end <= |a| then end else |a|
    ensures end < 0 ==> |r| == if |a| + end >= 0 then |a| + end else 0
  {
    var n := if end < 0 then (if |a| + end >= 0 then |a| + end else 0)
             else if end <= |a| then end else |a|;
    a[..n]
  }

  /** The digit character for `d` in bases up to 36: `0`-`9`, then `a`-`z`. */
  function DigitChar(d: nat): char
    requires d < 36
  {
    if d < 10 then ('0' as int + d) as char else ('a' as int + d - 10) as char
  }

  /** The value of a digit character, or 36 for any other character. */
  function DigitValue(c: char): nat {
    if '0' <= c <= '9' then c as int - '0' as int
    else if 'a' <= c <= 'z' then c as int - 'a' as int + 10
    else 36
  }

  /** `c` is a digit of base `radix`. */
  predicate IsDigit(c: char, radix: nat) {
    DigitValue(c) < radix
  }

  /** `n.toString(radix)` for a non-negative integer `n`: most significant
      digit first, no sign, no leading zeros. */
  function Radix(n: nat, radix: nat): (r: string)
    requires 2 <= radix <= 36
    ensures |r| > 0
    ensures forall k :: 0 <= k < |r| ==> IsDigit(r[k], radix)
    decreases n
  {
    if n < radix then
      DigitValueOf(n);
      [DigitChar(n)]
    else
      var q, d := n / radix, n % radix;
      DivMod(n, radix);
      DigitValueOf(d);
      Radix(q, radix) + [DigitChar(d)]
  }

  /** Euclidean division by `radix`, in the facts `Radix` needs. */
  lemma DivMod(n: nat, radix: nat)
    requires 2 <= radix <= n
    ensures n / radix < n && n % radix < radix
    ensures n == n / radix * radix + n % radix
  {
  }

  /** Reading digits back as a number in base `radix`. */
  function ParseRadix(s: string, radix: nat): nat {
    if s == [] then 0 else ParseRadix(s[..|s| - 1], radix) * radix + DigitValue(s[|s| - 1])
  }

  lemma DigitValueOf(d: nat)
    requires d < 36
    ensures DigitValue(DigitChar(d)) == d
  {
  }

  /** Appending a digit multiplies by the base and adds its value. */
  lemma ParseRadixSnoc(s: string, c: char, radix: nat)
    ensures ParseRadix(s + [c], radix) == ParseRadix(s, radix) * radix + DigitValue(c)
  {
    assert (s + [c])[..|s|] == s;
  }

  /** `Radix` loses nothing: parsing its digits gives back the number. */
  lemma {:induction false} RadixRoundTrip(n: nat, radix: nat)
    requires 2 <= radix <= 36
    ensures ParseRadix(Radix(n, radix), radix) == n
    decreases n
  {
    if n < radix {
      DigitValueOf(n);
      ParseRadixSnoc([], DigitChar(n), radix);
      assert [] + [DigitChar(n)] == Radix(n, radix);
    } else {
      var q, d := n / radix, n % radix;
      DivMod(n, radix);
      var prefix := Radix(q, radix);
      RadixRoundTrip(q, radix);
      DigitValueOf(d);
      ParseRadixSnoc(prefix, DigitChar(d), radix);
      assert ParseRadix(prefix + [DigitChar(d)], radix) == q * radix + d;
    }
  }

  /** Equal renderings mean equal numbers. */
  lemma RadixInjective(a: nat, b: nat, radix: nat)
    requires 2 <= radix <= 36
    requires Radix(a, radix) == Radix(b, radix)
    ensures a == b
  {
    RadixRoundTrip(a, radix);
    RadixRoundTrip(b, radix);
  }
}

/** The pieces of JavaScript's string semantics that the extension relies on:
    `includes`, the `\s` class, `trim`, `length` in UTF-16 code units, the
    decimal form of an integer and what `\d+` consumes. Strings are sequences
    of Unicode code points. */
module JsString {

  /** `sub` occurs in `t` starting at index `i`. */
  predicate OccursAt(t: string, sub: string, i: int)
  {
    0 <= i && i + |sub| <= |t| && t[i..i + |sub|] == sub
  }

  /** `t.includes(sub)`. */
  predicate Contains(t: string, sub: string)
  {
    exists i | 0 <= i <= |t| - |sub| :: OccursAt(t, sub, i)
  }

  lemma OccursAtStartsWithFirst(t: string, sub: string, i: int)
    requires |sub| > 0 && OccursAt(t, sub, i)
    ensures t[i] == sub[0]
  {
    assert t[i..i + |sub|][0] == t[i];
  }

  /** A text in which the first character of `sub` never appears does not
      contain `sub`. */
  lemma AbsentFirstCharNotContained(t: string, sub: string)
    requires |sub| > 0 && forall i :: 0 <= i < |t| ==> t[i] != sub[0]
    ensures !Contains(t, sub)
  {
    if Contains(t, sub) {
      var i :| 0 <= i <= |t| - |sub| && OccursAt(t, sub, i);
      OccursAtStartsWithFirst(t, sub, i);
      assert false;
    }
  }

  predicate StartsWith(t: string, prefix: string)
  {
    |prefix| <= |t| && t[..|prefix|] == prefix
  }

  /** The code points of ECMAScript's WhiteSpace and LineTerminator
      productions: what `\s` matches and what `trim` strips. */
  predicate IsWhitespace(c: char)
  {
    var n := c as int;
    (0x09 <= n <= 0x0D) || n == 0x20 || n == 0xA0 || n == 0x1680
    || (0x2000 <= n <= 0x200A) || n == 0x2028 || n == 0x2029 || n == 0x202F
    || n == 0x205F || n == 0x3000 || n == 0xFEFF
  }

  /** The index of the first non-whitespace character at or after `i`, or
      `|s|` when there is none. */
  function SkipWhitespace(s: string, i: nat): (j: nat)
    requires i <= |s|
    decreases |s| - i
    ensures i <= j <= |s|
    ensures forall k :: i <= k < j ==> IsWhitespace(s[k])
    ensures j < |s| ==> !IsWhitespace(s[j])
  {
    if i < |s| && IsWhitespace(s[i]) then SkipWhitespace(s, i + 1) else i
  }

  /** The end of `s[..j]` once its trailing whitespace is dropped. */
  function SkipWhitespaceBack(s: string, j: nat): (b: nat)
    requires j <= |s|
    ensures b <= j
    ensures forall k :: b <= k < j ==> IsWhitespace(s[k])
    ensures b == 0 || !IsWhitespace(s[b - 1])
  {
    if j > 0 && IsWhitespace(s[j - 1]) then SkipWhitespaceBack(s, j - 1) else j
  }

  /** `r` sits at offset `a` of `s` with only whitespace before and after it. */
  predicate TrimmedAt(s: string, r: string, a: int)
  {
    && 0 <= a <= |s| - |r|
    && r == s[a..a + |r|]
    && (forall i :: 0 <= i < a ==> IsWhitespace(s[i]))
    && (forall i :: a + |r| <= i < |s| ==> IsWhitespace(s[i]))
  }

  /** When `s` has a non-whitespace character, the first one comes before
      the end of the last one. */
  lemma NonBlankSpan(s: string)
    ensures SkipWhitespace(s, 0) < |s| ==> SkipWhitespace(s, 0) < SkipWhitespaceBack(s, |s|)
  {
    var a := SkipWhitespace(s, 0);
    var b := SkipWhitespaceBack(s, |s|);
    if a < |s| {
      assert !IsWhitespace(s[a]);
    }
  }

  /** `s.trim()`: the slice of `s` left after removing whitespace at both
      ends; it is empty exactly when `s` is all whitespace. */
  function Trim(s: string): (r: string)
    ensures Contains(s, r)
    ensures r == [] || (!IsWhitespace(r[0]) && !IsWhitespace(r[|r| - 1]))
    ensures r == [] <==> forall i :: 0 <= i < |s| ==> IsWhitespace(s[i])
    ensures exists a | 0 <= a <= |s| - |r| :: TrimmedAt(s, r, a)
  {
    var a := SkipWhitespace(s, 0);
    var b := SkipWhitespaceBack(s, |s|);
    NonBlankSpan(s);
    var r := if a < b then s[a..b] else [];
    assert OccursAt(s, r, a);
    assert TrimmedAt(s, r, a);
    r
  }

  /** A code point outside the Basic Multilingual Plane: one surrogate pair in UTF-16. */
  predicate IsAstral(c: char)
  {
    c as int >= 0x10000
  }

  /** `s.length`: the number of UTF-16 code units of `s`. */
  function Utf16Length(s: string): (n: nat)
    ensures |s| <= n <= 2 * |s|
  {
    if s == [] then 0 else (if IsAstral(s[0]) then 2 else 1) + Utf16Length(s[1..])
  }

  lemma {:induction false} Utf16LengthOfBmp(s: string)
    requires forall i :: 0 <= i < |s| ==> !IsAstral(s[i])
    ensures Utf16Length(s) == |s|
  {
    if s != [] {
      Utf16LengthOfBmp(s[1..]);
    }
  }

  predicate IsDigit(c: char)
  {
    '0' <= c <= '9'
  }

  predicate AllDigits(s: string)
  {
    forall i :: 0 <= i < |s| ==> IsDigit(s[i])
  }

  function DigitChar(d: nat): (c: char)
    requires d < 10
    ensures IsDigit(c) && c as int - '0' as int == d
  {
    ('0' as int + d) as char
  }

  /** The decimal form of `n`, as a template literal `${n}` writes an integer. */
  function NatToDecimal(n: nat): (r: string)
    ensures |r| >= 1 && AllDigits(r)
    ensures r[0] == '0' ==> n == 0 && r == "0"
  {
    if n < 10 then [DigitChar(n)] else NatToDecimal(n / 10) + [DigitChar(n % 10)]
  }

  /** The number a string of decimal digits denotes. */
  function DecimalValue(ds: string): nat
    requires AllDigits(ds)
  {
    if ds == [] then 0 else 10 * DecimalValue(ds[..|ds| - 1]) + (ds[|ds| - 1] as int - '0' as int)
  }

  lemma {:induction false} DecimalRoundTrip(n: nat)
    ensures DecimalValue(NatToDecimal(n)) == n
  {
    if n >= 10 {
      var r := NatToDecimal(n);
      DecimalRoundTrip(n / 10);
      assert r[..|r| - 1] == NatToDecimal(n / 10);
    }
  }

  /** The longest prefix of `s` made of ASCII digits: what a greedy `\d+`
      (or `\d*`) consumes at the start of `s`. */
  function DigitRun(s: string): (r: string)
    ensures |r| <= |s| && r == s[..|r|] && AllDigits(r)
    ensures |r| < |s| ==> !IsDigit(s[|r|])
  {
    if s != [] && IsDigit(s[0]) then [s[0]] + DigitRun(s[1..]) else []
  }

  /** A run of digits followed by a non-digit is read back exactly. */
  lemma {:induction false} DigitRunOfDigitsThenOther(ds: string, rest: string)
    requires AllDigits(ds)
    requires rest == [] || !IsDigit(rest[0])
    ensures DigitRun(ds + rest) == ds
  {
    if ds != [] {
      assert (ds + rest)[1..] == ds[1..] + rest;
      DigitRunOfDigitsThenOther(ds[1..], rest);
    }
  }
}

/**
 * The JavaScript string builtins the core uses: `trim`, the `\s` regular-expression class,
 * `toLowerCase`/`toUpperCase` restricted to ASCII letters, and decimal rendering of a number
 * in a template literal.
 */
module Text {

  /** ECMAScript WhiteSpace and LineTerminator code points: what `trim` strips and `\s` matches. */
  predicate IsJsWhitespace(c: char) {
    || c == '\t' || c == '\n' || c == '\U{000B}' || c == '\U{000C}' || c == '\r' || c == ' '
    || c == '\U{00A0}' || c == '\U{1680}' || ('\U{2000}' <= c <= '\U{200A}')
    || c == '\U{2028}' || c == '\U{2029}' || c == '\U{202F}' || c == '\U{205F}'
    || c == '\U{3000}' || c == '\U{FEFF}'
  }

  predicate AllWhitespace(s: string) {
    forall k :: 0 <= k < |s| ==> IsJsWhitespace(s[k])
  }

  predicate NoWhitespace(s: string) {
    forall k :: 0 <= k < |s| ==> !IsJsWhitespace(s[k])
  }

  /** Position of the first non-whitespace character at or after `from`, or |s| if there is none. */
  function TrimStartIndex(s: string, from: nat): (i: nat)
    requires from <= |s|
    ensures from <= i <= |s|
    ensures forall k :: from <= k < i ==> IsJsWhitespace(s[k])
    ensures i == |s| || !IsJsWhitespace(s[i])
    decreases |s| - from
  {
    if from < |s| && IsJsWhitespace(s[from]) then TrimStartIndex(s, from + 1) else from
  }

  /** End of s[lo..hi] once its trailing whitespace is dropped. */
  function TrimEndIndex(s: string, lo: nat, hi: nat): (j: nat)
    requires lo <= hi <= |s|
    ensures lo <= j <= hi
    ensures forall k :: j <= k < hi ==> IsJsWhitespace(s[k])
    ensures j == lo || !IsJsWhitespace(s[j - 1])
    decreases hi
  {
    if lo < hi && IsJsWhitespace(s[hi - 1]) then TrimEndIndex(s, lo, hi - 1) else hi
  }

  /** String.prototype.trim: leading whitespace dropped, then trailing whitespace. */
  function Trim(s: string): string {
    var i := TrimStartIndex(s, 0);
    s[i..TrimEndIndex(s, i, |s|)]
  }

  /** Trimming leaves the empty string exactly when the input is all whitespace. */
  lemma TrimEmptyIff(s: string)
    ensures Trim(s) == [] <==> AllWhitespace(s)
  {
    var i := TrimStartIndex(s, 0);
    var j := TrimEndIndex(s, i, |s|);
    if i < |s| {
      assert !IsJsWhitespace(s[i]);
      assert j != i;
    }
  }

  /** The trimmed string is a contiguous piece of the input with whitespace only around it. */
  lemma TrimIsCore(s: string) returns (i: nat, j: nat)
    ensures i <= j <= |s| && Trim(s) == s[i..j]
    ensures AllWhitespace(s[..i]) && AllWhitespace(s[j..])
    ensures Trim(s) != [] ==> !IsJsWhitespace(Trim(s)[0]) && !IsJsWhitespace(Trim(s)[|Trim(s)| - 1])
  {
    i := TrimStartIndex(s, 0);
    j := TrimEndIndex(s, i, |s|);
    assert forall k :: 0 <= k < i ==> s[..i][k] == s[k];
    assert forall k :: 0 <= k < |s| - j ==> s[j..][k] == s[j + k];
  }

  /** Trimming twice is trimming once. */
  lemma TrimIdempotent(s: string)
    ensures Trim(Trim(s)) == Trim(s)
  {
    var t := Trim(s);
    var _, _ := TrimIsCore(s);
    if t != [] {
      assert TrimStartIndex(t, 0) == 0;
      assert TrimEndIndex(t, 0, |t|) == |t|;
      assert t[0..|t|] == t;
    }
  }

  predicate IsAsciiUpper(c: char) { 'A' <= c <= 'Z' }
  predicate IsAsciiLower(c: char) { 'a' <= c <= 'z' }

  function LowerChar(c: char): char {
    if IsAsciiUpper(c) then (c as int + 32) as char else c
  }

  function UpperChar(c: char): char {
    if IsAsciiLower(c) then (c as int - 32) as char else c
  }

  /** toLowerCase on ASCII letters; every other character is kept. */
  function ToLower(s: string): (r: string)
    ensures |r| == |s|
    ensures forall k :: 0 <= k < |s| ==> r[k] == LowerChar(s[k])
  {
    if s == [] then [] else [LowerChar(s[0])] + ToLower(s[1..])
  }

  /** toUpperCase on ASCII letters; every other character is kept. */
  function ToUpper(s: string): (r: string)
    ensures |r| == |s|
    ensures forall k :: 0 <= k < |s| ==> r[k] == UpperChar(s[k])
  {
    if s == [] then [] else [UpperChar(s[0])] + ToUpper(s[1..])
  }

  /** `s.replace(/\s+/g, "")`: s with every whitespace character removed. */
  function StripWhitespace(s: string): (r: string)
    ensures |r| <= |s|
    decreases |s|
  {
    if s == [] then [] else (if IsJsWhitespace(s[0]) then [] else [s[0]]) + StripWhitespace(s[1..])
  }

  lemma {:induction false} StripWhitespaceAppend(a: string, b: string)
    ensures StripWhitespace(a + b) == StripWhitespace(a) + StripWhitespace(b)
    decreases |a|
  {
    if a != [] {
      assert (a + b)[1..] == a[1..] + b;
      StripWhitespaceAppend(a[1..], b);
    } else {
      assert a + b == b;
    }
  }

  lemma {:induction false} StripWhitespaceLeavesNone(s: string)
    ensures NoWhitespace(StripWhitespace(s))
    decreases |s|
  {
    if s != [] {
      StripWhitespaceLeavesNone(s[1..]);
    }
  }

  lemma {:induction false} StripWhitespaceOfAllWhitespace(s: string)
    requires AllWhitespace(s)
    ensures StripWhitespace(s) == []
    decreases |s|
  {
    if s != [] {
      StripWhitespaceOfAllWhitespace(s[1..]);
    }
  }

  /** A string without whitespace is left alone. */
  lemma {:induction false} StripWhitespaceKeeps(s: string)
    requires NoWhitespace(s)
    ensures StripWhitespace(s) == s
    decreases |s|
  {
    if s != [] {
      StripWhitespaceKeeps(s[1..]);
      assert [s[0]] + s[1..] == s;
    }
  }

  /** Stripping keeps exactly the non-whitespace characters, so a string free of upper-case ASCII stays so. */
  lemma {:induction false} StripWhitespaceKeepsLower(s: string)
    requires forall k :: 0 <= k < |s| ==> !IsAsciiUpper(s[k])
    ensures forall k :: 0 <= k < |StripWhitespace(s)| ==> !IsAsciiUpper(StripWhitespace(s)[k])
    decreases |s|
  {
    if s != [] {
      StripWhitespaceKeepsLower(s[1..]);
    }
  }

  lemma ToLowerKeeps(s: string)
    requires forall k :: 0 <= k < |s| ==> !IsAsciiUpper(s[k])
    ensures ToLower(s) == s
  {
  }

  /** Lower-casing twice is lower-casing once. */
  lemma ToLowerIdempotent(s: string)
    ensures ToLower(ToLower(s)) == ToLower(s)
  {
    assert forall k :: 0 <= k < |s| ==> LowerChar(LowerChar(s[k])) == LowerChar(s[k]);
  }

  /** Lower-casing an upper-cased string is lower-casing the original. */
  lemma LowerOfUpper(s: string)
    ensures ToLower(ToUpper(s)) == ToLower(s)
  {
    assert forall k :: 0 <= k < |s| ==> LowerChar(UpperChar(s[k])) == LowerChar(s[k]);
  }

  lemma ToLowerAppend(a: string, b: string)
    ensures ToLower(a + b) == ToLower(a) + ToLower(b)
  {
  }

  lemma WhitespaceIsNotUpper(s: string)
    requires AllWhitespace(s)
    ensures forall k :: 0 <= k < |s| ==> !IsAsciiUpper(s[k])
  {
    forall k | 0 <= k < |s| ensures !IsAsciiUpper(s[k]) {
      assert IsJsWhitespace(s[k]);
    }
  }

  /** Removing a whitespace run before normalising gives the same key. */
  lemma NormaliseIgnoresWhitespace(before: string, spaces: string, after: string)
    requires AllWhitespace(spaces)
    ensures StripWhitespace(ToLower(before + spaces + after)) == StripWhitespace(ToLower(before + after))
  {
    var lb, la := ToLower(before), ToLower(after);
    WhitespaceIsNotUpper(spaces);
    ToLowerKeeps(spaces);
    calc {
      StripWhitespace(ToLower(before + spaces + after));
      { ToLowerAppend(before + spaces, after); ToLowerAppend(before, spaces); }
      StripWhitespace(lb + spaces + la);
      { StripWhitespaceAppend(lb + spaces, la); StripWhitespaceAppend(lb, spaces); }
      StripWhitespace(lb) + StripWhitespace(spaces) + StripWhitespace(la);
      { StripWhitespaceOfAllWhitespace(spaces); }
      StripWhitespace(lb) + StripWhitespace(la);
      { StripWhitespaceAppend(lb, la); ToLowerAppend(before, after); }
      StripWhitespace(ToLower(before + after));
    }
  }

  /** The decimal digit for 0..9. */
  function DigitChar(d: nat): (c: char)
    requires d < 10
    ensures '0' <= c <= '9' && (c as int) - ('0' as int) == d
  {
    ('0' as int + d) as char
  }

  /** The decimal rendering of n, as a template literal prints a non-negative integer. */
  function Decimal(n: nat): (r: string)
    ensures r != []
    ensures forall k :: 0 <= k < |r| ==> '0' <= r[k] <= '9'
    ensures |r| > 1 ==> r[0] != '0'
  {
    if n < 10 then [DigitChar(n)] else Decimal(n / 10) + [DigitChar(n % 10)]
  }

  /** The value of a string of decimal digits. */
  function DecimalValue(s: string): nat
    requires forall k :: 0 <= k < |s| ==> '0' <= s[k] <= '9'
  {
    if s == [] then 0 else 10 * DecimalValue(s[..|s| - 1]) + ((s[|s| - 1] as int) - ('0' as int))
  }

  /** Reading back the rendering of n gives n. */
  lemma {:induction false} DecimalRoundTrip(n: nat)
    ensures DecimalValue(Decimal(n)) == n
  {
    if n >= 10 {
      DecimalRoundTrip(n / 10);
      var r := Decimal(n);
      assert r[..|r| - 1] == Decimal(n / 10);
    }
  }
}

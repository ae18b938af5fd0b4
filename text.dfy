/** The few string operations the core relies on: Java's `String.toLowerCase`,
    `String.contains`, `Integer.toString`, `Collectors.joining`, and the
    JavaScript test `!s.trim()`. */
module Text {

  /** Java's `Character.toLowerCase` on the Basic Latin and Latin-1 blocks:
      A-Z and the Latin-1 capitals U+00C0..U+00DE (except the multiplication
      sign U+00D7) move up by 0x20; every other character is left as it is. */
  function LowerChar(c: char): char {
    if 'A' <= c <= 'Z' || ('\U{C0}' <= c <= '\U{DE}' && c != '\U{D7}') then
      (c as int + 32) as char
    else c
  }

  /** `String.toLowerCase()`, character by character. */
  function Lower(s: string): (r: string)
    ensures |r| == |s|
    ensures forall i :: 0 <= i < |s| ==> r[i] == LowerChar(s[i])
  {
    seq(|s|, i requires 0 <= i < |s| => LowerChar(s[i]))
  }

  lemma LowerAppend(a: string, b: string)
    ensures Lower(a + b) == Lower(a) + Lower(b)
  {
  }

  /** The needle occurs in the haystack starting at position i. */
  predicate OccursAt(haystack: string, needle: string, i: int) {
    0 <= i && i + |needle| <= |haystack| && haystack[i..i + |needle|] == needle
  }

  /** `haystack.contains(needle)`: some window of the haystack equals the needle. */
  predicate Contains(haystack: string, needle: string) {
    exists i | 0 <= i <= |haystack| - |needle| :: OccursAt(haystack, needle, i)
  }

  /** A needle found in a prefix is found in every extension of it. */
  lemma ContainsExtend(a: string, b: string, needle: string)
    requires Contains(a, needle)
    ensures Contains(a + b, needle)
  {
    var i :| 0 <= i <= |a| - |needle| && OccursAt(a, needle, i);
    assert (a + b)[i..i + |needle|] == a[i..i + |needle|];
    assert OccursAt(a + b, needle, i);
  }

  /** The character of a decimal digit. */
  function DigitChar(d: nat): char
    requires d < 10
  {
    ('0' as int + d) as char
  }

  /** The value of a decimal digit character. */
  function DigitValue(c: char): int {
    c as int - '0' as int
  }

  /** A decimal numeral as `Integer.toString` prints a natural number: one or more
      digits, and no leading zero unless the numeral is "0". */
  predicate IsDecimal(s: string) {
    |s| >= 1 && (forall k :: 0 <= k < |s| ==> '0' <= s[k] <= '9') && (s[0] == '0' ==> |s| == 1)
  }

  /** The number a string of decimal digits denotes, read most significant first. */
  function Value(s: string): int
    decreases |s|
  {
    if s == [] then 0 else 10 * Value(s[..|s| - 1]) + DigitValue(s[|s| - 1])
  }

  /** Decimal digits of a natural number, most significant first. */
  function Digits(n: nat): string
    decreases n
  {
    if n < 10 then [DigitChar(n)] else Digits(n / 10) + [DigitChar(n % 10)]
  }

  /** The digits of n form a numeral that reads back as n. */
  lemma {:induction false} DigitsDecimal(n: nat)
    ensures IsDecimal(Digits(n))
    ensures Value(Digits(n)) == n
    decreases n
  {
    var r := Digits(n);
    if n < 10 {
      assert r[..0] == [];
    } else {
      var p := Digits(n / 10);
      DigitsDecimal(n / 10);
      assert r[..|r| - 1] == p;
      assert r[0] == p[0];
    }
  }

  /** `Integer.toString(i)`, as string concatenation of an `Integer` prints it. */
  function Show(i: int): string {
    if i < 0 then "-" + Digits(-i) else Digits(i)
  }

  /** A printed integer is a numeral that reads back as i, preceded by a minus
      sign when i is negative. */
  lemma ShowDecimal(i: int)
    ensures i >= 0 ==> IsDecimal(Show(i)) && Value(Show(i)) == i
    ensures i < 0 ==> |Show(i)| >= 2 && Show(i)[0] == '-' && IsDecimal(Show(i)[1..]) && Value(Show(i)[1..]) == -i
  {
    if i < 0 {
      DigitsDecimal(-i);
      assert Show(i)[1..] == Digits(-i);
    } else {
      DigitsDecimal(i);
    }
  }

  /** Different integers print differently. */
  lemma ShowInjective(i: int, j: int)
    requires Show(i) == Show(j)
    ensures i == j
  {
    ShowDecimal(i);
    ShowDecimal(j);
    if i < 0 && j < 0 {
      assert Show(i)[1..] == Show(j)[1..];
    }
  }

  /** Lower-casing leaves a printed integer alone. */
  lemma LowerShow(i: int)
    ensures Lower(Show(i)) == Show(i)
  {
    ShowDecimal(i);
  }

  /** The characters JavaScript's `String.prototype.trim` removes: WhiteSpace
      and LineTerminator of ECMA-262 (section 12.2 and 12.3 of the 2023 edition). */
  predicate IsJsWhitespace(c: char) {
    c == ' ' || c == '\t' || c == '\n' || c == '\r' || c == '\U{B}' || c == '\U{C}'
    || c == '\U{A0}' || c == '\U{1680}' || ('\U{2000}' <= c <= '\U{200A}')
    || c == '\U{2028}' || c == '\U{2029}' || c == '\U{202F}' || c == '\U{205F}'
    || c == '\U{3000}' || c == '\U{FEFF}'
  }

  /** Every character is whitespace. */
  predicate IsBlank(s: string) {
    forall i :: 0 <= i < |s| ==> IsJsWhitespace(s[i])
  }

  /** Drops the leading whitespace: what remains is a suffix of s that is empty or
      starts with a non-whitespace character. */
  function TrimStart(s: string): (r: string)
    ensures |r| <= |s| && r == s[|s| - |r|..]
    ensures r == [] || !IsJsWhitespace(r[0])
    decreases |s|
  {
    if s != [] && IsJsWhitespace(s[0]) then
      var r := TrimStart(s[1..]);
      assert s[1..][|s| - 1 - |r|..] == s[|s| - |r|..];
      r
    else s
  }

  /** Drops the trailing whitespace: what remains is a prefix of s that is empty or
      ends with a non-whitespace character. */
  function TrimEnd(s: string): (r: string)
    ensures |r| <= |s| && r == s[..|r|]
    ensures r == [] || !IsJsWhitespace(r[|r| - 1])
    decreases |s|
  {
    if s != [] && IsJsWhitespace(s[|s| - 1]) then
      var r := TrimEnd(s[..|s| - 1]);
      assert s[..|s| - 1][..|r|] == s[..|r|];
      r
    else s
  }

  /** `String.prototype.trim`. */
  function Trim(s: string): string {
    TrimEnd(TrimStart(s))
  }

  lemma {:induction false} TrimStartBlank(s: string)
    ensures TrimStart(s) == [] <==> IsBlank(s)
    decreases |s|
  {
    if s != [] && IsJsWhitespace(s[0]) {
      TrimStartBlank(s[1..]);
      assert IsBlank(s) <==> IsBlank(s[1..]) by {
        if IsBlank(s[1..]) {
          forall i | 0 <= i < |s| ensures IsJsWhitespace(s[i]) {
            if i > 0 { assert s[i] == s[1..][i - 1]; }
          }
        }
        if IsBlank(s) {
          forall i | 0 <= i < |s[1..]| ensures IsJsWhitespace(s[1..][i]) {
            assert s[1..][i] == s[i + 1];
          }
        }
      }
    }
  }

  lemma {:induction false} TrimEndEmpty(s: string)
    ensures TrimEnd(s) == [] <==> IsBlank(s)
    decreases |s|
  {
    if s != [] && IsJsWhitespace(s[|s| - 1]) {
      var t := s[..|s| - 1];
      TrimEndEmpty(t);
      assert IsBlank(s) <==> IsBlank(t) by {
        if IsBlank(t) {
          forall i | 0 <= i < |s| ensures IsJsWhitespace(s[i]) {
            if i < |s| - 1 { assert s[i] == t[i]; }
          }
        }
        if IsBlank(s) {
          forall i | 0 <= i < |t| ensures IsJsWhitespace(t[i]) {
            assert t[i] == s[i];
          }
        }
      }
    }
  }

  /** A string trims to the empty (falsy) string exactly when it is all whitespace. */
  lemma TrimEmptyIffBlank(s: string)
    ensures Trim(s) == "" <==> IsBlank(s)
  {
    TrimStartBlank(s);
    TrimEndEmpty(TrimStart(s));
    if TrimStart(s) != [] {
      assert !IsJsWhitespace(TrimStart(s)[0]) by { TrimStartHead(s); }
    }
  }

  lemma {:induction false} TrimStartHead(s: string)
    requires TrimStart(s) != []
    ensures !IsJsWhitespace(TrimStart(s)[0])
    decreases |s|
  {
    if s != [] && IsJsWhitespace(s[0]) {
      TrimStartHead(s[1..]);
    }
  }

  /** `Collectors.joining(sep)`. */
  function Join(parts: seq<string>, sep: string): (r: string)
    ensures parts == [] ==> r == ""
    ensures |parts| == 1 ==> r == parts[0]
    decreases |parts|
  {
    if parts == [] then ""
    else if |parts| == 1 then parts[0]
    else parts[0] + sep + Join(parts[1..], sep)
  }

  /** Joining one more part puts the separator between the earlier parts and it. */
  lemma {:induction false} JoinAppend(parts: seq<string>, sep: string, p: string)
    requires |parts| >= 1
    ensures Join(parts + [p], sep) == Join(parts, sep) + sep + p
    decreases |parts|
  {
    if |parts| == 1 {
      assert (parts + [p])[1..] == [p];
    } else {
      assert (parts + [p])[1..] == parts[1..] + [p];
      JoinAppend(parts[1..], sep, p);
    }
  }
}

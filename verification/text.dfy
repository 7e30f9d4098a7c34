/**
 * The JavaScript string operations the dashboard relies on: `toLowerCase`,
 * `toUpperCase` on regex word characters, `includes`, `split` on one
 * character, `trim`, the `<` order on strings and the decimal rendering of
 * numbers inside template literals.
 */
module Text {

  // ----- characters -----------------------------------------------------

  predicate IsAsciiUpper(c: char) { 'A' <= c <= 'Z' }

  predicate IsAsciiLower(c: char) { 'a' <= c <= 'z' }

  /** A character of the regular-expression class `\w`: `[A-Za-z0-9_]`. */
  predicate IsWordChar(c: char) {
    IsAsciiUpper(c) || IsAsciiLower(c) || ('0' <= c <= '9') || c == '_'
  }

  /** `toLowerCase` of one character, for the ASCII letters. */
  function LowerChar(c: char): (r: char)
    ensures !IsAsciiUpper(r)
    ensures IsAsciiUpper(c) ==> r as int == c as int + 32
    ensures !IsAsciiUpper(c) ==> r == c
  {
    if IsAsciiUpper(c) then (c as int + 32) as char else c
  }

  /** `toUpperCase` of one character, for the ASCII letters. */
  function UpperChar(c: char): (r: char)
    ensures !IsAsciiLower(r)
    ensures IsAsciiLower(c) ==> r as int == c as int - 32
    ensures !IsAsciiLower(c) ==> r == c
  {
    if IsAsciiLower(c) then (c as int - 32) as char else c
  }

  /** `s.toLowerCase()`: each character lower-cased where it stands, so no upper-case ASCII letter is left. */
  function ToLower(s: string): (r: string)
    ensures |r| == |s|
    ensures forall i :: 0 <= i < |s| ==> r[i] == LowerChar(s[i])
    ensures forall i :: 0 <= i < |r| ==> !IsAsciiUpper(r[i])
  {
    seq(|s|, i requires 0 <= i < |s| => LowerChar(s[i]))
  }

  /** Lower-casing twice is lower-casing once. */
  lemma ToLowerIdempotent(s: string)
    ensures ToLower(ToLower(s)) == ToLower(s)
  {
  }

  // ----- substring search -----------------------------------------------

  predicate StartsWith(s: string, t: string) {
    |t| <= |s| && s[..|t|] == t
  }

  /** `s.includes(t)`, scanning from the left. */
  predicate Includes(s: string, t: string)
    decreases |s|
  {
    StartsWith(s, t) || (|s| > 0 && Includes(s[1..], t))
  }

  /** `t` occurs in `s` at offset `i`. */
  predicate OccursAt(s: string, t: string, i: int) {
    0 <= i && i + |t| <= |s| && s[i..i + |t|] == t
  }

  /** The scan agrees with the usual definition: `t` occurs at some offset of `s`. */
  lemma {:induction false} IncludesIffOccurs(s: string, t: string)
    ensures Includes(s, t) <==> exists i :: OccursAt(s, t, i)
    decreases |s|
  {
    if Includes(s, t) {
      if StartsWith(s, t) {
        assert OccursAt(s, t, 0);
      } else {
        IncludesIffOccurs(s[1..], t);
        var i :| OccursAt(s[1..], t, i);
        assert s[i + 1..i + 1 + |t|] == s[1..][i..i + |t|];
        assert OccursAt(s, t, i + 1);
      }
    }
    if exists i :: OccursAt(s, t, i) {
      var i :| OccursAt(s, t, i);
      if i == 0 {
        assert StartsWith(s, t);
      } else {
        assert s[1..][i - 1..i - 1 + |t|] == s[i..i + |t|];
        assert OccursAt(s[1..], t, i - 1);
        IncludesIffOccurs(s[1..], t);
      }
    }
  }

  /** Every string includes the empty string. */
  lemma IncludesEmpty(s: string)
    ensures Includes(s, "")
  {
    assert StartsWith(s, "");
  }

  // ----- split and join on one character ------------------------------------

  function Occurrences(s: string, c: char): nat
    decreases |s|
  {
    if |s| == 0 then 0 else (if s[0] == c then 1 else 0) + Occurrences(s[1..], c)
  }

  /**
   * `s.split(sep)` for a one-character separator: the pieces between the
   * separators, empty pieces included, so there is always one piece more
   * than there are separators and the empty string splits into `[""]`.
   */
  function Split(s: string, sep: char): (parts: seq<string>)
    ensures |parts| == Occurrences(s, sep) + 1
    ensures forall k :: 0 <= k < |parts| ==> sep !in parts[k]
    decreases |s|
  {
    if |s| == 0 then [""]
    else
      var rest := Split(s[1..], sep);
      if s[0] == sep then [""] + rest
      else [[s[0]] + rest[0]] + rest[1..]
  }

  lemma {:induction false} OccurrencesZero(s: string, c: char)
    requires c !in s
    ensures Occurrences(s, c) == 0
    decreases |s|
  {
    if |s| > 0 {
      assert s[0] != c;
      OccurrencesZero(s[1..], c);
    }
  }

  /** A string without the separator splits into itself alone. */
  lemma {:induction false} SplitWithoutSeparator(s: string, c: char)
    requires c !in s
    ensures Split(s, c) == [s]
    decreases |s|
  {
    if |s| > 0 {
      assert s[0] != c;
      SplitWithoutSeparator(s[1..], c);
      assert [s[0]] + s[1..] == s;
    }
  }

  /** Splitting at one separator more: the pieces of the two sides, one after the other. */
  lemma {:induction false} SplitAround(a: string, b: string, sep: char)
    ensures Split(a + [sep] + b, sep) == Split(a, sep) + Split(b, sep)
    decreases |a|
  {
    if |a| == 0 {
      assert a + [sep] + b == [sep] + b;
      assert ([sep] + b)[1..] == b;
    } else {
      assert (a + [sep] + b)[1..] == a[1..] + [sep] + b;
      SplitAround(a[1..], b, sep);
    }
  }

  /** `parts.join(sep)`. */
  function Join(parts: seq<string>, sep: char): string
    requires |parts| > 0
    decreases |parts|
  {
    if |parts| == 1 then parts[0] else parts[0] + [sep] + Join(parts[1..], sep)
  }

  /** Joining the pieces with the separator gives back the string that was split. */
  lemma {:induction false} JoinSplit(s: string, sep: char)
    ensures Join(Split(s, sep), sep) == s
    decreases |s|
  {
    if |s| > 0 {
      var rest := Split(s[1..], sep);
      JoinSplit(s[1..], sep);
      if s[0] == sep {
        assert ([""] + rest)[1..] == rest;
      } else {
        var parts := [[s[0]] + rest[0]] + rest[1..];
        if |rest| == 1 {
          assert Join(parts, sep) == [s[0]] + rest[0];
        } else {
          assert parts[1..] == rest[1..];
          assert Join(parts, sep) == [s[0]] + rest[0] + [sep] + Join(rest[1..], sep);
        }
        assert s == [s[0]] + s[1..];
      }
    }
  }

  // ----- trim ------------------------------------------------------------

  /** The characters `String.prototype.trim` removes: white space and line terminators. */
  predicate IsJsWhitespace(c: char) {
    c == '\t' || c == '\n' || c == '\U{0B}' || c == '\U{0C}' || c == '\r' || c == ' '
    || c == '\U{A0}' || c == '\U{1680}' || ('\U{2000}' <= c <= '\U{200A}')
    || c == '\U{2028}' || c == '\U{2029}' || c == '\U{202F}' || c == '\U{205F}'
    || c == '\U{3000}' || c == '\U{FEFF}'
  }

  predicate AllWhitespace(s: string) {
    forall i :: 0 <= i < |s| ==> IsJsWhitespace(s[i])
  }

  /** Drops the leading white space: the result is a suffix of `s` after white space only. */
  function TrimStart(s: string): (r: string)
    ensures |r| <= |s| && r == s[|s| - |r|..] && AllWhitespace(s[..|s| - |r|])
    ensures |r| > 0 ==> !IsJsWhitespace(r[0])
    decreases |s|
  {
    if |s| > 0 && IsJsWhitespace(s[0]) then TrimStart(s[1..]) else s
  }

  /** Drops the trailing white space: the result is a prefix of `s` before white space only. */
  function TrimEnd(s: string): (r: string)
    ensures |r| <= |s| && r == s[..|r|] && AllWhitespace(s[|r|..])
    ensures |r| > 0 ==> !IsJsWhitespace(r[|r| - 1])
    decreases |s|
  {
    if |s| > 0 && IsJsWhitespace(s[|s| - 1]) then TrimEnd(s[..|s| - 1]) else s
  }

  /** `s.trim()`. */
  function Trim(s: string): (r: string)
    ensures |r| <= |s|
    ensures |r| > 0 ==> !IsJsWhitespace(r[0]) && !IsJsWhitespace(r[|r| - 1])
  {
    TrimEnd(TrimStart(s))
  }

  /** A string that neither starts nor ends with white space is its own trim. */
  lemma {:induction false} TrimKeeps(s: string)
    requires |s| > 0 ==> !IsJsWhitespace(s[0]) && !IsJsWhitespace(s[|s| - 1])
    ensures Trim(s) == s
  {
  }

  /** Trimming twice is trimming once. */
  lemma TrimIdempotent(s: string)
    ensures Trim(Trim(s)) == Trim(s)
  {
    TrimKeeps(Trim(s));
  }

  /** The trim is empty exactly when the string is white space only (the empty string included). */
  lemma {:induction false} TrimEmptyIffBlank(s: string)
    ensures Trim(s) == "" <==> AllWhitespace(s)
  {
    var t := TrimStart(s);
    if !AllWhitespace(s) {
      var i :| 0 <= i < |s| && !IsJsWhitespace(s[i]);
      assert |TrimEnd(t)| > 0;
    }
  }

  // ----- the `<` order on strings -------------------------------------------

  /** `a < b` on strings: code unit by code unit, a proper prefix first. */
  predicate LexLess(a: string, b: string)
    decreases |a|
  {
    if |a| == 0 then |b| > 0
    else if |b| == 0 then false
    else if a[0] != b[0] then a[0] < b[0]
    else LexLess(a[1..], b[1..])
  }

  lemma {:induction false} LexLessIrreflexive(a: string)
    ensures !LexLess(a, a)
    decreases |a|
  {
    if |a| > 0 { LexLessIrreflexive(a[1..]); }
  }

  lemma {:induction false} LexLessAsymmetric(a: string, b: string)
    ensures !(LexLess(a, b) && LexLess(b, a))
    decreases |a|
  {
    if |a| > 0 && |b| > 0 && a[0] == b[0] { LexLessAsymmetric(a[1..], b[1..]); }
  }

  lemma {:induction false} LexLessTransitive(a: string, b: string, c: string)
    requires LexLess(a, b) && LexLess(b, c)
    ensures LexLess(a, c)
    decreases |a|
  {
    if |a| > 0 && a[0] == b[0] && b[0] == c[0] {
      LexLessTransitive(a[1..], b[1..], c[1..]);
    }
  }

  /** Two different strings are always ordered one way or the other. */
  lemma {:induction false} LexLessTotal(a: string, b: string)
    requires a != b
    ensures LexLess(a, b) || LexLess(b, a)
    decreases |a|
  {
    if |a| > 0 && |b| > 0 && a[0] == b[0] {
      assert a == [a[0]] + a[1..] && b == [b[0]] + b[1..];
      LexLessTotal(a[1..], b[1..]);
    }
  }

  // ----- decimal rendering -------------------------------------------------

  predicate IsDigit(c: char) { '0' <= c <= '9' }

  predicate AllDigits(s: string) { forall i :: 0 <= i < |s| ==> IsDigit(s[i]) }

  function DigitChar(d: nat): (c: char)
    requires d < 10
    ensures IsDigit(c) && c as int - '0' as int == d
  {
    ('0' as int + d) as char
  }

  /** How `${n}` prints a natural number: its digits, without leading zeros. */
  function Decimal(n: nat): (r: string)
    ensures |r| >= 1 && AllDigits(r)
    ensures |r| > 1 ==> r[0] != '0'
    decreases n
  {
    if n < 10 then [DigitChar(n)] else Decimal(n / 10) + [DigitChar(n % 10)]
  }

  /** The number a string of digits denotes. */
  function DigitsValue(s: string): nat
    requires AllDigits(s)
    decreases |s|
  {
    if |s| == 0 then 0 else DigitsValue(s[..|s| - 1]) * 10 + (s[|s| - 1] as int - '0' as int)
  }

  /** Reading the printed digits gives back the number. */
  lemma {:induction false} DecimalRoundTrip(n: nat)
    ensures DigitsValue(Decimal(n)) == n
    decreases n
  {
    if n >= 10 {
      var r := Decimal(n);
      DecimalRoundTrip(n / 10);
      assert r[..|r| - 1] == Decimal(n / 10);
    }
  }

  /** How `${i}` prints an integer: a minus sign before the digits of a negative one. */
  function IntText(i: int): (r: string)
    ensures i >= 0 ==> r == Decimal(i)
    ensures i < 0 ==> |r| >= 2 && r[0] == '-' && r[1..] == Decimal(-i)
  {
    if i < 0 then "-" + Decimal(-i) else Decimal(i)
  }
}

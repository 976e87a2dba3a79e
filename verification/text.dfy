/**
 * The string primitives the screens use: JavaScript's `trim`, the regular
 * expression classes `\d`, `\D` and `\s`, `toLowerCase`/`toUpperCase`
 * (restricted to ASCII letters), `includes`, and `replace` with a one-character
 * pattern (first occurrence) or a global one.
 */
module Text {

  /** `\d` in a JavaScript regular expression without the `u` flag: an ASCII digit. */
  predicate IsDigit(c: char) {
    '0' <= c <= '9'
  }

  /**
   * What `trim` removes and `\s` matches: the WhiteSpace and LineTerminator
   * code points of ECMAScript (tab, line tabulation, form feed, space,
   * no-break space, the Zs space separators, byte order mark, LF, CR,
   * line and paragraph separators).
   */
  predicate IsWhitespace(c: char) {
    c == '\t' || c == '\n' || c == '\U{000B}' || c == '\U{000C}' || c == '\r' || c == ' '
    || c == '\U{00A0}' || c == '\U{1680}' || ('\U{2000}' <= c <= '\U{200A}')
    || c == '\U{2028}' || c == '\U{2029}' || c == '\U{202F}' || c == '\U{205F}'
    || c == '\U{3000}' || c == '\U{FEFF}'
  }

  predicate AllDigits(s: string) {
    forall i :: 0 <= i < |s| ==> IsDigit(s[i])
  }

  /** A string whose `trim()` is empty, i.e. falsy after trimming. */
  predicate IsBlank(s: string) {
    forall i :: 0 <= i < |s| ==> IsWhitespace(s[i])
  }

  function TrimStart(s: string): (r: string)
    ensures |r| <= |s| && r == s[|s| - |r|..]
    ensures r != [] ==> !IsWhitespace(r[0])
    ensures IsBlank(s[..|s| - |r|])
  {
    if s != [] && IsWhitespace(s[0]) then
      var r := TrimStart(s[1..]);
      var k := |s| - |r|;
      forall i | 0 <= i < k
        ensures IsWhitespace(s[..k][i])
      {
        if i > 0 {
          assert s[..k][i] == s[1..][..k - 1][i - 1];
        }
      }
      r
    else s
  }

  function TrimEnd(s: string): (r: string)
    ensures |r| <= |s| && r == s[..|r|]
    ensures r != [] ==> !IsWhitespace(r[|r| - 1])
    ensures IsBlank(s[|r|..])
  {
    if s != [] && IsWhitespace(s[|s| - 1]) then
      var r := TrimEnd(s[..|s| - 1]);
      forall i | 0 <= i < |s| - |r|
        ensures IsWhitespace(s[|r|..][i])
      {
        if i < |s| - 1 - |r| {
          assert s[|r|..][i] == s[..|s| - 1][|r|..][i];
        }
      }
      r
    else s
  }

  /** `String.prototype.trim`. */
  function Trim(s: string): (r: string) {
    TrimEnd(TrimStart(s))
  }

  /** `!s.trim()` holds exactly when every character of `s` is whitespace. */
  lemma {:induction false} TrimEmptyIffBlank(s: string)
    ensures Trim(s) == [] <==> IsBlank(s)
  {
    var t := TrimStart(s);
    if t == [] {
      assert s[..|s| - |t|] == s;
    } else {
      assert !IsBlank(t);
      assert TrimEnd(t) != [];
      assert !IsWhitespace(s[|s| - |t|]);
    }
  }

  /** `s.replace(/\D/g, '')`: the digits of `s`, in order. */
  function Digits(s: string): (r: string)
    ensures |r| <= |s|
  {
    if s == [] then []
    else (if IsDigit(s[0]) then [s[0]] else []) + Digits(s[1..])
  }

  /** What `\D` removes is exactly the non-digits: only digits are left. */
  lemma {:induction false} DigitsAreDigits(s: string)
    ensures AllDigits(Digits(s))
  {
    if s != [] {
      DigitsAreDigits(s[1..]);
    }
  }

  lemma {:induction false} DigitsAppend(a: string, b: string)
    ensures Digits(a + b) == Digits(a) + Digits(b)
  {
    if a == [] {
      assert a + b == b;
    } else {
      var h := if IsDigit(a[0]) then [a[0]] else [];
      assert (a + b)[0] == a[0];
      assert (a + b)[1..] == a[1..] + b;
      assert Digits(a + b) == h + Digits(a[1..] + b);
      DigitsAppend(a[1..], b);
      assert Digits(a) == h + Digits(a[1..]);
      assert h + (Digits(a[1..]) + Digits(b)) == (h + Digits(a[1..])) + Digits(b);
    }
  }

  lemma {:induction false} DigitsOfDigits(s: string)
    requires AllDigits(s)
    ensures Digits(s) == s
  {
    if s != [] {
      DigitsOfDigits(s[1..]);
    }
  }

  lemma {:induction false} DigitsOfNonDigits(s: string)
    requires forall i :: 0 <= i < |s| ==> !IsDigit(s[i])
    ensures Digits(s) == []
  {
    if s != [] {
      DigitsOfNonDigits(s[1..]);
    }
  }

  /** `s.replace(/\s/g, '')`: `s` with every whitespace character removed. */
  function StripWhitespace(s: string): (r: string)
    ensures |r| <= |s|
    ensures forall i :: 0 <= i < |r| ==> !IsWhitespace(r[i])
  {
    if s == [] then []
    else (if IsWhitespace(s[0]) then [] else [s[0]]) + StripWhitespace(s[1..])
  }

  lemma {:induction false} StripWhitespaceAppend(a: string, b: string)
    ensures StripWhitespace(a + b) == StripWhitespace(a) + StripWhitespace(b)
  {
    if a == [] {
      assert a + b == b;
    } else {
      var h := if IsWhitespace(a[0]) then [] else [a[0]];
      assert (a + b)[0] == a[0];
      assert (a + b)[1..] == a[1..] + b;
      assert StripWhitespace(a + b) == h + StripWhitespace(a[1..] + b);
      StripWhitespaceAppend(a[1..], b);
      assert StripWhitespace(a) == h + StripWhitespace(a[1..]);
      assert h + (StripWhitespace(a[1..]) + StripWhitespace(b)) == (h + StripWhitespace(a[1..])) + StripWhitespace(b);
    }
  }

  lemma {:induction false} StripWhitespaceOfDigits(s: string)
    requires AllDigits(s)
    ensures StripWhitespace(s) == s
  {
    if s != [] {
      StripWhitespaceOfDigits(s[1..]);
    }
  }

  lemma {:induction false} StripWhitespaceOfBlank(s: string)
    requires IsBlank(s)
    ensures StripWhitespace(s) == []
  {
    if s != [] {
      StripWhitespaceOfBlank(s[1..]);
    }
  }

  function LowerChar(c: char): char {
    if 'A' <= c <= 'Z' then (c as int + 32) as char else c
  }

  function UpperChar(c: char): char {
    if 'a' <= c <= 'z' then (c as int - 32) as char else c
  }

  /** `toLowerCase`, on ASCII letters. */
  function Lower(s: string): (r: string)
    ensures |r| == |s| && forall i :: 0 <= i < |s| ==> r[i] == LowerChar(s[i])
  {
    seq(|s|, i requires 0 <= i < |s| => LowerChar(s[i]))
  }

  /** `toUpperCase`, on ASCII letters. */
  function Upper(s: string): (r: string)
    ensures |r| == |s| && forall i :: 0 <= i < |s| ==> r[i] == UpperChar(s[i])
  {
    seq(|s|, i requires 0 <= i < |s| => UpperChar(s[i]))
  }

  /** `hay.includes(needle)`; every string includes the empty string. */
  predicate Contains(hay: string, needle: string) {
    exists i | 0 <= i <= |hay| :: OccursAt(hay, needle, i)
  }

  predicate OccursAt(hay: string, needle: string, i: int) {
    0 <= i <= |hay| - |needle| && hay[i..i + |needle|] == needle
  }

  lemma ContainsEmpty(hay: string)
    ensures Contains(hay, [])
  {
    assert OccursAt(hay, [], 0);
  }

  /** `s.replace(from, to)` with a one-character string pattern: only the first occurrence is replaced. */
  function ReplaceFirst(s: string, from: char, to: char): (r: string)
    ensures |r| == |s|
  {
    if s == [] then []
    else if s[0] == from then [to] + s[1..]
    else [s[0]] + ReplaceFirst(s[1..], from, to)
  }

  /** Only the first occurrence changes: whatever follows it is kept as it was, occurrences included. */
  lemma {:induction false} ReplaceFirstSplit(a: string, b: string, from: char, to: char)
    requires forall i :: 0 <= i < |a| ==> a[i] != from
    ensures ReplaceFirst(a + [from] + b, from, to) == a + [to] + b
  {
    if a != [] {
      assert (a + [from] + b)[1..] == a[1..] + [from] + b;
      ReplaceFirstSplit(a[1..], b, from, to);
    }
  }

  /** `s.replace(/from/g, to)`: every occurrence is replaced. */
  function ReplaceAll(s: string, from: char, to: char): (r: string)
    ensures |r| == |s|
    ensures forall i :: 0 <= i < |s| ==> r[i] == if s[i] == from then to else s[i]
  {
    seq(|s|, i requires 0 <= i < |s| => if s[i] == from then to else s[i])
  }
}

/**
 * The string operations of the JavaScript runtime that the client relies on:
 * `String.prototype.split` with a one-character separator, `Array.prototype.join`
 * (and so `toString`, which joins with ","), and the decimal text of a number.
 */
module Strings {
  import opened Wrappers

  /** `s.split(c)`: the pieces of `s` between the occurrences of `c`, in order. */
  function Split(s: string, c: char): (pieces: seq<string>)
    ensures |pieces| >= 1
    ensures forall i :: 0 <= i < |pieces| ==> c !in pieces[i]
    ensures pieces[0] <= s
    ensures |pieces[0]| < |s| ==> s[|pieces[0]|] == c
  {
    if s == [] then [[]]
    else
      var rest := Split(s[1..], c);
      if s[0] == c then [[]] + rest
      else [[s[0]] + rest[0]] + rest[1..]
  }

  /** `pieces.join(c)`; `[].join(c)` is the empty string. */
  function Join(pieces: seq<string>, c: char): string
  {
    if |pieces| == 0 then ""
    else if |pieces| == 1 then pieces[0]
    else pieces[0] + [c] + Join(pieces[1..], c)
  }

  /** Joining the pieces of a split gives back the string. */
  lemma {:induction false} JoinSplit(s: string, c: char)
    ensures Join(Split(s, c), c) == s
  {
    if s != [] {
      var rest := Split(s[1..], c);
      JoinSplit(s[1..], c);
      if s[0] == c {
        assert Split(s, c) == [[]] + rest;
        assert Join([[]] + rest, c) == [] + [c] + Join(rest, c);
      } else {
        var ps := [[s[0]] + rest[0]] + rest[1..];
        assert Split(s, c) == ps;
        if |rest| == 1 {
          assert Join(rest, c) == rest[0];
        } else {
          assert Join(rest, c) == rest[0] + [c] + Join(rest[1..], c);
          assert ps[1..] == rest[1..];
        }
      }
    }
  }

  /** A string without the separator splits into itself. */
  lemma {:induction false} SplitWithout(s: string, c: char)
    requires c !in s
    ensures Split(s, c) == [s]
  {
    if s != [] {
      SplitWithout(s[1..], c);
      assert [s[0]] + s[1..] == s;
    }
  }

  /** A separator-free piece followed by the separator splits off as the first piece. */
  lemma {:induction false} SplitAround(a: string, c: char, b: string)
    requires c !in a
    ensures Split(a + [c] + b, c) == [a] + Split(b, c)
  {
    if a == [] {
      assert a + [c] + b == [c] + b;
      assert ([c] + b)[1..] == b;
    } else {
      assert (a + [c] + b)[0] == a[0];
      assert (a + [c] + b)[1..] == a[1..] + [c] + b;
      SplitAround(a[1..], c, b);
      assert [a[0]] + a[1..] == a;
    }
  }

  /** A separator splits the text around it into the pieces before it and the pieces after it. */
  lemma {:induction false} SplitSep(a: string, c: char, b: string)
    ensures Split(a + [c] + b, c) == Split(a, c) + Split(b, c)
  {
    if a == [] {
      assert a + [c] + b == [c] + b;
      assert ([c] + b)[1..] == b;
    } else {
      assert (a + [c] + b)[0] == a[0];
      assert (a + [c] + b)[1..] == a[1..] + [c] + b;
      SplitSep(a[1..], c, b);
    }
  }

  /** Joining one more piece puts a separator before it. */
  lemma {:induction false} JoinSnoc(pieces: seq<string>, last: string, c: char)
    requires |pieces| >= 1
    ensures Join(pieces + [last], c) == Join(pieces, c) + [c] + last
  {
    if |pieces| == 1 {
      assert (pieces + [last])[1..] == [last];
    } else {
      assert (pieces + [last])[1..] == pieces[1..] + [last];
      JoinSnoc(pieces[1..], last, c);
    }
  }

  /** Splitting a join of separator-free pieces gives back the pieces. */
  lemma {:induction false} SplitJoin(pieces: seq<string>, c: char)
    requires |pieces| >= 1
    requires forall i :: 0 <= i < |pieces| ==> c !in pieces[i]
    ensures Split(Join(pieces, c), c) == pieces
  {
    if |pieces| == 1 {
      SplitWithout(pieces[0], c);
    } else {
      SplitJoin(pieces[1..], c);
      SplitAround(pieces[0], c, Join(pieces[1..], c));
      assert [pieces[0]] + pieces[1..] == pieces;
    }
  }

  /** The character of a decimal digit. */
  function Digit(d: nat): (ch: char)
    requires d < 10
    ensures '0' <= ch <= '9' && ch as int - '0' as int == d
  {
    (d + '0' as int) as char
  }

  /** Every character is a decimal digit; stated from the end, as numerals are built. */
  predicate AllDigits(s: string) {
    |s| == 0 || (AllDigits(s[..|s| - 1]) && '0' <= s[|s| - 1] <= '9')
  }

  /** A character that is not a digit does not occur in a string of digits. */
  lemma {:induction false} DigitsExclude(s: string, c: char)
    requires AllDigits(s)
    requires !('0' <= c <= '9')
    ensures c !in s
  {
    if |s| > 0 {
      DigitsExclude(s[..|s| - 1], c);
      assert s == s[..|s| - 1] + [s[|s| - 1]];
    }
  }

  /** The decimal text of a natural number, as JavaScript prints it. */
  function NatToString(n: nat): (s: string)
    ensures |s| >= 1
    ensures AllDigits(s)
  {
    if n < 10 then
      assert [Digit(n)][..0] == [];
      [Digit(n)]
    else
      var prefix := NatToString(n / 10);
      assert (prefix + [Digit(n % 10)])[..|prefix|] == prefix;
      prefix + [Digit(n % 10)]
  }

  /** The decimal text of an integer, with a leading '-' when negative. */
  function IntToString(i: int): (s: string)
    ensures |s| >= 1
    ensures if i < 0 then s[0] == '-' && AllDigits(s[1..]) else AllDigits(s)
  {
    if i < 0 then
      var digits := NatToString(-i);
      assert ("-" + digits)[1..] == digits;
      "-" + digits
    else NatToString(i)
  }

  /** The text of a number holds neither a newline nor any other character outside '-' and the digits. */
  lemma NumeralExcludes(i: int, c: char)
    requires c != '-' && !('0' <= c <= '9')
    ensures c !in IntToString(i)
  {
    var s := IntToString(i);
    if i < 0 {
      DigitsExclude(s[1..], c);
      assert s == [s[0]] + s[1..];
    } else {
      DigitsExclude(s, c);
    }
  }

  /** Each character of a string of digits is a digit. */
  lemma DigitAt(s: string, i: int)
    requires AllDigits(s)
    requires 0 <= i < |s|
    ensures '0' <= s[i] <= '9'
  {
    if !('0' <= s[i] <= '9') {
      DigitsExclude(s, s[i]);
    }
  }

  /** The number a string of decimal digits denotes. */
  function DigitsValue(s: string): nat
    requires AllDigits(s)
  {
    if |s| == 0 then 0 else DigitsValue(s[..|s| - 1]) * 10 + (s[|s| - 1] as int - '0' as int)
  }

  /** The decimal text of a natural number reads back as that number. */
  lemma {:induction false} NatToStringReadsBack(n: nat)
    ensures DigitsValue(NatToString(n)) == n
  {
    var s := NatToString(n);
    if n < 10 {
      assert s[..0] == [];
    } else {
      var prefix := NatToString(n / 10);
      assert s[..|s| - 1] == prefix;
      NatToStringReadsBack(n / 10);
    }
  }

  /** Reads an integer back from its text: an optional '-' followed by at least one digit. */
  function ReadInt(s: string): Option<int> {
    if |s| >= 2 && s[0] == '-' && AllDigits(s[1..]) then
      var negative: int := 0 - DigitsValue(s[1..]) as int;
      Some(negative)
    else if |s| >= 1 && AllDigits(s) then Some(DigitsValue(s))
    else None
  }

  /** The text of an integer reads back as that integer. */
  lemma IntToStringReadsBack(i: int)
    ensures ReadInt(IntToString(i)) == Some(i)
  {
    var s := IntToString(i);
    if i < 0 {
      NatToStringReadsBack(-i);
      assert s[1..] == NatToString(-i);
    } else {
      NatToStringReadsBack(i);
      DigitAt(s, 0);
    }
  }

  /**
   * The white space and line terminators that JavaScript strips before converting a
   * string to a number.
   */
  predicate IsJsSpace(c: char) {
    c == '\t' || c == '\n' || c == '\U{B}' || c == '\U{C}' || c == '\r' || c == ' '
    || c == '\U{A0}' || c == '\U{1680}' || ('\U{2000}' <= c <= '\U{200A}')
    || c == '\U{2028}' || c == '\U{2029}' || c == '\U{202F}' || c == '\U{205F}'
    || c == '\U{3000}' || c == '\U{FEFF}'
  }

  function TrimStart(s: string): string {
    if |s| > 0 && IsJsSpace(s[0]) then TrimStart(s[1..]) else s
  }

  function TrimEnd(s: string): string {
    if |s| > 0 && IsJsSpace(s[|s| - 1]) then TrimEnd(s[..|s| - 1]) else s
  }

  /** `s.trim()`: white space removed at both ends. */
  function Trim(s: string): string {
    TrimEnd(TrimStart(s))
  }

  /** Trimming keeps every character that is not white space. */
  lemma {:induction false} TrimKeeps(s: string, c: char)
    requires c in s && !IsJsSpace(c)
    ensures c in Trim(s)
  {
    TrimStartKeeps(s, c);
    TrimEndKeeps(TrimStart(s), c);
  }

  lemma {:induction false} TrimStartKeeps(s: string, c: char)
    requires c in s && !IsJsSpace(c)
    ensures c in TrimStart(s)
  {
    if IsJsSpace(s[0]) {
      assert s == [s[0]] + s[1..];
      TrimStartKeeps(s[1..], c);
    }
  }

  lemma {:induction false} TrimEndKeeps(s: string, c: char)
    requires c in s && !IsJsSpace(c)
    ensures c in TrimEnd(s)
  {
    if IsJsSpace(s[|s| - 1]) {
      assert s == s[..|s| - 1] + [s[|s| - 1]];
      TrimEndKeeps(s[..|s| - 1], c);
    }
  }

  /**
   * `Number(s)` on the texts this model reads as numbers: a blank text is 0 and a
   * text of decimal digits (white space around it allowed) is their value; `None`
   * stands for NaN.
   */
  function TextToNumber(s: string): Option<nat> {
    var t := Trim(s);
    if t == "" then Some(0) else if AllDigits(t) then Some(DigitsValue(t)) else None
  }

  /** The text of a natural number converts back to that number. */
  lemma NumeralToNumber(n: nat)
    ensures TextToNumber(NatToString(n)) == Some(n)
  {
    DigitsUntrimmed(NatToString(n));
    NatToStringReadsBack(n);
  }

  /** A non-empty text of digits has no white space to trim. */
  lemma DigitsUntrimmed(s: string)
    requires |s| >= 1 && AllDigits(s)
    ensures Trim(s) == s
  {
    DigitAt(s, 0);
    assert TrimStart(s) == s;
    DigitAt(s, |s| - 1);
    assert TrimEnd(s) == s;
  }

  /** A text holding a character other than white space and digits is NaN. */
  lemma NotANumber(s: string, c: char)
    requires c in s && !IsJsSpace(c) && !('0' <= c <= '9')
    ensures TextToNumber(s) == None
  {
    TrimKeeps(s, c);
    if AllDigits(Trim(s)) {
      DigitsExclude(Trim(s), c);
    }
  }

  /** `t.includes(p)` on strings: `p` occurs in `t` as a contiguous piece. */
  predicate Contains(t: string, p: string) {
    p <= t || (|t| > 0 && Contains(t[1..], p))
  }

  /** A piece occurs in any text it is embedded in, and never in a shorter one. */
  lemma {:induction false} ContainsPiece(a: string, p: string, b: string)
    ensures Contains(a + p + b, p)
    ensures forall t :: Contains(t, p) ==> |p| <= |t|
  {
    if a != [] {
      assert (a + p + b)[1..] == a[1..] + p + b;
      ContainsPiece(a[1..], p, b);
    } else {
      assert a + p + b == p + b;
    }
    forall t | Contains(t, p)
      ensures |p| <= |t|
    {
      ContainsLength(t, p);
    }
  }

  lemma {:induction false} ContainsLength(t: string, p: string)
    requires Contains(t, p)
    ensures |p| <= |t|
  {
    if !(p <= t) {
      ContainsLength(t[1..], p);
    }
  }

  /**
   * A string's `length` in JavaScript: UTF-16 code units, two for a character
   * outside the Basic Multilingual Plane and one for any other.
   */
  function Utf16Length(s: string): (n: nat)
    ensures |s| <= n <= 2 * |s|
  {
    if |s| == 0 then 0 else Utf16Length(s[..|s| - 1]) + (if s[|s| - 1] as int >= 0x10000 then 2 else 1)
  }

  /** A text of Basic Multilingual Plane characters has one code unit per character. */
  lemma {:induction false} Utf16LengthBmp(s: string)
    requires forall i :: 0 <= i < |s| ==> (s[i] as int) < 0x10000
    ensures Utf16Length(s) == |s|
  {
    if |s| > 0 {
      Utf16LengthBmp(s[..|s| - 1]);
    }
  }

  /** A text of characters beyond the Basic Multilingual Plane has two code units per character. */
  lemma {:induction false} Utf16LengthAstral(s: string)
    requires forall i :: 0 <= i < |s| ==> (s[i] as int) >= 0x10000
    ensures Utf16Length(s) == 2 * |s|
  {
    if |s| > 0 {
      Utf16LengthAstral(s[..|s| - 1]);
    }
  }
}

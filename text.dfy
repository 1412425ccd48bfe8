/**
 The pieces of .NET composite formatting that the console lines of the
 mock server rely on: right alignment of a field (`{0,9}`, `{1,20}`), which
 pads with spaces on the left and never truncates, and zero-padded
 two-digit numbers (`HH`, `mm`, `ss`). Also the inverse operations used to
 read a formatted line back: trimming the padding and splitting at a
 separator.
 */
module Text {

  function Max(a: int, b: int): int {
    if a < b then b else a
  }

  /** `n` blanks. */
  function Spaces(n: nat): (r: string)
    ensures |r| == n
    ensures forall i :: 0 <= i < n ==> r[i] == ' '
  {
    if n == 0 then [] else [' '] + Spaces(n - 1)
  }

  /** The text of `{0,width}` for the value `s`: `s` right-justified in a
      field of `width` characters, padded on the left, never cut short. */
  function AlignRight(s: string, width: nat): (r: string)
    ensures |r| == Max(|s|, width)
  {
    if |s| >= width then s else Spaces(width - |s|) + s
  }

  /** The aligned text is blanks followed by the whole of `s`. */
  lemma AlignRightShape(s: string, width: nat)
    ensures var r := AlignRight(s, width);
      r[|r| - |s|..] == s && forall i :: 0 <= i < |r| - |s| ==> r[i] == ' '
  {
  }

  /** `s` has no occurrence of `c`. */
  predicate Avoids(s: string, c: char) {
    s == [] || (s[0] != c && Avoids(s[1..], c))
  }

  lemma {:induction false} AvoidsConcat(a: string, b: string, c: char)
    requires Avoids(a, c) && Avoids(b, c)
    ensures Avoids(a + b, c)
  {
    if a == [] {
      assert a + b == b;
    } else {
      assert (a + b)[1..] == a[1..] + b;
      AvoidsConcat(a[1..], b, c);
    }
  }

  lemma {:induction false} SpacesAvoid(n: nat, c: char)
    requires c != ' '
    ensures Avoids(Spaces(n), c)
  {
    if n > 0 {
      assert Spaces(n)[1..] == Spaces(n - 1);
      SpacesAvoid(n - 1, c);
    }
  }

  /** Alignment adds no character other than a blank. */
  lemma AlignRightAvoids(s: string, width: nat, c: char)
    requires c != ' ' && Avoids(s, c)
    ensures Avoids(AlignRight(s, width), c)
  {
    if |s| < width {
      SpacesAvoid(width - |s|, c);
      AvoidsConcat(Spaces(width - |s|), s, c);
    }
  }

  /** `s` without its leading blanks. */
  function TrimStart(s: string): (r: string)
    ensures r == [] || r[0] != ' '
  {
    if s != [] && s[0] == ' ' then TrimStart(s[1..]) else s
  }

  lemma {:induction false} TrimSpaces(n: nat, s: string)
    ensures TrimStart(Spaces(n) + s) == TrimStart(s)
  {
    if n > 0 {
      var t := Spaces(n) + s;
      assert t == [' '] + (Spaces(n - 1) + s);
      assert t[1..] == Spaces(n - 1) + s;
      TrimSpaces(n - 1, s);
    } else {
      assert Spaces(n) + s == s;
    }
  }

  /** Trimming undoes alignment for every value that does not itself start
      with a blank, whatever the width. */
  lemma TrimAlignRight(s: string, width: nat)
    requires s == [] || s[0] != ' '
    ensures TrimStart(AlignRight(s, width)) == s
  {
    if |s| < width {
      TrimSpaces(width - |s|, s);
    }
  }

  predicate IsDigit(c: char) {
    '0' <= c <= '9'
  }

  function DigitChar(d: nat): (c: char)
    requires d < 10
    ensures IsDigit(c) && c as int - '0' as int == d
  {
    (d + '0' as int) as char
  }

  function DigitValue(c: char): int {
    c as int - '0' as int
  }

  /** `n` written with exactly two decimal digits, a leading zero when
      `n < 10` (the `HH`, `mm` and `ss` of a custom date format). */
  function TwoDigits(n: nat): (r: string)
    requires n < 100
    ensures |r| == 2 && IsDigit(r[0]) && IsDigit(r[1])
    ensures DigitValue(r[0]) * 10 + DigitValue(r[1]) == n
  {
    [DigitChar(n / 10), DigitChar(n % 10)]
  }

  /** The fields of `s` between occurrences of `sep`; there is always at
      least one. */
  function Split(s: string, sep: char): (parts: seq<string>)
    ensures |parts| >= 1
  {
    if s == [] then [[]]
    else
      var rest := Split(s[1..], sep);
      if s[0] == sep then [[]] + rest
      else [[s[0]] + rest[0]] + rest[1..]
  }

  lemma {:induction false} SplitWhole(a: string, sep: char)
    requires Avoids(a, sep)
    ensures Split(a, sep) == [a]
  {
    if a != [] {
      SplitWhole(a[1..], sep);
      assert [a[0]] + a[1..] == a;
    }
  }

  /** A field free of `sep` followed by `sep` is split off as it is. */
  lemma {:induction false} SplitField(a: string, b: string, sep: char)
    requires Avoids(a, sep)
    ensures Split(a + [sep] + b, sep) == [a] + Split(b, sep)
  {
    if a == [] {
      assert a + [sep] + b == [sep] + b;
      assert ([sep] + b)[1..] == b;
    } else {
      var s := a + [sep] + b;
      assert s[0] == a[0] && s[1..] == a[1..] + [sep] + b;
      SplitField(a[1..], b, sep);
      assert [a[0]] + a[1..] == a;
    }
  }
}

/**
 * The JavaScript string operations the API layer relies on: `startsWith`,
 * `includes`, `split` on a one-character separator, `Array.prototype.join`,
 * and the decimal rendering of a non-negative integer in a template string.
 */
module Text {

  /** `s.startsWith(p)` */
  predicate StartsWith(s: string, p: string)
  {
    |p| <= |s| && s[..|p|] == p
  }

  /** `hay.includes(needle)`: `needle` occurs somewhere inside `hay` */
  predicate Contains(hay: string, needle: string)
    decreases |hay|
  {
    StartsWith(hay, needle) || (|hay| > 0 && Contains(hay[1..], needle))
  }

  /** Whatever stands between two strings occurs in their concatenation. */
  lemma {:induction false} ContainsMiddle(a: string, b: string, c: string)
    ensures Contains(a + b + c, b)
    decreases |a|
  {
    if a == [] {
      assert (a + b + c)[..|b|] == b;
    } else {
      ContainsMiddle(a[1..], b, c);
      assert (a + b + c)[1..] == a[1..] + b + c;
    }
  }

  /** A string occurs in itself. */
  lemma ContainsSelf(x: string)
    ensures Contains(x, x)
  {
    assert x[..|x|] == x;
  }

  /** What occurs in a string occurs in every extension of it to the right. */
  lemma {:induction false} ContainsLeft(x: string, y: string, n: string)
    requires Contains(x, n)
    ensures Contains(x + y, n)
    decreases |x|
  {
    if StartsWith(x, n) {
      assert (x + y)[..|n|] == x[..|n|];
    } else {
      ContainsLeft(x[1..], y, n);
      assert (x + y)[1..] == x[1..] + y;
    }
  }

  /** What occurs in a string occurs in every extension of it to the left. */
  lemma {:induction false} ContainsRight(x: string, y: string, n: string)
    requires Contains(y, n)
    ensures Contains(x + y, n)
    decreases |x|
  {
    if x == [] {
      assert x + y == y;
    } else {
      ContainsRight(x[1..], y, n);
      assert (x + y)[1..] == x[1..] + y;
      assert |x + y| > 0 && Contains((x + y)[1..], n);
    }
  }

  /** Each of five strings occurs in their concatenation. */
  lemma ContainsEachOfFive(a: string, b: string, c: string, d: string, e: string)
    ensures Contains(a + b + c + d + e, a) && Contains(a + b + c + d + e, b)
    ensures Contains(a + b + c + d + e, c) && Contains(a + b + c + d + e, d)
    ensures Contains(a + b + c + d + e, e)
  {
    ContainsSelf(a);
    ContainsSelf(b);
    ContainsSelf(c);
    ContainsSelf(d);
    ContainsSelf(e);
    ContainsRight(a, b, b);
    ContainsRight(a + b, c, c);
    ContainsRight(a + b + c, d, d);
    ContainsRight(a + b + c + d, e, e);
    ContainsLeft(a, b, a);
    ContainsLeft(a + b, c, a);
    ContainsLeft(a + b, c, b);
    ContainsLeft(a + b + c, d, a);
    ContainsLeft(a + b + c, d, b);
    ContainsLeft(a + b + c, d, c);
    ContainsLeft(a + b + c + d, e, a);
    ContainsLeft(a + b + c + d, e, b);
    ContainsLeft(a + b + c + d, e, c);
    ContainsLeft(a + b + c + d, e, d);
  }

  /**
   * `s.split(sep)` for a one-character separator: the pieces between the
   * separators, in order; an empty string splits into one empty piece.
   */
  function Split(s: string, sep: char): (parts: seq<string>)
    ensures |parts| >= 1
    ensures forall i :: 0 <= i < |parts| ==> sep !in parts[i]
    decreases |s|
  {
    if s == [] then [""]
    else
      var rest := Split(s[1..], sep);
      if s[0] == sep then [""] + rest
      else [[s[0]] + rest[0]] + rest[1..]
  }

  /** `parts.join(sep)`; an empty array joins to the empty string */
  function Join(parts: seq<string>, sep: string): string
    decreases |parts|
  {
    if |parts| == 0 then ""
    else if |parts| == 1 then parts[0]
    else parts[0] + sep + Join(parts[1..], sep)
  }

  /** Joining the pieces of a split with the separator gives back the string. */
  lemma {:induction false} JoinSplit(s: string, sep: char)
    ensures Join(Split(s, sep), [sep]) == s
    decreases |s|
  {
    if s != [] {
      JoinSplit(s[1..], sep);
      var rest := Split(s[1..], sep);
      if s[0] != sep {
        if |rest| == 1 {
          assert Join(rest, [sep]) == rest[0];
        } else {
          assert Join(rest, [sep]) == rest[0] + [sep] + Join(rest[1..], [sep]);
        }
      }
    }
  }

  /** The first piece is a prefix of the string; it is all of it when the separator does not occur. */
  lemma {:induction false} SplitFirst(s: string, sep: char)
    ensures StartsWith(s, Split(s, sep)[0])
    ensures sep !in s ==> Split(s, sep)[0] == s
    decreases |s|
  {
    if s != [] {
      SplitFirst(s[1..], sep);
      assert [s[0]] + s[1..] == s;
    }
  }

  /** A string without the separator is its own single piece. */
  lemma {:induction false} SplitWithout(s: string, sep: char)
    requires sep !in s
    ensures Split(s, sep) == [s]
    decreases |s|
  {
    if s != [] {
      SplitWithout(s[1..], sep);
      assert [s[0]] + s[1..] == s;
    }
  }

  /** The first piece is everything before the first separator. */
  lemma {:induction false} SplitAt(p: string, sep: char, rest: string)
    requires sep !in p
    ensures Split(p + [sep] + rest, sep) == [p] + Split(rest, sep)
    decreases |p|
  {
    if p != [] {
      SplitAt(p[1..], sep, rest);
      assert (p + [sep] + rest)[1..] == p[1..] + [sep] + rest;
      assert [p[0]] + p[1..] == p;
    } else {
      assert (p + [sep] + rest)[1..] == rest;
    }
  }

  /** Splitting a join of separator-free pieces gives back the pieces. */
  lemma {:induction false} SplitJoin(parts: seq<string>, sep: char)
    requires |parts| >= 1
    requires forall i :: 0 <= i < |parts| ==> sep !in parts[i]
    ensures Split(Join(parts, [sep]), sep) == parts
    decreases |parts|
  {
    if |parts| == 1 {
      SplitWithout(parts[0], sep);
    } else {
      SplitJoin(parts[1..], sep);
      SplitAt(parts[0], sep, Join(parts[1..], [sep]));
      assert [parts[0]] + parts[1..] == parts;
    }
  }

  /** The decimal digit `d` */
  function DigitChar(d: nat): (c: char)
    requires d < 10
    ensures '0' <= c <= '9' && (c - '0') as nat == d
  {
    ((('0' as int) + d) as char)
  }

  /** Every character is a decimal digit. */
  predicate AllDigits(s: string)
  {
    forall i :: 0 <= i < |s| ==> '0' <= s[i] <= '9'
  }

  /** `${n}` for a non-negative integer below 10^21 (no exponent form) */
  function Decimal(n: nat): (s: string)
    ensures |s| >= 1 && AllDigits(s)
    ensures n >= 10 ==> s[0] != '0'
    decreases n
  {
    if n < 10 then [DigitChar(n)] else Decimal(n / 10) + [DigitChar(n % 10)]
  }

  /** The number a string of decimal digits denotes */
  function DecimalValue(s: string): nat
    requires AllDigits(s)
    decreases |s|
  {
    if s == [] then 0 else DecimalValue(s[..|s| - 1]) * 10 + (s[|s| - 1] - '0') as nat
  }

  /** Reading back the decimal rendering gives the number. */
  lemma {:induction false} DecimalRoundTrip(n: nat)
    ensures DecimalValue(Decimal(n)) == n
    decreases n
  {
    if n >= 10 {
      DecimalRoundTrip(n / 10);
      var s := Decimal(n);
      assert s[..|s| - 1] == Decimal(n / 10);
    }
  }

  /** Different numbers render differently. */
  lemma DecimalInjective(m: nat, n: nat)
    requires Decimal(m) == Decimal(n)
    ensures m == n
  {
    DecimalRoundTrip(m);
    DecimalRoundTrip(n);
  }
}

/** String helpers shared by the server model: counting a character,
    JavaScript's `String.prototype.split` with a one-character separator,
    decimal digit strings and the decimal rendering of an integer. */
module Text {

  /** Number of occurrences of `c` in `s`. */
  function Count(s: string, c: char): (n: nat)
    ensures n <= |s|
    ensures n == 0 <==> c !in s
  {
    if |s| == 0 then 0
    else (if s[0] == c then 1 else 0) + Count(s[1..], c)
  }

  lemma {:induction false} CountAppend(a: string, b: string, c: char)
    ensures Count(a + b, c) == Count(a, c) + Count(b, c)
  {
    if |a| == 0 {
      assert a + b == b;
    } else {
      assert (a + b)[1..] == a[1..] + b;
      CountAppend(a[1..], b, c);
    }
  }

  /** Position of the first `c` in `s`, or `|s|` when there is none
      (`s.indexOf(c)` with `-1` read as `|s|`). */
  function IndexOf(s: string, c: char): (i: nat)
    ensures i <= |s|
    ensures c !in s[..i]
    ensures i < |s| ==> s[i] == c
  {
    if |s| == 0 then 0
    else if s[0] == c then 0
    else
      var i := 1 + IndexOf(s[1..], c);
      assert s[..i] == [s[0]] + s[1..][..i - 1];
      i
  }

  /** `s.split(sep)` for a one-character separator: the pieces between
      separators, in order; there is always at least one piece (`"".split(":")`
      is `[""]`) and one more piece than there are separators. */
  function Split(s: string, sep: char): (parts: seq<string>)
    ensures |parts| == Count(s, sep) + 1
    ensures forall k :: 0 <= k < |parts| ==> sep !in parts[k]
    decreases |s|
  {
    var i := IndexOf(s, sep);
    if i == |s| then
      assert s[..i] == s;
      [s]
    else
      var rest := s[i + 1..];
      Reassemble(s, i);
      CountAppend(s[..i] + [sep], rest, sep);
      CountAppend(s[..i], [sep], sep);
      [s[..i]] + Split(rest, sep)
  }

  /** A text is the part before position `i`, the character at `i` and
      the part after it. */
  lemma Reassemble(s: string, i: nat)
    requires i < |s|
    ensures s == s[..i] + [s[i]] + s[i + 1..]
  {
  }

  /** Concatenation regrouped to the right after the first two parts. */
  lemma Regroup(h: string, x: string, m: string, s: string)
    ensures h + x + m + x + s == h + x + (m + x + s)
  {
  }

  /** `parts.join(sep)`: the inverse of `Split`. */
  function Join(parts: seq<string>, sep: char): string
    requires |parts| >= 1
  {
    if |parts| == 1 then parts[0]
    else parts[0] + [sep] + Join(parts[1..], sep)
  }

  /** Splitting and joining back on the same separator gives the text back. */
  lemma {:induction false} JoinSplit(s: string, sep: char)
    ensures Join(Split(s, sep), sep) == s
    decreases |s|
  {
    var i := IndexOf(s, sep);
    if i < |s| {
      var rest := s[i + 1..];
      JoinSplit(rest, sep);
      var parts := Split(s, sep);
      assert parts[0] == s[..i] && parts[1..] == Split(rest, sep);
      Reassemble(s, i);
    } else {
      assert s[..i] == s;
    }
  }

  /** A piece without separators followed by a separator is the first piece. */
  lemma SplitAt(d: string, rest: string, sep: char)
    requires sep !in d
    ensures Split(d + [sep] + rest, sep) == [d] + Split(rest, sep)
  {
    var s := d + [sep] + rest;
    var i := IndexOf(s, sep);
    assert forall k :: 0 <= k < |d| ==> s[k] == d[k];
    assert s[|d|] == sep && s[..i][|d|..] == s[|d|..i];
    assert i == |d|;
    assert s[..|d|] == d && s[|d| + 1..] == rest;
  }

  /** A text without separators is a single piece. */
  lemma SplitNone(d: string, sep: char)
    requires sep !in d
    ensures Split(d, sep) == [d]
  {
    assert d[..|d|] == d;
  }

  predicate IsDigit(c: char)
  {
    '0' <= c <= '9'
  }

  predicate AllDigits(s: string)
  {
    forall k :: 0 <= k < |s| ==> IsDigit(s[k])
  }

  function Pow10(n: nat): (p: nat)
    ensures p >= 1
  {
    if n == 0 then 1 else 10 * Pow10(n - 1)
  }

  /** The value of a decimal digit string; the empty string has value 0. */
  function DigitsValue(s: string): (v: nat)
    requires AllDigits(s)
    ensures v < Pow10(|s|)
  {
    if |s| == 0 then 0
    else DigitsValue(s[..|s| - 1]) * 10 + (s[|s| - 1] as int - '0' as int)
  }

  /** Length of the longest prefix of `s` made of digits. */
  function DigitRun(s: string): (n: nat)
    ensures n <= |s|
    ensures AllDigits(s[..n])
    ensures n < |s| ==> !IsDigit(s[n])
  {
    if |s| == 0 || !IsDigit(s[0]) then 0
    else
      var n := 1 + DigitRun(s[1..]);
      assert s[..n] == [s[0]] + s[1..][..n - 1];
      n
  }

  /** Shortest decimal digits of a natural number. */
  function NatToDecimal(n: nat): (s: string)
    ensures |s| >= 1 && AllDigits(s)
  {
    if n < 10 then [('0' as int + n) as char]
    else NatToDecimal(n / 10) + [('0' as int + n % 10) as char]
  }

  /** Printing a natural number and reading it back gives the number. */
  lemma {:induction false} DecimalRoundTrip(n: nat)
    ensures DigitsValue(NatToDecimal(n)) == n
  {
    if n >= 10 {
      DecimalRoundTrip(n / 10);
      var s := NatToDecimal(n);
      assert s[..|s| - 1] == NatToDecimal(n / 10);
    }
  }

  /** JavaScript's rendering of an integer inside a template literal. */
  function IntToString(n: int): string
  {
    if n < 0 then "-" + NatToDecimal(-n) else NatToDecimal(n)
  }
}

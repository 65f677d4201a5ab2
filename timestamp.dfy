/** `parseTimestamp` (server.js): an `H:M:S` text, as captured from
    ffmpeg's `time=` field, converted to seconds. Each field is converted
    with JavaScript's `Number`; over the alphabet of the capture
    (digits, `:` and `.`) that conversion accepts an optional digit run,
    an optional `.` and an optional digit run, the empty field reads as 0,
    and anything else (a lone `.`, a second `.`) is `NaN`. */
module Timestamp {
  import opened Wrappers
  import opened Text

  /** A character the progress regex `[0-9:.]` accepts. */
  predicate IsTimeChar(c: char)
  {
    IsDigit(c) || c == ':' || c == '.'
  }

  predicate IsTimeText(s: string)
  {
    forall k :: 0 <= k < |s| ==> IsTimeChar(s[k])
  }

  predicate IsFieldChar(c: char)
  {
    IsDigit(c) || c == '.'
  }

  predicate IsFieldText(s: string)
  {
    forall k :: 0 <= k < |s| ==> IsFieldChar(s[k])
  }

  /** `Number(f)` for a field over digits and `.`; `None` is `NaN`.
      The field is scanned as the JavaScript numeric-literal grammar does:
      integer digits, then optionally `.` and fraction digits, then the end. */
  function FieldNumber(f: string): (r: Option<real>)
    requires IsFieldText(f)
    ensures r.Some? ==> r.value >= 0.0
  {
    var i := DigitRun(f);
    if i == |f| then Some(DigitsValue(f) as real)
    else
      var frac := f[i + 1..];
      var j := DigitRun(frac);
      if j < |frac| || (i == 0 && j == 0) then None
      else Some(DigitsValue(f[..i]) as real + FractionValue(frac))
  }

  /** The value of the digits after a decimal point: `0.d1d2...dn`,
      accumulated from the last digit so that only division by ten is used. */
  function FractionValue(digits: string): (v: real)
    requires AllDigits(digits)
    ensures 0.0 <= v < 1.0
  {
    if |digits| == 0 then 0.0
    else ((digits[0] as int - '0' as int) as real + FractionValue(digits[1..])) / 10.0
  }

  /** A digit-only field (the empty one included) reads as its decimal value. */
  lemma DigitFieldNumber(f: string)
    requires AllDigits(f)
    ensures FieldNumber(f) == Some(DigitsValue(f) as real)
  {
    assert f[..|f|] == f;
  }

  lemma {:induction false} DigitsHaveNoDot(s: string)
    requires AllDigits(s)
    ensures Count(s, '.') == 0
  {
    if |s| > 0 {
      assert AllDigits(s[1..]);
      DigitsHaveNoDot(s[1..]);
    }
  }

  /** Within the field alphabet, `Number` gives `NaN` exactly for a lone `.`
      and for a field with two or more `.`. */
  lemma FieldNumberNaN(f: string)
    requires IsFieldText(f)
    ensures FieldNumber(f).None? <==> f == "." || Count(f, '.') >= 2
  {
    var i := DigitRun(f);
    if i == |f| {
      assert f[..i] == f;
      DigitsHaveNoDot(f);
    } else {
      assert f[i] == '.';
      var frac := f[i + 1..];
      var j := DigitRun(frac);
      assert f == f[..i] + [f[i]] + frac;
      CountAppend(f[..i] + [f[i]], frac, '.');
      CountAppend(f[..i], [f[i]], '.');
      DigitsHaveNoDot(f[..i]);
      assert Count(f, '.') == 1 + Count(frac, '.');
      if j < |frac| {
        assert frac[j] == '.';
        assert frac[j] in frac;
      } else {
        assert frac[..j] == frac;
        DigitsHaveNoDot(frac);
        if f == "." {
          assert i == 0 && j == 0;
        }
        if i == 0 && j == 0 {
          assert f == ".";
        }
      }
    }
  }

  /** `parseTimestamp(value)`: `null` unless `value` splits on `:` into
      exactly three fields none of which is `NaN`; otherwise
      `h * 3600 + m * 60 + s`. */
  function ParseTimestamp(value: string): (r: Option<real>)
    requires IsTimeText(value)
    ensures r.Some? ==> r.value >= 0.0
  {
    var parts := Split(value, ':');
    SplitFields(value);
    if |parts| != 3 then None
    else
      var h, m, s := FieldNumber(parts[0]), FieldNumber(parts[1]), FieldNumber(parts[2]);
      if h.None? || m.None? || s.None? then None
      else Some(h.value * 3600.0 + m.value * 60.0 + s.value)
  }

  /** A field that `Number` reads as a number (see `FieldNumberNaN`). */
  predicate WellFormedField(f: string)
  {
    f != "." && Count(f, '.') < 2
  }

  /** Three fields all read as numbers exactly when all are well formed. */
  lemma ThreeFieldsDefined(parts: seq<string>)
    requires |parts| == 3
    requires forall i :: 0 <= i < 3 ==> IsFieldText(parts[i])
    ensures (FieldNumber(parts[0]).Some? && FieldNumber(parts[1]).Some? && FieldNumber(parts[2]).Some?) <==>
      forall p :: p in parts ==> WellFormedField(p)
  {
    FieldNumberNaN(parts[0]);
    FieldNumberNaN(parts[1]);
    FieldNumberNaN(parts[2]);
    if forall p :: p in parts ==> WellFormedField(p) {
      assert parts[0] in parts && parts[1] in parts && parts[2] in parts;
    } else {
      var p :| p in parts && !WellFormedField(p);
      var k :| 0 <= k < 3 && parts[k] == p;
    }
  }

  /** The timestamp parses exactly when it has two `:` and none of its three
      fields is a lone `.` or holds two `.`. */
  lemma ParseTimestampDefined(value: string)
    requires IsTimeText(value)
    ensures ParseTimestamp(value).Some? <==>
      Count(value, ':') == 2 && forall p :: p in Split(value, ':') ==> WellFormedField(p)
  {
    var parts := Split(value, ':');
    SplitFields(value);
    assert ParseTimestamp(value).Some? <==>
      (|parts| == 3 && FieldNumber(parts[0]).Some? && FieldNumber(parts[1]).Some? && FieldNumber(parts[2]).Some?);
    if |parts| == 3 {
      ThreeFieldsDefined(parts);
    }
  }

  /** Every piece of a split timestamp is a field over digits and `.`. */
  lemma {:induction false} SplitFields(s: string)
    requires IsTimeText(s)
    ensures forall k :: 0 <= k < |Split(s, ':')| ==> IsFieldText(Split(s, ':')[k])
    decreases |s|
  {
    var i := IndexOf(s, ':');
    var first := s[..i];
    assert IsFieldText(first) by {
      forall k | 0 <= k < |first| ensures IsFieldChar(first[k]) {
        assert first[k] == s[k] && first[k] in first;
      }
    }
    if i < |s| {
      var rest := s[i + 1..];
      assert IsTimeText(rest) by {
        forall k | 0 <= k < |rest| ensures IsTimeChar(rest[k]) {
          assert rest[k] == s[i + 1 + k];
        }
      }
      SplitFields(rest);
    } else {
      assert first == s;
    }
  }

  /** `h:m:s` splits back into its three fields. */
  lemma SplitThree(h: string, m: string, s: string)
    requires ':' !in h && ':' !in m && ':' !in s
    ensures Split(h + ":" + m + ":" + s, ':') == [h, m, s]
  {
    SplitNone(s, ':');
    SplitAt(m, s, ':');
    SplitAt(h, m + ":" + s, ':');
    Regroup(h, ":", m, s);
    assert [h] + [m, s] == [h, m, s];
  }

  lemma FieldTextConcat(a: string, b: string)
    requires IsFieldText(a) && IsFieldText(b)
    ensures IsFieldText(a + b)
  {
    var t := a + b;
    forall k | 0 <= k < |t| ensures IsFieldChar(t[k]) {
      if k >= |a| { assert t[k] == b[k - |a|]; }
    }
  }

  lemma TimeTextConcat(a: string, b: string)
    requires IsTimeText(a) && IsTimeText(b)
    ensures IsTimeText(a + b)
  {
    var t := a + b;
    forall k | 0 <= k < |t| ensures IsTimeChar(t[k]) {
      if k >= |a| { assert t[k] == b[k - |a|]; }
    }
  }

  /** `h:m:s` is timestamp text when its three fields are field text. */
  lemma JoinedIsTimeText(h: string, m: string, s: string)
    requires IsFieldText(h) && IsFieldText(m) && IsFieldText(s)
    ensures IsTimeText(h + ":" + m + ":" + s)
  {
    assert IsTimeText(h) && IsTimeText(m) && IsTimeText(s) && IsTimeText(":");
    TimeTextConcat(h, ":");
    TimeTextConcat(h + ":", m);
    TimeTextConcat(h + ":" + m, ":");
    TimeTextConcat(h + ":" + m + ":", s);
  }

  /** With three fields the result is the weighted sum of the fields'
      `Number` values, or `null` when one of them is `NaN`. */
  lemma ParseTimestampFields(h: string, m: string, s: string)
    requires IsFieldText(h) && IsFieldText(m) && IsFieldText(s)
    ensures IsTimeText(h + ":" + m + ":" + s)
    ensures ParseTimestamp(h + ":" + m + ":" + s) ==
      if FieldNumber(h).Some? && FieldNumber(m).Some? && FieldNumber(s).Some?
      then Some(FieldNumber(h).value * 3600.0 + FieldNumber(m).value * 60.0 + FieldNumber(s).value)
      else None
  {
    JoinedIsTimeText(h, m, s);
    assert ':' !in h && ':' !in m && ':' !in s;
    SplitThree(h, m, s);
    ParseTimestampOfParts(h + ":" + m + ":" + s, h, m, s);
  }

  lemma ParseTimestampOfParts(value: string, h: string, m: string, s: string)
    requires IsTimeText(value) && Split(value, ':') == [h, m, s]
    requires IsFieldText(h) && IsFieldText(m) && IsFieldText(s)
    ensures ParseTimestamp(value) ==
      if FieldNumber(h).Some? && FieldNumber(m).Some? && FieldNumber(s).Some?
      then Some(FieldNumber(h).value * 3600.0 + FieldNumber(m).value * 60.0 + FieldNumber(s).value)
      else None
  {
  }

  /** A digit string runs to its end. */
  lemma DigitRunAll(d: string)
    requires AllDigits(d)
    ensures DigitRun(d) == |d|
  {
  }

  /** The pieces around the `.` of `i.f`. */
  lemma DotSlices(i: string, f: string)
    ensures (i + "." + f)[..|i|] == i
    ensures (i + "." + f)[|i|] == '.'
    ensures (i + "." + f)[|i| + 1..] == f
  {
  }

  /** `i.f` with digit strings on both sides (and at least one fraction digit)
      reads as the integer part plus the fraction. */
  lemma FieldNumberWithFraction(i: string, f: string)
    requires AllDigits(i) && AllDigits(f) && |f| > 0
    ensures IsFieldText(i + "." + f)
    ensures FieldNumber(i + "." + f) == Some(DigitsValue(i) as real + FractionValue(f))
  {
    assert IsFieldText(i) && IsFieldText(f) && IsFieldText(".");
    FieldTextConcat(i, ".");
    FieldTextConcat(i + ".", f);
    DotSlices(i, f);
    FieldNumberAtDot(i + "." + f, i, f);
  }

  /** `FieldNumberWithFraction` on a field given by its pieces around the `.`. */
  lemma FieldNumberAtDot(t: string, i: string, f: string)
    requires AllDigits(i) && AllDigits(f) && |f| > 0 && IsFieldText(t)
    requires |t| == |i| + 1 + |f| && t[..|i|] == i && t[|i|] == '.' && t[|i| + 1..] == f
    ensures FieldNumber(t) == Some(DigitsValue(i) as real + FractionValue(f))
  {
    DigitRunPrefix(i, t);
    DigitRunAll(f);
  }

  /** The digit run of `t` stops right after the digit prefix `d` when the
      next character is not a digit. */
  lemma DigitRunPrefix(d: string, t: string)
    requires AllDigits(d) && |d| < |t| && t[..|d|] == d && !IsDigit(t[|d|])
    ensures DigitRun(t) == |d|
  {
    var n := DigitRun(t);
    assert forall k :: 0 <= k < n ==> IsDigit(t[k]) by {
      forall k | 0 <= k < n ensures IsDigit(t[k]) {
        assert t[k] == t[..n][k];
      }
    }
    assert forall k :: 0 <= k < |d| ==> t[k] == d[k];
  }

  /** Empty fields count as 0: `"::"` parses as 0 seconds. */
  lemma EmptyFieldsAreZero(value: string)
    requires value == "::"
    ensures IsTimeText(value) && ParseTimestamp(value) == Some(0.0)
  {
    var empty := "";
    DigitFieldNumber(empty);
    ParseTimestampFields(empty, empty, empty);
    assert value == empty + ":" + empty + ":" + empty;
  }

  /** A timestamp without two `:` is rejected: `"01:30"` is `null`. */
  lemma TwoFieldsRejected(value: string)
    requires value == "01:30"
    ensures IsTimeText(value) && ParseTimestamp(value).None?
  {
    var minutes, seconds := "01", "30";
    assert value == minutes + ":" + seconds;
    assert ':' !in minutes && ':' !in seconds;
    CountAppend(minutes + ":", seconds, ':');
    CountAppend(minutes, ":", ':');
  }
}

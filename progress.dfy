/** The progress extractor of the transcode stage (server.js): every chunk of
    ffmpeg's diagnostic output is searched with `/time=([0-9:.]+)/`, the
    captured timestamp is converted with `parseTimestamp`, and when the
    duration is known (non-zero) the progress becomes
    `max(prev, round(min(seconds / duration, 0.99) * 100))`. */
module ProgressExtractor {
  import opened Wrappers
  import opened Text
  import opened Timestamp

  const Label: string := "time="

  /** The regex `time=[0-9:.]` matches at position `i`: the label followed by
      at least one timestamp character. */
  predicate MatchesAt(text: string, i: int)
  {
    0 <= i && i + 5 < |text| && text[i..i + 5] == Label && IsTimeChar(text[i + 5])
  }

  /** Length of the maximal run of timestamp characters starting at `k`
      (the greedy `[0-9:.]+`). */
  function TimeRun(text: string, k: nat): (n: nat)
    requires k <= |text|
    ensures k + n <= |text|
    ensures forall j :: k <= j < k + n ==> IsTimeChar(text[j])
    ensures k + n < |text| ==> !IsTimeChar(text[k + n])
    decreases |text| - k
  {
    if k == |text| || !IsTimeChar(text[k]) then 0 else 1 + TimeRun(text, k + 1)
  }

  /** The leftmost match position at or after `i`. */
  function FirstMatchFrom(text: string, i: nat): (r: Option<nat>)
    requires i <= |text|
    ensures r.Some? ==> i <= r.value && MatchesAt(text, r.value)
    ensures r.Some? ==> forall j :: i <= j < r.value ==> !MatchesAt(text, j)
    ensures r.None? ==> forall j :: i <= j ==> !MatchesAt(text, j)
    decreases |text| - i
  {
    if i + 5 >= |text| then None
    else if MatchesAt(text, i) then Some(i)
    else FirstMatchFrom(text, i + 1)
  }

  /** `/time=([0-9:.]+)/.exec(text)[1]`: the capture of the leftmost match,
      which is the maximal run of timestamp characters after the label. */
  function TimeCapture(text: string): (r: Option<string>)
    ensures r.None? <==> forall j :: !MatchesAt(text, j)
    ensures r.Some? ==> |r.value| >= 1 && IsTimeText(r.value)
    ensures r.Some? ==>
      exists i :: MatchesAt(text, i) &&
        (forall j :: 0 <= j < i ==> !MatchesAt(text, j)) &&
        r.value == text[i + 5..i + 5 + TimeRun(text, i + 5)]
  {
    match FirstMatchFrom(text, 0)
    case None => None
    case Some(i) =>
      var c := text[i + 5..i + 5 + TimeRun(text, i + 5)];
      assert IsTimeText(c) by {
        forall k | 0 <= k < |c| ensures IsTimeChar(c[k]) {
          assert c[k] == text[i + 5 + k];
        }
      }
      Some(c)
  }

  /** `Math.round` on the reals: the nearest integer, halves rounded up. */
  function Round(x: real): (n: int)
    ensures n as real - 0.5 <= x < n as real + 0.5
  {
    (x + 0.5).Floor
  }

  /** The progress after one chunk of transcode diagnostics. It never goes
      down and never rises above 99 through this path. */
  function ProgressUpdate(chunk: string, duration: Option<real>, prev: int): (p: int)
    ensures prev <= p <= MaxInt(prev, 99)
  {
    match TimeCapture(chunk)
    case None => prev
    case Some(stamp) =>
      var seconds := ParseTimestamp(stamp);
      if duration.Some? && duration.value != 0.0 && seconds.Some? then
        MaxInt(prev, Round(MinReal(seconds.value / duration.value, 0.99) * 100.0))
      else prev
  }

  /** Progress only moves when the chunk holds a `time=` match, the duration
      is known and non-zero, and the captured timestamp parses. */
  lemma ProgressUnchanged(chunk: string, duration: Option<real>, prev: int)
    requires TimeCapture(chunk).None? || duration.None? || duration == Some(0.0) ||
             ParseTimestamp(TimeCapture(chunk).value).None?
    ensures ProgressUpdate(chunk, duration, prev) == prev
  {
  }

  /** Otherwise the new progress is the larger of the previous one and the
      nearest integer to the capped percentage `100 * min(seconds / duration, 0.99)`. */
  lemma ProgressEstimate(chunk: string, duration: real, prev: int)
    requires TimeCapture(chunk).Some? && duration != 0.0
    requires ParseTimestamp(TimeCapture(chunk).value).Some?
    ensures var pct := 100.0 * MinReal(ParseTimestamp(TimeCapture(chunk).value).value / duration, 0.99);
            var p := ProgressUpdate(chunk, Some(duration), prev);
            pct < p as real + 0.5 &&
            (p == prev || p as real - 0.5 <= pct)
  {
  }

  /** The progress after a sequence of chunks, applied in arrival order. */
  function ProgressAfter(chunks: seq<string>, duration: Option<real>, start: int): (p: int)
    ensures start <= p <= MaxInt(start, 99)
  {
    if |chunks| == 0 then start
    else ProgressUpdate(chunks[|chunks| - 1], duration, ProgressAfter(chunks[..|chunks| - 1], duration, start))
  }

  /** Progress never goes back while the transcode runs: what the first `n`
      chunks produced is at most what all of them produce, and the later
      chunks add nothing beyond 99. */
  lemma {:induction false} ProgressAfterPrefix(chunks: seq<string>, duration: Option<real>, start: int, n: nat)
    requires n <= |chunks|
    ensures var before := ProgressAfter(chunks[..n], duration, start);
      before <= ProgressAfter(chunks, duration, start) <= MaxInt(before, 99)
    decreases |chunks|
  {
    if n == |chunks| {
      assert chunks[..n] == chunks;
    } else {
      var init := chunks[..|chunks| - 1];
      assert init[..n] == chunks[..n];
      ProgressAfterPrefix(init, duration, start, n);
    }
  }

  /** With an unknown (or zero) duration the chunks never move progress. */
  lemma {:induction false} UnknownDurationKeepsProgress(chunks: seq<string>, duration: Option<real>, start: int)
    requires duration.None? || duration == Some(0.0)
    ensures ProgressAfter(chunks, duration, start) == start
  {
    if |chunks| > 0 {
      UnknownDurationKeepsProgress(chunks[..|chunks| - 1], duration, start);
    }
  }

  /** The label match and capture for a chunk that is exactly `time=` and a
      timestamp. */
  lemma CaptureOfLabel(stamp: string)
    requires |stamp| >= 1 && IsTimeText(stamp)
    ensures TimeCapture(Label + stamp) == Some(stamp)
  {
    var text := Label + stamp;
    assert text[0..5] == Label;
    assert text[5] == stamp[0];
    assert MatchesAt(text, 0);
    RunToEnd(text, 5);
    assert text[5..|text|] == stamp;
  }

  lemma {:induction false} RunToEnd(text: string, k: nat)
    requires k <= |text|
    requires forall j :: k <= j < |text| ==> IsTimeChar(text[j])
    ensures TimeRun(text, k) == |text| - k
    decreases |text| - k
  {
    if k < |text| {
      RunToEnd(text, k + 1);
    }
  }

  /** The `Number` values of the fields that appear in the scenario below. */
  lemma ScenarioFields(zero: string, one: string, thirty: string)
    requires zero == "00" && one == "01" && thirty == "30"
    ensures FieldNumber(zero) == Some(0.0) && FieldNumber(one) == Some(1.0)
    ensures IsFieldText(thirty + "." + zero) && FieldNumber(thirty + "." + zero) == Some(30.0)
    ensures IsFieldText(zero + "." + zero) && FieldNumber(zero + "." + zero) == Some(0.0)
  {
    DigitFieldNumber(zero);
    DigitFieldNumber(one);
    FieldNumberWithFraction(thirty, zero);
    FieldNumberWithFraction(zero, zero);
    TwoDigitValue(zero);
    TwoDigitValue(one);
    TwoDigitValue(thirty);
    TwoZeroFraction(zero);
  }

  lemma TwoDigitValue(d: string)
    requires |d| == 2 && AllDigits(d)
    ensures DigitsValue(d) == (d[0] as int - '0' as int) * 10 + (d[1] as int - '0' as int)
  {
    assert d[..1][..0] == [];
  }

  lemma TwoZeroFraction(d: string)
    requires d == "00"
    ensures FractionValue(d) == 0.0
  {
    var t := d[1..];
    assert d[0] == '0' && t[0] == '0' && t[1..] == [];
    assert FractionValue(t[1..]) == 0.0;
    assert FractionValue(t) == 0.0;
  }

  /** For a 60 s input, a chunk that is the label and a parsed timestamp
      moves progress from 0 to the rounded, capped percentage. */
  lemma UpdateFromStamp(chunk: string, stamp: string, seconds: real)
    requires |stamp| >= 1 && IsTimeText(stamp) && chunk == Label + stamp
    requires ParseTimestamp(stamp) == Some(seconds)
    ensures ProgressUpdate(chunk, Some(60.0), 0) == MaxInt(0, Round(MinReal(seconds / 60.0, 0.99) * 100.0))
  {
    CaptureOfLabel(stamp);
  }

  lemma HalfPercent(seconds: real)
    requires seconds == 30.0
    ensures MaxInt(0, Round(MinReal(seconds / 60.0, 0.99) * 100.0)) == 50
  {
  }

  lemma CappedPercent(seconds: real)
    requires seconds == 60.0
    ensures MaxInt(0, Round(MinReal(seconds / 60.0, 0.99) * 100.0)) == 99
  {
  }

  /** Half of a 60 s input reports 50. */
  lemma HalfMinuteChunk(h: string, s: string)
    requires IsFieldText(h) && IsFieldText(s)
    requires FieldNumber(h) == Some(0.0) && FieldNumber(s) == Some(30.0)
    ensures ProgressUpdate(Label + (h + ":" + h + ":" + s), Some(60.0), 0) == 50
  {
    var stamp := h + ":" + h + ":" + s;
    ParseTimestampFields(h, h, s);
    UpdateFromStamp(Label + stamp, stamp, 30.0);
    HalfPercent(30.0);
  }

  /** The whole of a 60 s input is capped at 99. */
  lemma FullMinuteChunk(h: string, m: string, s: string)
    requires IsFieldText(h) && IsFieldText(m) && IsFieldText(s)
    requires FieldNumber(h) == Some(0.0) && FieldNumber(m) == Some(1.0) && FieldNumber(s) == Some(0.0)
    ensures ProgressUpdate(Label + (h + ":" + m + ":" + s), Some(60.0), 0) == 99
  {
    var stamp := h + ":" + m + ":" + s;
    ParseTimestampFields(h, m, s);
    UpdateFromStamp(Label + stamp, stamp, 60.0);
    CappedPercent(60.0);
  }

  lemma LabelRegroup(h: string, m: string, s: string, f: string)
    ensures Label + h + ":" + m + ":" + s + "." + f == Label + (h + ":" + m + ":" + (s + "." + f))
  {
  }

  /** For a 60 s input, `time=00:00:30.00` reports 50 and `time=00:01:00.00`
      is capped at 99 (the chunks are spelled out from their two-digit fields). */
  lemma SixtySecondScenario(zero: string, one: string, thirty: string)
    requires zero == "00" && one == "01" && thirty == "30"
    ensures ProgressUpdate(Label + zero + ":" + zero + ":" + thirty + "." + zero, Some(60.0), 0) == 50
    ensures ProgressUpdate(Label + zero + ":" + one + ":" + zero + "." + zero, Some(60.0), 0) == 99
  {
    ScenarioFields(zero, one, thirty);
    LabelRegroup(zero, zero, thirty, zero);
    LabelRegroup(zero, one, zero, zero);
    HalfMinuteChunk(zero, thirty + "." + zero);
    FullMinuteChunk(zero, one, zero + "." + zero);
  }
}

/**
 * Chart axis labels of api/sensor.js: a 12-hour clock label per reading
 * (`getReadingTimes`) and the pick of four of them (`getEveryXthElement`,
 * `getGraphLabels`).
 */
module Labels {
  import opened Options
  import opened Series

  const MS_PER_DAY: int := 86_400_000
  const MS_PER_HOUR: int := 3_600_000
  const MS_PER_MINUTE: int := 60_000

  /** Local hour of an instant given in local epoch milliseconds (`getHours`). */
  function Hours24(ms: int): (h: int)
    ensures 0 <= h < 24
  {
    (ms % MS_PER_DAY) / MS_PER_HOUR
  }

  /** Local minute of the hour (`getMinutes`). */
  function Minutes(ms: int): (m: int)
    ensures 0 <= m < 60
  {
    (ms % MS_PER_HOUR) / MS_PER_MINUTE
  }

  /** `hours24 % 12 || 12`: the 12-hour clock shows 12 instead of 0. */
  function Hours12(h24: int): (h: int)
    requires 0 <= h24 < 24
    ensures 1 <= h <= 12
    ensures h % 12 == h24 % 12
  {
    if h24 % 12 == 0 then 12 else h24 % 12
  }

  function DigitChar(d: int): char
    requires 0 <= d < 10
  {
    "0123456789"[d]
  }

  function DigitValue(c: char): int {
    if '0' <= c <= '9' then (c as int) - ('0' as int) else -1
  }

  /** `n.toString()` for a natural number. */
  function DecimalString(n: nat): string {
    if n < 10 then [DigitChar(n)] else DecimalString(n / 10) + [DigitChar(n % 10)]
  }

  /** `s.padStart(2, '0')`. */
  function PadStart2(s: string): string {
    if |s| == 0 then "00" else if |s| == 1 then "0" + s else s
  }

  /** Numbers below 100 print as exactly two digits once padded. */
  lemma TwoDigits(n: nat)
    requires n < 100
    ensures PadStart2(DecimalString(n)) == [DigitChar(n / 10), DigitChar(n % 10)]
  {
  }

  lemma DigitRoundTrip(d: int)
    requires 0 <= d < 10
    ensures DigitValue(DigitChar(d)) == d
  {
  }

  /** The "hh:mm AM|PM" label of an instant. */
  function FormatTime(ms: int): string {
    var h24 := Hours24(ms);
    PadStart2(DecimalString(Hours12(h24))) + ":" + PadStart2(DecimalString(Minutes(ms)))
      + " " + (if h24 < 12 then "AM" else "PM")
  }

  function TwoDigitValue(a: char, b: char): int {
    DigitValue(a) * 10 + DigitValue(b)
  }

  /** Local hour (0 to 23) and minute a label stands for. */
  datatype Clock = Clock(hours24: int, minutes: int)

  /** Reads a label back; None for anything not of the form "hh:mm AM|PM". */
  function ParseTime(text: string): Option<Clock> {
    if |text| == 8 && text[2] == ':' && text[5] == ' ' && (text[6..] == "AM" || text[6..] == "PM")
       && forall k :: k in {0, 1, 3, 4} ==> '0' <= text[k] <= '9'
    then
      var h12 := TwoDigitValue(text[0], text[1]);
      Some(Clock(h12 % 12 + (if text[6..] == "PM" then 12 else 0), TwoDigitValue(text[3], text[4])))
    else None
  }

  /**
   * Every label has the form "hh:mm AM|PM": the hour is h24 % 12 shown as 12
   * for 0, both fields are padded to two digits, the suffix is AM exactly when
   * the hour is below 12, and the label determines the local time of day.
   */
  lemma FormatTimeShape(ms: int)
    ensures |FormatTime(ms)| == 8
    ensures FormatTime(ms)[2] == ':' && FormatTime(ms)[5] == ' '
    ensures FormatTime(ms)[..2] == [DigitChar(Hours12(Hours24(ms)) / 10), DigitChar(Hours12(Hours24(ms)) % 10)]
    ensures FormatTime(ms)[3..5] == [DigitChar(Minutes(ms) / 10), DigitChar(Minutes(ms) % 10)]
    ensures FormatTime(ms)[6..] == "AM" <==> Hours24(ms) < 12
    ensures FormatTime(ms)[6..] == "PM" <==> Hours24(ms) >= 12
    ensures ParseTime(FormatTime(ms)) == Some(Clock(Hours24(ms), Minutes(ms)))
  {
    var h24, m := Hours24(ms), Minutes(ms);
    var h12 := Hours12(h24);
    FormatTimeLayout(ms);
    ParseLayout(h12, m, h24 >= 12);
    var l := FormatTime(ms);
    var suffix := if h24 < 12 then "AM" else "PM";
    assert l[6..] == suffix;
    assert "AM"[0] != "PM"[0];
    Hours12Back(h24);
  }

  /** The 12-hour clock and the AM/PM half together give back the 24-hour clock. */
  lemma Hours12Back(h24: int)
    requires 0 <= h24 < 24
    ensures Hours12(h24) % 12 + (if h24 >= 12 then 12 else 0) == h24
  {
    if h24 < 12 {
      DivModUnique(h24, 12, 0, h24);
    } else {
      DivModUnique(h24, 12, 1, h24 - 12);
    }
    DivModUnique(12, 12, 1, 0);
  }

  /** The label of an instant, character by character. */
  lemma FormatTimeLayout(ms: int)
    ensures FormatTime(ms) ==
      [DigitChar(Hours12(Hours24(ms)) / 10), DigitChar(Hours12(Hours24(ms)) % 10), ':',
       DigitChar(Minutes(ms) / 10), DigitChar(Minutes(ms) % 10), ' ']
      + (if Hours24(ms) < 12 then "AM" else "PM")
  {
    var h24, m := Hours24(ms), Minutes(ms);
    var h12 := Hours12(h24);
    TwoDigits(h12);
    TwoDigits(m);
  }

  /** Parsing a well-formed label recovers the 24-hour clock time. */
  lemma ParseLayout(h12: int, m: int, pm: bool)
    requires 1 <= h12 <= 12 && 0 <= m < 60
    ensures ParseTime([DigitChar(h12 / 10), DigitChar(h12 % 10), ':', DigitChar(m / 10), DigitChar(m % 10), ' ']
                      + (if pm then "PM" else "AM"))
            == Some(Clock(h12 % 12 + (if pm then 12 else 0), m))
  {
    var l := [DigitChar(h12 / 10), DigitChar(h12 % 10), ':', DigitChar(m / 10), DigitChar(m % 10), ' ']
             + (if pm then "PM" else "AM");
    assert l[6..] == (if pm then "PM" else "AM");
    DigitRoundTrip(h12 / 10);
    DigitRoundTrip(h12 % 10);
    DigitRoundTrip(m / 10);
    DigitRoundTrip(m % 10);
    assert TwoDigitValue(l[0], l[1]) == h12;
    assert TwoDigitValue(l[3], l[4]) == m;
  }

  /** The instant of reading i of n, taken `y` seconds apart and ending now. */
  function ReadingInstant(nowMs: int, y: int, n: int, i: int): int {
    nowMs - y * 1000 * (n - 1 - i)
  }

  /** The label of reading i of n. */
  function ReadingLabel(nowMs: int, y: int, n: int, i: int): string {
    FormatTime(ReadingInstant(nowMs, y, n, i))
  }

  /**
   * `getReadingTimes` with the current local time passed in: one label per
   * reading, reading i stamped (n - 1 - i) * y seconds before now.
   */
  method GetReadingTimes(readings: seq<real>, y: int, nowMs: int) returns (times: seq<string>)
    ensures |times| == |readings|
    ensures forall i :: 0 <= i < |times| ==> times[i] == ReadingLabel(nowMs, y, |readings|, i)
    ensures |times| > 0 ==> times[|times| - 1] == FormatTime(nowMs)
  {
    times := [];
    for i := 0 to |readings|
      invariant |times| == i
      invariant forall k :: 0 <= k < i ==> times[k] == ReadingLabel(nowMs, y, |readings|, k)
    {
      ghost var before := times;
      times := times + [ReadingLabel(nowMs, y, |readings|, i)];
      forall k | 0 <= k <= i
        ensures times[k] == ReadingLabel(nowMs, y, |readings|, k)
      {
        if k < i {
          assert times[k] == before[k];
        }
      }
    }
    if |times| > 0 {
      ReadingInstantsSpaced(nowMs, y, |readings|, 0);
    }
  }

  /** Consecutive labels are stamped exactly y seconds apart. */
  lemma ReadingInstantsSpaced(nowMs: int, y: int, n: int, i: int)
    ensures ReadingInstant(nowMs, y, n, i + 1) == ReadingInstant(nowMs, y, n, i) + y * 1000
    ensures ReadingInstant(nowMs, y, n, n - 1) == nowMs
  {
    assert y * 1000 * (n - 1 - i) == y * 1000 * (n - 1 - (i + 1)) + y * 1000;
  }

  /** `list[idx]`: undefined (None) outside the list. */
  function At<T>(s: seq<T>, idx: int): (r: Option<T>)
    ensures r.Some? <==> 0 <= idx < |s|
  {
    if 0 <= idx < |s| then Some(s[idx]) else None
  }

  /**
   * Reference definition of the stride loop, with every position scaled by 4:
   * i4 = 4 * i and x4 = 4 * x, so that strides that are multiples of 1/4 stay exact.
   */
  function StridePicks<T>(s: seq<T>, x4: int, i4: int): seq<Option<T>>
    requires x4 > 0
    decreases 4 * |s| - i4
  {
    if i4 >= 4 * |s| then [] else [At(s, i4 / 4)] + StridePicks(s, x4, i4 + x4)
  }

  /**
   * `getEveryXthElement(list, x)` for x = x4 / 4: i runs from x - 1 while
   * i < |list| in steps of x, and list[floor(i)] is pushed. A stride x <= 0
   * never ends the loop, so it is excluded.
   */
  method EveryXthElement<T>(list: seq<T>, x4: int) returns (r: seq<Option<T>>)
    requires x4 > 0
    ensures r == StridePicks(list, x4, x4 - 4)
  {
    r := [];
    var i4 := x4 - 4;
    while i4 < 4 * |list|
      invariant r + StridePicks(list, x4, i4) == StridePicks(list, x4, x4 - 4)
      decreases 4 * |list| - i4
    {
      var idx := i4 / 4;
      r := r + [At(list, idx)];
      i4 := i4 + x4;
    }
  }

  /** Index of the j-th graph label among n readings: floor(j * n / 4) - 1. */
  function GraphIndex(n: int, j: int): int {
    j * n / 4 - 1
  }

  /** For n >= 4 the four indices are strictly increasing, in range, and end at n - 1. */
  lemma GraphIndicesIncrease(n: int)
    requires n >= 4
    ensures 0 <= GraphIndex(n, 1) < GraphIndex(n, 2) < GraphIndex(n, 3) < GraphIndex(n, 4) == n - 1
  {
  }

  lemma GraphIndexStep(n: int)
    ensures (n - 4) / 4 == GraphIndex(n, 1) && (2 * n - 4) / 4 == GraphIndex(n, 2)
    ensures (3 * n - 4) / 4 == GraphIndex(n, 3) && (4 * n - 4) / 4 == GraphIndex(n, 4)
  {
  }

  lemma StrideStep<T>(s: seq<T>, x4: int, i4: int, next: int)
    requires x4 > 0 && i4 < 4 * |s| && next == i4 + x4
    ensures StridePicks(s, x4, i4) == [At(s, i4 / 4)] + StridePicks(s, x4, next)
  {
    var head := At(s, i4 / 4);
    assert StridePicks(s, x4, i4) == [head] + StridePicks(s, x4, i4 + x4);
  }

  /** With stride n / 4 over n >= 4 labels, exactly the four graph indices are picked. */
  lemma GraphPicks<T>(s: seq<T>)
    requires |s| >= 4
    ensures StridePicks(s, |s|, |s| - 4) ==
      [Some(s[GraphIndex(|s|, 1)]), Some(s[GraphIndex(|s|, 2)]),
       Some(s[GraphIndex(|s|, 3)]), Some(s[GraphIndex(|s|, 4)])]
  {
    var n := |s|;
    GraphIndicesIncrease(n);
    GraphIndexStep(n);
    var a, b, c, d := GraphIndex(n, 1), GraphIndex(n, 2), GraphIndex(n, 3), GraphIndex(n, 4);
    assert StridePicks(s, n, 5 * n - 4) == [];
    StrideStep(s, n, 4 * n - 4, 5 * n - 4);
    assert At(s, (4 * n - 4) / 4) == Some(s[d]);
    var p4 := [Some(s[d])];
    assert StridePicks(s, n, 4 * n - 4) == p4;
    StrideStep(s, n, 3 * n - 4, 4 * n - 4);
    assert At(s, (3 * n - 4) / 4) == Some(s[c]);
    var p3 := [Some(s[c])] + p4;
    StrideStep(s, n, 2 * n - 4, 3 * n - 4);
    assert At(s, (2 * n - 4) / 4) == Some(s[b]);
    var p2 := [Some(s[b])] + p3;
    StrideStep(s, n, n - 4, 2 * n - 4);
    assert At(s, (n - 4) / 4) == Some(s[a]);
  }

  /** The same picks, element by element. */
  lemma GraphPicksAt<T>(s: seq<T>)
    requires |s| >= 4
    ensures |StridePicks(s, |s|, |s| - 4)| == 4
    ensures forall j :: 1 <= j <= 4 ==> 0 <= GraphIndex(|s|, j) < |s|
    ensures forall j :: 1 <= j <= 4 ==> StridePicks(s, |s|, |s| - 4)[j - 1] == Some(s[GraphIndex(|s|, j)])
    ensures StridePicks(s, |s|, |s| - 4)[3] == Some(s[|s| - 1])
  {
    GraphPicks(s);
    GraphIndicesIncrease(|s|);
  }

  /**
   * With fewer than four labels the stride is below 1, the first index is -1
   * and the first pick is undefined; the rest repeat labels.
   */
  lemma ShortSeriesPicks<T>(s: seq<T>)
    requires 1 <= |s| <= 3
    ensures |s| == 1 ==> StridePicks(s, 1, -3) == [None, None, None, Some(s[0]), Some(s[0]), Some(s[0]), Some(s[0])]
    ensures |s| == 2 ==> StridePicks(s, 2, -2) == [None, Some(s[0]), Some(s[0]), Some(s[1]), Some(s[1])]
    ensures |s| == 3 ==> StridePicks(s, 3, -1) == [None, Some(s[0]), Some(s[1]), Some(s[2]), Some(s[2])]
  {
    if |s| == 1 {
      OneLabelPicks(s);
    } else if |s| == 2 {
      TwoLabelPicks(s);
    } else {
      ThreeLabelPicks(s);
    }
  }

  lemma OneLabelPicks<T>(s: seq<T>)
    requires |s| == 1
    ensures StridePicks(s, 1, -3) == [None, None, None, Some(s[0]), Some(s[0]), Some(s[0]), Some(s[0])]
  {
    var p := Some(s[0]);
    assert StridePicks(s, 1, 4) == [];
    assert StridePicks(s, 1, 3) == [p];
    assert StridePicks(s, 1, 2) == [p, p];
    assert StridePicks(s, 1, 1) == [p, p, p];
    assert StridePicks(s, 1, 0) == [p, p, p, p];
    assert StridePicks(s, 1, -1) == [None, p, p, p, p];
    assert StridePicks(s, 1, -2) == [None, None, p, p, p, p];
  }

  lemma TwoLabelPicks<T>(s: seq<T>)
    requires |s| == 2
    ensures StridePicks(s, 2, -2) == [None, Some(s[0]), Some(s[0]), Some(s[1]), Some(s[1])]
  {
    assert StridePicks(s, 2, 8) == [];
    assert StridePicks(s, 2, 6) == [Some(s[1])];
    assert StridePicks(s, 2, 4) == [Some(s[1]), Some(s[1])];
    assert StridePicks(s, 2, 2) == [Some(s[0]), Some(s[1]), Some(s[1])];
    assert StridePicks(s, 2, 0) == [Some(s[0]), Some(s[0]), Some(s[1]), Some(s[1])];
  }

  lemma ThreeLabelPicks<T>(s: seq<T>)
    requires |s| == 3
    ensures StridePicks(s, 3, -1) == [None, Some(s[0]), Some(s[1]), Some(s[2]), Some(s[2])]
  {
    assert StridePicks(s, 3, 14) == [];
    assert StridePicks(s, 3, 11) == [Some(s[2])];
    assert StridePicks(s, 3, 8) == [Some(s[2]), Some(s[2])];
    assert StridePicks(s, 3, 5) == [Some(s[1]), Some(s[2]), Some(s[2])];
    assert StridePicks(s, 3, 2) == [Some(s[0]), Some(s[1]), Some(s[2]), Some(s[2])];
  }

  /**
   * What the stride pick makes of the reading labels: for four or more, the
   * labels of the four graph indices ending at now; for fewer, an undefined
   * first label.
   */
  lemma GraphLabelPicks(all: seq<string>, nowMs: int)
    requires |all| > 0
    requires forall i :: 0 <= i < |all| ==> all[i] == ReadingLabel(nowMs, SECONDS, |all|, i)
    requires all[|all| - 1] == FormatTime(nowMs)
    ensures |all| >= 4 ==> |StridePicks(all, |all|, |all| - 4)| == 4
    ensures |all| >= 4 ==> forall j :: 1 <= j <= 4 ==>
              StridePicks(all, |all|, |all| - 4)[j - 1] == Some(ReadingLabel(nowMs, SECONDS, |all|, GraphIndex(|all|, j)))
    ensures |all| >= 4 ==> StridePicks(all, |all|, |all| - 4)[3] == Some(FormatTime(nowMs))
    ensures |all| < 4 ==> |StridePicks(all, |all|, |all| - 4)| >= 5 && StridePicks(all, |all|, |all| - 4)[0] == None
  {
    if |all| >= 4 {
      GraphPicksAt(all);
    } else {
      ShortSeriesPicks(all);
    }
  }

  /**
   * `getGraphLabels`: label every reading SECONDS apart, then pick with stride
   * n / 4 (that is, x4 = n). An empty series would never end the pick loop.
   */
  method GetGraphLabels(readings: seq<real>, nowMs: int) returns (labels: seq<Option<string>>)
    requires |readings| > 0
    ensures |readings| >= 4 ==> |labels| == 4
    ensures |readings| >= 4 ==> forall j :: 1 <= j <= 4 ==>
              labels[j - 1] == Some(ReadingLabel(nowMs, SECONDS, |readings|, GraphIndex(|readings|, j)))
    ensures |readings| >= 4 ==> labels[3] == Some(FormatTime(nowMs))
    ensures |readings| < 4 ==> |labels| >= 5 && labels[0] == None
  {
    var all := GetReadingTimes(readings, SECONDS, nowMs);
    labels := EveryXthElement(all, |all|);
    GraphLabelPicks(all, nowMs);
  }
}

/** The analysis half of `checkExposure` (static/app.js): the luminance
    histogram with its running totals, and the first-match classification of
    the average brightness and the dark and bright pixel ratios.

    Luminance is kept scaled by 1000 so that it stays an integer:
    `0.299 R + 0.587 G + 0.114 B` is `Luminance1000 / 1000`, and its
    `Math.floor` is `Luminance1000 / 1000` in integer division. */
module Histogram {
  import opened Pixels

  /** One thousand times the perceived brightness of a pixel. */
  function Luminance1000(r: Byte, g: Byte, b: Byte): (l: nat)
    ensures l <= 255000
  {
    299 * r + 587 * g + 114 * b
  }

  /** `Math.floor(brightness)`: the histogram slot of a pixel. */
  function LevelOf(l: nat): (level: nat)
    requires l <= 255000
    ensures level <= 255
    ensures level * 1000 <= l < level * 1000 + 1000
  {
    l / 1000
  }

  /** Pixels with a level of at most 50 count as dark, from 205 on as bright. */
  predicate IsDark(level: nat)
  {
    level <= 50
  }

  predicate IsBright(level: nat)
  {
    level >= 205
  }

  /** The totals the `checkExposure` loop accumulates. */
  datatype Stats = Stats(histogram: seq<nat>, total1000: nat, dark: nat, bright: nat, pixels: nat)

  function Sum(h: seq<nat>): nat
  {
    if h == [] then 0 else Sum(h[..|h| - 1]) + h[|h| - 1]
  }

  /** 256 empty slots: `new Array(256).fill(0)`. */
  function EmptyHistogram(): (h: seq<nat>)
    ensures |h| == 256 && Sum(h) == 0
  {
    var h := seq(256, _ => 0);
    ZeroSum(h);
    h
  }

  lemma {:induction false} ZeroSum(h: seq<nat>)
    requires forall k :: 0 <= k < |h| ==> h[k] == 0
    ensures Sum(h) == 0
  {
    if h != [] {
      ZeroSum(h[..|h| - 1]);
    }
  }

  /** Counting one more pixel in slot `level` adds one to the histogram's sum. */
  lemma {:induction false} SumIncrement(h: seq<nat>, level: nat)
    requires level < |h|
    ensures Sum(h[level := h[level] + 1]) == Sum(h) + 1
  {
    var h' := h[level := h[level] + 1];
    if level == |h| - 1 {
      assert h'[..|h'| - 1] == h[..|h| - 1];
    } else {
      SumIncrement(h[..|h| - 1], level);
      assert h'[..|h'| - 1] == h[..|h| - 1][level := h[level] + 1];
    }
  }

  /** A pixel with colours `r`, `g`, `b` counted into `st`. */
  function CountPixel(st: Stats, r: Byte, g: Byte, b: Byte): (next: Stats)
    requires |st.histogram| == 256
    ensures |next.histogram| == 256 && next.pixels == st.pixels + 1
    ensures Sum(next.histogram) == Sum(st.histogram) + 1
    ensures next.dark + next.bright <= st.dark + st.bright + 1
  {
    var l := Luminance1000(r, g, b);
    var level := LevelOf(l);
    SumIncrement(st.histogram, level);
    Stats(st.histogram[level := st.histogram[level] + 1],
          st.total1000 + l,
          st.dark + (if IsDark(level) then 1 else 0),
          st.bright + (if IsBright(level) then 1 else 0),
          st.pixels + 1)
  }

  /** The totals after the loop has visited every pixel of `s`, in order.
      The histogram always has 256 slots holding one count per pixel, the
      dark and bright counts never exceed the pixel count, and the luminance
      total is at most 255 per pixel. */
  function StatsOf(s: seq<Byte>): (st: Stats)
    requires |s| % 4 == 0
    ensures |st.histogram| == 256 && st.pixels == |s| / 4
    ensures Sum(st.histogram) == st.pixels
    ensures st.dark <= st.pixels && st.bright <= st.pixels
    ensures st.total1000 <= 255000 * st.pixels
  {
    if s == [] then Stats(EmptyHistogram(), 0, 0, 0, 0)
    else
      LastPixel(|s|);
      var n := |s| - 4;
      var prior := StatsOf(s[..n]);
      CountPixel(prior, s[n], s[n + 1], s[n + 2])
  }

  /** The histogram and totals loop of `checkExposure`, over the buffer in place. */
  method Analyze(data: array<Byte>) returns (st: Stats)
    requires data.Length % 4 == 0
    ensures st == StatsOf(data[..])
  {
    var histogram := new nat[256](_ => 0);
    var total, dark, bright := 0, 0, 0;
    var i, pixels := 0, 0;
    while i < data.Length
      invariant 0 <= i <= data.Length && i % 4 == 0 && i == 4 * pixels
      invariant Stats(histogram[..], total, dark, bright, pixels) == StatsOf(data[..i])
    {
      NextPixel(i, data.Length);
      StatsOfNextPixel(data[..], i);
      assert data[..][..i] == data[..i] && data[..][..i + 4] == data[..i + 4];
      total, dark, bright := CountInto(histogram, data[i], data[i + 1], data[i + 2], total, dark, bright, pixels);
      i, pixels := i + 4, pixels + 1;
    }
    assert data[..i] == data[..];
    st := Stats(histogram[..], total, dark, bright, pixels);
  }

  /** The body of the `checkExposure` loop for one pixel: its histogram slot
      incremented in place, and the running totals returned. */
  method CountInto(histogram: array<nat>, r: Byte, g: Byte, b: Byte, total: nat, dark: nat, bright: nat, pixels: nat)
    returns (total': nat, dark': nat, bright': nat)
    requires histogram.Length == 256
    modifies histogram
    ensures Stats(histogram[..], total', dark', bright', pixels + 1) ==
            CountPixel(Stats(old(histogram[..]), total, dark, bright, pixels), r, g, b)
  {
    ghost var before := histogram[..];
    var l := Luminance1000(r, g, b);
    var level := LevelOf(l);
    histogram[level] := histogram[level] + 1;
    assert histogram[..] == before[level := before[level] + 1];
    total' := total + l;
    dark' := if IsDark(level) then dark + 1 else dark;
    bright' := if IsBright(level) then bright + 1 else bright;
  }

  /** Visiting the pixel at `i` extends the totals of the samples before it. */
  lemma StatsOfNextPixel(s: seq<Byte>, i: nat)
    requires i % 4 == 0 && i + 4 <= |s|
    ensures StatsOf(s[..i + 4]) == CountPixel(StatsOf(s[..i]), s[i], s[i + 1], s[i + 2])
  {
    var t := s[..i + 4];
    assert |t| - 4 == i && t[..i] == s[..i];
    assert t[i] == s[i] && t[i + 1] == s[i + 1] && t[i + 2] == s[i + 2];
  }

  /** `avgBrightness`, for a buffer with at least one pixel: between 0 and 255. */
  function Average(st: Stats): (avg: real)
    requires st.pixels > 0 && st.total1000 <= 255000 * st.pixels
    ensures 0.0 <= avg <= 255.0
  {
    AverageBound(st.total1000, st.pixels);
    st.total1000 as real / 1000.0 / st.pixels as real
  }

  lemma AverageBound(total1000: nat, n: nat)
    requires n > 0 && total1000 <= 255000 * n
    ensures 0.0 <= total1000 as real / 1000.0 / n as real <= 255.0
  {
    var t := total1000 as real / 1000.0;
    assert t <= 255.0 * n as real;
    QuotientBelow(t, n as real, 255.0);
  }

  lemma QuotientBelow(x: real, n: real, c: real)
    requires n > 0.0 && 0.0 <= x <= c * n
    ensures 0.0 <= x / n <= c
  {
  }

  /** The statuses `checkExposure` can report. */
  datatype ExposureStatus = Ok | Overexposed | Underexposed | SlightlyOverexposed | SlightlyUnderexposed

  /** The status strings sent to the server. */
  function StatusName(status: ExposureStatus): (name: string)
    ensures name == "ok" <==> status == Ok
  {
    match status
    case Ok => "ok"
    case Overexposed => "overexposed"
    case Underexposed => "underexposed"
    case SlightlyOverexposed => "slightly_overexposed"
    case SlightlyUnderexposed => "slightly_underexposed"
  }

  /** The if / else-if chain of `checkExposure` on the average brightness and
      the dark and bright ratios: the first rule that holds decides. */
  function Classify(avg: real, darkRatio: real, brightRatio: real): (status: ExposureStatus)
    ensures status == Ok ==> 80.0 <= avg <= 200.0 && darkRatio <= 0.3 && brightRatio <= 0.2
    ensures status == Ok ==> !(avg > 180.0 && brightRatio > 0.1) && !(avg < 100.0 && darkRatio > 0.2)
  {
    if avg > 200.0 || brightRatio > 0.2 then Overexposed
    else if avg < 80.0 || darkRatio > 0.3 then Underexposed
    else if avg > 180.0 && brightRatio > 0.1 then SlightlyOverexposed
    else if avg < 100.0 && darkRatio > 0.2 then SlightlyUnderexposed
    else Ok
  }

  /** The status of an analysed buffer. An empty buffer makes the average and
      both ratios `NaN`, every comparison false, and the status `ok`. */
  function StatusOf(st: Stats): (status: ExposureStatus)
    requires st.total1000 <= 255000 * st.pixels
    ensures status != Ok ==> st.pixels > 0
    ensures st.pixels > 0 && status == Ok ==> 80.0 <= Average(st) <= 200.0
  {
    if st.pixels == 0 then Ok
    else Classify(Average(st), st.dark as real / st.pixels as real, st.bright as real / st.pixels as real)
  }

  /** The chain in whole numbers, with every threshold multiplied out by the
      pixel count. */
  function StatusByCounts(st: Stats): ExposureStatus
  {
    var n := st.pixels;
    if st.total1000 > 200000 * n || 5 * st.bright > n then Overexposed
    else if st.total1000 < 80000 * n || 10 * st.dark > 3 * n then Underexposed
    else if st.total1000 > 180000 * n && 10 * st.bright > n then SlightlyOverexposed
    else if st.total1000 < 100000 * n && 5 * st.dark > n then SlightlyUnderexposed
    else Ok
  }

  /** The ratio comparisons of `checkExposure` agree with the multiplied-out
      ones, so both chains give the same status; this covers the empty
      buffer too. */
  lemma StatusAgreesWithCounts(st: Stats)
    requires st.total1000 <= 255000 * st.pixels
    requires st.dark <= st.pixels && st.bright <= st.pixels
    ensures StatusOf(st) == StatusByCounts(st)
  {
    if st.pixels > 0 {
      AverageComparisons(st);
      RatioComparisons(st.dark, st.pixels);
      RatioComparisons(st.bright, st.pixels);
    }
  }

  /** The average-brightness thresholds, multiplied out. */
  lemma AverageComparisons(st: Stats)
    requires st.pixels > 0 && st.total1000 <= 255000 * st.pixels
    ensures Average(st) > 200.0 <==> st.total1000 > 200000 * st.pixels
    ensures Average(st) < 80.0 <==> st.total1000 < 80000 * st.pixels
    ensures Average(st) > 180.0 <==> st.total1000 > 180000 * st.pixels
    ensures Average(st) < 100.0 <==> st.total1000 < 100000 * st.pixels
  {
    var n := st.pixels;
    var nr := n as real;
    var t := st.total1000 as real / 1000.0;
    assert Average(st) == t / nr;
    CompareQuotient(t, nr, 200.0);
    CompareQuotient(t, nr, 80.0);
    CompareQuotient(t, nr, 180.0);
    CompareQuotient(t, nr, 100.0);
    assert (t > 200.0 * nr) == (st.total1000 > 200000 * n);
    assert (t < 80.0 * nr) == (st.total1000 < 80000 * n);
    assert (t > 180.0 * nr) == (st.total1000 > 180000 * n);
    assert (t < 100.0 * nr) == (st.total1000 < 100000 * n);
  }

  /** The dark and bright ratio thresholds, multiplied out. */
  lemma RatioComparisons(count: nat, n: nat)
    requires n > 0
    ensures count as real / n as real > 0.3 <==> 10 * count > 3 * n
    ensures count as real / n as real > 0.2 <==> 5 * count > n
    ensures count as real / n as real > 0.1 <==> 10 * count > n
  {
    var nr := n as real;
    CompareQuotient(count as real, nr, 0.3);
    CompareQuotient(count as real, nr, 0.2);
    CompareQuotient(count as real, nr, 0.1);
    assert (count as real > 0.3 * nr) == (10 * count > 3 * n);
    assert (count as real > 0.2 * nr) == (5 * count > n);
    assert (count as real > 0.1 * nr) == (10 * count > n);
  }

  /** For a positive divisor, `x / n` compares with `c` as `x` does with `c * n`. */
  lemma CompareQuotient(x: real, n: real, c: real)
    requires n > 0.0
    ensures x / n > c <==> x > c * n
    ensures x / n < c <==> x < c * n
  {
    assert x == (x / n) * n;
    if x / n > c {
      ScaleStrict(c, x / n, n);
    }
    if x / n < c {
      ScaleStrict(x / n, c, n);
    }
    if x > c * n {
      assert x / n > c;
    }
    if x < c * n {
      assert x / n < c;
    }
  }

  lemma ScaleStrict(a: real, b: real, n: real)
    requires a < b && n > 0.0
    ensures a * n < b * n
  {
  }

  /** Each status holds exactly when the rules before it fail and its own
      rule holds. */
  lemma ClassifyIsFirstMatch(avg: real, darkRatio: real, brightRatio: real)
    ensures var over := avg > 200.0 || brightRatio > 0.2;
            var under := avg < 80.0 || darkRatio > 0.3;
            var slightlyOver := avg > 180.0 && brightRatio > 0.1;
            var slightlyUnder := avg < 100.0 && darkRatio > 0.2;
            (Classify(avg, darkRatio, brightRatio) == Overexposed <==> over) &&
            (Classify(avg, darkRatio, brightRatio) == Underexposed <==> !over && under) &&
            (Classify(avg, darkRatio, brightRatio) == SlightlyOverexposed <==> !over && !under && slightlyOver) &&
            (Classify(avg, darkRatio, brightRatio) == SlightlyUnderexposed <==> !over && !under && !slightlyOver && slightlyUnder) &&
            (Classify(avg, darkRatio, brightRatio) == Ok <==> !over && !under && !slightlyOver && !slightlyUnder)
  {
  }

  /** A buffer that meets both the overexposed rule and the slightly
      overexposed rule is overexposed: the first rule wins. */
  lemma OverexposedBeforeSlightly(avg: real, darkRatio: real, brightRatio: real)
    requires avg > 200.0 && brightRatio > 0.1
    ensures Classify(avg, darkRatio, brightRatio) == Overexposed
  {
  }

  /** Every colour sample of `s` is `v`; alpha may be anything. */
  predicate IsUniformGrey(s: seq<Byte>, v: Byte)
  {
    forall k :: 0 <= k < |s| && !IsAlpha(k) ==> s[k] == v
  }

  /** The totals of a uniform grey buffer: every pixel at level `v`. */
  lemma {:induction false} UniformGreyStats(s: seq<Byte>, v: Byte)
    requires |s| % 4 == 0 && IsUniformGrey(s, v)
    ensures GreyTotals(StatsOf(s), v)
  {
    if s != [] {
      LastPixel(|s|);
      var n := |s| - 4;
      UniformGreyPrefix(s, n, v);
      UniformGreyStats(s[..n], v);
      StatsOfNextPixel(s, n);
      assert s[..n + 4] == s;
      assert s[n] == v && s[n + 1] == v && s[n + 2] == v;
      GreyTotalsStep(StatsOf(s[..n]), v);
    }
  }

  /** Totals in which every pixel counted lies at level `v`. */
  predicate GreyTotals(st: Stats, v: Byte)
  {
    && st.total1000 == 1000 * v * st.pixels
    && st.dark == (if IsDark(v) then st.pixels else 0)
    && st.bright == (if IsBright(v) then st.pixels else 0)
  }

  /** Counting one more grey pixel of level `v` keeps the totals grey. */
  lemma GreyTotalsStep(st: Stats, v: Byte)
    requires |st.histogram| == 256 && GreyTotals(st, v)
    ensures GreyTotals(CountPixel(st, v, v, v), v)
  {
    GreyPixel(v);
    GreyTotalStep(st.total1000, 1000 * v, st.pixels);
  }

  lemma GreyTotalStep(t: int, a: int, p: nat)
    requires t == a * p
    ensures t + a == a * (p + 1)
  {
  }

  lemma UniformGreyPrefix(s: seq<Byte>, n: nat, v: Byte)
    requires n <= |s| && IsUniformGrey(s, v)
    ensures IsUniformGrey(s[..n], v)
  {
  }

  /** A grey pixel of value `v` has luminance `v` and lies in slot `v`. */
  lemma GreyPixel(v: Byte)
    ensures Luminance1000(v, v, v) == 1000 * v && LevelOf(1000 * v) == v
  {
  }

  /** For a positive count, scaling by it keeps the order of two numbers. */
  lemma CompareScaled(a: int, b: int, n: nat)
    requires n > 0
    ensures a * n > b * n <==> a > b
    ensures a * n < b * n <==> a < b
  {
    if a > b {
      assert a * n - b * n == (a - b) * n;
    }
    if a < b {
      assert b * n - a * n == (b - a) * n;
    }
    if a == b {
      assert a * n == b * n;
    }
  }

  /** A non-empty uniform grey buffer is overexposed above level 200,
      underexposed below 80, and `ok` from 80 to 200. So an all-white buffer
      is overexposed, an all-black one underexposed, and a uniform 128 `ok`. */
  lemma UniformGreyStatus(s: seq<Byte>, v: Byte)
    requires |s| % 4 == 0 && |s| > 0 && IsUniformGrey(s, v)
    ensures v > 200 ==> StatusOf(StatsOf(s)) == Overexposed
    ensures v < 80 ==> StatusOf(StatsOf(s)) == Underexposed
    ensures 80 <= v <= 200 ==> StatusOf(StatsOf(s)) == Ok
  {
    var st := StatsOf(s);
    LastPixel(|s|);
    UniformGreyStats(s, v);
    StatusAgreesWithCounts(st);
    GreyStatusByCounts(st, v);
  }

  /** The multiplied-out chain on grey totals of at least one pixel. */
  lemma GreyStatusByCounts(st: Stats, v: Byte)
    requires GreyTotals(st, v) && st.pixels > 0
    ensures v > 200 ==> StatusByCounts(st) == Overexposed
    ensures v < 80 ==> StatusByCounts(st) == Underexposed
    ensures 80 <= v <= 200 ==> StatusByCounts(st) == Ok
  {
    CompareScaled(1000 * v, 200000, st.pixels);
    CompareScaled(1000 * v, 80000, st.pixels);
    CompareScaled(1000 * v, 180000, st.pixels);
    CompareScaled(1000 * v, 100000, st.pixels);
  }

  /** A report for the suggestion request: the average brightness and the status. */
  datatype ExposureReport = ExposureReport(brightness: real, status: ExposureStatus)

  /** `checkExposure`: analyse the buffer, classify it, and produce a report
      for the suggestion request exactly when the status is not `ok`. */
  method CheckExposure(data: array<Byte>) returns (status: ExposureStatus, report: seq<ExposureReport>)
    requires data.Length % 4 == 0
    ensures status == StatusOf(StatsOf(data[..]))
    ensures |report| <= 1 && (report != [] <==> status != Ok)
    ensures report != [] ==> data.Length > 0 && report[0] == ExposureReport(Average(StatsOf(data[..])), status)
  {
    var st := Analyze(data);
    status := StatusOf(st);
    if status != Ok {
      report := [ExposureReport(Average(st), status)];
    } else {
      report := [];
    }
  }
}

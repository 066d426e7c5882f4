/** Pattern detection over indicator columns: golden cross, rolling
    support/resistance and the trend label (modeling/patterns.py). Each
    detector returns the frame with its own column(s) added, or `None` where
    pandas raises `KeyError` for a missing input column. */
module Patterns {
  import opened Numeric
  import opened Text
  import opened Frames
  import opened Indicators

  // ---------------------------------------------------------------- golden cross

  /** Row i crosses when fast is strictly above slow on row i and at or below
      it on row i-1; the shifted operands of row 0 are NaN, so row 0 never
      crosses. */
  function GoldenCross(fast: seq<Num>, slow: seq<Num>): (r: seq<bool>)
    requires |fast| == |slow|
    ensures |r| == |fast|
  {
    seq(|fast|, i requires 0 <= i < |fast| =>
      Gt(fast[i], slow[i]) && i > 0 && Le(fast[i - 1], slow[i - 1]))
  }

  lemma GoldenCrossFirstRow(fast: seq<Num>, slow: seq<Num>)
    requires |fast| == |slow| && |fast| > 0
    ensures !GoldenCross(fast, slow)[0]
  {
  }

  /** A missing operand on the row itself or on the row before rules a cross out. */
  lemma GoldenCrossNeedsValues(fast: seq<Num>, slow: seq<Num>, i: nat)
    requires |fast| == |slow| && 0 < i < |fast|
    requires fast[i].None? || slow[i].None? || fast[i - 1].None? || slow[i - 1].None?
    ensures !GoldenCross(fast, slow)[i]
  {
  }

  /** A cross on row i means fast > slow on row i, which forbids a cross on row i+1. */
  lemma GoldenCrossNotConsecutive(fast: seq<Num>, slow: seq<Num>, i: nat)
    requires |fast| == |slow| && i + 1 < |fast|
    ensures !(GoldenCross(fast, slow)[i] && GoldenCross(fast, slow)[i + 1])
  {
  }

  /** With both rows present, a cross is exactly "not above, then above". */
  lemma GoldenCrossIsUpwardChange(fast: seq<Num>, slow: seq<Num>, i: nat)
    requires |fast| == |slow| && 0 < i < |fast|
    requires fast[i].Some? && slow[i].Some? && fast[i - 1].Some? && slow[i - 1].Some?
    ensures GoldenCross(fast, slow)[i] <==> !Gt(fast[i - 1], slow[i - 1]) && Gt(fast[i], slow[i])
  {
  }

  /** `detect_golden_cross(df, fast, slow)` */
  function DetectGoldenCross(f: Frame, fast: Col, slow: Col): (r: Option<Frame>)
    requires Valid(f)
    ensures r.Some? <==> fast in f.columns && slow in f.columns
    ensures r.Some? ==> Valid(r.value) && r.value.height == f.height
    ensures r.Some? ==> r.value.columns
                        == f.columns[GoldenCrossCol := FlagCol(GoldenCross(Nums(f.columns[fast]), Nums(f.columns[slow])))]
  {
    if fast in f.columns && slow in f.columns then
      Some(WithColumn(f, GoldenCrossCol,
        FlagCol(GoldenCross(Nums(f.columns[fast]), Nums(f.columns[slow])))))
    else None
  }

  // ---------------------------------------------------------- support/resistance

  /** First row of the window of `window` rows ending at row i. */
  function WindowStart(i: nat, window: nat): (s: nat)
    requires window >= 1
    ensures s <= i && i - s < window
  {
    if i + 1 >= window then i + 1 - window else 0
  }

  /** `min()` over the present values; NaN when none is present. */
  function MinPresent(xs: seq<Num>): (r: Num)
    ensures r.Some? <==> exists j :: 0 <= j < |xs| && xs[j].Some?
    ensures r.Some? ==> exists j :: 0 <= j < |xs| && xs[j] == r
    ensures forall j :: 0 <= j < |xs| && xs[j].Some? ==> r.Some? && r.value <= xs[j].value
  {
    if xs == [] then None
    else
      var m := MinPresent(xs[..|xs| - 1]);
      var x := xs[|xs| - 1];
      if x.None? then m
      else if m.None? || x.value < m.value then x
      else m
  }

  /** `max()` over the present values; NaN when none is present. */
  function MaxPresent(xs: seq<Num>): (r: Num)
    ensures r.Some? <==> exists j :: 0 <= j < |xs| && xs[j].Some?
    ensures r.Some? ==> exists j :: 0 <= j < |xs| && xs[j] == r
    ensures forall j :: 0 <= j < |xs| && xs[j].Some? ==> r.Some? && r.value >= xs[j].value
  {
    if xs == [] then None
    else
      var m := MaxPresent(xs[..|xs| - 1]);
      var x := xs[|xs| - 1];
      if x.None? then m
      else if m.None? || x.value > m.value then x
      else m
  }

  /** `xs.rolling(window, min_periods=1).min()` */
  function RollingMin(xs: seq<Num>, window: nat): (r: seq<Num>)
    requires window >= 1
    ensures |r| == |xs|
  {
    seq(|xs|, i requires 0 <= i < |xs| => MinPresent(xs[WindowStart(i, window)..i + 1]))
  }

  /** `xs.rolling(window, min_periods=1).max()` */
  function RollingMax(xs: seq<Num>, window: nat): (r: seq<Num>)
    requires window >= 1
    ensures |r| == |xs|
  {
    seq(|xs|, i requires 0 <= i < |xs| => MaxPresent(xs[WindowStart(i, window)..i + 1]))
  }

  /** Support on row i is at or below that row's Low, and equals the Low of
      some row in the window max(0, i-window+1)..i. */
  lemma SupportBelowLow(low: seq<Num>, window: nat, i: nat)
    requires window >= 1 && i < |low| && low[i].Some?
    ensures Le(RollingMin(low, window)[i], low[i])
    ensures exists j :: WindowStart(i, window) <= j <= i && low[j] == RollingMin(low, window)[i]
  {
    var lo := WindowStart(i, window);
    var w := low[lo..i + 1];
    assert w[i - lo] == low[i];
    var j :| 0 <= j < |w| && w[j] == MinPresent(w);
    assert low[lo + j] == RollingMin(low, window)[i];
  }

  /** Resistance on row i is at or above that row's High, and equals the High of
      some row in the same window. */
  lemma ResistanceAboveHigh(high: seq<Num>, window: nat, i: nat)
    requires window >= 1 && i < |high| && high[i].Some?
    ensures Ge(RollingMax(high, window)[i], high[i])
    ensures exists j :: WindowStart(i, window) <= j <= i && high[j] == RollingMax(high, window)[i]
  {
    var lo := WindowStart(i, window);
    var w := high[lo..i + 1];
    assert w[i - lo] == high[i];
    var j :| 0 <= j < |w| && w[j] == MaxPresent(w);
    assert high[lo + j] == RollingMax(high, window)[i];
  }

  /** Support never exceeds resistance when both come from the same rows and
      every row has Low <= High. */
  lemma SupportBelowResistance(low: seq<Num>, high: seq<Num>, window: nat, i: nat)
    requires |low| == |high| && window >= 1 && i < |low|
    requires forall k :: 0 <= k < |low| ==> low[k].Some? && high[k].Some? && low[k].value <= high[k].value
    ensures Le(RollingMin(low, window)[i], RollingMax(high, window)[i])
  {
    SupportBelowLow(low, window, i);
    ResistanceAboveHigh(high, window, i);
  }

  /** `detect_support_resistance(df, window)`; pandas rejects a window of 0
      together with `min_periods=1`. */
  function DetectSupportResistance(f: Frame, window: nat): (r: Option<Frame>)
    requires Valid(f) && window >= 1
    ensures r.Some? <==> Low in f.columns && High in f.columns
    ensures r.Some? ==> Valid(r.value) && r.value.height == f.height
    ensures r.Some? ==> r.value.columns
                        == f.columns[SupportCol := NumCol(RollingMin(Nums(f.columns[Low]), window))]
                                    [ResistanceCol := NumCol(RollingMax(Nums(f.columns[High]), window))]
  {
    if Low in f.columns && High in f.columns then
      var g := WithColumn(f, SupportCol, NumCol(RollingMin(Nums(f.columns[Low]), window)));
      Some(WithColumn(g, ResistanceCol, NumCol(RollingMax(Nums(f.columns[High]), window))))
    else None
  }

  // ----------------------------------------------------------------------- trend

  /** The trend label of one row. */
  function TrendLabel(close: Num, ema: Num): (r: string)
    ensures r == "Trending Up" <==> Gt(close, ema)
    ensures r == "Trending Down" <==> Lt(close, ema)
    ensures r == "Consolidating" <==> !Gt(close, ema) && !Lt(close, ema)
  {
    if Lt(close, ema) then "Trending Down"
    else if Gt(close, ema) then "Trending Up"
    else "Consolidating"
  }

  /** A missing EMA (its warm-up rows) always reads as consolidating. */
  lemma TrendMissingEma(close: Num)
    ensures TrendLabel(close, None) == "Consolidating"
  {
  }

  function Trend(close: seq<Num>, ema: seq<Num>): (r: seq<string>)
    requires |close| == |ema|
    ensures |r| == |close|
  {
    seq(|close|, i requires 0 <= i < |close| => TrendLabel(close[i], ema[i]))
  }

  /** `detect_trend(df, ema_length)` */
  function DetectTrend(f: Frame, emaLength: int): (r: Option<Frame>)
    requires Valid(f)
    ensures r.Some? <==> Close in f.columns && Ema(emaLength) in f.columns
    ensures r.Some? ==> Valid(r.value) && r.value.height == f.height
    ensures r.Some? ==> r.value.columns
                        == f.columns[TrendCol := TextCol(Trend(Nums(f.columns[Close]), Nums(f.columns[Ema(emaLength)])))]
  {
    var e := Ema(emaLength);
    if Close in f.columns && e in f.columns then
      Some(WithColumn(f, TrendCol, TextCol(Trend(Nums(f.columns[Close]), Nums(f.columns[e])))))
    else None
  }

  // -------------------------------------------------------------- default arguments

  /** `detect_golden_cross(df)` compares EMA_50 with EMA_200,
      `detect_support_resistance(df)` uses a 20-row window and
      `detect_trend(df)` reads EMA_20. */
  const DefaultFast: Col := Ema(50)
  const DefaultSlow: Col := Ema(200)
  const DefaultWindow: nat := 20
  const DefaultTrendLength: int := 20

  /** Called with their defaults, the detectors need EMA_50 and EMA_200, Low
      and High, and Close and EMA_20; support and resistance then look back
      over at most twenty rows. */
  lemma DefaultArguments(f: Frame)
    requires Valid(f)
    ensures DetectGoldenCross(f, DefaultFast, DefaultSlow).Some? <==> Ema(50) in f.columns && Ema(200) in f.columns
    ensures DetectSupportResistance(f, DefaultWindow).Some? <==> Low in f.columns && High in f.columns
    ensures DetectTrend(f, DefaultTrendLength).Some? <==> Close in f.columns && Ema(20) in f.columns
    ensures forall i: nat :: i - WindowStart(i, DefaultWindow) < 20
  {
  }
}

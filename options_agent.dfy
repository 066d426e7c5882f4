/** The options recommendation agent (modeling/intelligent_options_agent.py):
    the last trading day, the indicator vote that turns into CALL, PUT or
    WAIT, pivot support and resistance, candle patterns, the contract
    shortlist, the trade plan and the final contract choice. Indicator
    values are inputs (missing ones are `None`); the database read and the
    options-chain download are not part of this model. */
module OptionsAgent {
  import opened Numeric
  import opened Sorting
  import opened Calendar
  import opened Text

  // ------------------------------------------------------------ parameters

  const ProfitTargetPct: real := 35.0
  const StopLossPct: real := 17.5
  const MinDelta: real := 0.4
  const MaxDelta: real := 0.6
  const MinVolume: int := 500
  const MaxAsk: real := 3.5
  const MinOpenInterest: int := 1000

  // ------------------------------------------------------ last trading day

  /** Saturday and Sunday never follow each other three days in a row. */
  lemma NoThreeWeekendDays(d: Day)
    ensures !(IsWeekend(d) && IsWeekend(d + 1) && IsWeekend(d + 2))
  {
    WeekdayNext(d);
    WeekdayNext(d + 1);
  }

  /** `_get_last_trading_day`: step back from today until a weekday. */
  method LastTradingDay(today: Day) returns (d: Day)
    ensures !IsWeekend(d)
    ensures d <= today && today - d <= 2
    ensures forall k :: d < k <= today ==> IsWeekend(k)
  {
    d := today;
    while IsWeekend(d)
      invariant d <= today && today - d <= 2
      invariant today - d == 2 ==> !IsWeekend(d)
      invariant forall k :: d < k <= today ==> IsWeekend(k)
      decreases d
    {
      if today - d == 1 {
        NoThreeWeekendDays(d - 1);
      }
      d := d - 1;
    }
  }

  // --------------------------------------------------------- indicator vote

  /** The latest indicator values; `None` is a missing value. */
  datatype Indicators = Indicators(
    ema9: Num, ema20: Num, sma50: Num, sma200: Num, vwap: Num,
    macd: Num, macdSignal: Num, rsi: Num, squeeze: bool, currentPrice: Num)

  datatype Vote = Bull | Bear

  /** One indicator section's contribution: its vote, if any, and the lines it
      adds to the signal list. */
  datatype Verdict = Verdict(vote: Option<Vote>, notes: seq<string>)

  function EmaVerdict(ind: Indicators): Verdict
  {
    if Truthy(ind.ema9) && Truthy(ind.ema20) then
      if ind.ema9.value > ind.ema20.value then Verdict(Some(Bull), ["EMA 9 > EMA 20 (Bullish)"])
      else Verdict(Some(Bear), ["EMA 9 < EMA 20 (Bearish)"])
    else Verdict(None, [])
  }

  function VwapVerdict(ind: Indicators): Verdict
  {
    if Truthy(ind.vwap) then
      if Gt(ind.currentPrice, ind.vwap) then Verdict(Some(Bull), ["Price > VWAP (Bullish)"])
      else Verdict(Some(Bear), ["Price < VWAP (Bearish)"])
    else Verdict(None, [])
  }

  function MacdVerdict(ind: Indicators): Verdict
  {
    if Truthy(ind.macd) && Truthy(ind.macdSignal) then
      if ind.macd.value > ind.macdSignal.value then Verdict(Some(Bull), ["MACD > Signal (Bullish)"])
      else Verdict(Some(Bear), ["MACD < Signal (Bearish)"])
    else Verdict(None, [])
  }

  function RsiVerdict(ind: Indicators): Verdict
  {
    if Truthy(ind.rsi) then
      var rsi := ind.rsi.value;
      if rsi > 70.0 then Verdict(Some(Bear), ["RSI Overbought"])
      else if rsi < 30.0 then Verdict(Some(Bull), ["RSI Oversold"])
      else if rsi > 55.0 then Verdict(Some(Bull), ["BULLISH MEDIUM"])
      else if rsi < 45.0 then Verdict(Some(Bear), ["BEARISH MEDIUM"])
      else Verdict(None, [])
    else Verdict(None, [])
  }

  function CrossVerdict(ind: Indicators): Verdict
  {
    if Truthy(ind.sma50) && Truthy(ind.sma200) then
      if ind.sma50.value > ind.sma200.value then Verdict(Some(Bull), ["Golden Cross (Recent)"])
      else Verdict(Some(Bear), ["Death Cross"])
    else Verdict(None, [])
  }

  /** Within 1 percent of the VWAP the price is in its upper or lower zone;
      this adds two lines and no vote. */
  function ZoneVerdict(ind: Indicators): Verdict
  {
    if Truthy(ind.vwap) && Truthy(ind.currentPrice) then
      var diffPct := (ind.currentPrice.value - ind.vwap.value) / ind.vwap.value * 100.0;
      if Abs(diffPct) <= 1.0 then
        if diffPct > 0.0 then Verdict(None, ["VWAP Upper Zone", "CAUTION MEDIUM"])
        else Verdict(None, ["VWAP Lower Zone", "CAUTION MEDIUM"])
      else Verdict(None, [])
    else Verdict(None, [])
  }

  function SqueezeVerdict(ind: Indicators): Verdict
  {
    if ind.squeeze then Verdict(None, ["TTM Squeeze Active (Volatility Building)"]) else Verdict(None, [])
  }

  /** The sections in the order the analysis visits them. */
  function Verdicts(ind: Indicators): seq<Verdict>
  {
    [EmaVerdict(ind), VwapVerdict(ind), MacdVerdict(ind), RsiVerdict(ind), CrossVerdict(ind),
     ZoneVerdict(ind), SqueezeVerdict(ind)]
  }

  function VoteCount(vs: seq<Verdict>, v: Vote): (r: nat)
    ensures r <= |vs|
  {
    if vs == [] then 0
    else VoteCount(vs[..|vs| - 1], v) + (if vs[|vs| - 1].vote == Some(v) then 1 else 0)
  }

  function AllNotes(vs: seq<Verdict>): seq<string>
  {
    if vs == [] then [] else AllNotes(vs[..|vs| - 1]) + vs[|vs| - 1].notes
  }

  /** Each of the EMA, VWAP, MACD and moving-average sections votes exactly
      once when its inputs are present and non-zero; the RSI votes at most
      once and not at all between 45 and 55; the zone and squeeze sections
      never vote; so there are at most five votes. */
  lemma VoteShape(ind: Indicators)
    ensures EmaVerdict(ind).vote.Some? <==> Truthy(ind.ema9) && Truthy(ind.ema20)
    ensures VwapVerdict(ind).vote.Some? <==> Truthy(ind.vwap)
    ensures MacdVerdict(ind).vote.Some? <==> Truthy(ind.macd) && Truthy(ind.macdSignal)
    ensures CrossVerdict(ind).vote.Some? <==> Truthy(ind.sma50) && Truthy(ind.sma200)
    ensures ind.rsi.Some? && 45.0 <= ind.rsi.value <= 55.0 ==> RsiVerdict(ind).vote.None?
    ensures ZoneVerdict(ind).vote.None? && SqueezeVerdict(ind).vote.None?
    ensures VoteCount(Verdicts(ind), Bull) + VoteCount(Verdicts(ind), Bear) <= 5
  {
    var vs := Verdicts(ind);
    assert vs[..6][..5] == vs[..5];
    assert vs[..5][..4] == vs[..4];
    VoteCountSplit(vs[..5]);
  }

  /** The two tallies together count the sections that voted. */
  lemma {:induction false} VoteCountSplit(vs: seq<Verdict>)
    ensures VoteCount(vs, Bull) + VoteCount(vs, Bear) <= |vs|
  {
    if vs != [] {
      VoteCountSplit(vs[..|vs| - 1]);
    }
  }

  datatype Trend = Bullish | Bearish | Neutral
  datatype Recommendation = Call | Put | Wait

  /** The trend rule: a bullish share of at least 55 percent calls, at most
      45 percent puts, otherwise the larger tally decides, and a tie waits. */
  function Decide(bull: nat, bear: nat): (Trend, Recommendation)
  {
    var total := bull + bear;
    if total == 0 then (Neutral, Wait)
    else
      var pct := bull as real / total as real;
      if pct >= 0.55 then (Bullish, Call)
      else if pct <= 0.45 then (Bearish, Put)
      else if bull > bear && bull >= 1 then (Bullish, Call)
      else if bear > bull && bear >= 1 then (Bearish, Put)
      else (Neutral, Wait)
  }

  /** Whatever the tallies, the recommendation is the simple majority: CALL
      iff more bullish votes, PUT iff more bearish, WAIT iff they are equal
      (0 to 0 included), and the trend names the same side. */
  lemma DecideByMajority(bull: nat, bear: nat)
    ensures Decide(bull, bear).1 == Call <==> bull > bear
    ensures Decide(bull, bear).1 == Put <==> bear > bull
    ensures Decide(bull, bear).1 == Wait <==> bull == bear
    ensures Decide(bull, bear).0 == (match Decide(bull, bear).1
                                     case Call => Bullish case Put => Bearish case Wait => Neutral)
  {
    var total := bull + bear;
    if total > 0 {
      RatioAtLeast(bull as real, total as real, 0.55);
      RatioAtMost(bull as real, total as real, 0.45);
    }
  }

  lemma RatioAtLeast(a: real, b: real, c: real)
    requires b > 0.0
    ensures a / b >= c <==> a >= c * b
  {
    var q := a / b;
    assert q * b == a;
    if q >= c {
      assert (q - c) * b >= 0.0;
    } else {
      assert (c - q) * b > 0.0;
    }
  }

  lemma RatioAtMost(a: real, b: real, c: real)
    requires b > 0.0
    ensures a / b <= c <==> a <= c * b
  {
    var q := a / b;
    assert q * b == a;
    if q <= c {
      assert (c - q) * b >= 0.0;
    } else {
      assert (q - c) * b > 0.0;
    }
  }

  /** `max(1, min(5, int(max(bullish, bearish, total / 2))))`; the integer
      part of the maximum is the maximum of the integer parts here. */
  function Strength(bull: nat, bear: nat, total: nat): (r: int)
    ensures 1 <= r <= 5
    ensures r == 5 <==> MaxInt(MaxInt(bull, bear), total / 2) >= 5
  {
    MaxInt(1, MinInt(5, MaxInt(MaxInt(bull, bear), total / 2)))
  }

  predicate NotNeutral(s: string) { !Contains(s, "Neutral") }

  /** What `_analyze_trend_and_signals` returns. */
  datatype TrendAnalysis = TrendAnalysis(
    trend: Trend, recommendation: Recommendation, confidence: int, signalsAligned: int,
    totalSignals: nat, bullish: nat, bearish: nat, signals: seq<string>)

  /** The analysis, section by section, as the source accumulates it. */
  method AnalyzeTrendAndSignals(ind: Indicators) returns (a: TrendAnalysis)
    ensures a.bullish == VoteCount(Verdicts(ind), Bull) && a.bearish == VoteCount(Verdicts(ind), Bear)
    ensures a.signals == AllNotes(Verdicts(ind))
    ensures a.recommendation == Call <==> a.bullish > a.bearish
    ensures a.recommendation == Put <==> a.bearish > a.bullish
    ensures a.recommendation == Wait <==> a.bullish == a.bearish
    ensures (a.trend, a.recommendation) == Decide(a.bullish, a.bearish)
    ensures 1 <= a.confidence <= 5 && a.signalsAligned == MaxInt(a.bullish, a.bearish)
    ensures a.totalSignals == |Filter(a.signals, NotNeutral)|
    ensures a.confidence == Strength(a.bullish, a.bearish, a.totalSignals)
  {
    var signals: seq<string> := [];
    var bull: nat := 0;
    var bear: nat := 0;
    var vs := Verdicts(ind);
    var i := 0;
    while i < |vs|
      invariant 0 <= i <= |vs|
      invariant bull == VoteCount(vs[..i], Bull) && bear == VoteCount(vs[..i], Bear)
      invariant signals == AllNotes(vs[..i])
    {
      assert vs[..i + 1][..i] == vs[..i];
      var v := vs[i];
      if v.vote == Some(Bull) {
        bull := bull + 1;
      } else if v.vote == Some(Bear) {
        bear := bear + 1;
      }
      signals := signals + v.notes;
      i := i + 1;
    }
    assert vs[..i] == vs;
    var decision := Decide(bull, bear);
    DecideByMajority(bull, bear);
    var total := |Filter(signals, NotNeutral)|;
    var strength := Strength(bull, bear, total);
    a := TrendAnalysis(decision.0, decision.1, strength, MaxInt(bull, bear), total, bull, bear, signals);
  }

  // ------------------------------------------------- support and resistance

  datatype Candle = Candle(open: real, high: real, low: real, close: real)

  function Highs(bars: seq<Candle>): (r: seq<real>)
    ensures |r| == |bars|
  {
    seq(|bars|, i requires 0 <= i < |bars| => bars[i].high)
  }

  function Lows(bars: seq<Candle>): (r: seq<real>)
    ensures |r| == |bars|
  {
    seq(|bars|, i requires 0 <= i < |bars| => bars[i].low)
  }

  /** `High == High.rolling(window=5, center=True).max()` at row `i`. */
  predicate PivotHigh(bars: seq<Candle>, i: nat)
    requires 2 <= i && i + 2 < |bars|
  {
    bars[i].high == MaxOf(Highs(bars)[i - 2..i + 3])
  }

  predicate PivotLow(bars: seq<Candle>, i: nat)
    requires 2 <= i && i + 2 < |bars|
  {
    bars[i].low == MinOf(Lows(bars)[i - 2..i + 3])
  }

  /** A pivot low is a low no higher than the two rows on either side. */
  lemma PivotLowMeaning(bars: seq<Candle>, i: nat)
    requires 2 <= i && i + 2 < |bars|
    ensures PivotLow(bars, i) <==> forall k :: i - 2 <= k <= i + 2 ==> bars[k].low >= bars[i].low
  {
    var w := Lows(bars)[i - 2..i + 3];
    assert forall k :: i - 2 <= k <= i + 2 ==> w[k - (i - 2)] == bars[k].low;
    assert w[2] == bars[i].low;
  }

  /** A pivot high is a high no lower than the two rows on either side. */
  lemma PivotHighMeaning(bars: seq<Candle>, i: nat)
    requires 2 <= i && i + 2 < |bars|
    ensures PivotHigh(bars, i) <==> forall k :: i - 2 <= k <= i + 2 ==> bars[k].high <= bars[i].high
  {
    var w := Highs(bars)[i - 2..i + 3];
    assert forall k :: i - 2 <= k <= i + 2 ==> w[k - (i - 2)] == bars[k].high;
    assert w[2] == bars[i].high;
  }

  /** The end of `range(2, len(df) - 2)`, the rows with a full window. */
  function ScanEnd(bars: seq<Candle>): nat
  {
    MaxInt(2, |bars| - 2)
  }

  /** The pivot highs among rows 2 .. n-1, in row order. */
  function PivotHighs(bars: seq<Candle>, n: nat): (r: seq<real>)
    requires n <= ScanEnd(bars)
    ensures |r| <= n
  {
    if n <= 2 then []
    else PivotHighs(bars, n - 1) + (if PivotHigh(bars, n - 1) then [bars[n - 1].high] else [])
  }

  function PivotLows(bars: seq<Candle>, n: nat): (r: seq<real>)
    requires n <= ScanEnd(bars)
    ensures |r| <= n
  {
    if n <= 2 then []
    else PivotLows(bars, n - 1) + (if PivotLow(bars, n - 1) then [bars[n - 1].low] else [])
  }

  /** Every collected resistance level is the high of a pivot-high row. */
  lemma {:induction false} PivotHighsSound(bars: seq<Candle>, n: nat, x: real)
    requires n <= ScanEnd(bars) && x in PivotHighs(bars, n)
    ensures exists i :: 2 <= i < n && i + 2 < |bars| && PivotHigh(bars, i) && x == bars[i].high
  {
    if x !in PivotHighs(bars, n - 1) {
      assert PivotHigh(bars, n - 1) && x == bars[n - 1].high;
    } else {
      PivotHighsSound(bars, n - 1, x);
    }
  }

  /** Every collected support level is the low of a pivot-low row. */
  lemma {:induction false} PivotLowsSound(bars: seq<Candle>, n: nat, x: real)
    requires n <= ScanEnd(bars) && x in PivotLows(bars, n)
    ensures exists i :: 2 <= i < n && i + 2 < |bars| && PivotLow(bars, i) && x == bars[i].low
  {
    if x !in PivotLows(bars, n - 1) {
      assert PivotLow(bars, n - 1) && x == bars[n - 1].low;
    } else {
      PivotLowsSound(bars, n - 1, x);
    }
  }

  lemma PivotsNext(bars: seq<Candle>, i: nat)
    requires 2 <= i && i + 2 < |bars|
    ensures PivotHighs(bars, i + 1) == PivotHighs(bars, i) + (if PivotHigh(bars, i) then [bars[i].high] else [])
    ensures PivotLows(bars, i + 1) == PivotLows(bars, i) + (if PivotLow(bars, i) then [bars[i].low] else [])
  {
  }

  datatype Levels = Levels(resistance: seq<real>, support: seq<real>, currentPrice: real)

  function Ascending(a: real, b: real): bool { a < b }
  function Descending(a: real, b: real): bool { a > b }

  /** `[r for r in resistance_levels if r > current_price]`, in row order. */
  function Above(resistance: seq<real>, price: real): (r: seq<real>)
    ensures forall x :: x in r <==> x in resistance && x > price
  {
    Filter(resistance, x => x > price)
  }

  /** `[s for s in support_levels if s < current_price]`, in row order. */
  function Below(support: seq<real>, price: real): (r: seq<real>)
    ensures forall x :: x in r <==> x in support && x < price
  {
    Filter(support, x => x < price)
  }

  /** The first three pivot highs above the close, ascending, and the last
      three pivot lows below it, descending. */
  function NearbyLevels(resistance: seq<real>, support: seq<real>, price: real): (r: Levels)
    ensures |r.resistance| <= 3 && |r.support| <= 3 && r.currentPrice == price
  {
    Levels(SortBy(Take(Above(resistance, price), 3), Ascending),
           SortBy(TakeLast(Below(support, price), 3), Descending),
           price)
  }

  /** Resistance levels are the first three pivot highs above the close (all
      of them when there are fewer), rearranged in ascending order. */
  lemma ResistanceShape(resistance: seq<real>, support: seq<real>, price: real)
    ensures var r := NearbyLevels(resistance, support, price).resistance;
            var above := Above(resistance, price);
            && |r| == (if |above| < 3 then |above| else 3)
            && multiset(r) == multiset(above[..|r|])
            && (forall x :: x in r ==> x > price && x in resistance)
            && (forall i, j :: 0 <= i < j < |r| ==> r[i] <= r[j])
  {
    var up := Take(Above(resistance, price), 3);
    SortByOrdered(up, Ascending);
    var r := SortBy(up, Ascending);
    forall x | x in r ensures x > price && x in resistance {
      assert x in multiset(r);
      assert x in up;
    }
  }

  /** Support levels are the last three pivot lows below the close (all of
      them when there are fewer), rearranged in descending order. */
  lemma SupportShape(resistance: seq<real>, support: seq<real>, price: real)
    ensures var r := NearbyLevels(resistance, support, price).support;
            var below := Below(support, price);
            && |r| == (if |below| < 3 then |below| else 3)
            && multiset(r) == multiset(below[|below| - |r|..])
            && (forall x :: x in r ==> x < price && x in support)
            && (forall i, j :: 0 <= i < j < |r| ==> r[i] >= r[j])
  {
    var down := TakeLast(Below(support, price), 3);
    SortByOrdered(down, Descending);
    var r := SortBy(down, Descending);
    forall x | x in r ensures x < price && x in support {
      assert x in multiset(r);
      assert x in down;
    }
  }

  /** `_detect_support_resistance`; an empty frame raises on the last close. */
  method DetectSupportResistance(bars: seq<Candle>) returns (r: Result<Levels>)
    ensures r.Failure? <==> bars == []
    ensures r.Success? ==> r.value == NearbyLevels(PivotHighs(bars, ScanEnd(bars)),
                                                   PivotLows(bars, ScanEnd(bars)),
                                                   bars[|bars| - 1].close)
  {
    var resistance: seq<real> := [];
    var support: seq<real> := [];
    var i := 2;
    while i + 2 < |bars|
      invariant 2 <= i <= ScanEnd(bars)
      invariant resistance == PivotHighs(bars, i) && support == PivotLows(bars, i)
    {
      var high := PivotHigh(bars, i);
      var low := PivotLow(bars, i);
      PivotsNext(bars, i);
      if high {
        resistance := resistance + [bars[i].high];
      }
      if low {
        support := support + [bars[i].low];
      }
      i := i + 1;
    }
    assert i == ScanEnd(bars);
    if bars == [] {
      return Failure("IndexError");
    }
    return Success(NearbyLevels(resistance, support, bars[|bars| - 1].close));
  }

  // ----------------------------------------------------------- price action

  function UpperWick(c: Candle): real { c.high - Max(c.open, c.close) }
  function LowerWick(c: Candle): real { Min(c.open, c.close) - c.low }
  function Body(c: Candle): (r: real)
    ensures r >= 0.0
  {
    Abs(c.close - c.open)
  }

  function Bodies(bars: seq<Candle>): (r: seq<real>)
    ensures |r| == |bars| && forall i :: 0 <= i < |bars| ==> r[i] == Body(bars[i]) && r[i] >= 0.0
  {
    seq(|bars|, i requires 0 <= i < |bars| => Body(bars[i]))
  }

  datatype CandlePattern = Doji | Hammer | ShootingStar

  datatype PriceAction = PriceAction(patterns: seq<CandlePattern>, avgBodySize: real,
                                     bodySize: real, upperWick: real, lowerWick: real)

  /** The mean body of a non-empty window. */
  function AverageBody(bars: seq<Candle>): (r: real)
    requires bars != []
    ensures r >= 0.0
  {
    var bodies := Bodies(bars);
    SumNonNegative(bodies);
    Sum(bodies) / |bodies| as real
  }

  /** The patterns of the latest candle: a doji when its body is under 30
      percent of the average body, then a hammer when the lower wick exceeds
      twice the body, else a shooting star when the upper wick does. */
  function Patterns(latest: Candle, avg: real): (r: seq<CandlePattern>)
    ensures |r| <= 2
    ensures Doji in r <==> Body(latest) < avg * 0.3
    ensures Hammer in r <==> LowerWick(latest) > Body(latest) * 2.0
    ensures ShootingStar in r <==> LowerWick(latest) <= Body(latest) * 2.0 && UpperWick(latest) > Body(latest) * 2.0
  {
    var body := Body(latest);
    var doji: seq<CandlePattern> := if body < avg * 0.3 then [Doji] else [];
    var reversal: seq<CandlePattern> :=
      if LowerWick(latest) > body * 2.0 then [Hammer]
      else if UpperWick(latest) > body * 2.0 then [ShootingStar]
      else [];
    doji + reversal
  }

  /** `_analyze_price_action` over the last ten candles; an empty frame raises. */
  function AnalyzePriceAction(bars: seq<Candle>): (r: Result<PriceAction>)
    ensures r.Success? <==> bars != []
    ensures r.Success? ==> r.value.avgBodySize >= 0.0 && |r.value.patterns| <= 2
    ensures r.Success? ==> r.value.bodySize == Body(bars[|bars| - 1])
    ensures r.Success? ==>
              && r.value.avgBodySize == AverageBody(TakeLast(bars, 10))
              && r.value.upperWick == UpperWick(bars[|bars| - 1])
              && r.value.lowerWick == LowerWick(bars[|bars| - 1])
              && r.value.patterns == Patterns(bars[|bars| - 1], r.value.avgBodySize)
    ensures r.Success? ==> (Doji in r.value.patterns <==> r.value.bodySize < r.value.avgBodySize * 0.3)
    ensures r.Success? ==> (Hammer in r.value.patterns <==> r.value.lowerWick > r.value.bodySize * 2.0)
    ensures r.Success? ==>
              (ShootingStar in r.value.patterns <==>
                 r.value.lowerWick <= r.value.bodySize * 2.0 && r.value.upperWick > r.value.bodySize * 2.0)
    ensures r.Success? ==> !(Hammer in r.value.patterns && ShootingStar in r.value.patterns)
  {
    if bars == [] then Failure("IndexError")
    else
      var recent := TakeLast(bars, 10);
      assert recent != [] && recent[|recent| - 1] == bars[|bars| - 1];
      var latest := recent[|recent| - 1];
      var avg := AverageBody(recent);
      Success(PriceAction(Patterns(latest, avg), avg, Body(latest), UpperWick(latest), LowerWick(latest)))
  }

  // --------------------------------------------------------- contract filter

  /** One entry of the chain as the data provider returns it; absent fields
      are `None`. */
  datatype RawOption = RawOption(
    symbol: string, optionType: Option<string>, strike: Option<real>, expiration: string,
    delta: Option<real>, volume: Option<int>, ask: Option<real>, bid: Option<real>, openInterest: Option<int>)

  datatype Contract = Contract(
    symbol: string, strike: real, expiration: string, ask: real, bid: real,
    delta: real, volume: int, openInterest: int, kind: string)

  /** The `get` defaults: delta 0, volume 0, ask 999, open interest 0, bid 0. */
  function DeltaOf(o: RawOption): real { Abs(if o.delta.Some? then o.delta.value else 0.0) }
  function VolumeOf(o: RawOption): int { if o.volume.Some? then o.volume.value else 0 }
  function AskOf(o: RawOption): real { if o.ask.Some? then o.ask.value else 999.0 }
  function OpenInterestOf(o: RawOption): int { if o.openInterest.Some? then o.openInterest.value else 0 }
  function BidOf(o: RawOption): real { if o.bid.Some? then o.bid.value else 0.0 }

  predicate Qualifies(o: RawOption)
  {
    MinDelta <= DeltaOf(o) <= MaxDelta && VolumeOf(o) >= MinVolume
    && AskOf(o) <= MaxAsk && OpenInterestOf(o) >= MinOpenInterest
  }

  /** The thresholds a shortlisted contract meets. */
  predicate Eligible(c: Contract, optionType: string)
  {
    MinDelta <= c.delta <= MaxDelta && c.volume >= MinVolume && c.ask <= MaxAsk
    && c.openInterest >= MinOpenInterest && c.kind == Upper(optionType)
  }

  /** The record `_filter_options_contracts` builds for a kept entry. */
  function ContractOf(o: RawOption, strike: real, optionType: string): (r: Contract)
    ensures Qualifies(o) ==> Eligible(r, optionType)
    ensures r.strike == strike && r.symbol == o.symbol && r.volume == VolumeOf(o) && r.delta == DeltaOf(o)
  {
    Contract(o.symbol, strike, o.expiration, AskOf(o), BidOf(o), DeltaOf(o), VolumeOf(o), OpenInterestOf(o), Upper(optionType))
  }

  /** The kept contracts of a chain prefix, in chain order. An entry without
      a type raises on `.lower()`, and a kept entry without a strike raises
      on `float(None)`; either aborts the whole filter. */
  function Kept(options: seq<RawOption>, optionType: string): (r: Result<seq<Contract>>)
    ensures r.Success? ==> |r.value| <= |options| && forall c :: c in r.value ==> Eligible(c, optionType)
  {
    if options == [] then Success([])
    else
      match Kept(options[..|options| - 1], optionType)
      case Failure(e) => Failure(e)
      case Success(kept) =>
        var o := options[|options| - 1];
        if o.optionType.None? then Failure("AttributeError")
        else if Lower(o.optionType.value) != Lower(optionType) || !Qualifies(o) then Success(kept)
        else if o.strike.None? then Failure("TypeError")
        else Success(kept + [ContractOf(o, o.strike.value, optionType)])
  }

  /** Every entry of the requested type that qualifies and has a strike is
      kept (when the filter does not raise). */
  lemma {:induction false} KeptComplete(options: seq<RawOption>, optionType: string, o: RawOption)
    requires Kept(options, optionType).Success? && o in options
    requires o.optionType.Some? && Lower(o.optionType.value) == Lower(optionType) && Qualifies(o)
    requires o.strike.Some?
    ensures ContractOf(o, o.strike.value, optionType) in Kept(options, optionType).value
  {
    var init := options[..|options| - 1];
    assert options == init + [options[|options| - 1]];
    if o != options[|options| - 1] {
      assert o in init;
      KeptComplete(init, optionType, o);
    }
  }

  /** A filter that did not raise met no kept entry without a strike. */
  lemma {:induction false} KeptHaveStrikes(options: seq<RawOption>, optionType: string, o: RawOption)
    requires Kept(options, optionType).Success? && o in options
    requires o.optionType.Some? && Lower(o.optionType.value) == Lower(optionType) && Qualifies(o)
    ensures o.strike.Some?
  {
    var init := options[..|options| - 1];
    assert options == init + [options[|options| - 1]];
    if o != options[|options| - 1] {
      assert o in init;
      KeptHaveStrikes(init, optionType, o);
    }
  }

  lemma {:induction false} KeptFailureSticks(options: seq<RawOption>, optionType: string, i: nat, j: nat)
    requires i <= j <= |options| && Kept(options[..i], optionType).Failure?
    ensures Kept(options[..j], optionType) == Kept(options[..i], optionType)
    decreases j - i
  {
    if i < j {
      KeptFailureSticks(options, optionType, i, j - 1);
      assert options[..j][..j - 1] == options[..j - 1];
    }
  }

  /** The sort key `(volume, abs(delta - 0.5))` with `reverse=True`: higher
      volume first, and on equal volume the delta farther from 0.5 first. */
  function VolumeFirst(a: Contract, b: Contract): bool
  {
    a.volume > b.volume || (a.volume == b.volume && Abs(a.delta - 0.5) > Abs(b.delta - 0.5))
  }

  lemma VolumeFirstIsStrictWeakOrder()
    ensures StrictWeakOrder(VolumeFirst)
  {
  }

  datatype Shortlist = Shortlist(contracts: seq<Contract>, totalFound: nat)

  /** `_filter_options_contracts`: keep, sort, return the top five and the
      number kept. */
  method FilterOptionsContracts(options: seq<RawOption>, optionType: string) returns (r: Result<Shortlist>)
    ensures r.Success? <==> Kept(options, optionType).Success?
    ensures r.Success? ==> r.value.contracts == Take(SortBy(Kept(options, optionType).value, VolumeFirst), 5)
    ensures r.Success? ==> r.value.totalFound == |Kept(options, optionType).value|
  {
    var contracts: seq<Contract> := [];
    var i := 0;
    while i < |options|
      invariant 0 <= i <= |options|
      invariant Kept(options[..i], optionType) == Success(contracts)
    {
      assert options[..i + 1][..i] == options[..i];
      var o := options[i];
      if o.optionType.None? {
        KeptFailureSticks(options, optionType, i + 1, |options|);
        assert options[..|options|] == options;
        return Failure("AttributeError");
      }
      if Lower(o.optionType.value) == Lower(optionType) && Qualifies(o) {
        if o.strike.None? {
          KeptFailureSticks(options, optionType, i + 1, |options|);
          assert options[..|options|] == options;
          return Failure("TypeError");
        }
        contracts := contracts + [ContractOf(o, o.strike.value, optionType)];
      }
      i := i + 1;
    }
    assert options[..i] == options;
    var sorted := SortBy(contracts, VolumeFirst);
    return Success(Shortlist(Take(sorted, 5), |contracts|));
  }

  /** The shortlist holds the five busiest kept contracts (all of them when
      fewer): no kept contract left out has more volume than a shortlisted
      one, or equal volume and a delta farther from 0.5 (`VolumeFirst`). */
  lemma Busiest(options: seq<RawOption>, optionType: string)
    requires Kept(options, optionType).Success?
    ensures var kept := Kept(options, optionType).value;
            var top := Take(SortBy(kept, VolumeFirst), 5);
            && |top| == (if |kept| < 5 then |kept| else 5)
            && multiset(top) <= multiset(kept)
            && forall a, b :: a in top && b in multiset(kept) - multiset(top) ==> !VolumeFirst(b, a)
  {
    VolumeFirstIsStrictWeakOrder();
    TopOf(Kept(options, optionType).value, 5, VolumeFirst);
  }

  /** Every shortlisted contract is of the requested type and meets every
      threshold; there are at most five, in volume order. */
  lemma ShortlistShape(options: seq<RawOption>, optionType: string)
    requires Kept(options, optionType).Success?
    ensures var top := Take(SortBy(Kept(options, optionType).value, VolumeFirst), 5);
            |top| <= 5
            && (forall c :: c in top ==> Eligible(c, optionType))
            && (forall i, j :: 0 <= i < j < |top| ==> top[i].volume >= top[j].volume)
  {
    var kept := Kept(options, optionType).value;
    var sorted := SortBy(kept, VolumeFirst);
    VolumeFirstIsStrictWeakOrder();
    SortByOrdered(kept, VolumeFirst);
    var top := Take(sorted, 5);
    forall c | c in top ensures Eligible(c, optionType) {
      assert c in multiset(sorted);
      assert c in kept;
    }
    forall i, j | 0 <= i < j < |top| ensures top[i].volume >= top[j].volume {
      assert !VolumeFirst(sorted[j], sorted[i]);
    }
  }

  // -------------------------------------------------------------- trade plan

  datatype TradePlan = TradePlan(
    entryPrice: real, targetPrice: real, stopPrice: real, profitTargetPct: real,
    stopLossPct: real, riskRewardRatio: real, maxRisk: real, maxProfit: real)

  /** `build_trade_plan` on the contract's ask, every amount rounded to cents. */
  function BuildTradePlan(ask: real): (r: TradePlan)
    ensures r.entryPrice == Round2(ask) && r.targetPrice == Round2(ask * 1.35) && r.stopPrice == Round2(ask * 0.825)
    ensures r.maxRisk == Round2(ask * 0.175) && r.maxProfit == Round2(ask * 0.35)
    ensures r.riskRewardRatio == 2.0 && r.profitTargetPct == 35.0 && r.stopLossPct == 17.5
    ensures ask >= 0.0 ==> r.stopPrice <= r.entryPrice <= r.targetPrice
  {
    var target := ask * (1.0 + ProfitTargetPct / 100.0);
    var stop := ask * (1.0 - StopLossPct / 100.0);
    Round2OfHundredths(200);
    assert ProfitTargetPct / StopLossPct == 200 as real / 100.0;
    RoundedBrackets(ask);
    TradePlan(Round2(ask), Round2(target), Round2(stop), ProfitTargetPct, StopLossPct,
              Round2(ProfitTargetPct / StopLossPct), Round2(ask * (StopLossPct / 100.0)),
              Round2(ask * (ProfitTargetPct / 100.0)))
  }

  lemma RoundedBrackets(ask: real)
    ensures ask >= 0.0 ==> Round2(ask * 0.825) <= Round2(ask) <= Round2(ask * 1.35)
  {
    if ask >= 0.0 {
      Round2Monotone(ask * 0.825, ask);
      Round2Monotone(ask, ask * 1.35);
    }
  }

  /** Before rounding, a positive ask lies strictly between stop and target. */
  lemma TradePlanBrackets(ask: real)
    requires ask > 0.0
    ensures ask * 0.825 < ask < ask * 1.35
  {
  }

  // ------------------------------------------------------- contract choice

  datatype Selection =
    | Chosen(recommendation: Recommendation, contract: Contract, plan: TradePlan,
             bestCall: Option<Contract>, bestPut: Option<Contract>)
    | NoneSuitable(recommendation: Recommendation)

  function First(s: seq<Contract>): (r: Option<Contract>)
    ensures r.Some? <==> s != []
    ensures r.Some? ==> r.value == s[0]
  {
    if s == [] then None else Some(s[0])
  }

  /** The choice in `generate_recommendation`: WAIT becomes CALL when any
      call was shortlisted and PUT otherwise; the best contract of the
      recommended side is taken, falling back to the other side; with no
      contract at all only the recommendation is returned. */
  function Select(rec: Recommendation, calls: seq<Contract>, puts: seq<Contract>): (r: Selection)
    ensures r.recommendation != Wait
    ensures rec != Wait ==> r.recommendation == rec
    ensures rec == Wait ==> (r.recommendation == Call <==> calls != [])
    ensures r.NoneSuitable? <==> calls == [] && puts == []
    ensures r.Chosen? ==> r.bestCall == First(calls) && r.bestPut == First(puts)
                          && r.plan == BuildTradePlan(r.contract.ask)
    ensures r.Chosen? && r.recommendation == Call && calls != [] ==> r.contract == calls[0]
    ensures r.Chosen? && r.recommendation == Put && puts != [] ==> r.contract == puts[0]
    ensures r.Chosen? && r.recommendation == Call && calls == [] ==> r.contract == puts[0]
    ensures r.Chosen? && r.recommendation == Put && puts == [] ==> r.contract == calls[0]
  {
    var primary := if rec != Wait then rec else if calls != [] then Call else Put;
    var bestCall := First(calls);
    var bestPut := First(puts);
    var best := if primary == Call && bestCall.Some? then bestCall
                else if primary == Put && bestPut.Some? then bestPut
                else if bestCall.Some? then bestCall else bestPut;
    if best.None? then NoneSuitable(primary)
    else Chosen(primary, best.value, BuildTradePlan(best.value.ask), bestCall, bestPut)
  }
}

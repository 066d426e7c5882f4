/** The digital twin of one symbol (modeling/twin_state.py): the price frame
    enriched with indicator and pattern columns, and a flat snapshot of its
    last row. The indicator series are inputs; the model covers which columns
    are written and what the snapshot says about the last row. */
module Twin {
  import opened Numeric
  import opened Frames
  import opened Indicators
  import opened Patterns

  /** What `build_state` reads from the last row. `squeezeOn` is `None` when
      the row has no Squeeze_On entry (`latest.get('Squeeze_On', False)`). */
  datatype Latest = Latest(
    close: Num, ema9: Num, ema20: Num, ema50: Num, sma20: Num, vwap: Num,
    macd: Num, macdSignal: Num, rsi: Num,
    squeezeOn: Option<bool>, goldenCross: bool,
    trend: string, support: Num, resistance: Num)

  /** The snapshot dictionary returned by `get_state`. */
  datatype State = State(
    aboveEma9: bool, aboveEma20: bool, aboveEma50: bool, aboveSma20: bool, aboveVwap: bool,
    macdCross: bool, rsi: Num, squeezeOn: bool, goldenCross: bool,
    trend: string, support: Num, resistance: Num,
    signals: seq<Signal>, confirmation: bool)

  /** The signals `get_signals` can emit, declared in the order it tests them. */
  datatype Signal = GoldenCrossSignal | MacdBullish | RsiOversold | RsiOverbought | TtmSqueeze

  /** The string each signal is reported as. */
  function Label(s: Signal): string
  {
    match s
    case GoldenCrossSignal => "Golden Cross"
    case MacdBullish => "MACD Bullish"
    case RsiOversold => "RSI Oversold"
    case RsiOverbought => "RSI Overbought"
    case TtmSqueeze => "TTM Squeeze"
  }

  function Rank(s: Signal): nat
  {
    match s
    case GoldenCrossSignal => 0
    case MacdBullish => 1
    case RsiOversold => 2
    case RsiOverbought => 3
    case TtmSqueeze => 4
  }

  function SqueezeFlag(l: Latest): bool
  {
    l.squeezeOn.Some? && l.squeezeOn.value
  }

  /** Whether the test for signal `s` passes on the row. */
  predicate Fires(l: Latest, s: Signal)
  {
    match s
    case GoldenCrossSignal => l.goldenCross
    case MacdBullish => Gt(l.macd, l.macdSignal)
    case RsiOversold => Lt(l.rsi, Some(30.0))
    case RsiOverbought => Gt(l.rsi, Some(70.0))
    case TtmSqueeze => SqueezeFlag(l)
  }

  function AppendIf(acc: seq<Signal>, c: bool, s: Signal): (r: seq<Signal>)
    ensures r == if c then acc + [s] else acc
  {
    if c then acc + [s] else acc
  }

  /** `get_signals(latest)`: exactly the signals whose test passes, each once,
      in declaration order. */
  function GetSignals(l: Latest): (r: seq<Signal>)
    ensures forall s :: s in r <==> Fires(l, s)
    ensures forall i, j :: 0 <= i < j < |r| ==> Rank(r[i]) < Rank(r[j])
  {
    var s1 := AppendIf([], l.goldenCross, GoldenCrossSignal);
    var s2 := AppendIf(s1, Gt(l.macd, l.macdSignal), MacdBullish);
    var s3 := AppendIf(s2, Lt(l.rsi, Some(30.0)), RsiOversold);
    var s4 := AppendIf(s3, Gt(l.rsi, Some(70.0)), RsiOverbought);
    AppendIf(s4, SqueezeFlag(l), TtmSqueeze)
  }

  /** Oversold and overbought never appear together. */
  lemma OversoldOverboughtExclusive(l: Latest)
    ensures !(RsiOversold in GetSignals(l) && RsiOverbought in GetSignals(l))
  {
  }

  function B2I(b: bool): nat { if b then 1 else 0 }

  /** `confirm_direction(latest)`: at least three of the four bullish checks. */
  function ConfirmDirection(l: Latest): (r: bool)
    ensures r ==> (Gt(l.close, l.ema9) || Gt(l.close, l.vwap)) && (Gt(l.macd, l.macdSignal) || l.goldenCross)
    ensures l.close.None? ==> !r
  {
    B2I(Gt(l.close, l.ema9)) + B2I(Gt(l.close, l.vwap))
      + B2I(Gt(l.macd, l.macdSignal)) + B2I(l.goldenCross) >= 3
  }

  /** Confirmation holds exactly when some three of the four checks hold. */
  lemma ConfirmDirectionThreeOfFour(l: Latest)
    ensures ConfirmDirection(l) <==>
      var a, b, c, d := Gt(l.close, l.ema9), Gt(l.close, l.vwap), Gt(l.macd, l.macdSignal), l.goldenCross;
      (a && b && c) || (a && b && d) || (a && c && d) || (b && c && d)
  {
  }

  /** `build_state()` applied to the last row. */
  function BuildState(l: Latest): (s: State)
    ensures s.macdCross <==> MacdBullish in s.signals
    ensures s.goldenCross <==> GoldenCrossSignal in s.signals
    ensures s.squeezeOn <==> TtmSqueeze in s.signals
    ensures s.confirmation ==> (s.aboveEma9 || s.aboveVwap) && (s.macdCross || s.goldenCross)
    ensures l.squeezeOn.None? ==> !s.squeezeOn
  {
    State(
      aboveEma9 := Gt(l.close, l.ema9),
      aboveEma20 := Gt(l.close, l.ema20),
      aboveEma50 := Gt(l.close, l.ema50),
      aboveSma20 := Gt(l.close, l.sma20),
      aboveVwap := Gt(l.close, l.vwap),
      macdCross := Gt(l.macd, l.macdSignal),
      rsi := l.rsi,
      squeezeOn := SqueezeFlag(l),
      goldenCross := l.goldenCross,
      trend := l.trend,
      support := l.support,
      resistance := l.resistance,
      signals := GetSignals(l),
      confirmation := ConfirmDirection(l))
  }

  /** Every Above_X flag is a strict comparison: a tie, a missing X or a
      missing close reads false. */
  lemma AboveIsStrict(l: Latest)
    ensures (l.ema9 == l.close || l.ema9.None? || l.close.None?) ==> !BuildState(l).aboveEma9
    ensures (l.ema20 == l.close || l.ema20.None? || l.close.None?) ==> !BuildState(l).aboveEma20
    ensures (l.ema50 == l.close || l.ema50.None? || l.close.None?) ==> !BuildState(l).aboveEma50
    ensures (l.sma20 == l.close || l.sma20.None? || l.close.None?) ==> !BuildState(l).aboveSma20
    ensures (l.vwap == l.close || l.vwap.None? || l.close.None?) ==> !BuildState(l).aboveVwap
  {
  }

  // ------------------------------------------------------------- the twin object

  /** The indicator series `calculate_indicators` obtains from the library,
      one value per row. */
  datatype IndicatorSeries = IndicatorSeries(
    ema9: seq<Num>, ema20: seq<Num>, ema50: seq<Num>, sma20: seq<Num>, vwap: seq<Num>,
    macd: seq<Num>, macdSignal: seq<Num>, rsi: seq<Num>, bands: Bands)

  predicate SeriesFit(ind: IndicatorSeries, height: nat)
  {
    && |ind.ema9| == height && |ind.ema20| == height && |ind.ema50| == height
    && |ind.sma20| == height && |ind.vwap| == height && |ind.macd| == height
    && |ind.macdSignal| == height && |ind.rsi| == height && BandsFit(ind.bands, height)
  }

  /** The price columns the detectors read. */
  predicate HasPrices(f: Frame)
  {
    Close in f.columns && Low in f.columns && High in f.columns
  }

  const IndicatorColumns: set<Col> :=
    {Ema(9), Ema(20), Ema(50), Sma(20), Vwap, Macd, MacdSignal, Rsi} + SqueezeColumns

  const PatternColumns: set<Col> := {GoldenCrossCol, SupportCol, ResistanceCol, TrendCol}

  /** The three EMA columns carry the names the rest of the system reads. */
  lemma EmaColumnNames()
    ensures Name(Ema(9)) == "EMA_9" && Name(Ema(20)) == "EMA_20" && Name(Ema(50)) == "EMA_50"
  {
    assert Text.NatToString(20) == Text.NatToString(2) + [Text.DigitChar(0)];
    assert Text.NatToString(50) == Text.NatToString(5) + [Text.DigitChar(0)];
  }

  /** The last row computed straight from the inputs, without the frame: the
      golden cross of EMA_50 over EMA_20, the 20-row support and resistance
      and the trend against EMA_20. */
  function LatestFromInputs(f: Frame, ind: IndicatorSeries): (l: Latest)
    requires Valid(f) && HasPrices(f) && f.height > 0 && SeriesFit(ind, f.height)
  {
    var k := f.height - 1;
    var close := Nums(f.columns[Close]);
    var b := ind.bands;
    Latest(
      close[k], ind.ema9[k], ind.ema20[k], ind.ema50[k], ind.sma20[k], ind.vwap[k],
      ind.macd[k], ind.macdSignal[k], ind.rsi[k],
      Some(SqueezeOn(b.bbl[k], b.bbu[k], b.kcl[k], b.kcu[k])),
      GoldenCross(ind.ema50, ind.ema20)[k],
      TrendLabel(close[k], ind.ema20[k]),
      RollingMin(Nums(f.columns[Low]), 20)[k],
      RollingMax(Nums(f.columns[High]), 20)[k])
  }

  /** `df.iloc[-1]` of the enriched frame, read as the snapshot fields. */
  function LastRow(f: Frame): Latest
    requires Valid(f) && f.height > 0
    requires IndicatorColumns + PatternColumns + {Close} <= f.columns.Keys
  {
    var k := f.height - 1;
    var trendCell := f.columns[TrendCol][k];
    var gcCell := f.columns[GoldenCrossCol][k];
    var sqCell := f.columns[SqueezeOnCol][k];
    Latest(
      Nums(f.columns[Close])[k], Nums(f.columns[Ema(9)])[k], Nums(f.columns[Ema(20)])[k],
      Nums(f.columns[Ema(50)])[k], Nums(f.columns[Sma(20)])[k], Nums(f.columns[Vwap])[k],
      Nums(f.columns[Macd])[k], Nums(f.columns[MacdSignal])[k], Nums(f.columns[Rsi])[k],
      Some(sqCell.FlagCell? && sqCell.flag),
      gcCell.FlagCell? && gcCell.flag,
      if trendCell.TextCell? then trendCell.text else "",
      Nums(f.columns[SupportCol])[k], Nums(f.columns[ResistanceCol])[k])
  }

  /** The columns `add_ema(df, [9, 20, 50])` writes. */
  function EmaMap(ind: IndicatorSeries): map<Col, seq<Cell>>
  {
    map[Ema(9) := NumCol(ind.ema9), Ema(20) := NumCol(ind.ema20), Ema(50) := NumCol(ind.ema50)]
  }

  /** The columns the SMA, VWAP, MACD and RSI steps write. */
  function LineMap(ind: IndicatorSeries): map<Col, seq<Cell>>
  {
    map[Sma(20) := NumCol(ind.sma20), Vwap := NumCol(ind.vwap), Macd := NumCol(ind.macd),
        MacdSignal := NumCol(ind.macdSignal), Rsi := NumCol(ind.rsi)]
  }

  lemma LineMapFits(ind: IndicatorSeries, height: nat)
    requires SeriesFit(ind, height)
    ensures forall c :: c in LineMap(ind) ==> |LineMap(ind)[c]| == height
  {
  }

  /** `add_ema(df, [9, 20, 50])` writes the three EMA columns. */
  lemma AddDefaultEmas(f: Frame, ind: IndicatorSeries)
    requires Valid(f) && SeriesFit(ind, f.height)
    ensures AddEma(f, [9, 20, 50], [ind.ema9, ind.ema20, ind.ema50]) == Frame(f.height, f.columns + EmaMap(ind))
  {
    AddThreeEmas(f, 9, 20, 50, ind.ema9, ind.ema20, ind.ema50);
  }

  /** `add_ema(df, [9, 20, 50])` */
  function DefaultEmas(f: Frame, ind: IndicatorSeries): (r: Frame)
    requires Valid(f) && SeriesFit(ind, f.height)
    ensures Valid(r) && r == Frame(f.height, f.columns + EmaMap(ind))
  {
    var emas := [ind.ema9, ind.ema20, ind.ema50];
    assert forall k :: 0 <= k < |emas| ==> |emas[k]| == f.height;
    AddDefaultEmas(f, ind);
    AddEma(f, [9, 20, 50], emas)
  }

  /** The frame after `calculate_indicators()`: the indicator columns are
      added and nothing else changes. */
  function WithIndicators(f: Frame, ind: IndicatorSeries): (r: Frame)
    requires Valid(f) && SeriesFit(ind, f.height)
    ensures Valid(r) && r.height == f.height
  {
    Frame(f.height, f.columns + EmaMap(ind) + LineMap(ind) + SqueezeMap(ind.bands))
  }

  /** The columns `detect_patterns` writes onto the enriched frame `f`. */
  function PatternMap(f: Frame): (m: map<Col, seq<Cell>>)
    requires Valid(f) && HasPrices(f) && Ema(20) in f.columns && Ema(50) in f.columns
    ensures m.Keys == PatternColumns
    ensures forall c :: c in m ==> |m[c]| == f.height
  {
    map[GoldenCrossCol := FlagCol(GoldenCross(Nums(f.columns[Ema(50)]), Nums(f.columns[Ema(20)]))),
        SupportCol := NumCol(RollingMin(Nums(f.columns[Low]), 20)),
        ResistanceCol := NumCol(RollingMax(Nums(f.columns[High]), 20)),
        TrendCol := TextCol(Trend(Nums(f.columns[Close]), Nums(f.columns[Ema(20)])))]
  }

  /** The frame after `detect_patterns()`. */
  function WithPatterns(f: Frame): (r: Frame)
    requires Valid(f) && HasPrices(f) && Ema(20) in f.columns && Ema(50) in f.columns
    ensures Valid(r) && r.height == f.height
  {
    Frame(f.height, f.columns + PatternMap(f))
  }

  /** `calculate_indicators` leaves the price columns untouched. */
  lemma PriceCells(df0: Frame, ind: IndicatorSeries)
    requires Valid(df0) && HasPrices(df0) && SeriesFit(ind, df0.height)
    ensures var g := WithIndicators(df0, ind);
            && HasPrices(g) && g.columns[Close] == df0.columns[Close]
            && g.columns[Low] == df0.columns[Low] && g.columns[High] == df0.columns[High]
  {
    var m := EmaMap(ind) + LineMap(ind) + SqueezeMap(ind.bands);
    AddedKeys(ind);
    PricesNotIndicators();
    UnionKeeps(df0.columns, m, Close);
    UnionKeeps(df0.columns, m, Low);
    UnionKeeps(df0.columns, m, High);
  }

  lemma PricesNotIndicators()
    ensures Close !in IndicatorColumns && Low !in IndicatorColumns && High !in IndicatorColumns
  {
  }

  /** The indicator step writes exactly the indicator columns. */
  lemma AddedKeys(ind: IndicatorSeries)
    requires BandsFit(ind.bands, |ind.bands.bbl|)
    ensures (EmaMap(ind) + LineMap(ind) + SqueezeMap(ind.bands)).Keys == IndicatorColumns
  {
    assert EmaMap(ind).Keys == {Ema(9), Ema(20), Ema(50)};
    assert LineMap(ind).Keys == {Sma(20), Vwap, Macd, MacdSignal, Rsi};
  }

  /** After `calculate_indicators` every indicator column is present. */
  lemma IndicatorKeys(df0: Frame, ind: IndicatorSeries)
    requires Valid(df0) && SeriesFit(ind, df0.height)
    ensures IndicatorColumns <= WithIndicators(df0, ind).columns.Keys
  {
  }

  /** Each EMA column holds its series. */
  lemma EmaCells(df0: Frame, ind: IndicatorSeries)
    requires Valid(df0) && SeriesFit(ind, df0.height)
    ensures var g := WithIndicators(df0, ind);
            && g.columns[Ema(9)] == NumCol(ind.ema9) && g.columns[Ema(20)] == NumCol(ind.ema20)
            && g.columns[Ema(50)] == NumCol(ind.ema50)
  {
    var e, l, q := EmaMap(ind), LineMap(ind), SqueezeMap(ind.bands);
    assert Ema(9) !in l && Ema(20) !in l && Ema(50) !in l;
    assert Ema(9) !in q && Ema(20) !in q && Ema(50) !in q;
    UnionTakes(df0.columns, e, Ema(9));
    UnionTakes(df0.columns, e, Ema(20));
    UnionTakes(df0.columns, e, Ema(50));
  }

  /** The SMA, VWAP, MACD and RSI columns hold their series. */
  lemma LineCells(df0: Frame, ind: IndicatorSeries)
    requires Valid(df0) && SeriesFit(ind, df0.height)
    ensures var g := WithIndicators(df0, ind);
            && g.columns[Sma(20)] == NumCol(ind.sma20) && g.columns[Vwap] == NumCol(ind.vwap)
            && g.columns[Macd] == NumCol(ind.macd) && g.columns[MacdSignal] == NumCol(ind.macdSignal)
            && g.columns[Rsi] == NumCol(ind.rsi)
  {
    LineCell(df0, ind, Sma(20));
    LineCell(df0, ind, Vwap);
    LineCell(df0, ind, Macd);
    LineCell(df0, ind, MacdSignal);
    LineCell(df0, ind, Rsi);
  }

  lemma LineCell(df0: Frame, ind: IndicatorSeries, c: Col)
    requires Valid(df0) && SeriesFit(ind, df0.height) && c in LineMap(ind)
    ensures WithIndicators(df0, ind).columns[c] == LineMap(ind)[c]
  {
    var e, l, q := EmaMap(ind), LineMap(ind), SqueezeMap(ind.bands);
    assert c !in SqueezeColumns;
    UnionTakes(df0.columns + e, l, c);
    UnionKeeps(df0.columns + e + l, q, c);
  }

  /** The Squeeze_On column holds the squeeze flags of the bands. */
  lemma SqueezeCells(df0: Frame, ind: IndicatorSeries)
    requires Valid(df0) && SeriesFit(ind, df0.height)
    ensures var g := WithIndicators(df0, ind);
            g.columns[SqueezeOnCol] == FlagCol(SqueezeOnColumn(ind.bands))
  {
  }

  /** `detect_patterns` keeps every column it does not write. */
  lemma PatternKeeps(g: Frame, c: Col)
    requires Valid(g) && HasPrices(g) && Ema(20) in g.columns && Ema(50) in g.columns
    requires c in g.columns && c !in PatternColumns
    ensures c in WithPatterns(g).columns && WithPatterns(g).columns[c] == g.columns[c]
  {
  }

  /** `detect_patterns` keeps the close and the indicator columns. */
  lemma IndicatorsKept(g: Frame)
    requires Valid(g) && HasPrices(g) && IndicatorColumns <= g.columns.Keys
    ensures var f := WithPatterns(g);
            && IndicatorColumns + {Close} <= f.columns.Keys
            && f.columns[Close] == g.columns[Close]
            && f.columns[Ema(9)] == g.columns[Ema(9)] && f.columns[Ema(20)] == g.columns[Ema(20)]
            && f.columns[Ema(50)] == g.columns[Ema(50)] && f.columns[Sma(20)] == g.columns[Sma(20)]
            && f.columns[Vwap] == g.columns[Vwap] && f.columns[Macd] == g.columns[Macd]
            && f.columns[MacdSignal] == g.columns[MacdSignal] && f.columns[Rsi] == g.columns[Rsi]
            && f.columns[SqueezeOnCol] == g.columns[SqueezeOnCol]
  {
    var p := PatternMap(g);
    assert Close !in p && Ema(9) !in p && Ema(20) !in p && Ema(50) !in p && Sma(20) !in p;
    assert Vwap !in p && Macd !in p && MacdSignal !in p && Rsi !in p && SqueezeOnCol !in p;
  }

  /** Each pattern column holds its pattern. */
  lemma PatternCells(g: Frame)
    requires Valid(g) && HasPrices(g) && Ema(20) in g.columns && Ema(50) in g.columns
    ensures var f := WithPatterns(g);
            && PatternColumns <= f.columns.Keys
            && f.columns[GoldenCrossCol] == FlagCol(GoldenCross(Nums(g.columns[Ema(50)]), Nums(g.columns[Ema(20)])))
            && f.columns[SupportCol] == NumCol(RollingMin(Nums(g.columns[Low]), 20))
            && f.columns[ResistanceCol] == NumCol(RollingMax(Nums(g.columns[High]), 20))
            && f.columns[TrendCol] == TextCol(Trend(Nums(g.columns[Close]), Nums(g.columns[Ema(20)])))
  {
  }

  /** A frame whose columns hold these values has the snapshot computed
      straight from the inputs as its last row. */
  lemma LastRowOfCells(f: Frame, df0: Frame, ind: IndicatorSeries)
    requires Valid(df0) && HasPrices(df0) && df0.height > 0 && SeriesFit(ind, df0.height)
    requires Valid(f) && f.height == df0.height
    requires IndicatorColumns + PatternColumns + {Close} <= f.columns.Keys
    requires f.columns[Close] == df0.columns[Close]
    requires && f.columns[Ema(9)] == NumCol(ind.ema9) && f.columns[Ema(20)] == NumCol(ind.ema20)
             && f.columns[Ema(50)] == NumCol(ind.ema50) && f.columns[Sma(20)] == NumCol(ind.sma20)
             && f.columns[Vwap] == NumCol(ind.vwap) && f.columns[Macd] == NumCol(ind.macd)
             && f.columns[MacdSignal] == NumCol(ind.macdSignal) && f.columns[Rsi] == NumCol(ind.rsi)
             && f.columns[SqueezeOnCol] == FlagCol(SqueezeOnColumn(ind.bands))
    requires && f.columns[GoldenCrossCol] == FlagCol(GoldenCross(ind.ema50, ind.ema20))
             && f.columns[SupportCol] == NumCol(RollingMin(Nums(df0.columns[Low]), 20))
             && f.columns[ResistanceCol] == NumCol(RollingMax(Nums(df0.columns[High]), 20))
             && f.columns[TrendCol] == TextCol(Trend(Nums(df0.columns[Close]), ind.ema20))
    ensures LastRow(f) == LatestFromInputs(df0, ind)
  {
    var k := df0.height - 1;
    var close := Nums(df0.columns[Close]);
    var l, m := LastRow(f), LatestFromInputs(df0, ind);
    assert l.close == m.close && l.ema9 == m.ema9 && l.ema20 == m.ema20 && l.ema50 == m.ema50;
    assert l.sma20 == m.sma20 && l.vwap == m.vwap && l.macd == m.macd && l.macdSignal == m.macdSignal;
    assert l.rsi == m.rsi && l.support == m.support && l.resistance == m.resistance;
    assert l.squeezeOn == m.squeezeOn by {
      assert FlagCol(SqueezeOnColumn(ind.bands))[k] == FlagCell(SqueezeOnColumn(ind.bands)[k]);
    }
    assert l.goldenCross == m.goldenCross by {
      assert FlagCol(GoldenCross(ind.ema50, ind.ema20))[k] == FlagCell(GoldenCross(ind.ema50, ind.ema20)[k]);
    }
    assert l.trend == m.trend by {
      assert TextCol(Trend(close, ind.ema20))[k] == TextCell(TrendLabel(close[k], ind.ema20[k]));
    }
  }

  /** The snapshot read from the enriched frame is the one computed straight
      from the inputs. */
  lemma LastRowOfEnriched(df0: Frame, ind: IndicatorSeries)
    requires Valid(df0) && HasPrices(df0) && df0.height > 0 && SeriesFit(ind, df0.height)
    ensures var f := WithPatterns(WithIndicators(df0, ind));
            IndicatorColumns + PatternColumns + {Close} <= f.columns.Keys
            && LastRow(f) == LatestFromInputs(df0, ind)
  {
    var g := WithIndicators(df0, ind);
    PriceCells(df0, ind);
    IndicatorKeys(df0, ind);
    EmaCells(df0, ind);
    LineCells(df0, ind);
    SqueezeCells(df0, ind);
    var f := WithPatterns(g);
    PatternCells(g);
    IndicatorsKept(g);
    LastRowOfCells(f, df0, ind);
  }

  class TwinState {
    var df: Frame
    var state: State

    /** `TwinState(df)`: indicators, then patterns, then the snapshot of the
        last row, which equals the one computed straight from the inputs. An
        empty frame makes `iloc[-1]` raise, so callers skip it. */
    constructor (df0: Frame, ind: IndicatorSeries)
      requires Valid(df0) && HasPrices(df0) && df0.height > 0 && SeriesFit(ind, df0.height)
      ensures df == WithPatterns(WithIndicators(df0, ind))
      ensures state == BuildState(LatestFromInputs(df0, ind))
    {
      df := df0;
      state := BuildState(LatestFromInputs(df0, ind));
      new;
      CalculateIndicators(ind);
      DetectPatterns();
      LastRowOfEnriched(df0, ind);
      var s := BuildStateOfFrame();
      state := s;
    }

    /** `calculate_indicators()`: `add_ema(df, [9, 20, 50])`, then SMA_20,
        VWAP, MACD, RSI and the squeeze columns. */
    method CalculateIndicators(ind: IndicatorSeries)
      requires Valid(df) && SeriesFit(ind, df.height)
      modifies this
      ensures df == WithIndicators(old(df), ind) && state == old(state)
    {
      var f0 := df;
      var f1 := DefaultEmas(f0, ind);
      LineMapFits(ind, f0.height);
      var f2 := WithColumns(f1, LineMap(ind));
      SqueezeFrame(f2, ind.bands);
      df := AddTtmSqueeze(f2, ind.bands);
    }

    /** `detect_patterns()`: the golden cross of EMA_50 (as the fast line) over
        EMA_20 (as the slow line), a 20-row support/resistance window and the
        trend against EMA_20. */
    method DetectPatterns()
      requires Valid(df) && HasPrices(df) && Ema(20) in df.columns && Ema(50) in df.columns
      modifies this
      ensures df == WithPatterns(old(df)) && state == old(state)
    {
      var f0 := df;
      df := DetectGoldenCross(df, Ema(50), Ema(20)).value;
      df := DetectSupportResistance(df, 20).value;
      df := DetectTrend(df, 20).value;
      assert df.columns == f0.columns + PatternMap(f0);
    }

    /** `build_state()`: the snapshot of `df.iloc[-1]`. */
    method BuildStateOfFrame() returns (s: State)
      requires Valid(df) && df.height > 0
      requires IndicatorColumns + PatternColumns + {Close} <= df.columns.Keys
      ensures s == BuildState(LastRow(df))
    {
      s := BuildState(LastRow(df));
    }

    /** `get_state()` */
    function GetState(): (s: State)
      reads this
      ensures s == state
    {
      state
    }
  }
}

/** Signal rules of the advanced indicator set (modeling/technical_indicators.py).
    The indicator columns themselves (SMA, EMA, RSI, MACD, Bollinger and
    Keltner bands, VWAP, stochastic RSI, ATR, squeeze momentum) come from a
    library and are inputs here, missing during their warm-up rows. What is
    modelled is what the class does with them: the cross and release flags,
    the Fibonacci retracement levels, the per-row signal tally with its
    final BUY/SELL/HOLD label, and the backtest loop over those labels. */
module Technical {
  import opened Numeric

  // ----------------------------------------------------------------- table

  /** The frame after the library indicators: one entry per row in date order. */
  datatype Table = Table(
    close: seq<Num>, high: seq<real>, low: seq<real>,
    sma20: seq<Num>, sma50: seq<Num>, rsi: seq<Num>,
    macd: seq<Num>, macdSignal: seq<Num>,
    bbUpper: seq<Num>, bbLower: seq<Num>, vwap: seq<Num>,
    stochK: seq<Num>, stochD: seq<Num>, atr: seq<Num>,
    kcUpper: seq<Num>, kcLower: seq<Num>, momentum: seq<Num>)
  {
    function Rows(): nat { |close| }

    ghost predicate Valid()
    {
      |high| == |low| == |sma20| == |sma50| == |rsi| == |macd| == |macdSignal| == |bbUpper|
      == |bbLower| == |vwap| == |stochK| == |stochD| == |atr| == |kcUpper| == |kcLower|
      == |momentum| == |close|
    }
  }

  // ------------------------------------------------------ cross and release

  /** `(a > b) & (a.shift(1) <= b.shift(1))`: the shifted value is missing
      on the first row, so no cross happens there. */
  predicate CrossUp(a: seq<Num>, b: seq<Num>, i: nat)
    requires i < |a| && i < |b|
  {
    Gt(a[i], b[i]) && i > 0 && Le(a[i - 1], b[i - 1])
  }

  /** `(a < b) & (a.shift(1) >= b.shift(1))` */
  predicate CrossDown(a: seq<Num>, b: seq<Num>, i: nat)
    requires i < |a| && i < |b|
  {
    Lt(a[i], b[i]) && i > 0 && Ge(a[i - 1], b[i - 1])
  }

  /** An up-cross and a down-cross of the same pair never share a row, and
      neither happens on the first row. */
  lemma CrossExclusive(a: seq<Num>, b: seq<Num>, i: nat)
    requires i < |a| && i < |b|
    ensures !(CrossUp(a, b, i) && CrossDown(a, b, i))
    ensures i == 0 ==> !CrossUp(a, b, i) && !CrossDown(a, b, i)
  {
  }

  /** Two up-crosses of the same pair never fall on consecutive rows. */
  lemma CrossUpNotTwice(a: seq<Num>, b: seq<Num>, i: nat)
    requires 0 < i < |a| && i < |b|
    ensures !(CrossUp(a, b, i - 1) && CrossUp(a, b, i))
  {
  }

  predicate MacdBullish(t: Table, i: nat)
    requires t.Valid() && i < t.Rows()
  {
    CrossUp(t.macd, t.macdSignal, i)
  }

  predicate MacdBearish(t: Table, i: nat)
    requires t.Valid() && i < t.Rows()
  {
    CrossDown(t.macd, t.macdSignal, i)
  }

  predicate VwapCrossUp(t: Table, i: nat)
    requires t.Valid() && i < t.Rows()
  {
    CrossUp(t.close, t.vwap, i)
  }

  predicate VwapCrossDown(t: Table, i: nat)
    requires t.Valid() && i < t.Rows()
  {
    CrossDown(t.close, t.vwap, i)
  }

  predicate StochBullishCross(t: Table, i: nat)
    requires t.Valid() && i < t.Rows()
  {
    CrossUp(t.stochK, t.stochD, i)
  }

  predicate StochBearishCross(t: Table, i: nat)
    requires t.Valid() && i < t.Rows()
  {
    CrossDown(t.stochK, t.stochD, i)
  }

  predicate StochOversold(t: Table, i: nat)
    requires t.Valid() && i < t.Rows()
  {
    Lt(t.stochK[i], Some(20.0)) && Lt(t.stochD[i], Some(20.0))
  }

  predicate StochOverbought(t: Table, i: nat)
    requires t.Valid() && i < t.Rows()
  {
    Gt(t.stochK[i], Some(80.0)) && Gt(t.stochD[i], Some(80.0))
  }

  predicate BbBreakoutUpper(t: Table, i: nat)
    requires t.Valid() && i < t.Rows()
  {
    Gt(t.close[i], t.bbUpper[i])
  }

  predicate BbBreakoutLower(t: Table, i: nat)
    requires t.Valid() && i < t.Rows()
  {
    Lt(t.close[i], t.bbLower[i])
  }

  /** `TTM_Squeeze`: the Bollinger bands strictly inside the Keltner channel. */
  predicate Squeeze(t: Table, i: nat)
    requires t.Valid() && i < t.Rows()
  {
    Lt(t.bbUpper[i], t.kcUpper[i]) && Gt(t.bbLower[i], t.kcLower[i])
  }

  /** `(~TTM_Squeeze) & TTM_Squeeze.shift(1)`: the shifted flag is missing,
      hence false, on the first row. */
  predicate SqueezeRelease(t: Table, i: nat)
    requires t.Valid() && i < t.Rows()
  {
    !Squeeze(t, i) && i > 0 && Squeeze(t, i - 1)
  }

  /** A release needs the squeeze on the row before and off on this one,
      so two releases are never adjacent. */
  lemma ReleaseNotTwice(t: Table, i: nat)
    requires t.Valid() && 0 < i < t.Rows()
    ensures !(SqueezeRelease(t, i - 1) && SqueezeRelease(t, i))
  {
  }

  predicate MomentumUp(t: Table, i: nat)
    requires t.Valid() && i < t.Rows()
  {
    Gt(t.momentum[i], Some(0.0))
  }

  predicate MomentumDown(t: Table, i: nat)
    requires t.Valid() && i < t.Rows()
  {
    Lt(t.momentum[i], Some(0.0))
  }

  // -------------------------------------------------------------- Fibonacci

  /** The window of `rolling(50)`. */
  const FibWindow: nat := 50

  /** The retracement ratios, and the column suffix `int(level * 1000)` of each. */
  const FibLevels: seq<real> := [0.236, 0.382, 0.5, 0.618, 0.786]
  const FibSuffixes: seq<int> := [236, 382, 500, 618, 786]

  /** `High.rolling(50).max()`: missing until 50 rows are available. */
  function FibHigh(t: Table, i: nat): (r: Num)
    requires t.Valid() && i < t.Rows()
    ensures r.Some? <==> i + 1 >= FibWindow
    ensures r.Some? ==> forall k :: i + 1 - FibWindow <= k <= i ==> t.high[k] <= r.value
  {
    if i + 1 < FibWindow then None
    else
      var w := t.high[i + 1 - FibWindow..i + 1];
      var m := MaxOf(w);
      assert forall k :: i + 1 - FibWindow <= k <= i ==> t.high[k] == w[k - (i + 1 - FibWindow)];
      Some(m)
  }

  /** `Low.rolling(50).min()` */
  function FibLow(t: Table, i: nat): (r: Num)
    requires t.Valid() && i < t.Rows()
    ensures r.Some? <==> i + 1 >= FibWindow
    ensures r.Some? ==> forall k :: i + 1 - FibWindow <= k <= i ==> r.value <= t.low[k]
  {
    if i + 1 < FibWindow then None
    else
      var w := t.low[i + 1 - FibWindow..i + 1];
      var m := MinOf(w);
      assert forall k :: i + 1 - FibWindow <= k <= i ==> t.low[k] == w[k - (i + 1 - FibWindow)];
      Some(m)
  }

  /** `Fib_<suffix> = Fib_High - Fib_Range * level` */
  function FibLevel(t: Table, i: nat, level: real): (r: Num)
    requires t.Valid() && i < t.Rows()
  {
    Minus(FibHigh(t, i), Times(Minus(FibHigh(t, i), FibLow(t, i)), level))
  }

  /** With a non-negative range the levels step down from the rolling high
      to the rolling low in the order 23.6, 38.2, 50, 61.8, 78.6 percent. */
  lemma FibLevelsOrdered(t: Table, i: nat)
    requires t.Valid() && i < t.Rows() && i + 1 >= FibWindow
    requires FibHigh(t, i).value >= FibLow(t, i).value
    ensures FibHigh(t, i).value >= FibLevel(t, i, FibLevels[0]).value
    ensures forall j :: 0 <= j < |FibLevels| - 1 ==>
              FibLevel(t, i, FibLevels[j]).value >= FibLevel(t, i, FibLevels[j + 1]).value
    ensures FibLevel(t, i, FibLevels[|FibLevels| - 1]).value >= FibLow(t, i).value
  {
    var range := FibHigh(t, i).value - FibLow(t, i).value;
    assert range * 0.786 <= range;
  }

  /** Some level lies within `tolerance` of the close. */
  predicate NearLevel(t: Table, i: nat)
    requires t.Valid() && i < t.Rows()
  {
    var tolerance := Times(t.atr[i], 0.5);
    exists j :: 0 <= j < |FibLevels| &&
      Le(t.close[i], Plus(FibLevel(t, i, FibLevels[j]), tolerance))
      && Ge(t.close[i], Minus(FibLevel(t, i, FibLevels[j]), tolerance))
  }

  /** `Near_Fib_Support`: near a level on a falling close. */
  predicate NearFibSupport(t: Table, i: nat)
    requires t.Valid() && i < t.Rows()
  {
    NearLevel(t, i) && i > 0 && Lt(t.close[i], t.close[i - 1])
  }

  /** `Near_Fib_Resistance`: near a level on a rising close. */
  predicate NearFibResistance(t: Table, i: nat)
    requires t.Valid() && i < t.Rows()
  {
    NearLevel(t, i) && i > 0 && Gt(t.close[i], t.close[i - 1])
  }

  /** A close cannot be both falling and rising. */
  lemma FibSupportResistanceExclusive(t: Table, i: nat)
    requires t.Valid() && i < t.Rows()
    ensures !(NearFibSupport(t, i) && NearFibResistance(t, i))
  {
  }

  // ------------------------------------------------------------ signal tally

  datatype Condition = Condition(holds: bool, name: string)

  /** The names of the conditions that hold, in table order. */
  function Fired(table: seq<Condition>): (r: seq<string>)
    ensures |r| <= |table|
    ensures forall n :: n in r ==> exists c :: c in table && c.holds && c.name == n
  {
    if table == [] then []
    else (if table[0].holds then [table[0].name] else []) + Fired(table[1..])
  }

  function BullishNames(): seq<string>
  {
    ["MACD Bullish Cross", "RSI Oversold", "BB Oversold", "VWAP Breakout", "StochRSI Bullish",
     "TTM Squeeze Release Up", "Fibonacci Support", "Moving Average Bullish"]
  }

  function BearishNames(): seq<string>
  {
    ["MACD Bearish Cross", "RSI Overbought", "BB Overbought", "VWAP Breakdown", "StochRSI Bearish",
     "TTM Squeeze Release Down", "Fibonacci Resistance", "Moving Average Bearish"]
  }

  /** The bullish condition table of `_generate_signals`, each condition
      evaluated as its text reads. */
  function Bullish(t: Table, i: nat): (r: seq<Condition>)
    requires t.Valid() && i < t.Rows()
    ensures |r| == 8 && forall k :: 0 <= k < 8 ==> r[k].name == BullishNames()[k]
  {
    [Condition(MacdBullish(t, i), "MACD Bullish Cross"),
     Condition(Lt(t.rsi[i], Some(30.0)), "RSI Oversold"),
     Condition(BbBreakoutLower(t, i), "BB Oversold"),
     Condition(VwapCrossUp(t, i), "VWAP Breakout"),
     Condition(StochBullishCross(t, i) && StochOversold(t, i), "StochRSI Bullish"),
     Condition(SqueezeRelease(t, i) && MomentumUp(t, i), "TTM Squeeze Release Up"),
     Condition(NearFibSupport(t, i), "Fibonacci Support"),
     Condition(Gt(t.close[i], t.sma20[i]) && Gt(t.sma20[i], t.sma50[i]), "Moving Average Bullish")]
  }

  /** The bearish condition table. */
  function Bearish(t: Table, i: nat): (r: seq<Condition>)
    requires t.Valid() && i < t.Rows()
    ensures |r| == 8 && forall k :: 0 <= k < 8 ==> r[k].name == BearishNames()[k]
  {
    [Condition(MacdBearish(t, i), "MACD Bearish Cross"),
     Condition(Gt(t.rsi[i], Some(70.0)), "RSI Overbought"),
     Condition(BbBreakoutUpper(t, i), "BB Overbought"),
     Condition(VwapCrossDown(t, i), "VWAP Breakdown"),
     Condition(StochBearishCross(t, i) && StochOverbought(t, i), "StochRSI Bearish"),
     Condition(SqueezeRelease(t, i) && MomentumDown(t, i), "TTM Squeeze Release Down"),
     Condition(NearFibResistance(t, i), "Fibonacci Resistance"),
     Condition(Lt(t.close[i], t.sma20[i]) && Lt(t.sma20[i], t.sma50[i]), "Moving Average Bearish")]
  }

  /** The source evaluates each condition with `eval` after textual
      substitution. Replacing `RSI` first turns the two stochastic-RSI
      conditions into undefined names, and `Close > SMA_20 & SMA_20 > SMA_50`
      parses as a chained comparison around `SMA_20 & SMA_20`, which raises on
      floats. Both errors are swallowed, so those conditions never hold. */
  function AsEvaluated(table: seq<Condition>): (r: seq<Condition>)
    requires |table| == 8
    ensures |r| == 8
    ensures forall k :: 0 <= k < 8 ==> r[k].name == table[k].name
    ensures forall k :: 0 <= k < 8 && k != 4 && k != 7 ==> r[k] == table[k]
    ensures !r[4].holds && !r[7].holds
  {
    table[4 := table[4].(holds := false)][7 := table[7].(holds := false)]
  }

  /** The signals of one row. */
  datatype RowSignals = RowSignals(buy: seq<string>, sell: seq<string>, strength: int)

  datatype FinalSignal = Hold | BuySignal | SellSignal

  /** `Final_Signal`: BUY from a strength of 3, SELL from -3, else HOLD. */
  function Final(strength: int): (r: FinalSignal)
    ensures r == BuySignal <==> strength >= 3
    ensures r == SellSignal <==> strength <= -3
    ensures r == Hold <==> -3 < strength < 3
  {
    if strength <= -3 then SellSignal else if strength >= 3 then BuySignal else Hold
  }

  /** The tally of a row as the conditions read. */
  function Tally(t: Table, i: nat): (r: RowSignals)
    requires t.Valid() && i < t.Rows()
    ensures r.buy == Fired(Bullish(t, i)) && r.sell == Fired(Bearish(t, i))
    ensures r.strength == |r.buy| - |r.sell|
    ensures |r.buy| <= 8 && |r.sell| <= 8 && -8 <= r.strength <= 8
  {
    var buy := Fired(Bullish(t, i));
    var sell := Fired(Bearish(t, i));
    RowSignals(buy, sell, |buy| - |sell|)
  }

  /** The tally as the source computes it. */
  function TallyAsWritten(t: Table, i: nat): (r: RowSignals)
    requires t.Valid() && i < t.Rows()
    ensures r.strength == |r.buy| - |r.sell|
  {
    var buy := Fired(AsEvaluated(Bullish(t, i)));
    var sell := Fired(AsEvaluated(Bearish(t, i)));
    RowSignals(buy, sell, |buy| - |sell|)
  }

  /** A condition that does not hold contributes no name. */
  lemma {:induction false} FiredOmits(table: seq<Condition>, k: nat)
    requires k < |table| && !table[k].holds
    requires forall j :: 0 <= j < |table| && j != k ==> table[j].name != table[k].name
    ensures table[k].name !in Fired(table)
  {
    if k > 0 {
      FiredOmits(table[1..], k - 1);
    } else {
      FiredNames(table[1..], table[k].name);
    }
  }

  lemma {:induction false} FiredNames(table: seq<Condition>, n: string)
    requires forall j :: 0 <= j < |table| ==> table[j].name != n
    ensures n !in Fired(table)
  {
    if table != [] {
      FiredNames(table[1..], n);
    }
  }

  /** A condition that holds contributes its name. */
  lemma {:induction false} FiredIncludes(table: seq<Condition>, k: nat)
    requires k < |table| && table[k].holds
    ensures table[k].name in Fired(table)
  {
    if k > 0 {
      FiredIncludes(table[1..], k - 1);
    }
  }

  /** As written, "StochRSI Bullish" and "Moving Average Bullish" are never
      reported, however the indicators stand, so a row reaches at most six
      bullish and six bearish signals. */
  lemma AsWrittenNeverFires(t: Table, i: nat)
    requires t.Valid() && i < t.Rows()
    ensures "StochRSI Bullish" !in TallyAsWritten(t, i).buy
    ensures "Moving Average Bullish" !in TallyAsWritten(t, i).buy
    ensures "StochRSI Bearish" !in TallyAsWritten(t, i).sell
    ensures "Moving Average Bearish" !in TallyAsWritten(t, i).sell
  {
    var b := AsEvaluated(Bullish(t, i));
    var s := AsEvaluated(Bearish(t, i));
    FiredOmits(b, 4);
    FiredOmits(b, 7);
    FiredOmits(s, 4);
    FiredOmits(s, 7);
  }

  /** Read as intended, a stochastic cross out of the oversold zone and a
      close above a rising pair of averages are reported. */
  lemma IntendedFires(t: Table, i: nat)
    requires t.Valid() && i < t.Rows()
    ensures StochBullishCross(t, i) && StochOversold(t, i) ==> "StochRSI Bullish" in Tally(t, i).buy
    ensures Gt(t.close[i], t.sma20[i]) && Gt(t.sma20[i], t.sma50[i]) ==> "Moving Average Bullish" in Tally(t, i).buy
    ensures StochBearishCross(t, i) && StochOverbought(t, i) ==> "StochRSI Bearish" in Tally(t, i).sell
    ensures Lt(t.close[i], t.sma20[i]) && Lt(t.sma20[i], t.sma50[i]) ==> "Moving Average Bearish" in Tally(t, i).sell
  {
    var b := Bullish(t, i);
    var s := Bearish(t, i);
    if b[4].holds { FiredIncludes(b, 4); }
    if b[7].holds { FiredIncludes(b, 7); }
    if s[4].holds { FiredIncludes(s, 4); }
    if s[7].holds { FiredIncludes(s, 7); }
  }

  /** RSI below 30 and above 70 exclude each other, as do the MACD up and
      down crosses and the VWAP breakout and breakdown. */
  lemma OpposedConditions(t: Table, i: nat)
    requires t.Valid() && i < t.Rows()
    ensures !(Bullish(t, i)[1].holds && Bearish(t, i)[1].holds)
    ensures !(Bullish(t, i)[3].holds && Bearish(t, i)[3].holds)
    ensures !(Bullish(t, i)[0].holds && Bearish(t, i)[0].holds)
  {
  }

  /** The source initialises the list columns with `df['Buy_Signals'] = []`,
      which pandas refuses with a length mismatch on any frame that has rows. */
  function InitSignalColumns(t: Table): (r: Result<seq<RowSignals>>)
    ensures r.Success? <==> t.Rows() == 0
  {
    if t.Rows() > 0 then Failure("ValueError") else Success([])
  }

  /** The row loop of `_generate_signals`, with the list columns set up as
      intended: one tally and one final label per row. */
  method GenerateSignals(t: Table) returns (rows: seq<RowSignals>, finals: seq<FinalSignal>)
    requires t.Valid()
    ensures |rows| == |finals| == t.Rows()
    ensures forall i :: 0 <= i < t.Rows() ==> rows[i] == Tally(t, i)
    ensures forall i :: 0 <= i < t.Rows() ==>
              (finals[i] == BuySignal <==> |rows[i].buy| - |rows[i].sell| >= 3)
              && (finals[i] == SellSignal <==> |rows[i].buy| - |rows[i].sell| <= -3)
  {
    rows := TallyRows(t);
    finals := FinalLabels(rows);
  }

  /** The first pass of the row loop: the buy and sell names of each row. */
  method TallyRows(t: Table) returns (rows: seq<RowSignals>)
    requires t.Valid()
    ensures |rows| == t.Rows()
    ensures forall i :: 0 <= i < t.Rows() ==> rows[i] == Tally(t, i)
  {
    rows := [];
    var i := 0;
    while i < t.Rows()
      invariant 0 <= i <= t.Rows() && |rows| == i
      invariant forall k :: 0 <= k < i ==> rows[k] == Tally(t, k)
    {
      var buy := Fired(Bullish(t, i));
      var sell := Fired(Bearish(t, i));
      var row := RowSignals(buy, sell, |buy| - |sell|);
      assert row == Tally(t, i);
      rows := rows + [row];
      i := i + 1;
    }
  }

  /** The `Final_Signal` column: HOLD, then BUY where the strength is at
      least 3 and SELL where it is at most -3. */
  function FinalLabels(rows: seq<RowSignals>): (finals: seq<FinalSignal>)
    ensures |finals| == |rows|
    ensures forall k :: 0 <= k < |rows| ==>
              (finals[k] == BuySignal <==> rows[k].strength >= 3)
              && (finals[k] == SellSignal <==> rows[k].strength <= -3)
  {
    seq(|rows|, k requires 0 <= k < |rows| => Final(rows[k].strength))
  }

  // ---------------------------------------------------------------- backtest

  /** One row handed to the backtest: its date, close and final label. */
  datatype BacktestRow = BacktestRow(date: string, price: real, signal: FinalSignal)

  datatype BacktestTrade =
    | Bought(date: string, price: real, shares: int, cost: real)
    | SoldAll(date: string, price: real, shares: int, proceeds: real)

  datatype ValuePoint = ValuePoint(date: string, value: real, capital: real, shares: int, price: real)

  datatype Account = Account(capital: real, shares: int)

  datatype Outcome = Outcome(account: Account, trade: Option<BacktestTrade>)

  /** The money value of `shares` at `price`. */
  function Amount(shares: int, price: real): real
  {
    shares as real * price
  }

  /** `int(capital * 0.95 / price)`; a zero price raises. */
  function SharesToBuy(capital: real, price: real): (r: Result<int>)
    ensures r.Success? <==> price != 0.0
  {
    if price == 0.0 then Failure("ZeroDivisionError")
    else Success(Trunc(capital * 0.95 / price))
  }

  /** The shares bought never cost more than 95 percent of the capital. */
  lemma Affordable(capital: real, price: real)
    requires price != 0.0
    ensures capital >= 0.0 && price > 0.0 ==>
              Trunc(capital * 0.95 / price) >= 0 && Trunc(capital * 0.95 / price) as real * price <= 0.95 * capital
  {
    if capital >= 0.0 && price > 0.0 {
      var x := capital * 0.95 / price;
      assert x * price == capital * 0.95;
      assert x >= 0.0;
      var n := Trunc(x);
      assert n as real <= x;
      assert n as real * price <= x * price;
    }
  }

  /** One row of `get_backtest_data`: BUY with more capital than the price
      spends 95 percent of it on whole shares, SELL with shares liquidates
      them all, anything else holds. */
  function Step(a: Account, row: BacktestRow): (r: Result<Outcome>)
    ensures r.Failure? ==> row.signal == BuySignal && row.price == 0.0
    ensures r.Success? && r.value.trade.None? ==> r.value.account == a
  {
    if row.signal == BuySignal && a.capital > row.price then
      match SharesToBuy(a.capital, row.price)
      case Failure(e) => Failure(e)
      case Success(n) =>
        if n > 0 then
          var cost := Amount(n, row.price);
          Success(Outcome(Account(a.capital - cost, a.shares + n), Some(Bought(row.date, row.price, n, cost))))
        else Success(Outcome(a, None))
    else if row.signal == SellSignal && a.shares > 0 then
      var proceeds := Amount(a.shares, row.price);
      Success(Outcome(Account(a.capital + proceeds, 0), Some(SoldAll(row.date, row.price, a.shares, proceeds))))
    else Success(Outcome(a, None))
  }

  /** The `portfolio_value` entry of a row: the capital plus the shares at
      the row's price. */
  function PointAt(a: Account, row: BacktestRow): ValuePoint
  {
    ValuePoint(row.date, a.capital + Amount(a.shares, row.price), a.capital, a.shares, row.price)
  }

  /** A row at a positive price never raises; a buy needs a BUY label and
      more capital than the price, a sale a SELL label and shares, and it
      sells them all; no trade leaves the account as it was; and a trade
      at the row's price leaves capital plus holdings unchanged. */
  lemma StepProperties(a: Account, row: BacktestRow)
    ensures row.price > 0.0 ==> Step(a, row).Success?
    ensures var r := Step(a, row);
            r.Success? ==>
              (a.shares >= 0 ==> r.value.account.shares >= 0)
              && (a.capital >= 0.0 && row.price > 0.0 ==> r.value.account.capital >= 0.0)
              && (r.value.trade.Some? && r.value.trade.value.Bought? ==>
                    row.signal == BuySignal && a.capital > row.price && r.value.account.shares > a.shares)
              && (r.value.trade.Some? && r.value.trade.value.SoldAll? ==>
                    row.signal == SellSignal && a.shares > 0 && r.value.account.shares == 0)
              && (r.value.trade.None? ==> r.value.account == a)
              && r.value.account.capital + Amount(r.value.account.shares, row.price)
                 == a.capital + Amount(a.shares, row.price)
  {
    if row.signal == BuySignal && a.capital > row.price && row.price != 0.0 {
      Affordable(a.capital, row.price);
    }
  }

  datatype Run = Run(account: Account, trades: seq<BacktestTrade>, values: seq<ValuePoint>)

  /** The row loop over a prefix: one value point per row. */
  function Replay(rows: seq<BacktestRow>, initialCapital: real): (r: Result<Run>)
    ensures r.Success? ==> |r.value.values| == |rows| && |r.value.trades| <= |rows|
  {
    if rows == [] then Success(Run(Account(initialCapital, 0), [], []))
    else
      match Replay(rows[..|rows| - 1], initialCapital)
      case Failure(e) => Failure(e)
      case Success(run) =>
        var row := rows[|rows| - 1];
        match Step(run.account, row)
        case Failure(e) => Failure(e)
        case Success(out) =>
          var a := out.account;
          var trades := if out.trade.Some? then run.trades + [out.trade.value] else run.trades;
          Success(Run(a, trades, run.values + [PointAt(a, row)]))
  }

  predicate PositivePrices(rows: seq<BacktestRow>)
  {
    forall i :: 0 <= i < |rows| ==> rows[i].price > 0.0
  }

  ghost predicate PointSound(p: ValuePoint, row: BacktestRow)
  {
    p.price == row.price && p.capital >= 0.0 && p.shares >= 0
    && p.value == p.capital + Amount(p.shares, p.price)
  }

  /** Every value point has non-negative capital and shares and is the
      capital plus the shares at that row's price. */
  ghost predicate SoundPoints(values: seq<ValuePoint>, rows: seq<BacktestRow>)
  {
    |values| == |rows| && forall i :: 0 <= i < |rows| ==> PointSound(values[i], rows[i])
  }

  /** Replaying one more row applies one step to the account, logs its
      trade if there is one and adds one value point. */
  lemma ReplayNext(rows: seq<BacktestRow>, initialCapital: real, i: nat, run: Run, out: Outcome)
    requires i < |rows| && Replay(rows[..i], initialCapital) == Success(run)
    requires Step(run.account, rows[i]) == Success(out)
    ensures Replay(rows[..i + 1], initialCapital)
            == Success(Run(out.account, if out.trade.Some? then run.trades + [out.trade.value] else run.trades,
                           run.values + [PointAt(out.account, rows[i])]))
  {
    assert rows[..i + 1][..i] == rows[..i];
  }

  /** One row at a positive price keeps the account non-negative. */
  lemma StepSound(a: Account, row: BacktestRow)
    requires a.capital >= 0.0 && a.shares >= 0 && row.price > 0.0
    ensures Step(a, row).Success?
    ensures var b := Step(a, row).value.account;
            b.capital >= 0.0 && b.shares >= 0 && PointSound(PointAt(b, row), row)
  {
    StepProperties(a, row);
  }

  /** With positive prices and non-negative starting capital nothing raises,
      the capital and the shares never go negative, and every value point is
      the capital plus the shares at that row's price. */
  lemma {:induction false} ReplaySound(rows: seq<BacktestRow>, initialCapital: real)
    requires PositivePrices(rows) && initialCapital >= 0.0
    ensures Replay(rows, initialCapital).Success?
    ensures Replay(rows, initialCapital).value.account.capital >= 0.0
    ensures Replay(rows, initialCapital).value.account.shares >= 0
    ensures SoundPoints(Replay(rows, initialCapital).value.values, rows)
  {
    if rows != [] {
      var n := |rows| - 1;
      assert PositivePrices(rows[..n]);
      ReplaySound(rows[..n], initialCapital);
      var prev := Replay(rows[..n], initialCapital).value;
      StepSound(prev.account, rows[n]);
      var out := Step(prev.account, rows[n]).value;
      var a := out.account;
      ReplayNext(rows, initialCapital, n, prev, out);
      assert rows[..n + 1] == rows;
      var vs := prev.values + [PointAt(a, rows[n])];
      StepSound(prev.account, rows[n]);
      forall i | 0 <= i < n
        ensures PointSound(vs[i], rows[i])
      {
        assert rows[..n][i] == rows[i];
      }
    }
  }

  /** What `get_backtest_data(initial_capital)` returns. */
  datatype Backtest = Backtest(initialCapital: real, finalValue: real, totalReturn: real,
                               totalTrades: nat, trades: seq<BacktestTrade>, values: seq<ValuePoint>)

  /** The summary: the last value point, or the starting capital when there
      are no rows; a zero starting capital raises. */
  function Summary(run: Run, initialCapital: real): (r: Result<Backtest>)
    ensures r.Success? <==> initialCapital != 0.0
    ensures r.Success? ==> r.value.totalTrades == |run.trades| && r.value.values == run.values
    ensures r.Success? && run.values == [] ==> r.value.finalValue == initialCapital && r.value.totalReturn == 0.0
    ensures r.Success? && run.values != [] ==> r.value.finalValue == run.values[|run.values| - 1].value
    ensures r.Success? && initialCapital > 0.0 ==> (r.value.totalReturn > 0.0 <==> r.value.finalValue > initialCapital)
  {
    var final := if run.values != [] then run.values[|run.values| - 1].value else initialCapital;
    if initialCapital == 0.0 then Failure("ZeroDivisionError")
    else
      var q := (final - initialCapital) / initialCapital;
      assert q * initialCapital == final - initialCapital;
      Success(Backtest(initialCapital, final, q * 100.0, |run.trades|, run.trades, run.values))
  }

  function BacktestOf(rows: seq<BacktestRow>, initialCapital: real): (r: Result<Backtest>)
    ensures r.Success? ==> |r.value.values| == |rows|
  {
    match Replay(rows, initialCapital)
    case Failure(e) => Failure(e)
    case Success(run) => Summary(run, initialCapital)
  }

  /** With positive prices and positive starting capital the backtest never
      raises, its final value is never negative, so it never loses more than
      100 percent, and without rows it returns 0. */
  lemma BacktestSound(rows: seq<BacktestRow>, initialCapital: real)
    requires PositivePrices(rows) && initialCapital > 0.0
    ensures BacktestOf(rows, initialCapital).Success?
    ensures BacktestOf(rows, initialCapital).value.finalValue >= 0.0
    ensures BacktestOf(rows, initialCapital).value.totalReturn >= -100.0
    ensures rows == [] ==> BacktestOf(rows, initialCapital).value.totalReturn == 0.0
  {
    ReplaySound(rows, initialCapital);
    var run := Replay(rows, initialCapital).value;
    if rows != [] {
      var p := run.values[|rows| - 1];
      assert PointSound(p, rows[|rows| - 1]);
      AmountNonNegative(p.shares, p.price);
    }
    ReturnAtLeast(BacktestOf(rows, initialCapital).value.finalValue, initialCapital);
  }

  lemma AmountNonNegative(shares: int, price: real)
    requires shares >= 0 && price >= 0.0
    ensures Amount(shares, price) >= 0.0
  {
  }

  lemma ReturnAtLeast(final: real, initialCapital: real)
    requires final >= 0.0 && initialCapital > 0.0
    ensures (final - initialCapital) / initialCapital * 100.0 >= -100.0
  {
    var q := (final - initialCapital) / initialCapital;
    assert q * initialCapital == final - initialCapital;
  }

  /** The body of the trading loop for one row. */
  method TradeRow(capital: real, shares: int, row: BacktestRow) returns (r: Result<Outcome>)
    ensures r == Step(Account(capital, shares), row)
  {
    if row.signal == BuySignal && capital > row.price {
      if row.price == 0.0 {
        return Failure("ZeroDivisionError");
      }
      var sharesToBuy := Trunc(capital * 0.95 / row.price);
      assert SharesToBuy(capital, row.price) == Success(sharesToBuy);
      if sharesToBuy > 0 {
        var cost := Amount(sharesToBuy, row.price);
        return Success(Outcome(Account(capital - cost, shares + sharesToBuy),
                               Some(Bought(row.date, row.price, sharesToBuy, cost))));
      }
    } else if row.signal == SellSignal && shares > 0 {
      var proceeds := Amount(shares, row.price);
      return Success(Outcome(Account(capital + proceeds, 0), Some(SoldAll(row.date, row.price, shares, proceeds))));
    }
    return Success(Outcome(Account(capital, shares), None));
  }

  /** The trading loop of `get_backtest_data`. */
  method RunBacktest(rows: seq<BacktestRow>, initialCapital: real) returns (r: Result<Backtest>)
    ensures r == BacktestOf(rows, initialCapital)
  {
    var capital := initialCapital;
    var shares := 0;
    var trades: seq<BacktestTrade> := [];
    var values: seq<ValuePoint> := [];
    var i := 0;
    while i < |rows|
      invariant 0 <= i <= |rows|
      invariant Replay(rows[..i], initialCapital) == Success(Run(Account(capital, shares), trades, values))
    {
      var row := rows[i];
      var step := TradeRow(capital, shares, row);
      if step.Failure? {
        ReplayFailsAt(rows, initialCapital, i, Run(Account(capital, shares), trades, values));
        return Failure(step.error);
      }
      ReplayNext(rows, initialCapital, i, Run(Account(capital, shares), trades, values), step.value);
      capital, shares := step.value.account.capital, step.value.account.shares;
      if step.value.trade.Some? {
        trades := trades + [step.value.trade.value];
      }
      values := values + [ValuePoint(row.date, capital + Amount(shares, row.price), capital, shares, row.price)];
      i := i + 1;
    }
    assert rows[..i] == rows;
    r := Summary(Run(Account(capital, shares), trades, values), initialCapital);
  }

  /** A row whose step raises makes the whole backtest raise that error. */
  lemma ReplayFailsAt(rows: seq<BacktestRow>, initialCapital: real, i: nat, run: Run)
    requires i < |rows| && Replay(rows[..i], initialCapital) == Success(run)
    requires Step(run.account, rows[i]).Failure?
    ensures Replay(rows, initialCapital) == Failure(Step(run.account, rows[i]).error)
  {
    assert rows[..i + 1][..i] == rows[..i];
    ReplayFailureSticks(rows, initialCapital, i + 1, |rows|, Step(run.account, rows[i]).error);
    assert rows[..|rows|] == rows;
  }

  /** Once a prefix raises, every longer prefix raises the same error. */
  lemma {:induction false} ReplayFailureSticks(rows: seq<BacktestRow>, initialCapital: real, i: nat, j: nat, e: string)
    requires i <= j <= |rows|
    requires Replay(rows[..i], initialCapital) == Failure(e)
    ensures Replay(rows[..j], initialCapital) == Failure(e)
    decreases j - i
  {
    if i < j {
      ReplayFailureSticks(rows, initialCapital, i, j - 1, e);
      assert rows[..j][..j - 1] == rows[..j - 1];
    }
  }
}

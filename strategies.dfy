/** Entry/exit rules for the backtester (modeling/simulation/strategies.py).
    A row is the bar's fields by column; reading a field the row lacks raises
    `KeyError`, and Python's `and` reads the RSI only once the price test
    has passed. */
module Strategies {
  import opened Numeric
  import opened Frames

  /** One bar of the frame, as `df.iterrows()` hands it to a strategy. */
  type Row = map<Col, Num>

  /** The strategy parameters; an absent entry takes the default. */
  datatype Params = Params(emaLength: Option<int>, rsiThresh: Option<real>)

  function EmaLength(p: Params): int
  {
    if p.emaLength.Some? then p.emaLength.value else 20
  }

  function RsiThresh(p: Params): real
  {
    if p.rsiThresh.Some? then p.rsiThresh.value else 30.0
  }

  /** The overbought level of the exit rule; it is not a parameter. */
  const Overbought: real := 70.0

  /** `ema_bounce_strategy(row, params)`: buy above the EMA when the RSI is
      under the threshold, sell below the EMA when it is over 70, else hold. */
  function EmaBounce(row: Row, p: Params): (r: Result<string>)
    ensures r.Success? ==> r.value == "buy" || r.value == "sell" || r.value == "hold"
    ensures r.Failure? <==>
              Close !in row || Ema(EmaLength(p)) !in row
              || (Rsi !in row && (Gt(row[Close], row[Ema(EmaLength(p))]) || Lt(row[Close], row[Ema(EmaLength(p))])))
    ensures r == Success("buy") <==>
              Close in row && Ema(EmaLength(p)) in row && Rsi in row
              && Gt(row[Close], row[Ema(EmaLength(p))]) && Lt(row[Rsi], Some(RsiThresh(p)))
    ensures r == Success("sell") <==>
              Close in row && Ema(EmaLength(p)) in row && Rsi in row
              && Lt(row[Close], row[Ema(EmaLength(p))]) && Gt(row[Rsi], Some(Overbought))
  {
    var e := Ema(EmaLength(p));
    if Close !in row || e !in row then Failure("KeyError")
    else if Gt(row[Close], row[e]) then
      if Rsi !in row then Failure("KeyError")
      else if Lt(row[Rsi], Some(RsiThresh(p))) then Success("buy")
      else Success("hold")
    else if Lt(row[Close], row[e]) then
      if Rsi !in row then Failure("KeyError")
      else if Gt(row[Rsi], Some(Overbought)) then Success("sell")
      else Success("hold")
    else Success("hold")
  }

  /** A close equal to the EMA, or a missing close or EMA value, holds without
      reading the RSI. */
  lemma EmaBounceFlat(row: Row, p: Params)
    requires Close in row && Ema(EmaLength(p)) in row
    requires row[Close] == row[Ema(EmaLength(p))] || row[Close].None? || row[Ema(EmaLength(p))].None?
    ensures EmaBounce(row, p) == Success("hold")
  {
  }

  /** An RSI between the threshold and 70 always holds. */
  lemma EmaBounceNeutralRsi(row: Row, p: Params, rsi: real)
    requires Close in row && Ema(EmaLength(p)) in row
    requires RsiThresh(p) <= rsi <= Overbought
    ensures EmaBounce(row[Rsi := Some(rsi)], p) == Success("hold")
  {
    var r := row[Rsi := Some(rsi)];
    assert r[Close] == row[Close] && r[Ema(EmaLength(p))] == row[Ema(EmaLength(p))];
  }

  /** Without parameters the rule reads EMA_20 and buys under an RSI of 30. */
  lemma EmaBounceDefaults(row: Row)
    requires Close in row && Ema(20) in row && Rsi in row
    ensures EmaBounce(row, Params(None, None)) == Success("buy")
            <==> Gt(row[Close], row[Ema(20)]) && Lt(row[Rsi], Some(30.0))
  {
  }
}

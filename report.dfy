/** Performance report of a backtest (modeling/simulation/report.py): trade
    counts and win rate, total return, and the maximum drawdown from the
    running peak of the equity curve. A division by zero raises
    `ZeroDivisionError`, modelled as a failure. Prices, profits and equity
    points may be NaN (`None`): every comparison with NaN is false and NaN
    arithmetic gives NaN without raising. */
module Report {
  import opened Numeric
  import opened Sorting

  /** A trade-log entry: the buy records its price, the sell its price and
      the profit against the preceding buy. */
  datatype Trade = Buy(date: string, price: Num) | Sell(date: string, price: Num, pnl: Num)

  /** The report; the total return is NaN when the last equity point is. */
  datatype Performance = Performance(totalReturn: Num, winRate: real, maxDrawdown: real, nTrades: nat)

  predicate IsSell(t: Trade) { t.Sell? }
  predicate IsWin(t: Trade) { t.Sell? && Gt(t.pnl, Some(0.0)) }
  predicate IsLoss(t: Trade) { t.Sell? && Le(t.pnl, Some(0.0)) }
  /** A sell whose profit is NaN: `pnl > 0` and `pnl <= 0` are both false. */
  predicate IsUnpriced(t: Trade) { t.Sell? && t.pnl.None? }

  /** Every sell is exactly one of a win, a loss and a sell with a NaN
      profit, which neither list counts. */
  lemma {:induction false} WinsPlusLosses(trades: seq<Trade>)
    ensures |Filter(trades, IsWin)| + |Filter(trades, IsLoss)| + |Filter(trades, IsUnpriced)|
            == |Filter(trades, IsSell)|
  {
    if trades != [] {
      var n := |trades| - 1;
      assert trades == trades[..n] + [trades[n]];
      WinsPlusLosses(trades[..n]);
      FilterAppend(trades[..n], trades[n], IsWin);
      FilterAppend(trades[..n], trades[n], IsLoss);
      FilterAppend(trades[..n], trades[n], IsUnpriced);
      FilterAppend(trades[..n], trades[n], IsSell);
    }
  }

  // ---------------------------------------------------------------- drawdown

  /** The running peak after the curve `eq`, starting from `p0`: `equity >
      peak` is false for a NaN point, which never becomes the peak. */
  function Peak(eq: seq<Num>, p0: real): (r: real)
    ensures r >= p0 && forall i :: 0 <= i < |eq| && eq[i].Some? ==> r >= eq[i].value
  {
    if eq == [] then p0
    else
      var p := Peak(eq[..|eq| - 1], p0);
      if Gt(eq[|eq| - 1], Some(p)) then eq[|eq| - 1].value else p
  }

  /** The peak never decreases along the curve. */
  lemma {:induction false} PeakMonotone(eq: seq<Num>, p0: real, i: nat, j: nat)
    requires i <= j <= |eq|
    ensures Peak(eq[..i], p0) <= Peak(eq[..j], p0)
    decreases j - i
  {
    if i < j {
      PeakMonotone(eq, p0, i, j - 1);
      assert eq[..j][..j - 1] == eq[..j - 1];
    }
  }

  /** The maximum of the drawdowns `(peak - e) / peak` along the curve, from 0.
      A zero peak raises. A NaN point gives a NaN drawdown, which `dd >
      max_drawdown` never takes; being a numpy value it does not raise. */
  function Drawdown(eq: seq<Num>, p0: real): (r: Result<real>)
    ensures r.Success? ==> r.value >= 0.0
  {
    if eq == [] then Success(0.0)
    else
      match Drawdown(eq[..|eq| - 1], p0)
      case Failure(e) => Failure(e)
      case Success(m) =>
        var peak := Peak(eq, p0);
        var e := eq[|eq| - 1];
        if e.None? then Success(m)
        else if peak == 0.0 then Failure("ZeroDivisionError")
        else
          var dd := (peak - e.value) / peak;
          Success(if dd > m then dd else m)
  }

  /** With a positive start and no negative point nothing raises and the
      drawdown is at most 1. */
  lemma {:induction false} DrawdownAtMostOne(eq: seq<Num>, p0: real)
    requires p0 > 0.0 && forall i :: 0 <= i < |eq| && eq[i].Some? ==> eq[i].value >= 0.0
    ensures Drawdown(eq, p0).Success? && Drawdown(eq, p0).value <= 1.0
  {
    if eq != [] {
      var n := |eq| - 1;
      DrawdownAtMostOne(eq[..n], p0);
      var peak := Peak(eq, p0);
      if eq[n].Some? {
        FractionBounds(peak - eq[n].value, peak);
      }
    }
  }

  /** A curve that never drops below its running peak has no drawdown; NaN
      points do not count as drops. */
  lemma DrawdownNoDrop(eq: seq<Num>, p0: real)
    requires p0 > 0.0
    requires forall i :: 0 <= i < |eq| && eq[i].Some? ==> eq[i].value >= Peak(eq[..i], p0)
    ensures Drawdown(eq, p0) == Success(0.0)
  {
    NoDropPrefix(eq, p0, |eq|);
    assert eq[..|eq|] == eq;
  }

  lemma {:induction false} NoDropPrefix(eq: seq<Num>, p0: real, j: nat)
    requires p0 > 0.0 && j <= |eq|
    requires forall i :: 0 <= i < |eq| && eq[i].Some? ==> eq[i].value >= Peak(eq[..i], p0)
    ensures Drawdown(eq[..j], p0) == Success(0.0)
  {
    if j > 0 {
      NoDropPrefix(eq, p0, j - 1);
      var pre := eq[..j];
      assert pre[..j - 1] == eq[..j - 1];
      assert pre[j - 1] == eq[j - 1];
      NoDropStep(pre, p0);
    }
  }

  /** One step of the above: a last value at the running peak, or a NaN,
      adds no drawdown. */
  lemma NoDropStep(eq: seq<Num>, p0: real)
    requires p0 > 0.0 && eq != []
    requires Drawdown(eq[..|eq| - 1], p0) == Success(0.0)
    requires eq[|eq| - 1].Some? ==> eq[|eq| - 1].value >= Peak(eq[..|eq| - 1], p0)
    ensures Drawdown(eq, p0) == Success(0.0)
  {
    var peak := Peak(eq, p0);
    if eq[|eq| - 1].Some? {
      assert peak == eq[|eq| - 1].value;
      assert (peak - eq[|eq| - 1].value) / peak == 0.0;
    }
  }

  /** Once the loop has raised, the whole curve raises. */
  lemma {:induction false} DrawdownFailureSticks(eq: seq<Num>, p0: real, i: nat, j: nat)
    requires i <= j <= |eq|
    requires Drawdown(eq[..i], p0) == Failure("ZeroDivisionError")
    ensures Drawdown(eq[..j], p0) == Failure("ZeroDivisionError")
    decreases j - i
  {
    if i < j {
      DrawdownFailureSticks(eq, p0, i, j - 1);
      assert eq[..j][..j - 1] == eq[..j - 1];
    }
  }

  /** The `max_drawdown` loop of `generate_report`. */
  method MaxDrawdown(eq: seq<Num>, initialCash: real) returns (r: Result<real>)
    ensures r == Drawdown(eq, initialCash)
  {
    var maxDd := 0.0;
    var peak := initialCash;
    var i := 0;
    while i < |eq|
      invariant 0 <= i <= |eq|
      invariant peak == Peak(eq[..i], initialCash)
      invariant Drawdown(eq[..i], initialCash) == Success(maxDd)
    {
      assert eq[..i + 1][..i] == eq[..i];
      var e := eq[i];
      if e.Some? {
        if e.value > peak {
          peak := e.value;
        }
        if peak == 0.0 {
          DrawdownFailureSticks(eq, initialCash, i + 1, |eq|);
          assert eq[..|eq|] == eq;
          return Failure("ZeroDivisionError");
        }
        var dd := (peak - e.value) / peak;
        if dd > maxDd {
          maxDd := dd;
        }
      }
      i := i + 1;
    }
    assert eq[..i] == eq;
    return Success(maxDd);
  }

  // ------------------------------------------------------------------ report

  /** `(equity_curve[-1] - initial_cash) / initial_cash`, or 0 for an empty
      curve; NaN when the last point is NaN. */
  function TotalReturn(eq: seq<Num>, initialCash: real): (r: Result<Num>)
    ensures eq == [] ==> r == Success(Some(0.0))
    ensures eq != [] ==> (r.Failure? <==> eq[|eq| - 1].Some? && initialCash == 0.0)
    ensures eq != [] && r.Success? ==> (r.value.None? <==> eq[|eq| - 1].None?)
    ensures eq != [] && eq[|eq| - 1].Some? && initialCash > 0.0 ==>
              (r.value.value > 0.0 <==> eq[|eq| - 1].value > initialCash)
  {
    if eq == [] then Success(Some(0.0))
    else
      var last := eq[|eq| - 1];
      if last.None? then Success(None)
      else if initialCash == 0.0 then Failure("ZeroDivisionError")
      else Success(Some((last.value - initialCash) / initialCash))
  }

  function WinRate(trades: seq<Trade>): (r: real)
    ensures 0.0 <= r <= 1.0
    ensures |Filter(trades, IsSell)| == 0 ==> r == 0.0
  {
    var n := |Filter(trades, IsSell)|;
    WinsPlusLosses(trades);
    if n > 0 then
      FractionBounds(|Filter(trades, IsWin)| as real, n as real);
      |Filter(trades, IsWin)| as real / n as real
    else 0.0
  }

  /** What `generate_report(trades, equity_curve, initial_cash)` returns. */
  function ReportOf(trades: seq<Trade>, eq: seq<Num>, initialCash: real): (r: Result<Performance>)
    ensures r.Success? <==> TotalReturn(eq, initialCash).Success? && Drawdown(eq, initialCash).Success?
    ensures r.Success? ==> r.value.nTrades == |Filter(trades, IsSell)|
                           && r.value.totalReturn == TotalReturn(eq, initialCash).value
                           && r.value.maxDrawdown == Drawdown(eq, initialCash).value
                           && r.value.winRate == WinRate(trades)
  {
    match TotalReturn(eq, initialCash)
    case Failure(e) => Failure(e)
    case Success(tr) =>
      match Drawdown(eq, initialCash)
      case Failure(e) => Failure(e)
      case Success(dd) => Success(Performance(tr, WinRate(trades), dd, |Filter(trades, IsSell)|))
  }

  /** A positive starting cash and no negative point never raise; then
      the win rate and the drawdown both lie in [0, 1]. */
  lemma ReportTotal(trades: seq<Trade>, eq: seq<Num>, initialCash: real)
    requires initialCash > 0.0 && forall i :: 0 <= i < |eq| && eq[i].Some? ==> eq[i].value >= 0.0
    ensures ReportOf(trades, eq, initialCash).Success?
    ensures 0.0 <= ReportOf(trades, eq, initialCash).value.maxDrawdown <= 1.0
    ensures 0.0 <= ReportOf(trades, eq, initialCash).value.winRate <= 1.0
  {
    DrawdownAtMostOne(eq, initialCash);
  }

  /** `generate_report(trades, equity_curve, initial_cash)` */
  method GenerateReport(trades: seq<Trade>, eq: seq<Num>, initialCash: real) returns (r: Result<Performance>)
    ensures r == ReportOf(trades, eq, initialCash)
  {
    var totalReturn := TotalReturn(eq, initialCash);
    if totalReturn.Failure? {
      return Failure(totalReturn.error);
    }
    var winRate := WinRate(trades);
    var dd := MaxDrawdown(eq, initialCash);
    if dd.Failure? {
      return Failure(dd.error);
    }
    return Success(Performance(totalReturn.value, winRate, dd.value, |Filter(trades, IsSell)|));
  }
}

/** The backtesting engine (modeling/simulation/simulator.py): a flat/long
    state machine driven by a strategy's signal on each bar, which records a
    trade log and one equity point per bar in the simulator's fields. A run
    appends to those fields; it does not reset them. A close may be NaN
    (`None`), which pandas arithmetic carries into the entry price, the
    profit, the cash and the equity; a row without a Close column raises
    `KeyError` when the loop reads the close. */
module Simulator {
  import opened Numeric
  import opened Frames
  import opened Strategies
  import opened Report
  import opened Sorting

  /** A bar: its index label and its fields. */
  datatype Bar = Bar(date: string, row: Row)

  /** `row['Close']`. */
  function CloseOf(b: Bar): Result<Num>
  {
    if Close in b.row then Success(b.row[Close]) else Failure("KeyError")
  }

  /** `position`, `entry_price` and `cash` of the run loop. */
  datatype Book = Book(long: bool, entry: Num, cash: Num)

  /** The loop's book with what it has appended so far. */
  datatype Tape = Tape(book: Book, trades: seq<Trade>, equity: seq<Num>)

  /** Before the first bar: flat, `entry_price = 0` and the initial cash. */
  function Start(cash0: real): Tape
  {
    Tape(Book(false, Some(0.0), Some(cash0)), [], [])
  }

  /** The `if`/`elif` of the loop body: a buy acts only when flat, a sell
      only when long, and each reads the close. */
  function Act(t: Tape, b: Bar, signal: string): Result<Tape>
  {
    if !t.book.long && signal == "buy" then
      match CloseOf(b)
      case Failure(e) => Failure(e)
      case Success(p) => Success(Tape(Book(true, p, t.book.cash), t.trades + [Buy(b.date, p)], t.equity))
    else if t.book.long && signal == "sell" then
      match CloseOf(b)
      case Failure(e) => Failure(e)
      case Success(p) =>
        var pnl := Minus(p, t.book.entry);
        Success(Tape(Book(false, t.book.entry, Plus(t.book.cash, pnl)), t.trades + [Sell(b.date, p, pnl)], t.equity))
    else Success(t)
  }

  /** `cash + (row['Close'] - entry_price if position == 1 else 0)`: the
      close is read only when long. */
  function Mark(book: Book, b: Bar): Result<Num>
  {
    if !book.long then Success(Plus(book.cash, Some(0.0)))
    else
      match CloseOf(b)
      case Failure(e) => Failure(e)
      case Success(p) => Success(Plus(book.cash, Minus(p, book.entry)))
  }

  /** One bar of the loop: a buy acts only when flat, a sell only when long,
      anything else is ignored; then one equity point is recorded. Reading
      the close of a row without one raises, which happens exactly on a buy
      while flat and on any bar while long. */
  function Step(t: Tape, b: Bar, signal: string): (r: Result<Tape>)
    ensures r.Failure? <==> Close !in b.row && (t.book.long || signal == "buy")
    ensures r.Failure? ==> r.error == "KeyError"
    ensures r.Success? && r.value.book.long ==> Close in b.row
    ensures r.Success? ==>
              r.value.equity == t.equity + [Plus(r.value.book.cash,
                                                 if r.value.book.long then Minus(b.row[Close], r.value.book.entry)
                                                 else Some(0.0))]
    ensures r.Success? && !t.book.long && signal == "buy" ==>
              r.value.book == Book(true, b.row[Close], t.book.cash)
              && r.value.trades == t.trades + [Buy(b.date, b.row[Close])]
    ensures r.Success? && t.book.long && signal == "sell" ==>
              var pnl := Minus(b.row[Close], t.book.entry);
              r.value.book == Book(false, t.book.entry, Plus(t.book.cash, pnl))
              && r.value.trades == t.trades + [Sell(b.date, b.row[Close], pnl)]
    ensures r.Success? && !(!t.book.long && signal == "buy") && !(t.book.long && signal == "sell") ==>
              r.value.book == t.book && r.value.trades == t.trades
  {
    match Act(t, b, signal)
    case Failure(e) => Failure(e)
    case Success(m) =>
      match Mark(m.book, b)
      case Failure(e) => Failure(e)
      case Success(point) => Success(m.(equity := m.equity + [point]))
  }

  /** The fields after some bars, and the exception that stopped the loop. */
  datatype Outcome = Outcome(tape: Tape, error: Option<string>)

  /** One more bar after an outcome: nothing once an exception was raised. */
  function Next(o: Outcome, b: Bar, signal: string): Outcome
  {
    if o.error.Some? then o
    else
      match Step(o.tape, b, signal)
      case Failure(e) => Outcome(o.tape, Some(e))
      case Success(t) => Outcome(t, None)
  }

  /** The loop over `bars` with the given signals, from a flat book: one
      equity point per bar, up to the bar whose close cannot be read. */
  function Replay(bars: seq<Bar>, signals: seq<string>, cash0: real): (r: Outcome)
    requires |signals| == |bars|
    ensures r.error.None? ==> |r.tape.equity| == |bars|
    ensures r.error.Some? ==>
              |r.tape.equity| < |bars| && r.error == Some("KeyError") && Close !in bars[|r.tape.equity|].row
  {
    if bars == [] then Outcome(Start(cash0), None)
    else
      var n := |bars| - 1;
      Next(Replay(bars[..n], signals[..n], cash0), bars[n], signals[n])
  }

  lemma ReplaySnoc(bars: seq<Bar>, signals: seq<string>, cash0: real, signal: string)
    requires |signals| < |bars|
    ensures var i := |signals|;
            Replay(bars[..i + 1], signals + [signal], cash0)
            == Next(Replay(bars[..i], signals, cash0), bars[i], signal)
  {
    var i := |signals|;
    assert bars[..i + 1][..i] == bars[..i];
    assert (signals + [signal])[..i] == signals;
  }

  /** A step appends to the trades and the curve whatever came before them. */
  lemma StepPrefix(trades: seq<Trade>, eq: seq<Num>, t: Tape, b: Bar, signal: string)
    ensures var u := Tape(t.book, trades + t.trades, eq + t.equity);
            match Step(t, b, signal)
            case Failure(e) => Step(u, b, signal) == Failure(e)
            case Success(r) => Step(u, b, signal) == Success(Tape(r.book, trades + r.trades, eq + r.equity))
  {
    var u := Tape(t.book, trades + t.trades, eq + t.equity);
    match Step(t, b, signal)
    case Failure(e) =>
    case Success(r) =>
      var r2 := Step(u, b, signal).value;
      assert r2.book == r.book;
      if r.trades != t.trades {
        SeqAssoc(trades, t.trades, [r.trades[|r.trades| - 1]]);
      }
      SeqAssoc(eq, t.equity, [r.equity[|r.equity| - 1]]);
  }

  /** Once the loop has raised, later bars change nothing. */
  lemma {:induction false} ReplayFailureSticks(bars: seq<Bar>, signals: seq<string>, cash0: real, i: nat)
    requires |signals| == |bars| && i <= |bars|
    requires Replay(bars[..i], signals[..i], cash0).error.Some?
    ensures Replay(bars, signals, cash0) == Replay(bars[..i], signals[..i], cash0)
  {
    if i < |bars| {
      var n := |bars| - 1;
      assert bars[..n][..i] == bars[..i] && signals[..n][..i] == signals[..i];
      ReplayFailureSticks(bars[..n], signals[..n], cash0, i);
    } else {
      assert bars[..i] == bars && signals[..i] == signals;
    }
  }

  /** Realised profit: the sum of the sells' pnl, NaN once one of them is. */
  function RealisedPnl(trades: seq<Trade>): Num
  {
    if trades == [] then Some(0.0)
    else
      var t := trades[|trades| - 1];
      Plus(RealisedPnl(trades[..|trades| - 1]), if t.Sell? then t.pnl else Some(0.0))
  }

  /** The realised profit is NaN exactly when some sell's profit is. */
  lemma {:induction false} RealisedNaN(trades: seq<Trade>)
    ensures RealisedPnl(trades).None? <==> exists k :: 0 <= k < |trades| && IsUnpriced(trades[k])
  {
    if trades != [] {
      var n := |trades| - 1;
      RealisedNaN(trades[..n]);
      if RealisedPnl(trades[..n]).None? {
        var k :| 0 <= k < n && IsUnpriced(trades[..n][k]);
        assert IsUnpriced(trades[k]);
      }
      if exists k :: 0 <= k < |trades| && IsUnpriced(trades[k]) {
        var k :| 0 <= k < |trades| && IsUnpriced(trades[k]);
        if k < n {
          assert IsUnpriced(trades[..n][k]);
        }
      }
    }
  }

  /** The trade log alternates buy, sell, buy, ... from a buy; the book is long
      exactly after a buy, at the price of that buy; every sell's pnl is its
      price less the price of the buy before it; and cash is the starting
      cash plus the realised pnl. */
  predicate Consistent(t: Tape, cash0: real)
  {
    && (t.book.long <==> |t.trades| % 2 == 1)
    && (forall k :: 0 <= k < |t.trades| ==> (t.trades[k].Buy? <==> k % 2 == 0))
    && (forall k :: 0 < k < |t.trades| && t.trades[k].Sell? ==>
          t.trades[k].pnl == Minus(t.trades[k].price, t.trades[k - 1].price))
    && (t.book.long ==> t.book.entry == t.trades[|t.trades| - 1].price)
    && t.book.cash == Plus(Some(cash0), RealisedPnl(t.trades))
  }

  lemma RealisedPnlSnoc(trades: seq<Trade>, x: Trade)
    ensures RealisedPnl(trades + [x]) == Plus(RealisedPnl(trades), if x.Sell? then x.pnl else Some(0.0))
  {
    assert (trades + [x])[..|trades|] == trades;
  }

  /** Appending a trade of the right kind keeps the log alternating. */
  lemma AppendConsistent(t: Tape, x: Trade, book: Book, cash0: real)
    requires Consistent(t, cash0)
    requires x.Buy? <==> |t.trades| % 2 == 0
    requires x.Sell? ==> |t.trades| > 0 && x.pnl == Minus(x.price, t.trades[|t.trades| - 1].price)
    requires book.long <==> x.Buy?
    requires book.long ==> book.entry == x.price
    requires book.cash == (if x.Sell? then Plus(t.book.cash, x.pnl) else t.book.cash)
    ensures Consistent(Tape(book, t.trades + [x], []), cash0)
  {
    RealisedPnlSnoc(t.trades, x);
    var ts := t.trades + [x];
    forall k | 0 <= k < |ts|
      ensures ts[k].Buy? <==> k % 2 == 0
    {
      if k < |t.trades| {
        assert ts[k] == t.trades[k];
      }
    }
    forall k | 0 < k < |ts| && ts[k].Sell?
      ensures ts[k].pnl == Minus(ts[k].price, ts[k - 1].price)
    {
      if k < |t.trades| {
        assert ts[k] == t.trades[k] && ts[k - 1] == t.trades[k - 1];
      }
    }
  }

  /** Consistency does not look at the equity curve. */
  lemma ConsistentOfLedger(t: Tape, u: Tape, cash0: real)
    requires Consistent(t, cash0) && u.book == t.book && u.trades == t.trades
    ensures Consistent(u, cash0)
  {
  }

  lemma StepConsistent(t: Tape, b: Bar, signal: string, cash0: real)
    requires Consistent(t, cash0) && Step(t, b, signal).Success?
    ensures Consistent(Step(t, b, signal).value, cash0)
  {
    var r := Step(t, b, signal).value;
    if !t.book.long && signal == "buy" {
      var x := Buy(b.date, b.row[Close]);
      assert r.book == Book(true, b.row[Close], t.book.cash) && r.trades == t.trades + [x];
      AppendConsistent(t, x, r.book, cash0);
      ConsistentOfLedger(Tape(r.book, t.trades + [x], []), r, cash0);
    } else if t.book.long && signal == "sell" {
      var x := Sell(b.date, b.row[Close], Minus(b.row[Close], t.book.entry));
      assert r.book == Book(false, t.book.entry, Plus(t.book.cash, x.pnl)) && r.trades == t.trades + [x];
      AppendConsistent(t, x, r.book, cash0);
      ConsistentOfLedger(Tape(r.book, t.trades + [x], []), r, cash0);
    } else {
      assert r.book == t.book && r.trades == t.trades;
      ConsistentOfLedger(t, r, cash0);
    }
  }

  lemma {:induction false} ReplayConsistent(bars: seq<Bar>, signals: seq<string>, cash0: real)
    requires |signals| == |bars|
    ensures Consistent(Replay(bars, signals, cash0).tape, cash0)
  {
    if bars != [] {
      var n := |bars| - 1;
      var o := Replay(bars[..n], signals[..n], cash0);
      ReplayConsistent(bars[..n], signals[..n], cash0);
      if o.error.None? && Step(o.tape, bars[n], signals[n]).Success? {
        StepConsistent(o.tape, bars[n], signals[n], cash0);
      }
    }
  }

  /** Each bar's equity point is the realised cash plus, when long, the open
      position marked at that bar's close. */
  lemma MarkToMarket(bars: seq<Bar>, signals: seq<string>, cash0: real)
    requires |signals| == |bars| && bars != [] && Replay(bars, signals, cash0).error.None?
    ensures var t := Replay(bars, signals, cash0).tape;
            t.book.long ==> |t.trades| > 0 && Close in bars[|bars| - 1].row
    ensures var t := Replay(bars, signals, cash0).tape;
            t.equity[|bars| - 1]
            == Plus(Plus(Some(cash0), RealisedPnl(t.trades)),
                    if t.book.long then Minus(bars[|bars| - 1].row[Close], t.trades[|t.trades| - 1].price)
                    else Some(0.0))
  {
    ReplayConsistent(bars, signals, cash0);
  }

  /** Once a sell has booked a NaN profit the cash stays NaN, and so does
      every later equity point. */
  lemma {:induction false} NaNCashSticks(bars: seq<Bar>, signals: seq<string>, cash0: real, i: nat)
    requires |signals| == |bars| && i <= |bars|
    requires Replay(bars[..i], signals[..i], cash0).tape.book.cash.None?
    ensures var t := Replay(bars, signals, cash0).tape;
            t.book.cash.None? && forall k :: i <= k < |t.equity| ==> t.equity[k].None?
  {
    if i < |bars| {
      var n := |bars| - 1;
      assert bars[..n][..i] == bars[..i] && signals[..n][..i] == signals[..i];
      NaNCashSticks(bars[..n], signals[..n], cash0, i);
      var o := Replay(bars[..n], signals[..n], cash0);
      assert Replay(bars, signals, cash0) == Next(o, bars[n], signals[n]);
      NaNCashNext(o, bars[n], signals[n]);
    } else {
      assert bars[..i] == bars && signals[..i] == signals;
    }
  }

  /** One more bar on a NaN cash keeps the cash NaN, keeps the points so far
      and appends only NaN points. */
  lemma NaNCashNext(o: Outcome, b: Bar, signal: string)
    requires o.tape.book.cash.None?
    ensures var r := Next(o, b, signal).tape;
            && r.book.cash.None?
            && |o.tape.equity| <= |r.equity| && r.equity[..|o.tape.equity|] == o.tape.equity
            && forall k :: |o.tape.equity| <= k < |r.equity| ==> r.equity[k].None?
  {
  }

  /** Points already recorded never change: the curve of a prefix of the bars
      is a prefix of the curve. */
  lemma {:induction false} ReplayPrefix(bars: seq<Bar>, signals: seq<string>, cash0: real, i: nat)
    requires |signals| == |bars| && i <= |bars|
    ensures var a := Replay(bars[..i], signals[..i], cash0).tape.equity;
            var b := Replay(bars, signals, cash0).tape.equity;
            |a| <= |b| && b[..|a|] == a
  {
    if i < |bars| {
      var n := |bars| - 1;
      assert bars[..n][..i] == bars[..i] && signals[..n][..i] == signals[..i];
      ReplayPrefix(bars[..n], signals[..n], cash0, i);
    } else {
      assert bars[..i] == bars && signals[..i] == signals;
    }
  }

  /** The signals of the bars, in order, up to the first bar on which the
      strategy raises. */
  function Signals(bars: seq<Bar>, strategy: (Row, Params) -> Result<string>, p: Params): (r: seq<string>)
    ensures |r| <= |bars|
    ensures forall i :: 0 <= i < |r| ==> strategy(bars[i].row, p) == Success(r[i])
    ensures |r| < |bars| ==> strategy(bars[|r|].row, p).Failure?
  {
    if bars == [] then []
    else
      match strategy(bars[0].row, p)
      case Failure(_) => []
      case Success(s) => [s] + Signals(bars[1..], strategy, p)
  }

  /** Signals up to a failure or the end are the ones `Signals` names. */
  lemma SignalsUnique(bars: seq<Bar>, strategy: (Row, Params) -> Result<string>, p: Params, s: seq<string>)
    requires |s| <= |bars|
    requires forall i :: 0 <= i < |s| ==> strategy(bars[i].row, p) == Success(s[i])
    requires |s| < |bars| ==> strategy(bars[|s|].row, p).Failure?
    ensures s == Signals(bars, strategy, p)
  {
    var r := Signals(bars, strategy, p);
    assert |r| == |s|;
  }

  /** Signals the strategy gave on the first bars begin `Signals`. */
  lemma SignalsPrefix(bars: seq<Bar>, strategy: (Row, Params) -> Result<string>, p: Params, s: seq<string>)
    requires |s| <= |bars|
    requires forall i :: 0 <= i < |s| ==> strategy(bars[i].row, p) == Success(s[i])
    ensures |s| <= |Signals(bars, strategy, p)| && Signals(bars, strategy, p)[..|s|] == s
  {
  }

  /** What the bar loop of `run()` leaves behind: the replay over the bars
      the strategy answered, stopped by the first exception, whether a
      step raised or the strategy raised on the next bar. */
  function Simulate(bars: seq<Bar>, strategy: (Row, Params) -> Result<string>, p: Params, cash0: real): (r: Outcome)
    ensures r.error.None? <==> |r.tape.equity| == |bars|
    ensures |r.tape.equity| <= |bars|
    ensures r.error.Some? ==>
              var k := |r.tape.equity|;
              strategy(bars[k].row, p) == Failure(r.error.value)
              || (r.error == Some("KeyError") && Close !in bars[k].row)
    ensures Consistent(r.tape, cash0)
  {
    var sigs := Signals(bars, strategy, p);
    var o := Replay(bars[..|sigs|], sigs, cash0);
    ReplayConsistent(bars[..|sigs|], sigs, cash0);
    if o.error.Some? || |sigs| == |bars| then o
    else Outcome(o.tape, Some(strategy(bars[|sigs|].row, p).error))
  }

  /** What `run()` returns. */
  datatype RunResult = RunResult(performance: Performance, tradeLog: seq<Trade>, equityCurve: seq<Num>)

  class StrategySimulator {
    const bars: seq<Bar>
    const strategy: (Row, Params) -> Result<string>
    const params: Params
    const initialCash: real
    var trades: seq<Trade>
    var equityCurve: seq<Num>

    /** `StrategySimulator(df, strategy, params, initial_cash)` */
    constructor (bars: seq<Bar>, strategy: (Row, Params) -> Result<string>, params: Params, initialCash: real)
      ensures this.bars == bars && this.strategy == strategy && this.params == params
      ensures this.initialCash == initialCash
      ensures trades == [] && equityCurve == []
    {
      this.bars := bars;
      this.strategy := strategy;
      this.params := params;
      this.initialCash := initialCash;
      trades := [];
      equityCurve := [];
    }

    /** One bar of the loop: acts on the signal and records the equity point,
        or raises with nothing appended. */
    method Advance(book: Book, bar: Bar, signal: string) returns (next: Book, error: Option<string>)
      modifies this
      ensures match Step(Tape(book, old(trades), old(equityCurve)), bar, signal)
              case Failure(e) => error == Some(e) && trades == old(trades) && equityCurve == old(equityCurve)
              case Success(t) => error.None? && next == t.book && trades == t.trades && equityCurve == t.equity
    {
      var long, entry, cash := book.long, book.entry, book.cash;
      if !long && signal == "buy" {
        if Close !in bar.row {
          return book, Some("KeyError");
        }
        long := true;
        entry := bar.row[Close];
        trades := trades + [Buy(bar.date, entry)];
      } else if long && signal == "sell" {
        if Close !in bar.row {
          return book, Some("KeyError");
        }
        long := false;
        var exit := bar.row[Close];
        var pnl := Minus(exit, entry);
        cash := Plus(cash, pnl);
        trades := trades + [Sell(bar.date, exit, pnl)];
      }
      var equity := Plus(cash, Some(0.0));
      if long {
        if Close !in bar.row {
          return book, Some("KeyError");
        }
        equity := Plus(cash, Minus(bar.row[Close], entry));
      }
      equityCurve := equityCurve + [equity];
      return Book(long, entry, cash), None;
    }

    /** The bar loop of `run()`: the strategy is asked once per bar, in
        order, and the trades and equity points of the replay are appended
        to the fields, up to the first exception. */
    method RunBars() returns (error: Option<string>)
      modifies this
      ensures var o := Simulate(bars, strategy, params, initialCash);
              trades == old(trades) + o.tape.trades && equityCurve == old(equityCurve) + o.tape.equity
              && error == o.error
    {
      var book := Book(false, Some(0.0), Some(initialCash));
      ghost var sigs: seq<string> := [];
      ghost var tape := Start(initialCash);
      var i := 0;
      while i < |bars|
        invariant 0 <= i <= |bars| && |sigs| == i
        invariant forall j :: 0 <= j < i ==> strategy(bars[j].row, params) == Success(sigs[j])
        invariant Replay(bars[..i], sigs, initialCash) == Outcome(tape, None)
        invariant tape.book == book
        invariant trades == old(trades) + tape.trades && equityCurve == old(equityCurve) + tape.equity
      {
        var answer := strategy(bars[i].row, params);
        if answer.Failure? {
          RaisedAt(bars, strategy, params, initialCash, sigs, tape);
          return Some(answer.error);
        }
        var signal := answer.value;
        StepPrefix(old(trades), old(equityCurve), tape, bars[i], signal);
        var err;
        book, err := Advance(book, bars[i], signal);
        if err.Some? {
          StepRaisedAt(bars, strategy, params, initialCash, sigs, tape, signal);
          return err;
        }
        ReplayStep(bars, sigs, initialCash, tape, signal);
        tape := Step(tape, bars[i], signal).value;
        sigs := sigs + [signal];
        i := i + 1;
      }
      Completed(bars, strategy, params, initialCash, sigs, tape);
      return None;
    }

    /** `run()`: the bar loop, then the report over the whole fields. */
    method Run() returns (r: Result<RunResult>)
      modifies this
      ensures var o := Simulate(bars, strategy, params, initialCash);
              trades == old(trades) + o.tape.trades && equityCurve == old(equityCurve) + o.tape.equity
      ensures r.Success? <==> Simulate(bars, strategy, params, initialCash).error.None?
                              && ReportOf(trades, equityCurve, initialCash).Success?
      ensures r.Failure? ==>
                r.error == (if Simulate(bars, strategy, params, initialCash).error.Some?
                            then Simulate(bars, strategy, params, initialCash).error.value
                            else ReportOf(trades, equityCurve, initialCash).error)
      ensures r.Success? ==>
                r.value == RunResult(ReportOf(trades, equityCurve, initialCash).value, trades, equityCurve)
    {
      var error := RunBars();
      if error.Some? {
        return Failure(error.value);
      }
      var report := GenerateReport(trades, equityCurve, initialCash);
      if report.Failure? {
        return Failure(report.error);
      }
      return Success(RunResult(report.value, trades, equityCurve));
    }
  }

  /** The strategy raising on the bar after the answered ones ends the run
      with the tape so far. */
  lemma RaisedAt(bars: seq<Bar>, strategy: (Row, Params) -> Result<string>, p: Params, cash0: real,
                 sigs: seq<string>, tape: Tape)
    requires |sigs| < |bars|
    requires forall j :: 0 <= j < |sigs| ==> strategy(bars[j].row, p) == Success(sigs[j])
    requires strategy(bars[|sigs|].row, p).Failure?
    requires Replay(bars[..|sigs|], sigs, cash0) == Outcome(tape, None)
    ensures Simulate(bars, strategy, p, cash0) == Outcome(tape, Some(strategy(bars[|sigs|].row, p).error))
  {
    SignalsUnique(bars, strategy, p, sigs);
  }

  /** A step raising on an answered bar ends the run with the tape before it. */
  lemma StepRaisedAt(bars: seq<Bar>, strategy: (Row, Params) -> Result<string>, p: Params, cash0: real,
                     sigs: seq<string>, tape: Tape, signal: string)
    requires |sigs| < |bars|
    requires forall j :: 0 <= j < |sigs| ==> strategy(bars[j].row, p) == Success(sigs[j])
    requires strategy(bars[|sigs|].row, p) == Success(signal)
    requires Replay(bars[..|sigs|], sigs, cash0) == Outcome(tape, None)
    requires Step(tape, bars[|sigs|], signal).Failure?
    ensures Simulate(bars, strategy, p, cash0) == Outcome(tape, Some(Step(tape, bars[|sigs|], signal).error))
  {
    ReplaySnoc(bars, sigs, cash0, signal);
    var s := sigs + [signal];
    assert forall j :: 0 <= j < |s| ==> strategy(bars[j].row, p) == Success(s[j]);
    StepFailsRun(bars, strategy, p, cash0, s);
  }

  /** Every bar answered and stepped: the run ends with the whole tape. */
  lemma Completed(bars: seq<Bar>, strategy: (Row, Params) -> Result<string>, p: Params, cash0: real,
                  sigs: seq<string>, tape: Tape)
    requires |sigs| == |bars|
    requires forall j :: 0 <= j < |sigs| ==> strategy(bars[j].row, p) == Success(sigs[j])
    requires Replay(bars[..|sigs|], sigs, cash0) == Outcome(tape, None)
    ensures Simulate(bars, strategy, p, cash0) == Outcome(tape, None)
  {
    SignalsUnique(bars, strategy, p, sigs);
    assert bars[..|sigs|] == bars;
  }

  /** A step that succeeds extends the replay by its tape. */
  lemma ReplayStep(bars: seq<Bar>, sigs: seq<string>, cash0: real, tape: Tape, signal: string)
    requires |sigs| < |bars|
    requires Replay(bars[..|sigs|], sigs, cash0) == Outcome(tape, None)
    requires Step(tape, bars[|sigs|], signal).Success?
    ensures Replay(bars[..|sigs| + 1], sigs + [signal], cash0) == Outcome(Step(tape, bars[|sigs|], signal).value, None)
  {
    ReplaySnoc(bars, sigs, cash0, signal);
  }

  /** A step that raises on a bar the strategy answered ends the run there. */
  lemma StepFailsRun(bars: seq<Bar>, strategy: (Row, Params) -> Result<string>, p: Params, cash0: real,
                     s: seq<string>)
    requires 0 < |s| <= |bars|
    requires forall i :: 0 <= i < |s| ==> strategy(bars[i].row, p) == Success(s[i])
    requires Replay(bars[..|s|], s, cash0).error.Some?
    ensures Simulate(bars, strategy, p, cash0) == Replay(bars[..|s|], s, cash0)
  {
    var sigs := Signals(bars, strategy, p);
    SignalsPrefix(bars, strategy, p, s);
    var all := bars[..|sigs|];
    assert all[..|s|] == bars[..|s|];
    ReplayFailureSticks(all, sigs, cash0, |s|);
  }
}

/** The cash/positions/transactions ledger (modeling/portfolio.py), the
    per-bar trade rule of `PortfolioSimulator.simulate_strategy` and the
    simple RSI strategy. Positions keep the dictionary's insertion order: a
    sequence of holdings with distinct symbols. Timestamps are parameters;
    a raised exception is an error result. */
module Ledger {
  import opened Numeric
  import opened Sorting

  datatype Holding = Holding(symbol: string, shares: int, avgCost: real, lastPrice: real)

  datatype Action = BuyAction | SellAction

  datatype Transaction = Transaction(timestamp: string, action: Action, symbol: string,
                                     shares: int, price: real, total: real)

  predicate DistinctSymbols(h: seq<Holding>)
  {
    forall i, j :: 0 <= i < j < |h| ==> h[i].symbol != h[j].symbol
  }

  /** The position of `symbol`, if held. */
  function Find(h: seq<Holding>, symbol: string): (r: Option<nat>)
    ensures r.Some? ==> r.value < |h| && h[r.value].symbol == symbol
    ensures r.None? ==> forall i :: 0 <= i < |h| ==> h[i].symbol != symbol
  {
    if h == [] then None
    else if h[|h| - 1].symbol == symbol then Some(|h| - 1)
    else Find(h[..|h| - 1], symbol)
  }

  /** Market value of the holdings: the sum of shares times last price. */
  function StockValue(h: seq<Holding>): real
  {
    if h == [] then 0.0
    else StockValue(h[..|h| - 1]) + Worth(h[|h| - 1])
  }

  /** What one holding is worth at its last price. */
  function Worth(x: Holding): real { x.shares as real * x.lastPrice }

  lemma StockValueAppend(h: seq<Holding>, x: Holding)
    ensures StockValue(h + [x]) == StockValue(h) + Worth(x)
  {
    assert (h + [x])[..|h|] == h;
  }

  /** Replacing one holding changes the value by the difference of the two. */
  lemma {:induction false} StockValueUpdate(h: seq<Holding>, i: nat, x: Holding)
    requires i < |h|
    ensures StockValue(h[i := x]) == StockValue(h) - Worth(h[i]) + Worth(x)
  {
    var n := |h| - 1;
    if i < n {
      StockValueUpdate(h[..n], i, x);
      assert h[i := x][..n] == h[..n][i := x];
    } else {
      assert h[i := x][..n] == h[..n];
    }
  }

  /** Removing one holding takes its worth out of the value. */
  lemma {:induction false} StockValueRemove(h: seq<Holding>, i: nat)
    requires i < |h|
    ensures StockValue(h[..i] + h[i + 1..]) == StockValue(h) - Worth(h[i])
  {
    var n := |h| - 1;
    var r := h[..i] + h[i + 1..];
    if i < n {
      StockValueRemove(h[..n], i);
      RemoveBeforeLast(h, i);
      assert StockValue(r) == StockValue(r[..n - 1]) + Worth(h[n]);
    } else {
      assert r == h[..n];
    }
  }

  /** Removing an element before the last one keeps the last one last. */
  lemma RemoveBeforeLast<T>(h: seq<T>, i: nat)
    requires i < |h| - 1
    ensures var r, n := h[..i] + h[i + 1..], |h| - 1;
            |r| == n && r[..n - 1] == h[..n][..i] + h[..n][i + 1..] && r[n - 1] == h[n]
  {
  }

  /** The share-weighted mean of the old cost and the new price. */
  function MeanCost(cur: Holding, shares: int, price: real): real
    requires cur.shares + shares != 0
  {
    (cur.avgCost * cur.shares as real + shares as real * price) / (cur.shares + shares) as real
  }

  /** The mean cost written with the lot's cost in place of shares times
      price. */
  lemma MeanCostOfCost(cur: Holding, shares: int, price: real, cost: real)
    requires cur.shares + shares != 0 && cost == shares as real * price
    ensures (cur.avgCost * cur.shares as real + cost) / (cur.shares + shares) as real == MeanCost(cur, shares, price)
  {
  }

  /** For two positive lots the mean cost lies between the two prices. */
  lemma MeanCostBetween(cur: Holding, shares: int, price: real)
    ensures cur.shares > 0 && shares > 0 ==>
              Min(cur.avgCost, price) <= MeanCost(cur, shares, price) <= Max(cur.avgCost, price)
  {
    if cur.shares > 0 && shares > 0 {
      var a, b := cur.shares as real, shares as real;
      var m := MeanCost(cur, shares, price);
      assert m * (a + b) == cur.avgCost * a + b * price;
      var lo, hi := Min(cur.avgCost, price), Max(cur.avgCost, price);
      assert lo * (a + b) <= cur.avgCost * a + b * price;
      assert cur.avgCost * a + b * price <= hi * (a + b);
    }
  }

  /** One row of `get_positions_summary()`. */
  datatype PositionSummary = PositionSummary(
    symbol: string, shares: int, avgCost: real, lastPrice: real,
    currentValue: real, costBasis: real, pnl: real, pnlPct: real)

  function Summarize(x: Holding): (r: PositionSummary)
    ensures r.currentValue - r.costBasis == r.pnl
    ensures r.costBasis > 0.0 ==> r.pnlPct == r.pnl / r.costBasis * 100.0
    ensures r.costBasis <= 0.0 ==> r.pnlPct == 0.0
    ensures x.shares > 0 && x.avgCost > 0.0 ==> (r.pnlPct > 0.0 <==> x.lastPrice > x.avgCost)
  {
    var value := x.shares as real * x.lastPrice;
    var basis := x.shares as real * x.avgCost;
    var pnl := value - basis;
    var pct := if basis > 0.0 then pnl / basis * 100.0 else 0.0;
    PnlSign(x.shares as real, x.lastPrice, x.avgCost);
    PositionSummary(x.symbol, x.shares, x.avgCost, x.lastPrice, value, basis, pnl, pct)
  }

  lemma PnlSign(n: real, last: real, avg: real)
    ensures n > 0.0 && avg > 0.0 ==>
              ((n * last - n * avg) / (n * avg) * 100.0 > 0.0 <==> last > avg)
  {
    if n > 0.0 && avg > 0.0 {
      var q := (n * last - n * avg) / (n * avg);
      assert q * (n * avg) == n * (last - avg);
      if last > avg {
        assert n * (last - avg) > 0.0;
      } else {
        assert n * (last - avg) <= 0.0;
      }
    }
  }

  /** With distinct symbols a holding is found at its own index. */
  lemma {:induction false} FindDistinct(h: seq<Holding>, i: nat)
    requires DistinctSymbols(h) && i < |h|
    ensures Find(h, h[i].symbol) == Some(i)
  {
    if i < |h| - 1 {
      FindDistinct(h[..|h| - 1], i);
    }
  }

  // ------------------------------------------------ position updates

  /** A new position of `shares` at `price`, appended after the others: the
      holdings gain exactly its cost in value and keep distinct symbols. */
  function Opened(h: seq<Holding>, symbol: string, shares: int, price: real): (r: seq<Holding>)
    requires Find(h, symbol).None?
    ensures StockValue(r) == StockValue(h) + shares as real * price
    ensures DistinctSymbols(h) ==> DistinctSymbols(r)
    ensures Others(r, symbol) == Others(h, symbol)
    ensures shares > 0 && PositiveHoldings(h) ==> PositiveHoldings(r)
    ensures Find(r, symbol) == Some(|h|) && r[|h|].shares == shares && r[|h|].avgCost == price
  {
    var x := Holding(symbol, shares, price, price);
    StockValueAppend(h, x);
    OthersConcat(h, [x], symbol);
    OthersNone([x], symbol);
    h + [x]
  }

  /** The held position `i` after buying `shares` more at `price`: the
      share-weighted mean cost; nothing else changes. */
  function Added(h: seq<Holding>, i: nat, shares: int, price: real): (r: seq<Holding>)
    requires i < |h| && h[i].shares + shares != 0
    ensures |r| == |h| && r[i].symbol == h[i].symbol && r[i].shares == h[i].shares + shares
    ensures r[i].lastPrice == h[i].lastPrice
    ensures h[i].shares > 0 && shares > 0 ==> Min(h[i].avgCost, price) <= r[i].avgCost <= Max(h[i].avgCost, price)
    ensures forall k :: 0 <= k < |h| && k != i ==> r[k] == h[k]
    ensures DistinctSymbols(h) ==> DistinctSymbols(r)
    ensures Others(r, h[i].symbol) == Others(h, h[i].symbol)
    ensures shares > 0 && PositiveHoldings(h) ==> PositiveHoldings(r)
  {
    var cur := h[i];
    var x := cur.(shares := cur.shares + shares, avgCost := MeanCost(cur, shares, price));
    MeanCostBetween(cur, shares, price);
    OthersReplace(h, i, x, cur.symbol);
    h[i := x]
  }

  /** The held position `i` after selling `shares` of it: dropped when none
      are left, otherwise fewer shares at the same cost. */
  function Sold(h: seq<Holding>, i: nat, shares: int): (r: seq<Holding>)
    requires i < |h| && shares <= h[i].shares
    ensures DistinctSymbols(h) ==> DistinctSymbols(r)
    ensures Others(r, h[i].symbol) == Others(h, h[i].symbol)
    ensures PositiveHoldings(h) ==> PositiveHoldings(r)
    ensures shares == h[i].shares ==> Find(r, h[i].symbol).None? || !DistinctSymbols(h)
  {
    var cur := h[i];
    if cur.shares - shares == 0 then
      SoldOut(h, i, shares);
      h[..i] + h[i + 1..]
    else
      var x := cur.(shares := cur.shares - shares);
      SoldSome(h, i, shares);
      h[i := x]
  }

  /** Selling lowers the stock value by the shares sold at the last price. */
  lemma SoldValue(h: seq<Holding>, i: nat, shares: int)
    requires i < |h| && shares <= h[i].shares
    ensures StockValue(Sold(h, i, shares)) == StockValue(h) - shares as real * h[i].lastPrice
  {
    if h[i].shares - shares == 0 {
      SoldOut(h, i, shares);
    } else {
      SoldSomeValue(h, i, shares);
    }
  }

  /** Selling the whole position drops it. */
  lemma SoldOut(h: seq<Holding>, i: nat, shares: int)
    requires i < |h| && shares == h[i].shares
    ensures var r := h[..i] + h[i + 1..];
            && StockValue(r) == StockValue(h) - shares as real * h[i].lastPrice
            && (DistinctSymbols(h) ==> DistinctSymbols(r))
            && Others(r, h[i].symbol) == Others(h, h[i].symbol)
            && (PositiveHoldings(h) ==> PositiveHoldings(r))
            && (DistinctSymbols(h) ==> Find(r, h[i].symbol).None?)
  {
    StockValueRemove(h, i);
    assert Worth(h[i]) == shares as real * h[i].lastPrice;
    OthersRemove(h, i, h[i].symbol);
    RemoveProperties(h, i);
  }

  /** Selling part of the position keeps it with fewer shares. */
  lemma SoldSome(h: seq<Holding>, i: nat, shares: int)
    requires i < |h| && shares <= h[i].shares && h[i].shares - shares != 0
    ensures var x := h[i].(shares := h[i].shares - shares);
            var r := h[i := x];
            && (DistinctSymbols(h) ==> DistinctSymbols(r))
            && Others(r, h[i].symbol) == Others(h, h[i].symbol)
            && (PositiveHoldings(h) ==> PositiveHoldings(r))
  {
    var cur := h[i];
    var x := cur.(shares := cur.shares - shares);
    OthersReplace(h, i, x, cur.symbol);
    var r := h[i := x];
    if DistinctSymbols(h) {
      forall a, b | 0 <= a < b < |r| ensures r[a].symbol != r[b].symbol {
        assert r[a].symbol == h[a].symbol && r[b].symbol == h[b].symbol;
      }
    }
  }

  /** Selling part of the position lowers its worth by the shares sold. */
  lemma SoldSomeValue(h: seq<Holding>, i: nat, shares: int)
    requires i < |h|
    ensures StockValue(h[i := h[i].(shares := h[i].shares - shares)])
            == StockValue(h) - shares as real * h[i].lastPrice
  {
    var cur := h[i];
    var x := cur.(shares := cur.shares - shares);
    StockValueUpdate(h, i, x);
    Distribute(cur.shares, shares, cur.lastPrice);
  }

  lemma Distribute(a: int, b: int, price: real)
    ensures (a - b) as real * price == a as real * price - b as real * price
  {
  }

  lemma RemoveProperties(h: seq<Holding>, i: nat)
    requires i < |h|
    ensures DistinctSymbols(h) ==> DistinctSymbols(h[..i] + h[i + 1..])
    ensures PositiveHoldings(h) ==> PositiveHoldings(h[..i] + h[i + 1..])
    ensures DistinctSymbols(h) ==> Find(h[..i] + h[i + 1..], h[i].symbol).None?
  {
    var r := h[..i] + h[i + 1..];
    forall k | 0 <= k < |r| ensures r[k] == h[if k < i then k else k + 1] {
    }
  }

  /** The cash, the positions and the log of a portfolio. */
  datatype State = State(cash: real, positions: seq<Holding>, transactions: seq<Transaction>)

  class Portfolio {
    var cash: real
    const initialCash: real
    var positions: seq<Holding>
    var transactions: seq<Transaction>

    ghost predicate Valid()
      reads this
    {
      DistinctSymbols(positions)
    }

    /** The fields trading changes, as a value. */
    function Fields(): State
      reads this
    {
      State(cash, positions, transactions)
    }

    /** `Portfolio(initial_cash)` */
    constructor (initialCash: real)
      ensures Valid()
      ensures cash == initialCash && this.initialCash == initialCash
      ensures positions == [] && transactions == []
    {
      cash := initialCash;
      this.initialCash := initialCash;
      positions := [];
      transactions := [];
    }

    /** `get_portfolio_value()`: cash plus the holdings at their last prices. */
    function Value(): (r: real)
      reads this
      ensures positions == [] ==> r == cash
    {
      cash + StockValue(positions)
    }

    /** `get_total_return()`: percent change of the value over the starting
        cash; a zero starting cash raises. */
    function TotalReturn(): (r: Result<real>)
      reads this
      ensures r.Success? <==> initialCash != 0.0
      ensures r.Success? && initialCash > 0.0 ==> (r.value > 0.0 <==> Value() > initialCash)
      ensures r.Success? && initialCash > 0.0 ==> (r.value == 0.0 <==> Value() == initialCash)
    {
      if initialCash == 0.0 then Failure("ZeroDivisionError")
      else
        var q := (Value() - initialCash) / initialCash;
        assert q * initialCash == Value() - initialCash;
        Success(q * 100.0)
    }

    /** `get_positions_summary()`, in position order. */
    function PositionsSummary(): (r: seq<PositionSummary>)
      reads this
      ensures |r| == |positions|
      ensures forall i :: 0 <= i < |r| ==> r[i].symbol == positions[i].symbol && r[i].shares == positions[i].shares
    {
      seq(|positions|, i requires 0 <= i < |positions| reads this => Summarize(positions[i]))
    }

    /** `buy(symbol, shares, price, timestamp)`. A cost above the cash raises
        with nothing changed. Otherwise the cost leaves the cash; a new
        position opens at `price`, an existing one takes the share-weighted
        mean cost and keeps its last price, and one transaction is recorded.
        When an existing position and the lot add up to zero shares the mean
        divides by zero after the cash has already been taken. */
    method Buy(symbol: string, shares: int, price: real, timestamp: string) returns (error: Option<string>)
      requires Valid()
      modifies this
      ensures Valid()
      ensures var cost := shares as real * price;
              var tx := Transaction(timestamp, BuyAction, symbol, shares, price, cost);
              if cost > old(cash) then
                error == Some("ValueError") && cash == old(cash)
                && positions == old(positions) && transactions == old(transactions)
              else
                cash == old(cash) - cost
                && match Find(old(positions), symbol)
                   case None =>
                     error.None? && positions == Opened(old(positions), symbol, shares, price)
                     && transactions == old(transactions) + [tx]
                   case Some(i) =>
                     var cur := old(positions)[i];
                     if cur.shares + shares == 0 then
                       error == Some("ZeroDivisionError")
                       && positions == old(positions) && transactions == old(transactions)
                     else
                       error.None?
                       && positions == Added(old(positions), i, shares, price)
                       && transactions == old(transactions) + [tx]
      ensures error.None? && Find(old(positions), symbol).None? ==> Value() == old(Value())
      ensures Others(positions, symbol) == Others(old(positions), symbol)
      ensures shares > 0 && PositiveHoldings(old(positions)) ==> PositiveHoldings(positions)
    {
      var cost := shares as real * price;
      if cost > cash {
        return Some("ValueError");
      }
      cash := cash - cost;
      var found := Find(positions, symbol);
      if found.Some? {
        var i := found.value;
        var cur := positions[i];
        if cur.shares + shares == 0 {
          return Some("ZeroDivisionError");
        }
        var currentCost := cur.avgCost * cur.shares as real;
        var newAvg := (currentCost + cost) / (cur.shares + shares) as real;
        MeanCostOfCost(cur, shares, price, cost);
        positions := positions[i := cur.(shares := cur.shares + shares, avgCost := newAvg)];
      } else {
        positions := positions + [Holding(symbol, shares, price, price)];
      }
      transactions := transactions + [Transaction(timestamp, BuyAction, symbol, shares, price, cost)];
      return None;
    }

    /** `sell(symbol, shares, price, timestamp)`. An unheld symbol or more
        shares than held raises with nothing changed. Otherwise the proceeds
        join the cash, the shares drop (the position goes when none are
        left, its average cost unchanged otherwise) and one transaction is
        recorded. */
    method Sell(symbol: string, shares: int, price: real, timestamp: string) returns (error: Option<string>)
      requires Valid()
      modifies this
      ensures Valid()
      ensures match Find(old(positions), symbol)
              case None =>
                error == Some("ValueError") && cash == old(cash)
                && positions == old(positions) && transactions == old(transactions)
              case Some(i) =>
                var cur := old(positions)[i];
                if shares > cur.shares then
                  error == Some("ValueError") && cash == old(cash)
                  && positions == old(positions) && transactions == old(transactions)
                else
                  error.None? && cash == old(cash) + shares as real * price
                  && positions == Sold(old(positions), i, shares)
                  && transactions == old(transactions)
                                     + [Transaction(timestamp, SellAction, symbol, shares, price, shares as real * price)]
      ensures Others(positions, symbol) == Others(old(positions), symbol)
      ensures PositiveHoldings(old(positions)) ==> PositiveHoldings(positions)
    {
      var found := Find(positions, symbol);
      if found.None? {
        return Some("ValueError");
      }
      var i := found.value;
      var cur := positions[i];
      if shares > cur.shares {
        return Some("ValueError");
      }
      var proceeds := shares as real * price;
      cash := cash + proceeds;
      if cur.shares - shares == 0 {
        positions := positions[..i] + positions[i + 1..];
      } else {
        positions := positions[i := cur.(shares := cur.shares - shares)];
      }
      transactions := transactions + [Transaction(timestamp, SellAction, symbol, shares, price, proceeds)];
      return None;
    }

    /** `update_prices(prices)`: held symbols with a price take it as their
        last price; nothing else changes. */
    method UpdatePrices(prices: map<string, real>)
      requires Valid()
      modifies this
      ensures Valid()
      ensures |positions| == |old(positions)|
      ensures forall i :: 0 <= i < |positions| ==>
                positions[i] == old(positions)[i].(lastPrice := if old(positions)[i].symbol in prices
                                                                then prices[old(positions)[i].symbol]
                                                                else old(positions)[i].lastPrice)
      ensures cash == old(cash) && transactions == old(transactions)
    {
      var i := 0;
      while i < |positions|
        invariant 0 <= i <= |positions| == |old(positions)|
        invariant forall k :: 0 <= k < |positions| ==> positions[k].symbol == old(positions)[k].symbol
        invariant forall k :: 0 <= k < i ==>
                    positions[k] == old(positions)[k].(lastPrice := if old(positions)[k].symbol in prices
                                                                    then prices[old(positions)[k].symbol]
                                                                    else old(positions)[k].lastPrice)
        invariant forall k :: i <= k < |positions| ==> positions[k] == old(positions)[k]
        invariant cash == old(cash) && transactions == old(transactions)
      {
        var symbol := positions[i].symbol;
        if symbol in prices {
          positions := positions[i := positions[i].(lastPrice := prices[symbol])];
        }
        i := i + 1;
      }
    }
  }

  // ------------------------------------------------------ simulate_strategy

  /** Every position holds a positive number of shares. */
  predicate PositiveHoldings(h: seq<Holding>)
  {
    forall i :: 0 <= i < |h| ==> h[i].shares > 0
  }

  /** The holdings of every symbol but `symbol`, in order. */
  function Others(h: seq<Holding>, symbol: string): (r: seq<Holding>)
    ensures |r| <= |h|
    ensures forall k :: 0 <= k < |r| ==> r[k].symbol != symbol
  {
    if h == [] then []
    else
      var rest := Others(h[..|h| - 1], symbol);
      assert h == h[..|h| - 1] + [h[|h| - 1]];
      if h[|h| - 1].symbol == symbol then rest else rest + [h[|h| - 1]]
  }

  lemma {:induction false} OthersConcat(a: seq<Holding>, b: seq<Holding>, symbol: string)
    ensures Others(a + b, symbol) == Others(a, symbol) + Others(b, symbol)
  {
    if b != [] {
      var n := |b| - 1;
      OthersConcat(a, b[..n], symbol);
      assert (a + b)[..|a + b| - 1] == a + b[..n];
    } else {
      assert a + b == a;
    }
  }

  /** Changing or dropping a holding of `symbol` leaves the others as they were. */
  lemma OthersSplice(h: seq<Holding>, i: nat, mid: seq<Holding>, symbol: string)
    requires i < |h| && h[i].symbol == symbol
    requires forall x :: x in mid ==> x.symbol == symbol
    ensures Others(h[..i] + mid + h[i + 1..], symbol) == Others(h, symbol)
  {
    assert h == h[..i] + [h[i]] + h[i + 1..];
    OthersConcat(h[..i] + mid, h[i + 1..], symbol);
    OthersConcat(h[..i], mid, symbol);
    OthersConcat(h[..i] + [h[i]], h[i + 1..], symbol);
    OthersConcat(h[..i], [h[i]], symbol);
    assert Others([h[i]], symbol) == [] by { assert [h[i]][..0] == []; }
    OthersNone(mid, symbol);
  }

  lemma {:induction false} OthersNone(h: seq<Holding>, symbol: string)
    requires forall x :: x in h ==> x.symbol == symbol
    ensures Others(h, symbol) == []
  {
    if h != [] {
      OthersNone(h[..|h| - 1], symbol);
    }
  }

  lemma OthersRemove(h: seq<Holding>, i: nat, symbol: string)
    requires i < |h| && h[i].symbol == symbol
    ensures Others(h[..i] + h[i + 1..], symbol) == Others(h, symbol)
  {
    OthersSplice(h, i, [], symbol);
    assert h[..i] + [] + h[i + 1..] == h[..i] + h[i + 1..];
  }

  lemma OthersReplace(h: seq<Holding>, i: nat, x: Holding, symbol: string)
    requires i < |h| && h[i].symbol == symbol && x.symbol == symbol
    ensures Others(h[i := x], symbol) == Others(h, symbol)
  {
    OthersSplice(h, i, [x], symbol);
    assert h[i := x] == h[..i] + [x] + h[i + 1..];
  }

  /** Holdings that differ only where both are of `symbol` have the same others. */
  lemma {:induction false} OthersPointwise(a: seq<Holding>, b: seq<Holding>, symbol: string)
    requires |a| == |b|
    requires forall k :: 0 <= k < |a| ==> a[k] == b[k] || (a[k].symbol == symbol && b[k].symbol == symbol)
    ensures Others(a, symbol) == Others(b, symbol)
  {
    if a != [] {
      var n := |a| - 1;
      OthersPointwise(a[..n], b[..n], symbol);
    }
  }

  /** The trade rule of `simulate_strategy` on one bar of `symbol` closing at
      `close`: the portfolio ends as `Traded` says, whose three branches
      `TradedBuy`, `TradedSell` and `TradedIdle` spell out. */
  method ApplySignal(p: Portfolio, symbol: string, close: real, date: string, signal: string)
    requires p.Valid() && PositiveHoldings(p.positions)
    modifies p
    ensures p.Valid() && PositiveHoldings(p.positions)
    ensures p.Fields() == Traded(old(p.Fields()), symbol, close, date, signal)
  {
    var found := Find(p.positions, symbol);
    ghost var s0 := p.Fields();
    if signal == "buy" && p.cash >= close * 100.0 {
      BuyOnBar(p, symbol, close, date);
      TradedBuy(s0, symbol, close, date, signal);
    } else if signal == "sell" && found.Some? {
      SellHeld(p, symbol, close, date);
      TradedSell(s0, symbol, close, date, signal);
    } else {
      TradedIdle(s0, symbol, close, date, signal);
    }
  }

  /** The buy branch: 100 shares at the close leave the cash, a new
      position opens or the held one takes them at the mean cost, and one
      buy of 100 shares is logged. */
  lemma TradedBuy(s: State, symbol: string, close: real, date: string, signal: string)
    requires PositiveHoldings(s.positions) && signal == "buy" && s.cash >= close * 100.0
    ensures Traded(s, symbol, close, date, signal) == Purchase(s, symbol, close, date)
  {
  }

  /** The sell branch, for a held symbol when the buy branch is not taken:
      `min(100, held)` shares go at the close, their proceeds join the cash
      and one sale is logged. */
  lemma TradedSell(s: State, symbol: string, close: real, date: string, signal: string)
    requires PositiveHoldings(s.positions) && !(signal == "buy" && s.cash >= close * 100.0)
    requires signal == "sell" && Find(s.positions, symbol).Some?
    ensures Traded(s, symbol, close, date, signal) == Sale(s, symbol, close, date)
  {
    assert s.positions[Find(s.positions, symbol).value].shares > 0;
  }

  /** Any other signal, or a buy the cash does not cover on an unheld
      symbol, changes nothing. */
  lemma TradedIdle(s: State, symbol: string, close: real, date: string, signal: string)
    requires PositiveHoldings(s.positions) && !(signal == "buy" && s.cash >= close * 100.0)
    requires !(signal == "sell" && Find(s.positions, symbol).Some?)
    ensures Traded(s, symbol, close, date, signal) == s
  {
  }

  /** Selling shares at a non-negative price never lowers the cash. */
  lemma SaleCredits(c0: real, c1: real, proceeds: real, n: int, price: real)
    requires n >= 0 && proceeds == n as real * price && c1 == c0 + proceeds
    ensures price >= 0.0 ==> c1 >= c0
  {
    ProceedsNonNegative(n, price);
  }

  lemma ProceedsNonNegative(n: int, price: real)
    ensures n >= 0 && price >= 0.0 ==> n as real * price >= 0.0
  {
  }

  /** The buy branch of the trade rule: 100 shares at the close, which the
      cash covers; the portfolio ends as `Purchase` says. */
  method BuyOnBar(p: Portfolio, symbol: string, close: real, date: string)
    requires p.Valid() && PositiveHoldings(p.positions) && p.cash >= close * 100.0
    modifies p
    ensures p.Valid() && PositiveHoldings(p.positions)
    ensures p.Fields() == Purchase(old(p.Fields()), symbol, close, date)
  {
    ghost var s0 := p.Fields();
    var err := p.Buy(symbol, 100, close, date);
    PurchaseByBuy(s0, err, p.Fields(), symbol, close, date);
  }

  /** What `Portfolio.Buy` promises for 100 shares at the close, given
      the cash for them, is the state `Purchase` describes. */
  lemma PurchaseByBuy(s0: State, error: Option<string>, s1: State, symbol: string, close: real, date: string)
    requires PositiveHoldings(s0.positions) && s0.cash >= close * 100.0
    requires var cost := 100 as real * close;
             var tx := Transaction(date, BuyAction, symbol, 100, close, cost);
             if cost > s0.cash then
               error == Some("ValueError") && s1.cash == s0.cash
               && s1.positions == s0.positions && s1.transactions == s0.transactions
             else
               s1.cash == s0.cash - cost
               && match Find(s0.positions, symbol)
                  case None =>
                    error.None? && s1.positions == Opened(s0.positions, symbol, 100, close)
                    && s1.transactions == s0.transactions + [tx]
                  case Some(i) =>
                    var cur := s0.positions[i];
                    if cur.shares + 100 == 0 then
                      error == Some("ZeroDivisionError")
                      && s1.positions == s0.positions && s1.transactions == s0.transactions
                    else
                      error.None?
                      && s1.positions == Added(s0.positions, i, 100, close)
                      && s1.transactions == s0.transactions + [tx]
    ensures s1 == Purchase(s0, symbol, close, date)
  {
    assert 100 as real * close == 100.0 * close;
    match Find(s0.positions, symbol)
    case None =>
    case Some(i) =>
      assert s0.positions[i].shares > 0;
  }

  /** The sell branch of the trade rule, for a held symbol: `min(100, held)`
      shares go at the close and the portfolio ends as `Sale` says; the
      cash never drops at a non-negative close. */
  method SellHeld(p: Portfolio, symbol: string, close: real, date: string)
    requires p.Valid() && PositiveHoldings(p.positions) && Find(p.positions, symbol).Some?
    modifies p
    ensures p.Valid() && PositiveHoldings(p.positions)
    ensures p.Fields() == Sale(old(p.Fields()), symbol, close, date)
    ensures close >= 0.0 ==> p.cash >= old(p.cash)
  {
    var i := Find(p.positions, symbol).value;
    var sharesToSell := Lot(p.positions[i]);
    ghost var s0 := p.Fields();
    assert s0.positions == p.positions;
    assert 0 < sharesToSell <= s0.positions[i].shares;
    var err := p.Sell(symbol, sharesToSell, close, date);
    assert p.positions == Sold(s0.positions, i, sharesToSell);
    assert p.cash == s0.cash + sharesToSell as real * close;
    assert p.transactions == s0.transactions
                             + [Transaction(date, SellAction, symbol, sharesToSell, close, sharesToSell as real * close)];
    SaleBySell(s0, p.Fields(), i, sharesToSell, symbol, close, date);
  }

  /** The fields `Portfolio.Sell` leaves after selling `min(100, held)`
      shares of a held symbol are the state `Sale` describes, whose cash
      never drops at a non-negative close. */
  lemma SaleBySell(s0: State, s1: State, i: nat, n: int, symbol: string, close: real, date: string)
    requires PositiveHoldings(s0.positions) && Find(s0.positions, symbol) == Some(i)
    requires i < |s0.positions| && n == Lot(s0.positions[i])
    requires s1.cash == s0.cash + n as real * close
    requires s1.positions == Sold(s0.positions, i, n)
    requires s1.transactions == s0.transactions + [Transaction(date, SellAction, symbol, n, close, n as real * close)]
    ensures s1 == Sale(s0, symbol, close, date)
    ensures close >= 0.0 ==> s1.cash >= s0.cash
  {
    ProceedsNonNegative(n, close);
  }

  /** The shares the sell rule sells of a held symbol. */
  function SellLot(h: seq<Holding>, symbol: string): (r: int)
    requires Find(h, symbol).Some?
    ensures r == Lot(h[Find(h, symbol).value])
  {
    Lot(h[Find(h, symbol).value])
  }

  /** The shares the sell rule sells of a holding: `min(100, held)`. */
  function Lot(x: Holding): (r: int)
    ensures r <= x.shares && r <= 100
    ensures x.shares > 0 ==> r > 0
  {
    MinInt(100, x.shares)
  }

  /** One bar of `simulate_strategy` for `symbol`: the trade rule, then
      `update_prices`, after which the portfolio is as `Marked` and `Traded`
      say; `BarKeeps` states what that keeps. */
  method TradeOnBar(p: Portfolio, symbol: string, close: real, date: string, signal: string)
    requires p.Valid() && PositiveHoldings(p.positions)
    modifies p
    ensures p.Valid() && PositiveHoldings(p.positions)
    ensures p.Fields() == Marked(Traded(old(p.Fields()), symbol, close, date, signal), symbol, close)
  {
    ApplySignal(p, symbol, close, date, signal);
    ghost var s1 := p.Fields();
    // The source re-assigns every other held symbol its own last price, so
    // only `symbol` can change.
    var prices := if Find(p.positions, symbol).Some? then map[symbol := close] else map[];
    p.UpdatePrices(prices);
    MarkedByPrices(s1, prices, symbol, close, p.positions);
  }

  /** The prices the bar loop passes to `update_prices` mark the positions
      as `Marked` does. */
  lemma MarkedByPrices(s: State, prices: map<string, real>, symbol: string, close: real, h: seq<Holding>)
    requires prices == if Find(s.positions, symbol).Some? then map[symbol := close] else map[]
    requires |h| == |s.positions|
    requires forall i :: 0 <= i < |h| ==>
               h[i] == s.positions[i].(lastPrice := if s.positions[i].symbol in prices
                                                   then prices[s.positions[i].symbol]
                                                   else s.positions[i].lastPrice)
    ensures Marked(s, symbol, close) == s.(positions := h)
  {
    var m := Marked(s, symbol, close);
    forall i | 0 <= i < |h| ensures m.positions[i] == h[i] {
    }
    assert m.positions == h;
  }

  /** The trade rule of `simulate_strategy` on one bar, on the fields as
      values: a buy of 100 shares at the close when the cash covers them,
      otherwise a sale of `min(100, held)` on a sell signal for a held
      symbol. The holdings of a simulated portfolio are always positive, so
      the mean cost of a buy never divides by zero. */
  function Traded(s: State, symbol: string, close: real, date: string, signal: string): (r: State)
    requires PositiveHoldings(s.positions)
    ensures PositiveHoldings(r.positions)
  {
    var found := Find(s.positions, symbol);
    if signal == "buy" && s.cash >= close * 100.0 then Purchase(s, symbol, close, date)
    else if signal == "sell" && found.Some? then
      if SellLot(s.positions, symbol) > 0 then Sale(s, symbol, close, date) else s
    else s
  }

  /** The buy branch of `Traded`: 100 shares at the close. */
  function Purchase(s: State, symbol: string, close: real, date: string): (r: State)
    requires PositiveHoldings(s.positions)
    ensures PositiveHoldings(r.positions)
  {
    var cost := 100.0 * close;
    var positions := match Find(s.positions, symbol)
      case None => Opened(s.positions, symbol, 100, close)
      case Some(i) => Added(s.positions, i, 100, close);
    State(s.cash - cost, positions, s.transactions + [Transaction(date, BuyAction, symbol, 100, close, cost)])
  }

  /** The sell branch of `Traded`: `min(100, held)` shares at the close. */
  function Sale(s: State, symbol: string, close: real, date: string): (r: State)
    requires PositiveHoldings(s.positions) && Find(s.positions, symbol).Some?
    ensures PositiveHoldings(r.positions)
  {
    var i := Find(s.positions, symbol).value;
    var n := Lot(s.positions[i]);
    State(s.cash + n as real * close, Sold(s.positions, i, n),
          s.transactions + [Transaction(date, SellAction, symbol, n, close, n as real * close)])
  }

  /** What one trade keeps: distinct symbols, the other symbols' positions,
      at most one logged lot of 1 to 100 shares of `symbol`, and a
      non-negative cash at a non-negative close. */
  predicate TradeKeeps(s: State, r: State, symbol: string, close: real)
  {
    (DistinctSymbols(s.positions) ==> DistinctSymbols(r.positions))
    && Others(r.positions, symbol) == Others(s.positions, symbol)
    && LoggedOne(s.transactions, r.transactions, symbol)
    && (s.cash >= 0.0 && close >= 0.0 ==> r.cash >= 0.0)
  }

  /** Whatever the signal, one trade keeps the above. */
  lemma TradedKeeps(s: State, symbol: string, close: real, date: string, signal: string)
    requires PositiveHoldings(s.positions)
    ensures TradeKeeps(s, Traded(s, symbol, close, date, signal), symbol, close)
  {
    if signal == "buy" && s.cash >= close * 100.0 {
      TradedBuy(s, symbol, close, date, signal);
      BuyKeeps(s, symbol, close, date);
    } else if signal == "sell" && Find(s.positions, symbol).Some? {
      TradedSell(s, symbol, close, date, signal);
      SellKeeps(s, symbol, close, date);
    } else {
      TradedIdle(s, symbol, close, date, signal);
    }
  }

  lemma BuyKeeps(s: State, symbol: string, close: real, date: string)
    requires PositiveHoldings(s.positions) && s.cash >= close * 100.0
    ensures TradeKeeps(s, Purchase(s, symbol, close, date), symbol, close)
  {
  }

  lemma SellKeeps(s: State, symbol: string, close: real, date: string)
    requires PositiveHoldings(s.positions) && Find(s.positions, symbol).Some?
    ensures TradeKeeps(s, Sale(s, symbol, close, date), symbol, close)
  {
    var i := Find(s.positions, symbol).value;
    var n := SellLot(s.positions, symbol);
    assert 0 < n <= s.positions[i].shares && n <= 100;
    var tx := Transaction(date, SellAction, symbol, n, close, n as real * close);
    var r := Sale(s, symbol, close, date);
    assert r == State(s.cash + n as real * close, Sold(s.positions, i, n), s.transactions + [tx]);
    assert Others(r.positions, symbol) == Others(s.positions, symbol);
    assert (s.transactions + [tx])[..|s.transactions|] == s.transactions;
    assert LoggedOne(s.transactions, r.transactions, symbol);
    ProceedsNonNegative(n, close);
    assert TradeKeeps(s, r, symbol, close);
  }

  /** `update_prices` as the bar loop calls it: the position of `symbol`
      takes the close and every other position keeps its own last price. */
  function Marked(s: State, symbol: string, close: real): (r: State)
    ensures r.cash == s.cash && r.transactions == s.transactions && |r.positions| == |s.positions|
    ensures forall k :: 0 <= k < |r.positions| ==>
              r.positions[k] == if s.positions[k].symbol == symbol then s.positions[k].(lastPrice := close) else s.positions[k]
    ensures Others(r.positions, symbol) == Others(s.positions, symbol)
    ensures DistinctSymbols(s.positions) ==> DistinctSymbols(r.positions)
    ensures PositiveHoldings(s.positions) ==> PositiveHoldings(r.positions)
  {
    var h := seq(|s.positions|, k requires 0 <= k < |s.positions| =>
                   if s.positions[k].symbol == symbol then s.positions[k].(lastPrice := close) else s.positions[k]);
    OthersPointwise(s.positions, h, symbol);
    s.(positions := h)
  }

  /** The log gains at most one entry, for `symbol`, of 1 to 100 shares. */
  predicate LoggedOne(before: seq<Transaction>, after: seq<Transaction>, symbol: string)
  {
    after == before
    || (|after| == |before| + 1 && after[..|before|] == before
        && after[|before|].symbol == symbol && 0 < after[|before|].shares <= 100)
  }

  /** Every entry is of 1 to 100 shares of one of `symbols`. */
  predicate Lots(txs: seq<Transaction>, symbols: seq<string>)
  {
    forall t :: t in txs ==> t.symbol in symbols && 0 < t.shares <= 100
  }

  lemma OthersHas(h: seq<Holding>, symbol: string, x: Holding)
    ensures x in Others(h, symbol) <==> x in h && x.symbol != symbol
  {
    if h != [] {
      var n := |h| - 1;
      OthersHas(h[..n], symbol, x);
      assert h == h[..n] + [h[n]];
    }
  }

  // ---------------------------------------------------- simple_rsi_strategy

  datatype Signal = Buy | Sell | Wait
  {
    /** The string the strategy returns. */
    function Label(): string
    {
      match this
      case Buy => "buy"
      case Sell => "sell"
      case Wait => "wait"
    }
  }

  /** The bar-to-bar changes of the closes, split into gains and losses. */
  function Gains(closes: seq<real>): (r: seq<real>)
    requires |closes| >= 1
    ensures |r| == |closes| - 1
    ensures forall i :: 0 <= i < |r| ==> r[i] == Max(closes[i + 1] - closes[i], 0.0)
  {
    seq(|closes| - 1, i requires 0 <= i < |closes| - 1 =>
      if closes[i + 1] - closes[i] > 0.0 then closes[i + 1] - closes[i] else 0.0)
  }

  function Losses(closes: seq<real>): (r: seq<real>)
    requires |closes| >= 1
    ensures |r| == |closes| - 1
    ensures forall i :: 0 <= i < |r| ==> r[i] == Max(closes[i] - closes[i + 1], 0.0)
  {
    seq(|closes| - 1, i requires 0 <= i < |closes| - 1 =>
      if closes[i + 1] - closes[i] > 0.0 then 0.0 else Abs(closes[i + 1] - closes[i]))
  }

  /** `simple_rsi_strategy`: wait on fewer than 15 closes or no losses in
      the last 14 changes; otherwise the RSI of the simple 14-change means
      decides buy under 30 and sell over 70. */
  function RsiSignal(closes: seq<real>): (r: Signal)
    ensures r == Buy || r == Sell || r == Wait
    ensures |closes| < 15 ==> r == Wait
  {
    if |closes| < 14 then Wait
    else
      var gains := Gains(closes);
      var losses := Losses(closes);
      if |gains| < 14 then Wait
      else
        var avgGain := Sum(TakeLast(gains, 14)) / 14.0;
        var avgLoss := Sum(TakeLast(losses, 14)) / 14.0;
        if avgLoss == 0.0 then Wait
        else
          TailSumsNonNegative(closes);
          var rsi := Rsi(avgGain, avgLoss);
          if rsi < 30.0 then Buy else if rsi > 70.0 then Sell else Wait
  }

  /** The relative strength index of the two mean changes: under 30
      exactly when the losses outweigh the gains more than 7 to 3, over 70
      exactly when the gains outweigh the losses more than 7 to 3. */
  function Rsi(avgGain: real, avgLoss: real): (r: real)
    requires avgGain >= 0.0 && avgLoss > 0.0
    ensures 0.0 <= r < 100.0
    ensures r < 30.0 <==> 7.0 * avgGain < 3.0 * avgLoss
    ensures r > 70.0 <==> 3.0 * avgGain > 7.0 * avgLoss
  {
    var rs := avgGain / avgLoss;
    RsiBounds(avgGain, avgLoss, rs);
    100.0 - 100.0 / (1.0 + rs)
  }

  lemma RsiBounds(g: real, l: real, rs: real)
    requires g >= 0.0 && l > 0.0 && rs == g / l
    ensures var rsi := 100.0 - 100.0 / (1.0 + rs);
            && 0.0 <= rsi < 100.0
            && (rsi < 30.0 <==> 7.0 * g < 3.0 * l)
            && (rsi > 70.0 <==> 3.0 * g > 7.0 * l)
  {
    assert rs * l == g;
    assert rs >= 0.0;
    var d := 1.0 + rs;
    var q := 100.0 / d;
    assert q * d == 100.0;
    assert 0.0 < q <= 100.0;
    assert q > 70.0 <==> 100.0 > 70.0 * d;
    assert 100.0 > 70.0 * d <==> 30.0 * l > 70.0 * g by {
      assert 70.0 * d * l == 70.0 * l + 70.0 * g;
    }
    assert q < 30.0 <==> 100.0 < 30.0 * d;
    assert 100.0 < 30.0 * d <==> 70.0 * l < 30.0 * g by {
      assert 30.0 * d * l == 30.0 * l + 30.0 * g;
    }
  }

  /** Gains and losses are never negative, nor are their sums. */
  lemma TailSumsNonNegative(closes: seq<real>)
    requires |closes| >= 1
    ensures Sum(TakeLast(Gains(closes), 14)) >= 0.0
    ensures Sum(TakeLast(Losses(closes), 14)) >= 0.0
  {
    GainsTail(closes);
    LossesTail(closes);
  }

  lemma GainsTail(closes: seq<real>)
    requires |closes| >= 1
    ensures Sum(TakeLast(Gains(closes), 14)) >= 0.0
  {
    var g := Gains(closes);
    forall i | 0 <= i < |g| ensures g[i] >= 0.0 {
      assert g[i] == Max(closes[i + 1] - closes[i], 0.0);
    }
    TailNonNegative(g);
  }

  lemma LossesTail(closes: seq<real>)
    requires |closes| >= 1
    ensures Sum(TakeLast(Losses(closes), 14)) >= 0.0
  {
    var l := Losses(closes);
    forall i | 0 <= i < |l| ensures l[i] >= 0.0 {
      assert l[i] == Max(closes[i] - closes[i + 1], 0.0);
    }
    TailNonNegative(l);
  }

  lemma TailNonNegative(xs: seq<real>)
    requires forall i :: 0 <= i < |xs| ==> xs[i] >= 0.0
    ensures Sum(TakeLast(xs, 14)) >= 0.0
  {
    var t := TakeLast(xs, 14);
    forall i | 0 <= i < |t| ensures t[i] >= 0.0 {
      assert t[i] == xs[|xs| - |t| + i];
    }
    SumNonNegative(t);
  }

  /** The sums of the last 14 gains and of the last 14 losses. */
  function GainSum(closes: seq<real>): (r: real)
    requires |closes| >= 1
    ensures r >= 0.0
  {
    TailSumsNonNegative(closes);
    Sum(TakeLast(Gains(closes), 14))
  }

  function LossSum(closes: seq<real>): (r: real)
    requires |closes| >= 1
    ensures r >= 0.0
  {
    TailSumsNonNegative(closes);
    Sum(TakeLast(Losses(closes), 14))
  }

  /** From 15 closes on, the signal is the RSI rule on the two sums. */
  lemma RsiSignalOfSums(closes: seq<real>)
    requires |closes| >= 15
    ensures LossSum(closes) == 0.0 ==> RsiSignal(closes) == Wait
    ensures LossSum(closes) != 0.0 ==>
              var rsi := Rsi(GainSum(closes) / 14.0, LossSum(closes) / 14.0);
              RsiSignal(closes) == (if rsi < 30.0 then Buy else if rsi > 70.0 then Sell else Wait)
  {
  }

  /** Over the last 14 changes, buy exactly when the losses outweigh the
      gains more than 7 to 3, and sell exactly when the gains outweigh the
      losses more than 7 to 3; no losses at all wait. */
  lemma RsiSignalRatio(closes: seq<real>)
    requires |closes| >= 15
    ensures LossSum(closes) == 0.0 ==> RsiSignal(closes) == Wait
    ensures LossSum(closes) != 0.0 ==> (RsiSignal(closes) == Buy <==> 7.0 * GainSum(closes) < 3.0 * LossSum(closes))
    ensures LossSum(closes) != 0.0 ==> (RsiSignal(closes) == Sell <==> 3.0 * GainSum(closes) > 7.0 * LossSum(closes))
  {
    RsiSignalOfSums(closes);
  }

  /** The gain and loss lists of `simple_rsi_strategy`, built by a loop over
      the close-to-close changes. */
  method ChangeLists(closes: seq<real>) returns (gains: seq<real>, losses: seq<real>)
    requires |closes| >= 1
    ensures gains == Gains(closes) && losses == Losses(closes)
  {
    gains := [];
    losses := [];
    var i := 1;
    while i < |closes|
      invariant 1 <= i <= |closes|
      invariant gains == Gains(closes)[..i - 1]
      invariant losses == Losses(closes)[..i - 1]
    {
      var change := closes[i] - closes[i - 1];
      ChangeNext(closes, i);
      if change > 0.0 {
        gains := gains + [change];
        losses := losses + [0.0];
      } else {
        gains := gains + [0.0];
        losses := losses + [Abs(change)];
      }
      i := i + 1;
    }
    assert gains == Gains(closes)[..|closes| - 1];
    assert losses == Losses(closes)[..|closes| - 1];
  }

  /** One more change extends each list by its gain and its loss. */
  lemma ChangeNext(closes: seq<real>, i: nat)
    requires 1 <= i < |closes|
    ensures Gains(closes)[..i] == Gains(closes)[..i - 1]
              + [if closes[i] - closes[i - 1] > 0.0 then closes[i] - closes[i - 1] else 0.0]
    ensures Losses(closes)[..i] == Losses(closes)[..i - 1]
              + [if closes[i] - closes[i - 1] > 0.0 then 0.0 else Abs(closes[i] - closes[i - 1])]
  {
    var change := closes[i] - closes[i - 1];
    var g := Gains(closes);
    var l := Losses(closes);
    assert g[i - 1] == Max(change, 0.0) == if change > 0.0 then change else 0.0;
    assert l[i - 1] == Max(-change, 0.0) == if change > 0.0 then 0.0 else Abs(change);
    assert g[..i] == g[..i - 1] + [g[i - 1]];
    assert l[..i] == l[..i - 1] + [l[i - 1]];
  }

  /** The strategy as written, on the lists the loop builds. */
  method SimpleRsiStrategy(closes: seq<real>) returns (r: Signal)
    ensures r == RsiSignal(closes)
  {
    if |closes| < 14 {
      return Wait;
    }
    var gains, losses := ChangeLists(closes);
    if |gains| < 14 {
      return Wait;
    }
    var avgGain := Sum(TakeLast(gains, 14)) / 14.0;
    var avgLoss := Sum(TakeLast(losses, 14)) / 14.0;
    if avgLoss == 0.0 {
      return Wait;
    }
    TailSumsNonNegative(closes);
    var rsi := Rsi(avgGain, avgLoss);
    if rsi < 30.0 {
      return Buy;
    } else if rsi > 70.0 {
      return Sell;
    }
    return Wait;
  }

  /** `simple_rsi_strategy(symbol, current_data, historical_data)` as the
      simulator calls it: the RSI rule on the closes seen so far. */
  function RsiStrategy(symbol: string, row: PriceBar, history: seq<PriceBar>): (r: string)
    ensures r == "buy" || r == "sell" || r == "wait"
    ensures |history| < 15 ==> r == "wait"
  {
    RsiSignal(Closes(history)).Label()
  }

  // ------------------------------------------------------------ the simulator

  /** One row of a symbol's price table. */
  datatype PriceBar = PriceBar(date: string, close: real)

  function Closes(bars: seq<PriceBar>): (r: seq<real>)
    ensures |r| == |bars| && forall i :: 0 <= i < |bars| ==> r[i] == bars[i].close
  {
    seq(|bars|, i requires 0 <= i < |bars| => bars[i].close)
  }

  predicate NonNegativeCloses(bars: seq<PriceBar>)
  {
    forall i :: 0 <= i < |bars| ==> bars[i].close >= 0.0
  }

  /** A strategy: the symbol, the bar and the table up to it give a signal,
      or the exception the strategy raised. */
  type Strategy = (string, PriceBar, seq<PriceBar>) -> Result<string>

  /** The bar loop of `simulate_strategy` for `symbol` from row `idx` on, on
      the fields as values: the strategy's signal, the trade rule, then the
      mark at the close. An exception from the strategy ends the loop with
      what was done so far, as the source's `except Exception: continue`
      does. */
  function Simulated(s: State, symbol: string, bars: seq<PriceBar>, strategy: Strategy, idx: nat): (r: State)
    requires PositiveHoldings(s.positions) && idx <= |bars|
    ensures PositiveHoldings(r.positions)
    decreases |bars| - idx
  {
    if idx == |bars| then s
    else
      match strategy(symbol, bars[idx], bars[..idx + 1])
      case Failure(_) => s
      case Success(signal) =>
        var bar := bars[idx];
        Simulated(Marked(Traded(s, symbol, bar.close, bar.date, signal), symbol, bar.close), symbol, bars, strategy, idx + 1)
  }

  /** The symbol loop of `simulate_strategy` from symbol `n` on: a symbol
      without rows is skipped. */
  function SimulatedAll(s: State, symbols: seq<string>, tables: map<string, seq<PriceBar>>,
                        strategy: Strategy, n: nat): (r: State)
    requires PositiveHoldings(s.positions) && n <= |symbols|
    ensures PositiveHoldings(r.positions)
    decreases |symbols| - n
  {
    if n == |symbols| then s
    else
      var symbol := symbols[n];
      var next := if symbol in tables && tables[symbol] != [] then Simulated(s, symbol, tables[symbol], strategy, 0) else s;
      SimulatedAll(next, symbols, tables, strategy, n + 1)
  }

  /** A row on which the strategy answers: the loop goes on from the
      traded and marked state. */
  lemma SimulatedNext(s: State, next: State, symbol: string, bars: seq<PriceBar>, strategy: Strategy, idx: nat, signal: string)
    requires PositiveHoldings(s.positions) && idx < |bars|
    requires strategy(symbol, bars[idx], bars[..idx + 1]) == Success(signal)
    requires next == Marked(Traded(s, symbol, bars[idx].close, bars[idx].date, signal), symbol, bars[idx].close)
    ensures PositiveHoldings(next.positions)
    ensures Simulated(s, symbol, bars, strategy, idx) == Simulated(next, symbol, bars, strategy, idx + 1)
  {
  }

  /** A row on which the strategy raises: the loop stops. */
  lemma SimulatedRaise(s: State, symbol: string, bars: seq<PriceBar>, strategy: Strategy, idx: nat)
    requires PositiveHoldings(s.positions) && idx < |bars|
    requires strategy(symbol, bars[idx], bars[..idx + 1]).Failure?
    ensures Simulated(s, symbol, bars, strategy, idx) == s
  {
  }

  /** One symbol of the symbol loop. */
  lemma SimulatedAllNext(s: State, next: State, symbols: seq<string>, tables: map<string, seq<PriceBar>>,
                         strategy: Strategy, n: nat)
    requires PositiveHoldings(s.positions) && n < |symbols|
    requires var symbol := symbols[n];
             next == if symbol in tables && tables[symbol] != [] then Simulated(s, symbol, tables[symbol], strategy, 0) else s
    ensures PositiveHoldings(next.positions)
    ensures SimulatedAll(s, symbols, tables, strategy, n) == SimulatedAll(next, symbols, tables, strategy, n + 1)
  {
  }

  lemma SimulatedAllDone(s: State, symbols: seq<string>, tables: map<string, seq<PriceBar>>, strategy: Strategy)
    requires PositiveHoldings(s.positions)
    ensures SimulatedAll(s, symbols, tables, strategy, |symbols|) == s
  {
  }

  /** A strategy that never answers "buy" or "sell" trades nothing: the cash
      and the log stay as they were. */
  lemma {:induction false} WaitingTradesNothing(s: State, symbol: string, bars: seq<PriceBar>, strategy: Strategy, idx: nat)
    requires PositiveHoldings(s.positions) && idx <= |bars|
    requires forall i :: idx <= i < |bars| ==>
               strategy(symbol, bars[i], bars[..i + 1]) != Success("buy")
               && strategy(symbol, bars[i], bars[..i + 1]) != Success("sell")
    ensures Simulated(s, symbol, bars, strategy, idx).cash == s.cash
    ensures Simulated(s, symbol, bars, strategy, idx).transactions == s.transactions
    decreases |bars| - idx
  {
    if idx < |bars| {
      match strategy(symbol, bars[idx], bars[..idx + 1])
      case Failure(_) =>
      case Success(signal) =>
        var next := Marked(Traded(s, symbol, bars[idx].close, bars[idx].date, signal), symbol, bars[idx].close);
        WaitingTradesNothing(next, symbol, bars, strategy, idx + 1);
    }
  }

  /** The log `after` is `before` with entries appended, each of 1 to 100
      shares of `symbol`. */
  predicate LogExtends(before: seq<Transaction>, after: seq<Transaction>, symbol: string)
  {
    |before| <= |after| && after[..|before|] == before
    && forall j :: |before| <= j < |after| ==> after[j].symbol == symbol && 0 < after[j].shares <= 100
  }

  /** What the bar loop for `symbol` from row `idx` keeps between `s` and
      `r`: the positions of other symbols, distinct symbols, a non-negative
      cash when no close is negative, and a log that only grows, by at most
      one lot of 1 to 100 shares of `symbol` per row. */
  predicate RunKeeps(s: State, r: State, symbol: string, bars: seq<PriceBar>, idx: nat)
  {
    (DistinctSymbols(s.positions) ==> DistinctSymbols(r.positions))
    && (s.cash >= 0.0 && NonNegativeCloses(bars) ==> r.cash >= 0.0)
    && Others(r.positions, symbol) == Others(s.positions, symbol)
    && LogExtends(s.transactions, r.transactions, symbol)
    && |r.transactions| <= |s.transactions| + (|bars| - idx)
  }

  /** Whatever the strategy answers, the bar loop keeps the above. */
  lemma {:induction false} SimulatedKeeps(s: State, symbol: string, bars: seq<PriceBar>, strategy: Strategy, idx: nat)
    requires PositiveHoldings(s.positions) && idx <= |bars|
    ensures RunKeeps(s, Simulated(s, symbol, bars, strategy, idx), symbol, bars, idx)
    decreases |bars| - idx
  {
    if idx == |bars| {
      SimulatedEnd(s, symbol, bars, strategy);
      RunKeepsNothing(s, symbol, bars, idx);
    } else {
      match strategy(symbol, bars[idx], bars[..idx + 1])
      case Failure(_) =>
        SimulatedRaise(s, symbol, bars, strategy, idx);
        RunKeepsNothing(s, symbol, bars, idx);
      case Success(signal) =>
        var next := Marked(Traded(s, symbol, bars[idx].close, bars[idx].date, signal), symbol, bars[idx].close);
        SimulatedNext(s, next, symbol, bars, strategy, idx, signal);
        BarKeeps(s, next, symbol, bars[idx].close, bars[idx].date, signal);
        SimulatedKeeps(next, symbol, bars, strategy, idx + 1);
        RunKeepsStep(s, next, Simulated(next, symbol, bars, strategy, idx + 1), symbol, bars, idx);
    }
  }

  lemma RunKeepsNothing(s: State, symbol: string, bars: seq<PriceBar>, idx: nat)
    requires idx <= |bars|
    ensures RunKeeps(s, s, symbol, bars, idx)
  {
    assert s.transactions[..|s.transactions|] == s.transactions;
  }

  lemma RunKeepsStep(s: State, next: State, r: State, symbol: string, bars: seq<PriceBar>, idx: nat)
    requires idx < |bars|
    requires DistinctSymbols(s.positions) ==> DistinctSymbols(next.positions)
    requires s.cash >= 0.0 && bars[idx].close >= 0.0 ==> next.cash >= 0.0
    requires Others(next.positions, symbol) == Others(s.positions, symbol)
    requires LogExtends(s.transactions, next.transactions, symbol)
    requires |next.transactions| <= |s.transactions| + 1
    requires RunKeeps(next, r, symbol, bars, idx + 1)
    ensures RunKeeps(s, r, symbol, bars, idx)
  {
    LogExtendsTrans(s.transactions, next.transactions, r.transactions, symbol);
  }

  /** What one row keeps: the symbols stay distinct, the other symbols'
      positions are untouched, the symbol's position is marked at the
      close, at most one lot of 1 to 100 shares of the symbol is logged,
      and a non-negative cash stays non-negative at a non-negative close. */
  lemma BarKeeps(s: State, next: State, symbol: string, close: real, date: string, signal: string)
    requires PositiveHoldings(s.positions)
    requires next == Marked(Traded(s, symbol, close, date, signal), symbol, close)
    ensures forall k :: 0 <= k < |next.positions| && next.positions[k].symbol == symbol ==> next.positions[k].lastPrice == close
    ensures DistinctSymbols(s.positions) ==> DistinctSymbols(next.positions)
    ensures s.cash >= 0.0 && close >= 0.0 ==> next.cash >= 0.0
    ensures Others(next.positions, symbol) == Others(s.positions, symbol)
    ensures LogExtends(s.transactions, next.transactions, symbol)
    ensures |next.transactions| <= |s.transactions| + 1
  {
    TradedKeeps(s, symbol, close, date, signal);
    assert TradeKeeps(s, Traded(s, symbol, close, date, signal), symbol, close);
  }

  lemma LogExtendsTrans(a: seq<Transaction>, b: seq<Transaction>, c: seq<Transaction>, symbol: string)
    requires LogExtends(a, b, symbol) && LogExtends(b, c, symbol)
    ensures LogExtends(a, c, symbol)
  {
    assert c[..|a|] == c[..|b|][..|a|];
  }

  lemma SimulatedEnd(s: State, symbol: string, bars: seq<PriceBar>, strategy: Strategy)
    requires PositiveHoldings(s.positions)
    ensures Simulated(s, symbol, bars, strategy, |bars|) == s
  {
  }

  /** Holdings with the same others differ only in positions of `symbol`. */
  lemma SameOthers(before: seq<Holding>, after: seq<Holding>, symbol: string)
    requires Others(after, symbol) == Others(before, symbol)
    ensures forall k :: 0 <= k < |after| ==> after[k].symbol == symbol || after[k] in before
  {
    forall k | 0 <= k < |after| && after[k].symbol != symbol
      ensures after[k] in before
    {
      OthersHas(after, symbol, after[k]);
      OthersHas(before, symbol, after[k]);
    }
  }

  /** Every position and every logged lot is of one of `symbols`, each lot
      of 1 to 100 shares. */
  predicate Listed(s: State, symbols: seq<string>)
  {
    (forall k :: 0 <= k < |s.positions| ==> s.positions[k].symbol in symbols)
    && Lots(s.transactions, symbols)
  }

  /** What the symbol loop keeps between `s` and `r`: distinct symbols,
      positions and lots of listed symbols only, and a non-negative cash
      when no close is negative. */
  predicate AllKeeps(s: State, r: State, symbols: seq<string>, tables: map<string, seq<PriceBar>>)
  {
    (DistinctSymbols(s.positions) ==> DistinctSymbols(r.positions))
    && Listed(r, symbols)
    && (s.cash >= 0.0 && (forall t :: t in tables ==> NonNegativeCloses(tables[t])) ==> r.cash >= 0.0)
  }

  /** Whatever the strategy answers, the symbol loop keeps the above. */
  lemma {:induction false} SimulatedAllKeeps(s: State, symbols: seq<string>, tables: map<string, seq<PriceBar>>,
                                             strategy: Strategy, n: nat)
    requires PositiveHoldings(s.positions) && n <= |symbols| && Listed(s, symbols)
    ensures AllKeeps(s, SimulatedAll(s, symbols, tables, strategy, n), symbols, tables)
    decreases |symbols| - n
  {
    if n == |symbols| {
      SimulatedAllDone(s, symbols, tables, strategy);
    } else {
      var symbol := symbols[n];
      var next := if symbol in tables && tables[symbol] != [] then Simulated(s, symbol, tables[symbol], strategy, 0) else s;
      SimulatedAllNext(s, next, symbols, tables, strategy, n);
      SymbolKeeps(s, next, symbols, tables, strategy, n);
      SimulatedAllKeeps(next, symbols, tables, strategy, n + 1);
      AllKeepsTrans(s, next, SimulatedAll(next, symbols, tables, strategy, n + 1), symbols, tables);
    }
  }

  /** One symbol of the loop keeps the above. */
  lemma SymbolKeeps(s: State, next: State, symbols: seq<string>, tables: map<string, seq<PriceBar>>,
                    strategy: Strategy, n: nat)
    requires PositiveHoldings(s.positions) && n < |symbols| && Listed(s, symbols)
    requires var symbol := symbols[n];
             next == if symbol in tables && tables[symbol] != [] then Simulated(s, symbol, tables[symbol], strategy, 0) else s
    ensures AllKeeps(s, next, symbols, tables)
  {
    var symbol := symbols[n];
    if symbol in tables && tables[symbol] != [] {
      SimulatedKeeps(s, symbol, tables[symbol], strategy, 0);
      ListedRun(s, next, symbol, tables[symbol], symbols);
    }
  }

  lemma AllKeepsTrans(a: State, b: State, c: State, symbols: seq<string>, tables: map<string, seq<PriceBar>>)
    requires AllKeeps(a, b, symbols, tables) && AllKeeps(b, c, symbols, tables)
    ensures AllKeeps(a, c, symbols, tables)
  {
  }

  /** A run of a listed symbol keeps everything listed. */
  lemma ListedRun(s: State, r: State, symbol: string, bars: seq<PriceBar>, symbols: seq<string>)
    requires symbol in symbols && Listed(s, symbols) && RunKeeps(s, r, symbol, bars, 0)
    ensures Listed(r, symbols)
  {
    SameOthers(s.positions, r.positions, symbol);
    forall t | t in r.transactions ensures t.symbol in symbols && 0 < t.shares <= 100 {
      var j :| 0 <= j < |r.transactions| && r.transactions[j] == t;
      if j < |s.transactions| {
        assert t == s.transactions[j];
      }
    }
  }

  /** The bar loop of `simulate_strategy` for one symbol: the strategy sees
      the symbol, the bar and the table up to it. The portfolio ends as
      `Simulated` says. Other symbols' holdings are untouched, every trade
      is of 1 to 100 shares of `symbol`, and with non-negative closes the
      cash never goes negative. */
  method SimulateSymbol(p: Portfolio, symbol: string, bars: seq<PriceBar>, strategy: Strategy)
    requires p.Valid() && PositiveHoldings(p.positions)
    modifies p
    ensures p.Valid() && PositiveHoldings(p.positions)
    ensures p.Fields() == Simulated(old(p.Fields()), symbol, bars, strategy, 0)
    ensures old(p.cash) >= 0.0 && NonNegativeCloses(bars) ==> p.cash >= 0.0
    ensures Others(p.positions, symbol) == Others(old(p.positions), symbol)
    ensures forall k :: 0 <= k < |p.positions| ==> p.positions[k].symbol == symbol || p.positions[k] in old(p.positions)
    ensures LogExtends(old(p.transactions), p.transactions, symbol)
    ensures |p.transactions| - |old(p.transactions)| <= |bars|
  {
    var idx := 0;
    while idx < |bars|
      invariant 0 <= idx <= |bars|
      invariant p.Valid() && PositiveHoldings(p.positions)
      invariant Simulated(old(p.Fields()), symbol, bars, strategy, 0) == Simulated(p.Fields(), symbol, bars, strategy, idx)
    {
      var row := bars[idx];
      var signal := strategy(symbol, row, bars[..idx + 1]);
      if signal.Failure? {
        SimulatedRaise(p.Fields(), symbol, bars, strategy, idx);
        break;
      }
      ghost var s0 := p.Fields();
      TradeOnBar(p, symbol, row.close, row.date, signal.value);
      SimulatedNext(s0, p.Fields(), symbol, bars, strategy, idx, signal.value);
      idx := idx + 1;
    }
    assert p.Fields() == Simulated(old(p.Fields()), symbol, bars, strategy, 0);
    SimulatedKeeps(old(p.Fields()), symbol, bars, strategy, 0);
    SameOthers(old(p.positions), p.positions, symbol);
  }

  /** `simulate_strategy(symbols, start_date, end_date, strategy_func,
      initial_cash)`. `tables` holds each symbol's rows for the date range;
      a symbol without a table is skipped, as the source skips one whose
      query raises. The portfolio ends as `SimulatedAll` says from the
      initial cash. Every position and every trade is of a listed symbol,
      every trade of 1 to 100 shares, and with a non-negative starting cash
      and non-negative closes the cash never goes negative. */
  method SimulateStrategy(symbols: seq<string>, tables: map<string, seq<PriceBar>>,
                          strategy: Strategy, initialCash: real) returns (p: Portfolio)
    ensures p.Valid() && PositiveHoldings(p.positions) && p.initialCash == initialCash
    ensures p.Fields() == SimulatedAll(State(initialCash, [], []), symbols, tables, strategy, 0)
    ensures forall k :: 0 <= k < |p.positions| ==> p.positions[k].symbol in symbols
    ensures Lots(p.transactions, symbols)
    ensures initialCash >= 0.0 && (forall s :: s in tables ==> NonNegativeCloses(tables[s])) ==> p.cash >= 0.0
  {
    p := new Portfolio(initialCash);
    ghost var goal := SimulatedAll(State(initialCash, [], []), symbols, tables, strategy, 0);
    SimulatedAllKeeps(State(initialCash, [], []), symbols, tables, strategy, 0);
    assert AllKeeps(State(initialCash, [], []), goal, symbols, tables);
    var n := 0;
    while n < |symbols|
      invariant 0 <= n <= |symbols|
      invariant p.Valid() && PositiveHoldings(p.positions) && p.initialCash == initialCash
      invariant goal == SimulatedAll(p.Fields(), symbols, tables, strategy, n)
    {
      var symbol := symbols[n];
      ghost var s0 := p.Fields();
      if symbol in tables && tables[symbol] != [] {
        SimulateSymbol(p, symbol, tables[symbol], strategy);
      }
      SimulatedAllNext(s0, p.Fields(), symbols, tables, strategy, n);
      n := n + 1;
    }
    SimulatedAllDone(p.Fields(), symbols, tables, strategy);
  }
}

/** The Alpaca options provider's own logic: option symbols around the
    current price, the mock chain priced from each symbol, the bucketed delta,
    the sentiment label, the strategy list and the chain analysis. The price
    requests are not modelled: the price is an input. */
module Alpaca {
  import opened Numeric
  import opened Text
  import opened Calendar
  import opened ChainStats
  import opened Sorting

  // ------------------------------------------------------------- expiries

  /** `(4 - weekday) % 7`, with 0 replaced by 7: the next Friday strictly
      after today. */
  function DaysUntilFriday(weekday: nat): (r: nat)
    requires weekday < 7
    ensures 1 <= r <= 7
    ensures (weekday + r) % 7 == 4
  {
    var d := (4 - weekday) % 7;
    if d == 0 then 7 else d
  }

  /** Counting from a real day: the expiry base is a Friday after today. */
  lemma NextFridayIsFriday(today: Day)
    ensures Weekday(today + DaysUntilFriday(Weekday(today))) == 4
  {
  }

  // -------------------------------------------------------------- symbols

  /** The strike offsets around the current price. */
  const Offsets: seq<int> := [-20, -10, -5, 0, 5, 10, 20]

  /** `f"{underlying}{expiry}{'C' or 'P'}{strike:08d}"` */
  function Symbol(underlying: string, expiry: string, call: bool, strike: int): string
  {
    underlying + expiry + [if call then 'C' else 'P'] + PadInt(strike, 8)
  }

  /** The call or put symbol for offset `k` of the generated list. */
  function SymbolAt(underlying: string, expiry: string, price: real, k: nat, call: bool): string
    requires k < |Offsets|
  {
    Symbol(underlying, expiry, call, Trunc(price + Offsets[k] as real))
  }

  /** The symbols for the first `n` offsets, a call then a put for each. */
  function SymbolsFor(underlying: string, expiry: string, price: real, n: nat): (r: seq<string>)
    requires n <= |Offsets|
    ensures |r| == 2 * n
  {
    if n == 0 then []
    else SymbolsFor(underlying, expiry, price, n - 1)
         + [SymbolAt(underlying, expiry, price, n - 1, true), SymbolAt(underlying, expiry, price, n - 1, false)]
  }

  lemma SymbolsForNext(underlying: string, expiry: string, price: real, k: nat)
    requires k < |Offsets|
    ensures SymbolsFor(underlying, expiry, price, k + 1)
            == SymbolsFor(underlying, expiry, price, k)
               + [SymbolAt(underlying, expiry, price, k, true), SymbolAt(underlying, expiry, price, k, false)]
  {
  }

  /** Position 2k holds the call and 2k+1 the put of offset k. */
  lemma {:induction false} SymbolsForPairs(underlying: string, expiry: string, price: real, n: nat, k: nat)
    requires k < n <= |Offsets|
    ensures SymbolsFor(underlying, expiry, price, n)[2 * k] == SymbolAt(underlying, expiry, price, k, true)
    ensures SymbolsFor(underlying, expiry, price, n)[2 * k + 1] == SymbolAt(underlying, expiry, price, k, false)
  {
    if k < n - 1 {
      SymbolsForPairs(underlying, expiry, price, n - 1, k);
    }
  }

  /** The expiry of the generated symbols: the next Friday plus `daysAhead`. */
  function ExpiryDay(today: Day, daysAhead: int): int
  {
    today + DaysUntilFriday(Weekday(today)) + daysAhead
  }

  /** `generate_option_symbols` once the price is known. */
  method GenerateOptionSymbols(underlying: string, today: Day, daysAhead: int, price: real) returns (symbols: seq<string>)
    requires ExpiryDay(today, daysAhead) >= 0
    ensures symbols == SymbolsFor(underlying, Yymmdd(ExpiryDay(today, daysAhead)), price, |Offsets|)
  {
    var expiry := Yymmdd(ExpiryDay(today, daysAhead));
    symbols := [];
    var k := 0;
    while k < |Offsets|
      invariant 0 <= k <= |Offsets|
      invariant symbols == SymbolsFor(underlying, expiry, price, k)
    {
      var strike := Trunc(price + Offsets[k] as real);
      var call, put := Symbol(underlying, expiry, true, strike), Symbol(underlying, expiry, false, strike);
      assert call == SymbolAt(underlying, expiry, price, k, true);
      assert put == SymbolAt(underlying, expiry, price, k, false);
      SymbolsForNext(underlying, expiry, price, k);
      symbols := symbols + [call];
      symbols := symbols + [put];
      k := k + 1;
    }
  }

  /** For a strike of at most eight digits the symbol ends in exactly those
      eight digits, and the letter before them is the type. */
  lemma SymbolShape(underlying: string, expiry: string, call: bool, strike: nat)
    requires strike < Pow10(8)
    ensures var s := Symbol(underlying, expiry, call, strike);
            |s| == |underlying| + |expiry| + 9
            && s[|s| - 9] == (if call then 'C' else 'P')
            && TakeLast(s, 8) == PadNat(strike, 8)
  {
    NatToStringLength(strike, 8);
  }

  /** The strike as `get_options_chain` reads it back: `int(symbol[-8:]) / 100`. */
  function StrikeAsWritten(symbol: string): (r: Option<real>)
  {
    var n := ParseInt(TakeLast(symbol, 8));
    if n.Some? then Some(n.value as real / 100.0) else None
  }

  /** The type as `get_options_chain` reads it back: `'C' in symbol`. */
  predicate IsCallAsWritten(symbol: string)
  {
    'C' in symbol
  }

  /** As written, reading a generated symbol back gives a hundredth of the
      strike that was written into it. */
  lemma StrikeAsWrittenScaled(underlying: string, expiry: string, call: bool, strike: nat)
    requires strike < Pow10(8)
    ensures StrikeAsWritten(Symbol(underlying, expiry, call, strike)) == Some(strike as real / 100.0)
  {
    SymbolShape(underlying, expiry, call, strike);
    PadNatValue(strike, 8);
  }

  /** A 150 strike is read back as 1.50. */
  lemma StrikeAsWrittenLosesScale()
    ensures StrikeAsWritten(Symbol("AAPL", "250117", true, 150)) == Some(1.5)
  {
    assert Pow10(8) == 100000000;
    StrikeAsWrittenScaled("AAPL", "250117", true, 150);
  }

  /** As written, every put on an underlying containing 'C' is read as a
      call. */
  lemma PutOnCReadAsCall()
    ensures IsCallAsWritten(Symbol("C", "250117", false, 50))
  {
    assert Symbol("C", "250117", false, 50)[0] == 'C';
  }

  /** The strike as the symbol generator intends it to be read: the eight
      digits are the strike itself. */
  function Strike(symbol: string): (r: Option<real>)
  {
    var n := ParseInt(TakeLast(symbol, 8));
    if n.Some? then Some(n.value as real) else None
  }

  /** The type letter in front of the eight strike digits. */
  predicate IsCall(symbol: string)
  {
    |symbol| >= 9 && symbol[|symbol| - 9] == 'C'
  }

  /** Reading a generated symbol back gives the strike and type written into
      it, whatever the underlying spells. */
  lemma SymbolRoundTrip(underlying: string, expiry: string, call: bool, strike: nat)
    requires strike < Pow10(8)
    ensures Strike(Symbol(underlying, expiry, call, strike)) == Some(strike as real)
    ensures IsCall(Symbol(underlying, expiry, call, strike)) <==> call
  {
    SymbolShape(underlying, expiry, call, strike);
    PadNatValue(strike, 8);
  }

  /** Each generated pair reads back as a call then a put at the same
      strike, the current price plus the offset truncated. */
  lemma GeneratedPairReadsBack(underlying: string, expiry: string, price: real, k: nat)
    requires k < |Offsets| && 0.0 <= price + Offsets[k] as real < Pow10(8) as real
    ensures IsCall(SymbolAt(underlying, expiry, price, k, true))
    ensures !IsCall(SymbolAt(underlying, expiry, price, k, false))
    ensures Strike(SymbolAt(underlying, expiry, price, k, true)) == Some(Trunc(price + Offsets[k] as real) as real)
    ensures Strike(SymbolAt(underlying, expiry, price, k, false)) == Some(Trunc(price + Offsets[k] as real) as real)
  {
    var strike := Trunc(price + Offsets[k] as real);
    SymbolRoundTrip(underlying, expiry, true, strike);
    SymbolRoundTrip(underlying, expiry, false, strike);
  }

  // ---------------------------------------------------------------- delta

  /** The call delta bucket of `calculate_delta` by moneyness spot/strike. */
  function CallDelta(m: real): real
  {
    if m > 1.1 then 0.8 else if m > 1.0 then 0.6 else if m > 0.9 then 0.4 else 0.2
  }

  function PutDelta(m: real): real
  {
    if m < 0.9 then -0.8 else if m < 1.0 then -0.6 else if m < 1.1 then -0.4 else -0.2
  }

  /** `calculate_delta`; a zero strike divides by zero. */
  function Delta(spot: real, strike: real, isCall: bool): (r: Result<real>)
    ensures r.Failure? <==> strike == 0.0
  {
    if strike == 0.0 then Failure("ZeroDivisionError")
    else if isCall then Success(CallDelta(spot / strike))
    else Success(PutDelta(spot / strike))
  }

  /** Call deltas are one of four buckets and put deltas their negatives, and
      both grow with moneyness. */
  lemma DeltaBuckets(m: real, n: real)
    ensures CallDelta(m) in {0.2, 0.4, 0.6, 0.8}
    ensures PutDelta(m) in {-0.8, -0.6, -0.4, -0.2}
    ensures m <= n ==> CallDelta(m) <= CallDelta(n) && PutDelta(m) <= PutDelta(n)
  {
  }

  /** Call minus put delta is 1 except exactly on the bucket edges 0.9, 1.0
      and 1.1, where the strict comparisons disagree and it is 0.8. */
  lemma DeltaParity(m: real)
    ensures m != 0.9 && m != 1.0 && m != 1.1 ==> CallDelta(m) - PutDelta(m) == 1.0
    ensures m == 0.9 || m == 1.0 || m == 1.1 ==> CallDelta(m) - PutDelta(m) == 0.8
  {
  }

  // ----------------------------------------------------------- mock chain

  datatype AlpacaQuote = AlpacaQuote(
    symbol: string, strike: real, isCall: bool, bid: real, ask: real, last: real,
    volume: int, openInterest: int, impliedVolatility: real, delta: real)

  /** `current - strike` for a call and `strike - current` for a put. */
  function Moneyness(price: real, strike: real, isCall: bool): real
  {
    if isCall then price - strike else strike - price
  }

  /** The mock quote priced from one symbol, read back as `get_options_chain`
      reads it: the strike as `int(symbol[-8:]) / 100` and the type as
      `'C' in symbol`. Unreadable strike digits raise `ValueError`, and a
      zero strike divides by zero in the delta. */
  function MockQuote(symbol: string, price: real): (r: Result<AlpacaQuote>)
    ensures r.Failure? <==> StrikeAsWritten(symbol).None? || StrikeAsWritten(symbol) == Some(0.0)
    ensures r.Success? ==> Some(r.value.strike) == StrikeAsWritten(symbol)
                           && (r.value.isCall <==> IsCallAsWritten(symbol))
    ensures r.Success? ==> r.value.ask - r.value.bid == 0.1 && r.value.bid > 0.0
    ensures r.Success? ==> r.value.last >= 0.5 && r.value.volume >= 50 && r.value.openInterest >= 100
    ensures r.Success? ==> r.value.impliedVolatility >= 0.25
    ensures r.Success? ==> r.value.last - Max(0.0, Moneyness(price, r.value.strike, r.value.isCall)) >= 0.5
    ensures r.Success? ==> Delta(price, r.value.strike, r.value.isCall) == Success(r.value.delta)
  {
    var strike := StrikeAsWritten(symbol);
    if strike.None? then Failure("ValueError")
    else
      var isCall := IsCallAsWritten(symbol);
      var m := Moneyness(price, strike.value, isCall);
      var intrinsic := Max(0.0, m);
      var timeValue := Max(0.5, 5.0 - Abs(m) * 0.1);
      var theoretical := intrinsic + timeValue;
      match Delta(price, strike.value, isCall)
      case Failure(e) => Failure(e)
      case Success(delta) =>
        Success(AlpacaQuote(symbol, strike.value, isCall, Max(0.01, theoretical - 0.05), theoretical + 0.05,
                            theoretical, Trunc(Abs(m) * 10.0 + 50.0), Trunc(Abs(m) * 50.0 + 100.0),
                            0.25 + Abs(m) * 0.01, delta))
  }

  /** A generated symbol is priced at a hundredth of the strike written into
      it, and as a call whenever the underlying or the expiry holds a 'C'. */
  lemma MockQuoteOfGenerated(underlying: string, expiry: string, call: bool, strike: nat, price: real)
    requires 0 < strike < Pow10(8)
    ensures var r := MockQuote(Symbol(underlying, expiry, call, strike), price);
            r.Success? && r.value.strike == strike as real / 100.0
            && (r.value.isCall <==> call || 'C' in underlying + expiry)
  {
    var s := Symbol(underlying, expiry, call, strike);
    StrikeAsWrittenScaled(underlying, expiry, call, strike);
    PadNatValue(strike, 8);
    var digits := PadInt(strike, 8);
    assert 'C' !in digits by {
      forall i | 0 <= i < |digits| ensures digits[i] != 'C' {
        assert '0' <= digits[i] <= '9';
      }
    }
    assert s == (underlying + expiry) + [if call then 'C' else 'P'] + digits;
  }

  /** The call at a 150 strike on AAPL, with the stock at 150, is priced as
      a deep in-the-money call at 1.50: last 149, volume 1535, delta 0.8. */
  lemma MockQuoteMisprices()
    ensures var r := MockQuote(Symbol("AAPL", "250117", true, 150), 150.0);
            r.Success? && r.value.strike == 1.5 && r.value.isCall
            && r.value.last == 149.0 && r.value.volume == 1535 && r.value.delta == 0.8
  {
    assert Pow10(8) == 100000000;
    MockQuoteOfGenerated("AAPL", "250117", true, 150, 150.0);
    assert Trunc(148.5 * 10.0 + 50.0) == 1535;
  }

  /** The values in order when every result succeeded, or else the first
      error among them. */
  function Collect<T>(rs: seq<Result<T>>): (r: Result<seq<T>>)
    ensures r.Success? <==> forall i :: 0 <= i < |rs| ==> rs[i].Success?
    ensures r.Success? ==> |r.value| == |rs| && forall i :: 0 <= i < |rs| ==> rs[i] == Success(r.value[i])
  {
    if rs == [] then Success([])
    else
      var n := |rs| - 1;
      var init := Collect(rs[..n]);
      assert forall i :: 0 <= i < n ==> rs[..n][i] == rs[i];
      match (init, rs[n])
      case (Success(qs), Success(q)) => Success(qs + [q])
      case (Failure(e), _) => Failure(e)
      case (_, Failure(e)) => Failure(e)
  }

  /** One more successful result extends the collected values by it. */
  lemma CollectNext<T>(rs: seq<Result<T>>, i: nat, acc: seq<T>)
    requires i < |rs| && Collect(rs[..i]) == Success(acc) && rs[i].Success?
    ensures Collect(rs[..i + 1]) == Success(acc + [rs[i].value])
  {
    assert rs[..i + 1][..i] == rs[..i];
  }

  /** The quote of each symbol. */
  function MockQuotes(symbols: seq<string>, price: real): (r: seq<Result<AlpacaQuote>>)
    ensures |r| == |symbols| && forall i :: 0 <= i < |symbols| ==> r[i] == MockQuote(symbols[i], price)
  {
    seq(|symbols|, i requires 0 <= i < |symbols| => MockQuote(symbols[i], price))
  }

  /** The chain priced from the symbols, or the first error. */
  function MockChain(symbols: seq<string>, price: real): (r: Result<seq<AlpacaQuote>>)
    ensures r.Success? <==> forall i :: 0 <= i < |symbols| ==> MockQuote(symbols[i], price).Success?
    ensures r.Success? ==> |r.value| == |symbols|
                           && forall i :: 0 <= i < |symbols| ==> MockQuote(symbols[i], price) == Success(r.value[i])
  {
    Collect(MockQuotes(symbols, price))
  }

  /** The quotes of offset k's generated pair: both at a hundredth of the
      strike, the put read as a call whenever the underlying or the expiry
      holds a 'C'. */
  lemma GeneratedPairQuotes(underlying: string, expiry: string, price: real, k: nat)
    requires k < |Offsets| && 21.0 <= price && price + 20.0 < Pow10(8) as real
    ensures var strike := Trunc(price + Offsets[k] as real) as real / 100.0;
            var call := MockQuote(SymbolAt(underlying, expiry, price, k, true), price);
            var put := MockQuote(SymbolAt(underlying, expiry, price, k, false), price);
            call.Success? && call.value.strike == strike && call.value.isCall
            && put.Success? && put.value.strike == strike
            && (put.value.isCall <==> 'C' in underlying + expiry)
  {
    var x := price + Offsets[k] as real;
    assert 1.0 <= x < Pow10(8) as real;
    var strike := Trunc(x);
    MockQuoteOfGenerated(underlying, expiry, true, strike, price);
    MockQuoteOfGenerated(underlying, expiry, false, strike, price);
  }

  /** The chain of the generated symbols lists each offset's call and put
      at a hundredth of the strike, the put read as a call whenever the
      underlying or the expiry holds a 'C'. */
  lemma MockChainOfGenerated(underlying: string, expiry: string, price: real)
    requires 21.0 <= price && price + 20.0 < Pow10(8) as real
    ensures var symbols := SymbolsFor(underlying, expiry, price, |Offsets|);
            var c := MockChain(symbols, price);
            c.Success? && |c.value| == 2 * |Offsets|
            && forall k :: 0 <= k < |Offsets| ==>
                 var strike := Trunc(price + Offsets[k] as real) as real / 100.0;
                 c.value[2 * k].strike == strike && c.value[2 * k].isCall
                 && c.value[2 * k + 1].strike == strike
                 && (c.value[2 * k + 1].isCall <==> 'C' in underlying + expiry)
  {
    var symbols := SymbolsFor(underlying, expiry, price, |Offsets|);
    forall i | 0 <= i < |symbols|
      ensures MockQuote(symbols[i], price).Success?
    {
      var k := i / 2;
      SymbolsForPairs(underlying, expiry, price, |Offsets|, k);
      GeneratedPairQuotes(underlying, expiry, price, k);
      assert i == 2 * k || i == 2 * k + 1;
    }
    var c := MockChain(symbols, price).value;
    forall k | 0 <= k < |Offsets|
      ensures var strike := Trunc(price + Offsets[k] as real) as real / 100.0;
              c[2 * k].strike == strike && c[2 * k].isCall
              && c[2 * k + 1].strike == strike
              && (c[2 * k + 1].isCall <==> 'C' in underlying + expiry)
    {
      SymbolsForPairs(underlying, expiry, price, |Offsets|, k);
      GeneratedPairQuotes(underlying, expiry, price, k);
      assert MockQuote(symbols[2 * k], price) == Success(c[2 * k]);
      assert MockQuote(symbols[2 * k + 1], price) == Success(c[2 * k + 1]);
    }
  }

  datatype ChainData = ChainData(currentPrice: real, chain: seq<AlpacaQuote>)

  /** `get_options_chain`: the priced chain, or on any error the fallback of
      `get_mock_options_chain`, an empty chain at 150. */
  method GetOptionsChain(symbols: seq<string>, price: real) returns (r: ChainData)
    ensures MockChain(symbols, price).Success? ==> r == ChainData(price, MockChain(symbols, price).value)
    ensures MockChain(symbols, price).Failure? ==> r == ChainData(150.0, [])
  {
    var quotes := MockQuotes(symbols, price);
    var chain: seq<AlpacaQuote> := [];
    var i := 0;
    while i < |quotes| && quotes[i].Success?
      invariant 0 <= i <= |quotes|
      invariant Collect(quotes[..i]) == Success(chain)
    {
      CollectNext(quotes, i, chain);
      chain := chain + [quotes[i].value];
      i := i + 1;
    }
    if i < |quotes| {
      assert !Collect(quotes).Success?;
      return ChainData(150.0, []);
    }
    assert quotes[..i] == quotes;
    return ChainData(price, chain);
  }

  // ------------------------------------------------- sentiment, strategies

  /** `calculate_sentiment` */
  function SentimentOf(pcr: real, iv: real): (r: Sentiment)
    ensures r == Bearish <==> pcr > 1.2 && iv > 0.3
    ensures r == Bullish <==> pcr < 0.8 && iv < 0.25
  {
    if pcr > 1.2 && iv > 0.3 then Bearish
    else if pcr < 0.8 && iv < 0.25 then Bullish
    else Neutral
  }

  /** A higher put/call ratio never turns a bearish reading bullish or
      neutral, nor a neutral one bullish. */
  lemma SentimentMonotone(pcr: real, pcr2: real, iv: real)
    requires pcr <= pcr2
    ensures SentimentOf(pcr, iv) == Bearish ==> SentimentOf(pcr2, iv) == Bearish
    ensures SentimentOf(pcr2, iv) == Bullish ==> SentimentOf(pcr, iv) == Bullish
  {
  }

  datatype StrategyName = BullCallSpread | IronCondor | ProtectivePut

  datatype Strategy = Strategy(name: StrategyName, outlook: string, maxProfit: string, complexity: string)

  /** The strategy list for a put/call ratio and a volatility. */
  function StrategiesFor(pcr: real, iv: real): (r: seq<Strategy>)
    ensures 1 <= |r| <= 3 && r[|r| - 1].name == ProtectivePut
  {
    (if pcr < 0.9 then [Strategy(BullCallSpread, "Moderately Bullish", "$500", "Intermediate")] else [])
    + (if iv > 0.25 then [Strategy(IronCondor, "Neutral", "$300", "Advanced")] else [])
    + [Strategy(ProtectivePut, "Bullish with Protection", "Unlimited", "Beginner")]
  }

  /** One to three strategies, each at most once: the spread exactly for a
      put/call ratio under 0.9 and then first, the condor exactly for a
      volatility over 0.25, and always the protective put last. */
  lemma StrategiesShape(pcr: real, iv: real)
    ensures var r := StrategiesFor(pcr, iv);
            1 <= |r| <= 3 && r[|r| - 1].name == ProtectivePut
            && ((exists i :: 0 <= i < |r| && r[i].name == BullCallSpread) <==> pcr < 0.9)
            && ((exists i :: 0 <= i < |r| && r[i].name == IronCondor) <==> iv > 0.25)
            && (forall i, j :: 0 <= i < j < |r| ==> r[i].name != r[j].name)
            && (pcr < 0.9 ==> r[0].name == BullCallSpread)
  {
    var r := StrategiesFor(pcr, iv);
    if pcr < 0.9 {
      assert r[0].name == BullCallSpread;
    }
    if iv > 0.25 {
      assert r[|r| - 2].name == IronCondor;
    }
  }

  /** `generate_strategies`, appending step by step. */
  method GenerateStrategies(pcr: real, iv: real) returns (r: seq<Strategy>)
    ensures r == StrategiesFor(pcr, iv)
  {
    r := [];
    if pcr < 0.9 {
      r := r + [Strategy(BullCallSpread, "Moderately Bullish", "$500", "Intermediate")];
    }
    if iv > 0.25 {
      r := r + [Strategy(IronCondor, "Neutral", "$300", "Advanced")];
    }
    r := r + [Strategy(ProtectivePut, "Bullish with Protection", "Unlimited", "Beginner")];
  }

  // ------------------------------------------------------------- analysis

  datatype Analysis = Analysis(
    currentPrice: real, putCallRatio: real, impliedVolatility: real, maxPain: real,
    sentiment: Sentiment, strategies: seq<Strategy>)

  /** `get_mock_analysis`, returned whenever the analysis raises. */
  const MockAnalysis := Analysis(150.0, 0.85, 0.285, 148.0, Neutral,
                                 [Strategy(BullCallSpread, "Moderately Bullish", "$500", "Intermediate")])

  /** Summed volume of the calls (or of the puts) of the chain. */
  function SideVolume(chain: seq<AlpacaQuote>, calls: bool): int
  {
    if chain == [] then 0
    else SideVolume(chain[..|chain| - 1], calls)
         + (if chain[|chain| - 1].isCall == calls then chain[|chain| - 1].volume else 0)
  }

  function ImpliedVolatilities(chain: seq<AlpacaQuote>): (r: seq<real>)
    ensures |r| == |chain|
  {
    seq(|chain|, i requires 0 <= i < |chain| => chain[i].impliedVolatility)
  }

  function StrikePairs(chain: seq<AlpacaQuote>): (r: seq<(real, int)>)
    ensures |r| == |chain|
    ensures forall i :: 0 <= i < |chain| ==> r[i] == (chain[i].strike, chain[i].openInterest)
  {
    seq(|chain|, i requires 0 <= i < |chain| => (chain[i].strike, chain[i].openInterest))
  }

  /** The analysis of a priced chain: an empty chain divides by zero when
      averaging volatility and falls back to the mock analysis. */
  function AnalysisOf(chain: seq<AlpacaQuote>, price: real): (r: Analysis)
  {
    if chain == [] then MockAnalysis
    else
      var pcr := PutCallRatio(SideVolume(chain, false), SideVolume(chain, true));
      var iv := Sum(ImpliedVolatilities(chain)) / |chain| as real;
      var t := TallyOf(StrikePairs(chain));
      assert StrikePairs(chain)[0].0 in t.interest by {
        TallyOfSums(StrikePairs(chain), StrikePairs(chain)[0].0);
      }
      var maxPain := MostInterest(t).value;
      Analysis(price, pcr, iv, maxPain, SentimentOf(pcr, iv), StrategiesFor(pcr, iv))
  }

  /** `get_options_analysis` for a fetched price and chain, with the strike
      dictionary filled by a loop. */
  method GetOptionsAnalysis(chain: seq<AlpacaQuote>, price: real) returns (r: Analysis)
    ensures r == AnalysisOf(chain, price)
  {
    if chain == [] {
      return MockAnalysis;
    }
    var pcr := PutCallRatio(SideVolume(chain, false), SideVolume(chain, true));
    var iv := Sum(ImpliedVolatilities(chain)) / |chain| as real;
    var pairs := StrikePairs(chain);
    var strikeInterest := Tally([], map[]);
    var i := 0;
    while i < |chain|
      invariant 0 <= i <= |chain|
      invariant strikeInterest == TallyOf(pairs[..i])
    {
      assert pairs[..i + 1][..i] == pairs[..i];
      strikeInterest := Add(strikeInterest, chain[i].strike, chain[i].openInterest);
      i := i + 1;
    }
    assert pairs[..i] == pairs;
    TallyOfSums(pairs, pairs[0].0);
    var strategies := GenerateStrategies(pcr, iv);
    return Analysis(price, pcr, iv, MostInterest(strikeInterest).value, SentimentOf(pcr, iv), strategies);
  }

  /** The max-pain strike of a non-empty chain is a quoted strike whose summed
      open interest is at least that of every quoted strike. */
  lemma MaxPainIsBusiestStrike(chain: seq<AlpacaQuote>, price: real)
    requires chain != []
    ensures var a := AnalysisOf(chain, price);
            (exists i :: 0 <= i < |chain| && chain[i].strike == a.maxPain)
            && forall i :: 0 <= i < |chain| ==>
                 InterestAt(StrikePairs(chain), chain[i].strike) <= InterestAt(StrikePairs(chain), a.maxPain)
  {
    var pairs := StrikePairs(chain);
    var a := AnalysisOf(chain, price);
    TallyOfSums(pairs, a.maxPain);
    forall i | 0 <= i < |chain|
      ensures InterestAt(pairs, chain[i].strike) <= InterestAt(pairs, a.maxPain) {
      TallyOfSums(pairs, chain[i].strike);
    }
  }
}

/** The deterministic part of the Tradier options provider: splitting a chain
    payload into calls and puts, screening one side of the chain against
    liquidity and delta criteria, and the put/call ratio and max-open-interest
    strike of the options analysis. The HTTP requests are not modelled; their
    decoded payloads are the inputs here. */
module Tradier {
  import opened Numeric
  import opened Text
  import opened Sorting
  import opened ChainStats

  /** A numeric field of a quote as `float(...)`/`int(...)` sees it: absent
      (the `.get` default applies), unreadable (`None` or a non-numeric
      string, which raises), or a value. */
  datatype Field<T> = Missing | Unreadable | Given(value: T)

  /** One quote of the chain as the provider decodes it. `extrasReadable`
      says whether gamma, theta, vega, last, change and change_percentage
      all convert with `float`. */
  datatype Quote = Quote(
    symbol: Option<string>, optionType: Option<string>, expiration: Option<string>,
    strike: Field<real>, delta: Field<real>, volume: Field<int>, ask: Field<real>,
    bid: Field<real>, openInterest: Field<int>, extrasReadable: bool)

  /** `float(x.get(key, default))` */
  function Convert<T>(f: Field<T>, default: T): (r: Result<T>)
    ensures r.Failure? <==> f.Unreadable?
    ensures f.Given? ==> r == Success(f.value)
    ensures f.Missing? ==> r == Success(default)
  {
    match f
    case Missing => Success(default)
    case Unreadable => Failure("ValueError")
    case Given(v) => Success(v)
  }

  // ---------------------------------------------------------- chain split

  /** `data['options']['option']`: a list, a single quote, or nothing. */
  datatype Payload = Listed(quotes: seq<Quote>) | Single(quote: Quote) | Absent

  datatype Chain = Chain(calls: seq<Quote>, puts: seq<Quote>, totalContracts: nat)

  predicate IsCall(q: Quote) { q.optionType == Some("call") }
  predicate IsPut(q: Quote) { q.optionType == Some("put") }

  /** A single quote is wrapped into a list; nothing becomes an empty list. */
  function Options(p: Payload): (r: seq<Quote>)
    ensures p.Single? ==> r == [p.quote]
    ensures p.Absent? ==> r == []
  {
    match p
    case Listed(qs) => qs
    case Single(q) => [q]
    case Absent => []
  }

  /** The chain of `get_options_chain`. */
  function ChainOf(p: Payload): (r: Chain)
    ensures r.totalContracts == |Options(p)|
  {
    var options := Options(p);
    Chain(Filter(options, IsCall), Filter(options, IsPut), |options|)
  }

  /** Calls are exactly the quotes typed 'call' and puts those typed 'put',
      in payload order; together they never outnumber the payload. */
  lemma ChainSplit(p: Payload)
    ensures forall q :: q in ChainOf(p).calls <==> q in Options(p) && IsCall(q)
    ensures forall q :: q in ChainOf(p).puts <==> q in Options(p) && IsPut(q)
    ensures |ChainOf(p).calls| + |ChainOf(p).puts| <= ChainOf(p).totalContracts
  {
    SplitCount(Options(p));
  }

  lemma {:induction false} SplitCount(qs: seq<Quote>)
    ensures |Filter(qs, IsCall)| + |Filter(qs, IsPut)| <= |qs|
  {
    if qs != [] {
      SplitCount(qs[..|qs| - 1]);
      FilterAppend(qs[..|qs| - 1], qs[|qs| - 1], IsCall);
      FilterAppend(qs[..|qs| - 1], qs[|qs| - 1], IsPut);
      assert qs[..|qs| - 1] + [qs[|qs| - 1]] == qs;
    }
  }

  // ------------------------------------------------------- contract screen

  datatype Criteria = Criteria(minDelta: real, maxDelta: real, minVolume: int, maxAsk: real, minOpenInterest: int)

  /** The defaults of `filter_contracts`. */
  const DefaultCriteria := Criteria(0.4, 0.6, 100, 5.0, 500)

  /** The five fields every quote is read for before it is screened. */
  datatype Reading = Reading(delta: real, volume: int, ask: real, openInterest: int, bid: real)

  function ReadQuote(q: Quote): (r: Result<Reading>)
    ensures r.Success? ==> r.value.delta >= 0.0
    ensures r.Failure? <==> q.delta.Unreadable? || q.volume.Unreadable? || q.ask.Unreadable?
                            || q.openInterest.Unreadable? || q.bid.Unreadable?
  {
    match (Convert(q.delta, 0.0), Convert(q.volume, 0), Convert(q.ask, 999.0), Convert(q.openInterest, 0), Convert(q.bid, 0.0))
    case (Success(d), Success(v), Success(a), Success(oi), Success(b)) => Success(Reading(Abs(d), v, a, oi, b))
    case _ => Failure("ValueError")
  }

  predicate Passes(rd: Reading, c: Criteria)
  {
    c.minDelta <= rd.delta <= c.maxDelta && rd.volume >= c.minVolume && rd.ask <= c.maxAsk
    && rd.ask > 0.0 && rd.openInterest >= c.minOpenInterest && rd.bid > 0.0
  }

  datatype Listing = Listing(
    symbol: Option<string>, strike: real, expiration: Option<string>, ask: real, bid: real,
    delta: real, volume: int, openInterest: int, kind: string)

  /** The criteria as a property of a shortlisted contract. */
  predicate Meets(l: Listing, c: Criteria)
  {
    Passes(Reading(l.delta, l.volume, l.ask, l.openInterest, l.bid), c)
  }

  /** The record built for a quote that passed: `float(contract.get('strike'))`
      raises on a missing strike, and the remaining `float` conversions may
      raise too. */
  function ListingOf(q: Quote, rd: Reading, optionType: string): (r: Result<Listing>)
    ensures r.Success? <==> q.strike.Given? && q.extrasReadable
    ensures r.Success? ==> (r.value.kind == Upper(optionType) && r.value.strike == q.strike.value
                            && r.value.symbol == q.symbol && r.value.delta == rd.delta
                            && r.value.volume == rd.volume && r.value.ask == rd.ask
                            && r.value.openInterest == rd.openInterest && r.value.bid == rd.bid)
  {
    if !q.strike.Given? || !q.extrasReadable then Failure("TypeError")
    else Success(Listing(q.symbol, q.strike.value, q.expiration, rd.ask, rd.bid, rd.delta,
                         rd.volume, rd.openInterest, Upper(optionType)))
  }

  /** One step of the screening loop over `kept`, the listings so far. */
  function ScreenStep(kept: seq<Listing>, q: Quote, optionType: string, c: Criteria): (r: Result<seq<Listing>>)
  {
    match ReadQuote(q)
    case Failure(e) => Failure(e)
    case Success(rd) =>
      if !Passes(rd, c) then Success(kept)
      else
        match ListingOf(q, rd, optionType)
        case Failure(e) => Failure(e)
        case Success(l) => Success(kept + [l])
  }

  /** The listings kept from a prefix of one chain side, in chain order; any
      conversion error aborts the whole screen. */
  function Screen(quotes: seq<Quote>, optionType: string, c: Criteria): (r: Result<seq<Listing>>)
    ensures r.Success? ==> |r.value| <= |quotes|
    ensures r.Success? ==> forall l :: l in r.value ==> Meets(l, c) && l.kind == Upper(optionType)
  {
    if quotes == [] then Success([])
    else
      match Screen(quotes[..|quotes| - 1], optionType, c)
      case Failure(e) => Failure(e)
      case Success(kept) => ScreenStep(kept, quotes[|quotes| - 1], optionType, c)
  }

  lemma ScreenNext(quotes: seq<Quote>, optionType: string, c: Criteria, i: nat)
    requires i < |quotes|
    ensures var prev := Screen(quotes[..i], optionType, c);
            Screen(quotes[..i + 1], optionType, c)
            == if prev.Failure? then Failure(prev.error) else ScreenStep(prev.value, quotes[i], optionType, c)
  {
    assert quotes[..i + 1][..i] == quotes[..i];
  }

  lemma {:induction false} ScreenFailureSticks(quotes: seq<Quote>, optionType: string, c: Criteria, i: nat, j: nat)
    requires i <= j <= |quotes| && Screen(quotes[..i], optionType, c).Failure?
    ensures Screen(quotes[..j], optionType, c).Failure?
    decreases j - i
  {
    if i < j {
      ScreenFailureSticks(quotes, optionType, c, i, j - 1);
      assert quotes[..j][..j - 1] == quotes[..j - 1];
    }
  }

  /** A quote whose delta, volume, ask, open interest or bid cannot be read
      makes the screen fail, whatever the other quotes hold. */
  lemma UnreadableFails(quotes: seq<Quote>, optionType: string, c: Criteria, k: nat)
    requires k < |quotes| && ReadQuote(quotes[k]).Failure?
    ensures Screen(quotes, optionType, c).Failure?
  {
    assert quotes[..k + 1][..k] == quotes[..k];
    assert Screen(quotes[..k + 1], optionType, c).Failure?;
    ScreenFailureSticks(quotes, optionType, c, k + 1, |quotes|);
    assert quotes[..|quotes|] == quotes;
  }

  /** Every kept listing comes from a quote of the side that passed the
      criteria. */
  lemma {:induction false} ScreenSound(quotes: seq<Quote>, optionType: string, c: Criteria, l: Listing)
    requires Screen(quotes, optionType, c).Success? && l in Screen(quotes, optionType, c).value
    ensures exists q :: q in quotes && ReadQuote(q).Success? && Passes(ReadQuote(q).value, c)
                        && ListingOf(q, ReadQuote(q).value, optionType) == Success(l)
  {
    var init := quotes[..|quotes| - 1];
    var q := quotes[|quotes| - 1];
    var kept := Screen(init, optionType, c).value;
    if l in kept {
      ScreenSound(init, optionType, c, l);
      var p :| p in init && ReadQuote(p).Success? && Passes(ReadQuote(p).value, c)
               && ListingOf(p, ReadQuote(p).value, optionType) == Success(l);
      assert p in quotes;
    } else {
      assert q in quotes;
    }
  }

  /** `(volume, 1 - abs(delta - 0.5))` with `reverse=True`: more volume first,
      and on equal volume the delta closer to 0.5 first. */
  function Liquidity(a: Listing, b: Listing): bool
  {
    a.volume > b.volume || (a.volume == b.volume && 1.0 - Abs(a.delta - 0.5) > 1.0 - Abs(b.delta - 0.5))
  }

  lemma LiquidityIsStrictWeakOrder()
    ensures StrictWeakOrder(Liquidity)
  {
  }

  /** `options_chain.get('calls' if option_type.lower() == 'call' else 'puts')` */
  function Side(chain: Chain, optionType: string): (r: seq<Quote>)
  {
    if Lower(optionType) == "call" then chain.calls else chain.puts
  }

  /** What `filter_contracts` returns: the top ten of the sorted listings, or
      nothing when a conversion failed. */
  function Shortlisted(chain: Chain, optionType: string, c: Criteria): (r: seq<Listing>)
    ensures |r| <= 10
  {
    match Screen(Side(chain, optionType), optionType, c)
    case Failure(_) => []
    case Success(kept) => Take(SortBy(kept, Liquidity), 10)
  }

  /** `filter_contracts` */
  method FilterContracts(chain: Chain, optionType: string, c: Criteria) returns (r: seq<Listing>)
    ensures r == Shortlisted(chain, optionType, c)
  {
    var contracts := Side(chain, optionType);
    var filtered: seq<Listing> := [];
    var i := 0;
    while i < |contracts|
      invariant 0 <= i <= |contracts|
      invariant Screen(contracts[..i], optionType, c) == Success(filtered)
    {
      ScreenNext(contracts, optionType, c, i);
      var q := contracts[i];
      var rd := ReadQuote(q);
      if rd.Failure? {
        ScreenFailureSticks(contracts, optionType, c, i + 1, |contracts|);
        assert contracts[..|contracts|] == contracts;
        return [];
      }
      if Passes(rd.value, c) {
        var l := ListingOf(q, rd.value, optionType);
        if l.Failure? {
          ScreenFailureSticks(contracts, optionType, c, i + 1, |contracts|);
          assert contracts[..|contracts|] == contracts;
          return [];
        }
        filtered := filtered + [l.value];
      }
      i := i + 1;
    }
    assert contracts[..i] == contracts;
    var sorted := SortBy(filtered, Liquidity);
    return Take(sorted, 10);
  }

  /** The screen keeps every quote of the side that reads, passes the
      criteria and builds a listing. */
  lemma {:induction false} ScreenComplete(quotes: seq<Quote>, optionType: string, c: Criteria, q: Quote)
    requires Screen(quotes, optionType, c).Success?
    requires q in quotes && ReadQuote(q).Success? && Passes(ReadQuote(q).value, c)
    requires ListingOf(q, ReadQuote(q).value, optionType).Success?
    ensures ListingOf(q, ReadQuote(q).value, optionType).value in Screen(quotes, optionType, c).value
  {
    var init := quotes[..|quotes| - 1];
    var kept := Screen(init, optionType, c).value;
    assert quotes == init + [quotes[|quotes| - 1]];
    if q != quotes[|quotes| - 1] {
      assert q in init;
      ScreenComplete(init, optionType, c, q);
    }
  }

  /** A screen that succeeded built a listing for every quote that passed. */
  lemma {:induction false} ScreenPassingBuilds(quotes: seq<Quote>, optionType: string, c: Criteria, q: Quote)
    requires Screen(quotes, optionType, c).Success? && q in quotes
    requires ReadQuote(q).Success? && Passes(ReadQuote(q).value, c)
    ensures ListingOf(q, ReadQuote(q).value, optionType).Success?
  {
    var init := quotes[..|quotes| - 1];
    assert quotes == init + [quotes[|quotes| - 1]];
    if q != quotes[|quotes| - 1] {
      assert q in init;
      ScreenPassingBuilds(init, optionType, c, q);
    }
  }

  /** The first ten listings by liquidity are the ten most liquid: no
      listing left out ranks ahead of one taken. */
  lemma MostLiquid(kept: seq<Listing>)
    ensures var r := Take(SortBy(kept, Liquidity), 10);
            && |r| == (if |kept| < 10 then |kept| else 10)
            && multiset(r) <= multiset(kept)
            && forall a, b :: a in r && b in multiset(kept) - multiset(r) ==> !Liquidity(b, a)
  {
    LiquidityIsStrictWeakOrder();
    TopOf(kept, 10, Liquidity);
  }

  /** The shortlist is nothing when the screen failed, and otherwise the
      ten most liquid screened listings (all of them when fewer): no screened
      listing left out has more volume than a shortlisted one, or equal
      volume and a delta closer to 0.5 (`Liquidity`). */
  lemma ShortlistedMostLiquid(chain: Chain, optionType: string, c: Criteria)
    ensures var r := Shortlisted(chain, optionType, c);
            var s := Screen(Side(chain, optionType), optionType, c);
            && (s.Failure? ==> r == [])
            && (s.Success? ==>
                  && |r| == (if |s.value| < 10 then |s.value| else 10)
                  && multiset(r) <= multiset(s.value)
                  && forall a, b :: a in r && b in multiset(s.value) - multiset(r) ==> !Liquidity(b, a))
  {
    var s := Screen(Side(chain, optionType), optionType, c);
    if s.Success? {
      MostLiquid(s.value);
    }
  }

  /** At most ten contracts, each of the requested type, each meeting every
      criterion, by volume descending and on equal volume with delta no
      farther from 0.5 than the next. */
  lemma ShortlistedShape(chain: Chain, optionType: string, c: Criteria)
    ensures var r := Shortlisted(chain, optionType, c);
            |r| <= 10
            && (forall l :: l in r ==> Meets(l, c) && l.kind == Upper(optionType))
            && (forall i, j :: 0 <= i < j < |r| ==> r[i].volume >= r[j].volume)
            && (forall i, j :: 0 <= i < j < |r| && r[i].volume == r[j].volume
                  ==> Abs(r[i].delta - 0.5) <= Abs(r[j].delta - 0.5))
  {
    var s := Screen(Side(chain, optionType), optionType, c);
    if s.Success? {
      var kept := s.value;
      var sorted := SortBy(kept, Liquidity);
      LiquidityIsStrictWeakOrder();
      SortByOrdered(kept, Liquidity);
      var r := Take(sorted, 10);
      forall l | l in r ensures Meets(l, c) && l.kind == Upper(optionType) {
        assert l in multiset(sorted);
        assert l in kept;
      }
      forall i, j | 0 <= i < j < |r| ensures r[i].volume >= r[j].volume
                                       && (r[i].volume == r[j].volume ==> Abs(r[i].delta - 0.5) <= Abs(r[j].delta - 0.5)) {
        assert !Liquidity(sorted[j], sorted[i]);
      }
    }
  }

  /** The requested side is the calls for any casing of "call" and the puts
      for anything else. */
  lemma SideChoice(chain: Chain, optionType: string)
    ensures Lower(optionType) == "call" ==> Side(chain, optionType) == chain.calls
    ensures Lower(optionType) != "call" ==> Side(chain, optionType) == chain.puts
  {
  }

  // ------------------------------------------------------------ aggregates

  /** `sum(int(c.get('volume', 0)) for c in quotes)` */
  function TotalVolume(quotes: seq<Quote>): (r: Result<int>)
    ensures r.Failure? <==> exists i :: 0 <= i < |quotes| && quotes[i].volume.Unreadable?
  {
    if quotes == [] then Success(0)
    else
      var last := quotes[|quotes| - 1];
      match (TotalVolume(quotes[..|quotes| - 1]), Convert(last.volume, 0))
      case (Success(a), Success(b)) =>
        assert forall i :: 0 <= i < |quotes| - 1 ==> quotes[i] == quotes[..|quotes| - 1][i];
        Success(a + b)
      case (Failure(e), _) =>
        var i :| 0 <= i < |quotes| - 1 && quotes[..|quotes| - 1][i].volume.Unreadable?;
        assert quotes[i].volume.Unreadable?;
        Failure(e)
      case (_, Failure(e)) => Failure(e)
  }

  /** The (strike, open interest) pairs of the analysed quotes: `float(strike,
      default 0)` and `int(open_interest, default 0)`. */
  function StrikePairs(quotes: seq<Quote>): (r: Result<seq<(real, int)>>)
    ensures r.Success? ==> |r.value| == |quotes|
  {
    if quotes == [] then Success([])
    else
      var last := quotes[|quotes| - 1];
      match (StrikePairs(quotes[..|quotes| - 1]), Convert(last.strike, 0.0), Convert(last.openInterest, 0))
      case (Success(ps), Success(s), Success(oi)) => Success(ps + [(s, oi)])
      case _ => Failure("ValueError")
  }

  datatype ChainSummary = ChainSummary(
    putCallRatio: real, maxPain: real, totalCallVolume: int, totalPutVolume: int,
    totalContracts: nat, callsCount: nat, putsCount: nat)

  /** `get_options_analysis` once the price and chain are fetched: a falsy
      price is an error, a conversion failure is an error, and the max-pain
      strike falls back to the current price for an empty chain. */
  function AnalysisOf(chain: Chain, currentPrice: real): (r: Result<ChainSummary>)
    ensures currentPrice == 0.0 ==> r.Failure?
    ensures currentPrice != 0.0 && chain.calls == [] && chain.puts == [] ==>
              r == Success(ChainSummary(0.0, Round2(currentPrice), 0, 0, 0, 0, 0))
    ensures r.Success? ==> r.value.totalContracts == r.value.callsCount + r.value.putsCount
                           && r.value.callsCount == |chain.calls| && r.value.putsCount == |chain.puts|
  {
    if currentPrice == 0.0 then Failure("Unable to fetch current price")
    else
      match (TotalVolume(chain.calls), TotalVolume(chain.puts), StrikePairs(chain.calls + chain.puts))
      case (Success(cv), Success(pv), Success(pairs)) =>
        var most := MostInterest(TallyOf(pairs));
        var maxPain := if most.Some? then most.value else currentPrice;
        Success(ChainSummary(Round2(PutCallRatio(pv, cv)), Round2(maxPain), cv, pv,
                          |chain.calls + chain.puts|, |chain.calls|, |chain.puts|))
      case _ => Failure("Failed to get options analysis")
  }

  /** `get_options_analysis`, with the strike dictionary filled by a loop. */
  method Analyze(chain: Chain, currentPrice: real) returns (r: Result<ChainSummary>)
    ensures r == AnalysisOf(chain, currentPrice)
  {
    if currentPrice == 0.0 {
      return Failure("Unable to fetch current price");
    }
    var cv := TotalVolume(chain.calls);
    var pv := TotalVolume(chain.puts);
    var all := chain.calls + chain.puts;
    var pairs := StrikePairs(all);
    if cv.Failure? || pv.Failure? || pairs.Failure? {
      return Failure("Failed to get options analysis");
    }
    var strikeInterest := Tally([], map[]);
    var i := 0;
    while i < |pairs.value|
      invariant 0 <= i <= |pairs.value|
      invariant strikeInterest == TallyOf(pairs.value[..i])
    {
      assert pairs.value[..i + 1][..i] == pairs.value[..i];
      strikeInterest := Add(strikeInterest, pairs.value[i].0, pairs.value[i].1);
      i := i + 1;
    }
    assert pairs.value[..i] == pairs.value;
    var most := MostInterest(strikeInterest);
    var maxPain := if most.Some? then most.value else currentPrice;
    return Success(ChainSummary(Round2(PutCallRatio(pv.value, cv.value)), Round2(maxPain), cv.value, pv.value,
                             |all|, |chain.calls|, |chain.puts|));
  }

  /** The unrounded max-pain strike is a quoted strike whose summed open
      interest is at least that of every other quoted strike; with no quotes
      it is the current price. */
  lemma MaxPainIsBusiestStrike(pairs: seq<(real, int)>, currentPrice: real)
    ensures var most := MostInterest(TallyOf(pairs));
            (pairs == [] ==> most.None?)
            && (most.Some? ==> ((exists i :: 0 <= i < |pairs| && pairs[i].0 == most.value)
                                && forall i :: 0 <= i < |pairs| ==> InterestAt(pairs, pairs[i].0) <= InterestAt(pairs, most.value)))
  {
    var t := TallyOf(pairs);
    var most := MostInterest(t);
    if pairs == [] {
      assert t.strikes == [];
    }
    if most.Some? {
      TallyOfSums(pairs, most.value);
      forall i | 0 <= i < |pairs| ensures InterestAt(pairs, pairs[i].0) <= InterestAt(pairs, most.value) {
        TallyOfSums(pairs, pairs[i].0);
      }
    }
  }
}

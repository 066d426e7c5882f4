/** The question-answering agent (modeling/agent.py): ticker symbols are
    picked out of a plain-language goal, each symbol's twin snapshot is
    tallied into bullish and bearish reasons, and the counts decide between
    buy, sell and wait. The SQLite database is a value holding the distinct
    symbols and each symbol's price frame with its indicator series. */
module Agent {
  import opened Numeric
  import opened Text
  import opened Sorting
  import opened Frames
  import opened Twin

  // ------------------------------------------------------------ symbol tokens

  predicate IsUpper(c: char) { 'A' <= c <= 'Z' }

  /** A regex word character (`\w`), ASCII only. */
  predicate IsWordChar(c: char)
  {
    'A' <= c <= 'Z' || 'a' <= c <= 'z' || '0' <= c <= '9' || c == '_'
  }

  /** The end of the run of capital letters starting at `i`. */
  function RunEnd(s: string, i: nat): (j: nat)
    requires i <= |s|
    ensures i <= j <= |s|
    ensures forall k :: i <= k < j ==> IsUpper(s[k])
    ensures j == |s| || !IsUpper(s[j])
    decreases |s| - i
  {
    if i == |s| || !IsUpper(s[i]) then i else RunEnd(s, i + 1)
  }

  /** `w` occurs at `i` as a whole word of one to five capital letters: the
      characters around it, if any, are not word characters. */
  predicate WholeWordAt(s: string, w: string, i: nat)
  {
    && 1 <= |w| <= 5
    && (forall k :: 0 <= k < |w| ==> IsUpper(w[k]))
    && i + |w| <= |s| && s[i..i + |w|] == w
    && (i == 0 || !IsWordChar(s[i - 1]))
    && (i + |w| == |s| || !IsWordChar(s[i + |w|]))
  }

  /** Where `\b[A-Z]{1,5}\b` matches: a run of capitals that starts after a
      non-word character, is at most five long and ends before one. */
  predicate TokenStart(s: string, i: nat)
    requires i < |s|
  {
    var j := RunEnd(s, i);
    && IsUpper(s[i])
    && (i == 0 || !IsWordChar(s[i - 1]))
    && j - i <= 5
    && (j == |s| || !IsWordChar(s[j]))
  }

  /** The matches of `re.findall(r'\b[A-Z]{1,5}\b', s)` starting at `i` or later,
      in order of position. */
  function TokensFrom(s: string, i: nat): seq<string>
    requires i <= |s|
    decreases |s| - i
  {
    if i == |s| then []
    else if TokenStart(s, i) then [s[i..RunEnd(s, i)]] + TokensFrom(s, i + 1)
    else TokensFrom(s, i + 1)
  }

  function Tokens(s: string): (r: seq<string>)
    ensures forall w :: w in r ==> 1 <= |w| <= 5 && forall k :: 0 <= k < |w| ==> IsUpper(w[k])
  {
    TokensFromWholeWords(s, 0);
    TokensFrom(s, 0)
  }

  /** A match at `i` is a whole word, and a whole word at `i` is the match there. */
  lemma TokenStartIsWholeWord(s: string, w: string, i: nat)
    requires i < |s|
    ensures TokenStart(s, i) ==> WholeWordAt(s, s[i..RunEnd(s, i)], i)
    ensures WholeWordAt(s, w, i) ==> TokenStart(s, i) && w == s[i..RunEnd(s, i)]
  {
    if WholeWordAt(s, w, i) {
      var m := i + |w|;
      forall k | i <= k < m ensures IsUpper(s[k]) {
        assert s[k] == w[k - i];
      }
      assert RunEnd(s, i) == m;
    }
  }

  lemma {:induction false} TokensFromWholeWords(s: string, i: nat)
    requires i <= |s|
    ensures forall w :: w in TokensFrom(s, i) <==> exists k :: i <= k && WholeWordAt(s, w, k)
    decreases |s| - i
  {
    if i == |s| {
      forall w, k | i <= k && WholeWordAt(s, w, k) ensures false {
      }
    } else {
      TokensFromWholeWords(s, i + 1);
      forall w ensures w in TokensFrom(s, i) <==> exists k :: i <= k && WholeWordAt(s, w, k) {
        TokenStartIsWholeWord(s, w, i);
        if w in TokensFrom(s, i) && !(w in TokensFrom(s, i + 1)) {
          assert WholeWordAt(s, w, i);
        }
        if WholeWordAt(s, w, i) {
          assert w in TokensFrom(s, i);
        }
      }
    }
  }

  /** Every token is a whole word of one to five capitals somewhere in the
      goal, and every such word is a token. */
  lemma TokensAreWholeWords(s: string, w: string)
    ensures w in Tokens(s) <==> exists k :: WholeWordAt(s, w, k)
  {
    TokensFromWholeWords(s, 0);
  }

  /** The whole word of one to five capitals at `i`, looked for from length
      `len` up: the shortest, which is the only one. */
  function WordFrom(s: string, i: nat, len: nat): (r: Option<string>)
    requires 1 <= len
    ensures r.Some? ==> WholeWordAt(s, r.value, i)
    ensures r.None? ==> forall w :: WholeWordAt(s, w, i) ==> |w| < len
    decreases 6 - len
  {
    if len > 5 then None
    else if i + len <= |s| && WholeWordAt(s, s[i..i + len], i) then Some(s[i..i + len])
    else WordFrom(s, i, len + 1)
  }

  /** The whole words of one to five capitals at position `i` or later, in
      order of position: stated by `WholeWordAt` alone, without the run
      scanning of `TokensFrom`. */
  function WholeWordsFrom(s: string, i: nat): seq<string>
    requires i <= |s|
    decreases |s| - i
  {
    if i == |s| then []
    else
      match WordFrom(s, i, 1)
      case Some(w) => [w] + WholeWordsFrom(s, i + 1)
      case None => WholeWordsFrom(s, i + 1)
  }

  /** A match starts at `i` exactly when a whole word does, and it is that word. */
  lemma WordFromIsToken(s: string, i: nat)
    requires i < |s|
    ensures WordFrom(s, i, 1).Some? <==> TokenStart(s, i)
    ensures TokenStart(s, i) ==> WordFrom(s, i, 1) == Some(s[i..RunEnd(s, i)])
  {
    var w := s[i..RunEnd(s, i)];
    TokenStartIsWholeWord(s, w, i);
    if WordFrom(s, i, 1).Some? {
      TokenStartIsWholeWord(s, WordFrom(s, i, 1).value, i);
    }
  }

  /** The matches of the scan are the whole words, in the same order and
      with the same repeats. */
  lemma {:induction false} TokensFromInOrder(s: string, i: nat)
    requires i <= |s|
    ensures TokensFrom(s, i) == WholeWordsFrom(s, i)
    decreases |s| - i
  {
    if i < |s| {
      WordFromIsToken(s, i);
      TokensFromInOrder(s, i + 1);
      if TokenStart(s, i) {
        var w := s[i..RunEnd(s, i)];
        assert TokensFrom(s, i) == [w] + TokensFrom(s, i + 1);
        assert WholeWordsFrom(s, i) == [w] + WholeWordsFrom(s, i + 1);
      } else {
        assert TokensFrom(s, i) == TokensFrom(s, i + 1);
        assert WholeWordsFrom(s, i) == WholeWordsFrom(s, i + 1);
      }
    }
  }

  // ------------------------------------------------------------------ parsing

  datatype Action = BuyAction | SellAction | NoAction

  /** `'buy' in goal.lower()` wins over `'sell'`. */
  function GoalAction(goal: string): (a: Action)
    ensures a == BuyAction <==> Contains(Lower(goal), "buy")
    ensures a == SellAction <==> !Contains(Lower(goal), "buy") && Contains(Lower(goal), "sell")
    ensures a == NoAction <==> !Contains(Lower(goal), "buy") && !Contains(Lower(goal), "sell")
  {
    var g := Lower(goal);
    if Contains(g, "buy") then BuyAction
    else if Contains(g, "sell") then SellAction
    else NoAction
  }

  /** The tokens that are known symbols, in order of appearance, repeats kept. */
  function Symbols(goal: string, known: set<string>): (r: seq<string>)
    ensures r == KnownOnly(WholeWordsFrom(goal, 0), known)
    ensures forall w :: w in r <==> w in known && exists k :: WholeWordAt(goal, w, k)
  {
    var r := KnownOnly(Tokens(goal), known);
    TokensFromInOrder(goal, 0);
    forall w ensures w in r <==> w in known && exists k :: WholeWordAt(goal, w, k) {
      TokensAreWholeWords(goal, w);
    }
    r
  }

  /** The words of `ws` that are in `known`, in order, repeats kept:
      `[s for s in ws if s in known]`. */
  function KnownOnly(ws: seq<string>, known: set<string>): (r: seq<string>)
    ensures forall w :: w in r <==> w in ws && w in known
  {
    if ws == [] then []
    else if ws[0] in known then [ws[0]] + KnownOnly(ws[1..], known)
    else KnownOnly(ws[1..], known)
  }

  /** `parse_goal` as written: `get_symbols` is neither defined in nor
      imported into the module, so the first line raises `NameError`. */
  function ParseGoalAsWritten(goal: string): (r: Result<(seq<string>, Action)>)
  {
    Failure("NameError: name 'get_symbols' is not defined")
  }

  /** No goal, whatever it says, gets past the symbol lookup as written. */
  lemma ParseGoalAsWrittenAlwaysRaises(goal: string)
    ensures ParseGoalAsWritten(goal).Failure?
    ensures ParseGoalAsWritten("Should I buy AAPL?") != Success((["AAPL"], BuyAction))
  {
  }

  // ------------------------------------------------------------------ reasons

  function AddIf(acc: seq<string>, c: bool, reason: string): (r: seq<string>)
    ensures r == if c then acc + [reason] else acc
  {
    if c then acc + [reason] else acc
  }

  function SignalLabels(signals: seq<Signal>): (r: seq<string>)
    ensures |r| == |signals| && forall i :: 0 <= i < |signals| ==> r[i] == Label(signals[i])
  {
    seq(|signals|, i requires 0 <= i < |signals| => Label(signals[i]))
  }

  /** The bullish reasons, in the order `reason` tests them. */
  function Bullish(st: State): seq<string>
  {
    var b1 := AddIf([], st.aboveEma9 && st.aboveEma20 && st.aboveVwap, "Price above EMAs and VWAP");
    var b2 := AddIf(b1, st.macdCross, "MACD bullish crossover");
    var b3 := AddIf(b2, st.goldenCross, "Golden cross event");
    var b4 := AddIf(b3, Lt(st.rsi, Some(35.0)), "RSI oversold");
    var b5 := AddIf(b4, "EMA bounce" in SignalLabels(st.signals), "EMA bounce");
    AddIf(b5, st.squeezeOn, "TTM Squeeze (potential breakout)")
  }

  /** The bearish reasons, in the order `reason` tests them. */
  function Bearish(st: State): seq<string>
  {
    var n1 := AddIf([], !st.aboveEma9 && !st.aboveEma20 && !st.aboveVwap, "Price below EMAs and VWAP");
    var n2 := AddIf(n1, !st.macdCross, "MACD bearish or no cross");
    var n3 := AddIf(n2, Gt(st.rsi, Some(70.0)), "RSI overbought");
    var n4 := AddIf(n3, st.trend == "Trending Down", "Downtrend");
    AddIf(n4, st.squeezeOn, "TTM Squeeze (potential breakdown)")
  }

  /** No signal the twin emits is labelled "EMA bounce", so that reason never fires. */
  lemma EmaBounceNeverFires(signals: seq<Signal>)
    ensures "EMA bounce" !in SignalLabels(signals)
  {
    forall i | 0 <= i < |signals| ensures SignalLabels(signals)[i] != "EMA bounce" {
      assert |Label(signals[i])| != |"EMA bounce"|;
    }
  }

  /** At most five bullish reasons (the sixth, the EMA bounce, cannot fire)
      and at most five bearish ones. */
  lemma ReasonCounts(st: State)
    ensures |Bullish(st)| <= 5 && |Bearish(st)| <= 5
  {
    EmaBounceNeverFires(st.signals);
  }

  /** A reason of another length is in `AddIf(acc, c, reason)` exactly when it is in `acc`. */
  lemma AddIfOther(acc: seq<string>, c: bool, reason: string, x: string)
    requires |x| != |reason|
    ensures x in AddIf(acc, c, reason) <==> x in acc
  {
    if c {
      assert AddIf(acc, c, reason) == acc + [reason];
      assert x != reason;
    }
  }

  /** The "above EMAs and VWAP" reason fires only when the price is above all three. */
  lemma AboveFires(st: State)
    ensures "Price above EMAs and VWAP" in Bullish(st) ==> st.aboveEma9 && st.aboveEma20 && st.aboveVwap
  {
    var x := "Price above EMAs and VWAP";
    var b1 := AddIf([], st.aboveEma9 && st.aboveEma20 && st.aboveVwap, x);
    var b2 := AddIf(b1, st.macdCross, "MACD bullish crossover");
    var b3 := AddIf(b2, st.goldenCross, "Golden cross event");
    var b4 := AddIf(b3, Lt(st.rsi, Some(35.0)), "RSI oversold");
    var b5 := AddIf(b4, "EMA bounce" in SignalLabels(st.signals), "EMA bounce");
    AddIfOther(b5, st.squeezeOn, "TTM Squeeze (potential breakout)", x);
    AddIfOther(b4, "EMA bounce" in SignalLabels(st.signals), "EMA bounce", x);
    AddIfOther(b3, Lt(st.rsi, Some(35.0)), "RSI oversold", x);
    AddIfOther(b2, st.goldenCross, "Golden cross event", x);
    AddIfOther(b1, st.macdCross, "MACD bullish crossover", x);
  }

  /** The "below EMAs and VWAP" reason fires only when the price is below all three. */
  lemma BelowFires(st: State)
    ensures "Price below EMAs and VWAP" in Bearish(st) ==> !st.aboveEma9 && !st.aboveEma20 && !st.aboveVwap
  {
    var x := "Price below EMAs and VWAP";
    var n1 := AddIf([], !st.aboveEma9 && !st.aboveEma20 && !st.aboveVwap, x);
    var n2 := AddIf(n1, !st.macdCross, "MACD bearish or no cross");
    var n3 := AddIf(n2, Gt(st.rsi, Some(70.0)), "RSI overbought");
    var n4 := AddIf(n3, st.trend == "Trending Down", "Downtrend");
    AddIfOther(n4, st.squeezeOn, "TTM Squeeze (potential breakdown)", x);
    AddIfOther(n3, st.trend == "Trending Down", "Downtrend", x);
    AddIfOther(n2, Gt(st.rsi, Some(70.0)), "RSI overbought", x);
    AddIfOther(n1, !st.macdCross, "MACD bearish or no cross", x);
  }

  /** "above EMAs and VWAP" and "below EMAs and VWAP" never both fire. */
  lemma AboveBelowExclusive(st: State)
    ensures "Price above EMAs and VWAP" in Bullish(st) ==> "Price below EMAs and VWAP" !in Bearish(st)
  {
    AboveFires(st);
    BelowFires(st);
  }

  /** The squeeze adds one reason to each side, so it never moves the balance. */
  lemma SqueezeBalanced(st: State)
    ensures |Bullish(st.(squeezeOn := true))| == |Bullish(st.(squeezeOn := false))| + 1
    ensures |Bearish(st.(squeezeOn := true))| == |Bearish(st.(squeezeOn := false))| + 1
  {
  }

  /** The MACD cross moves exactly one reason from the bearish to the bullish side. */
  lemma MacdOneSided(st: State)
    ensures |Bullish(st.(macdCross := true))| == |Bullish(st.(macdCross := false))| + 1
    ensures |Bearish(st.(macdCross := true))| + 1 == |Bearish(st.(macdCross := false))|
  {
  }

  // ---------------------------------------------------------------- decision

  datatype Verdict = Buy | Sell | Wait

  function Word(v: Verdict): string
  {
    match v
    case Buy => "buy"
    case Sell => "sell"
    case Wait => "wait"
  }

  /** One decision record `{decision, confidence, explanation}`. */
  datatype Decision = Decision(decision: Verdict, confidence: real, explanation: string)

  /** `round(max(nb, nn) / (nb + nn), 2)`, or 0.0 when nothing fires: the
      share of the larger side, at least one half. */
  function Confidence(nb: nat, nn: nat): (c: real)
    ensures nb + nn == 0 ==> c == 0.0
    ensures nb + nn > 0 ==> 0.5 <= c <= 1.0
    ensures nb + nn > 0 && (nb == 0 || nn == 0) ==> c == 1.0
  {
    if nb + nn == 0 then 0.0
    else
      var x := MaxInt(nb, nn) as real / (nb + nn) as real;
      ShareBounds(MaxInt(nb, nn) as real, (nb + nn) as real);
      Round2Between(x, 50, 100);
      Round2OfHundredths(100);
      Round2(x)
  }

  /** The larger of two parts is at least half and at most all of the total. */
  lemma ShareBounds(a: real, t: real)
    requires 0.0 < t <= 2.0 * a && a <= t
    ensures 50 as real / 100.0 <= a / t <= 100 as real / 100.0
    ensures a == t ==> a / t == 100 as real / 100.0
  {
    var x := a / t;
    assert x * t == a;
  }

  const MixedMessage := "Signals are mixed or unclear. No strong recommendation."
  const UnalignedMessage := "No clear alignment of signals."

  /** `reason(state)`: buy on three or more bullish reasons that outnumber
      the bearish ones, sell symmetrically, and otherwise wait with one of
      two fixed messages. */
  function Reason(st: State): (d: Decision)
    ensures var nb, nn := |Bullish(st)|, |Bearish(st)|;
            && (d.decision == Buy <==> nb >= 3 && nb > nn)
            && (d.decision == Sell <==> nn >= 3 && nn > nb)
            && (d.decision == Buy ==> d.explanation == Join(Bullish(st), "; "))
            && (d.decision == Sell ==> d.explanation == Join(Bearish(st), "; "))
            && (d.decision == Wait && (nb + nn == 0 || Abs((nb - nn) as real) < 2.0) ==>
                  d.explanation == MixedMessage)
            && (d.decision == Wait && nb + nn > 0 && Abs((nb - nn) as real) >= 2.0 ==>
                  d.explanation == UnalignedMessage)
            && d.confidence == Confidence(nb, nn)
  {
    var bull, bear := Bullish(st), Bearish(st);
    var nb, nn := |bull|, |bear|;
    var conf := Confidence(nb, nn);
    if nb >= 3 && nb > nn then Decision(Buy, conf, Join(bull, "; "))
    else if nn >= 3 && nn > nb then Decision(Sell, conf, Join(bear, "; "))
    else if nb + nn == 0 || Abs((nb - nn) as real) < 2.0 then Decision(Wait, conf, MixedMessage)
    else Decision(Wait, conf, UnalignedMessage)
  }

  /** Every snapshot fires at least one reason: the MACD test goes to one side
      or the other. So the confidence is never 0 and never below one half. */
  lemma ReasonAlwaysFires(st: State)
    ensures |Bullish(st)| + |Bearish(st)| >= 1
    ensures 0.5 <= Reason(st).confidence <= 1.0
  {
  }

  // ----------------------------------------------------------------- deciding

  /** The database as the agent sees it: the distinct symbols of the price
      table and, per symbol, its price frame with the indicator series the
      library computes for it. A symbol without an entry has no data. */
  datatype Database = Database(symbols: set<string>, prices: map<string, (Frame, IndicatorSeries)>)

  predicate DatabaseValid(db: Database)
  {
    forall s :: s in db.prices ==>
      var (f, ind) := db.prices[s];
      Valid(f) && HasPrices(f) && SeriesFit(ind, f.height)
  }

  /** `get_twin_state(symbol)`: no state for a missing or empty frame. */
  function StateFor(db: Database, symbol: string): Option<State>
    requires DatabaseValid(db)
  {
    if symbol in db.prices && db.prices[symbol].0.height > 0 then
      var (f, ind) := db.prices[symbol];
      Some(BuildState(LatestFromInputs(f, ind)))
    else None
  }

  function NoData(symbol: string): Decision
  {
    Decision(Wait, 0.0, "No data found for " + symbol + ".")
  }

  const NoSymbol := Decision(Wait, 0.0, "No symbol found in request.")

  /** The record `decide` stores for one symbol. */
  function RecordFor(db: Database, symbol: string): Decision
    requires DatabaseValid(db)
  {
    match StateFor(db, symbol)
    case None => NoData(symbol)
    case Some(st) => Reason(st)
  }

  /** What `decide` returns: one bare record, or one record per symbol. */
  datatype Answer = Single(record: Decision) | PerSymbol(results: map<string, Decision>)

  function Distinct(symbols: seq<string>): set<string>
  {
    set s | s in symbols
  }

  class StockAgent {
    const db: Database
    var knownSymbols: set<string>

    constructor (db: Database)
      ensures this.db == db && knownSymbols == {}
    {
      this.db := db;
      knownSymbols := {};
    }

    /** `parse_goal(goal)` with the symbol list read from the database, as
        intended: the known symbols are reloaded, then the whole-word capital
        tokens among them are kept in order. */
    method ParseGoal(goal: string) returns (symbols: seq<string>, action: Action)
      modifies this
      ensures knownSymbols == db.symbols
      ensures symbols == Symbols(goal, db.symbols) && action == GoalAction(goal)
    {
      knownSymbols := db.symbols;
      symbols := Symbols(goal, knownSymbols);
      action := GoalAction(goal);
    }

    /** `get_twin_state(symbol)`: builds the twin of a non-empty frame. */
    method GetTwinState(symbol: string) returns (r: Option<State>)
      requires DatabaseValid(db)
      ensures r == StateFor(db, symbol)
    {
      if symbol !in db.prices || db.prices[symbol].0.height == 0 {
        return None;
      }
      var (f, ind) := db.prices[symbol];
      var twin := new TwinState(f, ind);
      var st := twin.GetState();
      return Some(st);
    }

    /** The loop of `decide`: one record per distinct symbol, a symbol
        named twice keeping the record of its last visit. */
    method Records(symbols: seq<string>) returns (results: map<string, Decision>)
      requires DatabaseValid(db)
      ensures results.Keys == Distinct(symbols)
      ensures forall s :: s in results ==> results[s] == RecordFor(db, s)
    {
      results := map[];
      var i := 0;
      while i < |symbols|
        invariant 0 <= i <= |symbols|
        invariant results.Keys == Distinct(symbols[..i])
        invariant forall s :: s in results ==> results[s] == RecordFor(db, s)
      {
        var symbol := symbols[i];
        var st := GetTwinState(symbol);
        var record := if st.None? then NoData(symbol) else Reason(st.value);
        results := results[symbol := record];
        assert symbols[..i + 1] == symbols[..i] + [symbol];
        i := i + 1;
      }
      assert symbols[..i] == symbols;
    }

    /** `decide(goal)`: the no-symbol record when no known symbol is named;
        otherwise one record per distinct symbol, returned bare when there
        is only one. */
    method Decide(goal: string) returns (a: Answer)
      requires DatabaseValid(db)
      modifies this
      ensures var syms := Symbols(goal, db.symbols);
              && (syms == [] ==> a == Single(NoSymbol))
              && (|Distinct(syms)| == 1 ==> a == Single(RecordFor(db, syms[0])))
              && (|Distinct(syms)| > 1 ==>
                    a.PerSymbol? && a.results.Keys == Distinct(syms)
                    && forall s :: s in a.results ==> a.results[s] == RecordFor(db, s))
    {
      var symbols, _ := ParseGoal(goal);
      if symbols == [] {
        assert Distinct(symbols) == {};
        return Single(NoSymbol);
      }
      var results := Records(symbols);
      assert symbols[0] in results;
      if |results| > 1 {
        a := PerSymbol(results);
      } else {
        a := Single(results[symbols[0]]);
      }
    }
  }
}

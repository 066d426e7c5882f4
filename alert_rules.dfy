/** The alert rules (modeling/alerts/rules.py): predicates, confidence scorers
    and summary formatters over the twin's state dictionary. Each reads one
    key with `state.get(key, default)`; comparisons follow Python, where a
    boolean counts as 0/1, NaN compares false, and comparing a string or
    `None` with a number raises `TypeError`. */
module AlertRules {
  import opened Numeric
  import opened Twin
  import Text

  /** A Python value as it can appear in the state dictionary. */
  datatype Value = VNone | VBool(b: bool) | VNum(x: Num) | VText(s: string) | VList(items: seq<string>)

  type StateDict = map<string, Value>

  /** `bool(v)`: NaN is truthy, 0.0, "", [] and None are not. */
  predicate Truthy(v: Value)
  {
    match v
    case VNone => false
    case VBool(b) => b
    case VNum(x) => x.None? || x.value != 0.0
    case VText(s) => s != ""
    case VList(items) => items != []
  }

  /** `d.get(key, default)` */
  function Get(d: StateDict, key: string, default: Value): (v: Value)
    ensures key in d ==> v == d[key]
    ensures key !in d ==> v == default
  {
    if key in d then d[key] else default
  }

  /** The number a value stands for in a comparison (`True` is 1), or
      `None` when comparing it with a number raises `TypeError`. */
  function AsNumber(v: Value): Option<Num>
  {
    match v
    case VBool(b) => Some(Some(if b then 1.0 else 0.0))
    case VNum(x) => Some(x)
    case _ => None
  }

  /** `a >= b` between two values. */
  function GreaterEq(a: Value, b: Value): (r: Result<bool>)
    ensures r.Success? <==> AsNumber(a).Some? && AsNumber(b).Some?
    ensures r.Success? ==> (r.value <==> Ge(AsNumber(a).value, AsNumber(b).value))
  {
    match (AsNumber(a), AsNumber(b))
    case (Some(x), Some(y)) => Success(Ge(x, y))
    case _ => Failure("TypeError")
  }

  /** `str(v)`; `repr` renders a present float. */
  function Str(v: Value, repr: real -> string): string
  {
    match v
    case VNone => "None"
    case VBool(b) => if b then "True" else "False"
    case VNum(x) => if x.None? then "nan" else repr(x.value)
    case VText(s) => s
    case VList(items) => "[" + Text.Join(Quoted(items), ", ") + "]"
  }

  function Quoted(items: seq<string>): (r: seq<string>)
    ensures |r| == |items|
  {
    seq(|items|, i requires 0 <= i < |items| => "'" + items[i] + "'")
  }

  // ------------------------------------------------------------------ MACD

  /** `macd_bullish_crossover(state)`: the MACD_Cross entry, or False. */
  function MacdBullishCrossover(d: StateDict): (r: Value)
    ensures "MACD_Cross" in d ==> r == d["MACD_Cross"]
    ensures "MACD_Cross" !in d ==> r == VBool(false)
  {
    Get(d, "MACD_Cross", VBool(false))
  }

  /** `macd_confidence(state)`: 0.8 exactly when the cross is truthy. */
  function MacdConfidence(d: StateDict): (r: real)
    ensures r == 0.8 <==> Truthy(MacdBullishCrossover(d))
    ensures r == 0.0 <==> !Truthy(MacdBullishCrossover(d))
  {
    if Truthy(Get(d, "MACD_Cross", VBool(false))) then 0.8 else 0.0
  }

  function MacdSummary(d: StateDict, repr: real -> string): string
  {
    "MACD bullish crossover detected. MACD: " + Str(Get(d, "MACD_12_26_9", VNone), repr)
      + ", Signal: " + Str(Get(d, "MACDs_12_26_9", VNone), repr)
  }

  // ------------------------------------------------------------------- RSI

  function Rsi(d: StateDict): Value
  {
    Get(d, "RSI", VNum(Some(100.0)))
  }

  /** `rsi_oversold(state)`: RSI < 30, a missing RSI reading as 100. */
  function RsiOversold(d: StateDict): (r: Result<bool>)
    ensures r.Success? <==> AsNumber(Rsi(d)).Some?
    ensures r.Success? ==> (r.value <==> Lt(AsNumber(Rsi(d)).value, Some(30.0)))
  {
    match AsNumber(Rsi(d))
    case None => Failure("TypeError")
    case Some(x) => Success(Lt(x, Some(30.0)))
  }

  /** `rsi_confidence(state)`: 1.0 below 20, 0.8 below 30, else 0.0. */
  function RsiConfidence(d: StateDict): (r: Result<real>)
    ensures r.Success? <==> AsNumber(Rsi(d)).Some?
    ensures r.Success? ==> r.value == 1.0 || r.value == 0.8 || r.value == 0.0
  {
    match AsNumber(Rsi(d))
    case None => Failure("TypeError")
    case Some(x) =>
      if Lt(x, Some(20.0)) then Success(1.0)
      else if Lt(x, Some(30.0)) then Success(0.8)
      else Success(0.0)
  }

  function RsiSummary(d: StateDict, repr: real -> string): string
  {
    "RSI oversold: " + Str(Get(d, "RSI", VNone), repr)
  }

  /** Without an RSI entry the default of 100 never fires. */
  lemma RsiMissingNeverFires(d: StateDict)
    requires "RSI" !in d
    ensures RsiOversold(d) == Success(false) && RsiConfidence(d) == Success(0.0)
  {
  }

  /** The scorer is positive exactly when the predicate fires, and both raise
      on the same inputs. */
  lemma RsiConfidenceMatchesOversold(d: StateDict)
    ensures RsiConfidence(d).Success? <==> RsiOversold(d).Success?
    ensures RsiOversold(d).Success? ==> (RsiConfidence(d).value > 0.0 <==> RsiOversold(d).value)
  {
  }

  /** A higher RSI never gets a higher confidence. */
  lemma RsiConfidenceNonIncreasing(d: StateDict, x: real, y: real)
    requires x <= y
    ensures RsiConfidence(d["RSI" := VNum(Some(y))]).value <= RsiConfidence(d["RSI" := VNum(Some(x))]).value
  {
  }

  /** Exactly 1.0 below 20 and exactly 0.8 on [20, 30). */
  lemma RsiConfidenceBands(d: StateDict, x: real)
    ensures x < 20.0 ==> RsiConfidence(d["RSI" := VNum(Some(x))]) == Success(1.0)
    ensures 20.0 <= x < 30.0 ==> RsiConfidence(d["RSI" := VNum(Some(x))]) == Success(0.8)
    ensures 30.0 <= x ==> RsiConfidence(d["RSI" := VNum(Some(x))]) == Success(0.0)
  {
  }

  // -------------------------------------------------------------- registry

  /** The public names of the rules module, the ones a configuration can name. */
  datatype RuleFn =
    | MacdBullishCrossoverFn | MacdConfidenceFn | MacdSummaryFn
    | RsiOversoldFn | RsiConfidenceFn | RsiSummaryFn

  function FnName(f: RuleFn): string
  {
    match f
    case MacdBullishCrossoverFn => "macd_bullish_crossover"
    case MacdConfidenceFn => "macd_confidence"
    case MacdSummaryFn => "macd_summary"
    case RsiOversoldFn => "rsi_oversold"
    case RsiConfidenceFn => "rsi_confidence"
    case RsiSummaryFn => "rsi_summary"
  }

  /** `rule_func_map.get(name)` */
  function Resolve(name: string): (r: Option<RuleFn>)
    ensures r.Some? ==> FnName(r.value) == name
    ensures r.None? ==> forall f :: FnName(f) != name
  {
    if name == "macd_bullish_crossover" then Some(MacdBullishCrossoverFn)
    else if name == "macd_confidence" then Some(MacdConfidenceFn)
    else if name == "macd_summary" then Some(MacdSummaryFn)
    else if name == "rsi_oversold" then Some(RsiOversoldFn)
    else if name == "rsi_confidence" then Some(RsiConfidenceFn)
    else if name == "rsi_summary" then Some(RsiSummaryFn)
    else None
  }

  /** Calling a rule function on the state. */
  function Apply(f: RuleFn, d: StateDict, repr: real -> string): Result<Value>
  {
    match f
    case MacdBullishCrossoverFn => Success(MacdBullishCrossover(d))
    case MacdConfidenceFn => Success(VNum(Some(MacdConfidence(d))))
    case MacdSummaryFn => Success(VText(MacdSummary(d, repr)))
    case RsiOversoldFn =>
      (match RsiOversold(d) case Success(b) => Success(VBool(b)) case Failure(e) => Failure(e))
    case RsiConfidenceFn =>
      (match RsiConfidence(d) case Success(c) => Success(VNum(Some(c))) case Failure(e) => Failure(e))
    case RsiSummaryFn => Success(VText(RsiSummary(d, repr)))
  }

  // ------------------------------------------------------ on the twin state

  /** The dictionary `get_state()` returns. */
  function ToDict(st: State): StateDict
  {
    map[
      "Above_EMA_9" := VBool(st.aboveEma9), "Above_EMA_20" := VBool(st.aboveEma20),
      "Above_EMA_50" := VBool(st.aboveEma50), "Above_SMA_20" := VBool(st.aboveSma20),
      "Above_VWAP" := VBool(st.aboveVwap), "MACD_Cross" := VBool(st.macdCross),
      "RSI" := VNum(st.rsi), "Squeeze_On" := VBool(st.squeezeOn),
      "Golden_Cross" := VBool(st.goldenCross), "Trend" := VText(st.trend),
      "Support" := VNum(st.support), "Resistance" := VNum(st.resistance),
      "Signals" := VList(SignalNames(st.signals)), "Confirmation" := VBool(st.confirmation)]
  }

  function SignalNames(signals: seq<Signal>): (r: seq<string>)
    ensures |r| == |signals|
  {
    seq(|signals|, i requires 0 <= i < |signals| => Label(signals[i]))
  }

  /** On a twin state the MACD rule fires exactly on the MACD cross, with
      confidence 0.8. */
  lemma MacdRuleOnTwin(st: State)
    ensures Truthy(MacdBullishCrossover(ToDict(st))) <==> st.macdCross
    ensures MacdConfidence(ToDict(st)) == (if st.macdCross then 0.8 else 0.0)
  {
    assert ToDict(st)["MACD_Cross"] == VBool(st.macdCross);
  }

  /** On a twin state the RSI rule never raises and fires exactly when the
      RSI is present and below 30. */
  lemma RsiRuleOnTwin(st: State)
    ensures RsiOversold(ToDict(st)) == Success(Lt(st.rsi, Some(30.0)))
  {
    assert ToDict(st)["RSI"] == VNum(st.rsi);
  }

  /** The state has no MACD line entries, so the MACD summary prints None twice. */
  lemma MacdSummaryOnTwin(st: State, repr: real -> string)
    ensures MacdSummary(ToDict(st), repr)
            == "MACD bullish crossover detected. MACD: None, Signal: None"
  {
    assert "MACD_12_26_9" !in ToDict(st);
    assert "MACDs_12_26_9" !in ToDict(st);
  }
}

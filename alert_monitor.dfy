/** One tick of the alert monitor (modeling/alerts/monitor.py): for every
    configured symbol with data, build its twin, and for every configured rule
    whose condition resolves and holds, dispatch and log an alert unless its
    id is already logged, then hand it to the trade simulator when the rule
    asks for it and the confidence is high enough. Dispatch and simulation
    are recorded in the `sent` and `simulated` fields; the database is a
    value; a Python exception ends the tick where it is raised. */
module Monitor {
  import opened Numeric
  import opened Text
  import opened Frames
  import opened Twin
  import opened AlertRules
  import opened AlertLog

  /** One entry of a symbol's rule list. `simulateTrade` is
      `rule.get('simulate_trade')` (None when absent) and `minConfidence` is
      the `min_confidence` entry if there is one. */
  datatype RuleConfig = RuleConfig(
    name: string, condition: string, confidence: string, summary: string,
    simulateTrade: Value, minConfidence: Option<Value>)

  /** `self.config`: the `symbols` mapping, in its order, and the channels. */
  datatype Config = Config(symbols: seq<(string, seq<RuleConfig>)>, channels: seq<string>)

  /** Where the latest date comes from: a `Date` column, an index with a name,
      or neither; each carries the string form of its last value. */
  datatype DateSource = DateColumn(lastDate: string) | NamedIndex(indexName: string, lastLabel: string) | NoDates

  /** What `load_data(symbol)` returns: the price frame with its indicator
      series, and its date labels. */
  datatype SymbolData = SymbolData(frame: Frame, ind: IndicatorSeries, dates: DateSource)

  predicate DataValid(data: map<string, SymbolData>)
  {
    forall s :: s in data ==>
      Valid(data[s].frame) && HasPrices(data[s].frame) && SeriesFit(data[s].ind, data[s].frame.height)
  }

  /** The twin's state dictionary, when the symbol has a non-empty frame. */
  function StateDictFor(data: map<string, SymbolData>, symbol: string): (r: Option<StateDict>)
    requires DataValid(data)
    ensures r.Some? <==> symbol in data && data[symbol].frame.height > 0
  {
    if symbol in data && data[symbol].frame.height > 0 then
      Some(ToDict(BuildState(LatestFromInputs(data[symbol].frame, data[symbol].ind))))
    else None
  }

  /** The latest date: the last `Date` value, else the last index label if the
      index is named like a date, else today. */
  function LatestDate(src: DateSource, today: string): (r: string)
    ensures src.DateColumn? ==> r == src.lastDate
    ensures src.NamedIndex? && StartsWith(Lower(src.indexName), "date") ==> r == src.lastLabel
    ensures src.NoDates? || (src.NamedIndex? && !StartsWith(Lower(src.indexName), "date")) ==> r == today
  {
    match src
    case DateColumn(d) => d
    case NamedIndex(name, last) => if StartsWith(Lower(name), "date") then last else today
    case NoDates => today
  }

  /** `f"{symbol}:{rule['name']}:{latest_date}"` */
  function AlertId(a: Alert): string
  {
    a.symbol + ":" + a.rule + ":" + a.timestamp
  }

  /** A rule's condition names a rule function and that function returns a
      truthy value on the state. */
  predicate Holds(rule: RuleConfig, d: StateDict, repr: real -> string)
  {
    var f := Resolve(rule.condition);
    f.Some? && Apply(f.value, d, repr).Success? && AlertRules.Truthy(Apply(f.value, d, repr).value)
  }

  /** `conf_fn(state) if conf_fn else 1.0`, and likewise `''` for the summary. */
  function Scored(name: string, d: StateDict, repr: real -> string, default: Value): (r: Result<Value>)
    ensures Resolve(name).None? ==> r == Success(default)
  {
    match Resolve(name)
    case None => Success(default)
    case Some(f) => Apply(f, d, repr)
  }

  /** What checking one rule does. `Fired` carries the alert and the outcome
      of the simulation gate, which is evaluated after dispatch. */
  datatype RuleStep = Raised | Quiet | Fired(alert: Alert, gate: Result<bool>)

  function CheckRuleSpec(symbol: string, rule: RuleConfig, d: StateDict, date: string,
                         logged: set<string>, repr: real -> string): (r: RuleStep)
    ensures r.Fired? ==> Holds(rule, d, repr) && AlertId(r.alert) !in logged
    ensures r.Fired? ==> r.alert.symbol == symbol && r.alert.rule == rule.name && r.alert.timestamp == date
    ensures Resolve(rule.condition).None? ==> r == Quiet
    ensures Holds(rule, d, repr) && Resolve(rule.confidence).None? && Resolve(rule.summary).None?
            && symbol + ":" + rule.name + ":" + date !in logged
            ==> r.Fired? && r.alert.confidence == VNum(Some(1.0)) && r.alert.summary == VText("")
    ensures r.Fired? && r.gate == Success(true) ==>
              AlertRules.Truthy(rule.simulateTrade)
              && GreaterEq(r.alert.confidence,
                           if rule.minConfidence.Some? then rule.minConfidence.value else VNum(Some(0.7)))
                 == Success(true)
  {
    match Resolve(rule.condition)
    case None => Quiet
    case Some(cond) =>
      var c := Apply(cond, d, repr);
      if c.Failure? then Raised
      else if !AlertRules.Truthy(c.value) then Quiet
      else
        var id := symbol + ":" + rule.name + ":" + date;
        if id in logged then Quiet
        else
          var conf := Scored(rule.confidence, d, repr, VNum(Some(1.0)));
          var summ := Scored(rule.summary, d, repr, VText(""));
          if conf.Failure? || summ.Failure? then Raised
          else
            var alert := Alert(symbol, rule.name, conf.value, summ.value, date);
            var minConf := if rule.minConfidence.Some? then rule.minConfidence.value else VNum(Some(0.7));
            var gate := if !AlertRules.Truthy(rule.simulateTrade) then Success(false)
                        else GreaterEq(conf.value, minConf);
            Fired(alert, gate)
  }

  /** An already logged id never fires again. */
  lemma LoggedNeverFires(symbol: string, rule: RuleConfig, d: StateDict, date: string,
                         logged: set<string>, repr: real -> string)
    requires symbol + ":" + rule.name + ":" + date in logged
    ensures !CheckRuleSpec(symbol, rule, d, date, logged, repr).Fired?
  {
  }

  /** The log records of a run of dispatched alerts. */
  function Entries(alerts: seq<Alert>): (r: seq<LogLine>)
    ensures |r| == |alerts|
    ensures forall i :: 0 <= i < |alerts| ==> r[i] == Entry(AlertId(alerts[i]), alerts[i])
  {
    seq(|alerts|, i requires 0 <= i < |alerts| => Entry(AlertId(alerts[i]), alerts[i]))
  }

  /** Alert `a` comes from a configured rule of its symbol that holds on the
      symbol's twin, stamped with the symbol's latest date. */
  ghost predicate FiredBy(a: Alert, config: Config, data: map<string, SymbolData>, today: string,
                          repr: real -> string)
    requires DataValid(data)
  {
    && StateDictFor(data, a.symbol).Some?
    && a.timestamp == LatestDate(data[a.symbol].dates, today)
    && exists j :: 0 <= j < |config.symbols| && config.symbols[j].0 == a.symbol
         && exists r :: r in config.symbols[j].1 && r.name == a.rule
              && Holds(r, StateDictFor(data, a.symbol).value, repr)
  }

  /** Alert `a` was raised for `symbol` on `date` by one of `rules` that holds
      on `d`, and its id was not logged before. */
  predicate FromRules(a: Alert, symbol: string, rules: seq<RuleConfig>, d: StateDict, date: string,
                      logged: set<string>, repr: real -> string)
  {
    && a.symbol == symbol && a.timestamp == date && AlertId(a) !in logged
    && exists r :: r in rules && r.name == a.rule && Holds(r, d, repr)
  }

  lemma FromRulesFiredBy(a: Alert, j: int, config: Config, data: map<string, SymbolData>, today: string,
                         repr: real -> string, d: StateDict, date: string, logged: set<string>)
    requires DataValid(data) && 0 <= j < |config.symbols|
    requires StateDictFor(data, config.symbols[j].0) == Some(d)
    requires date == LatestDate(data[config.symbols[j].0].dates, today)
    requires FromRules(a, config.symbols[j].0, config.symbols[j].1, d, date, logged, repr)
    ensures FiredBy(a, config, data, today, repr)
  {
  }

  lemma EntriesConcat(xs: seq<Alert>, ys: seq<Alert>)
    ensures Entries(xs + ys) == Entries(xs) + Entries(ys)
  {
  }

  lemma AppendAssoc(a: seq<Alert>, b: seq<Alert>, c: seq<Alert>)
    ensures a + b + c == a + (b + c)
  {
  }

  /** Appending the records of `xs`, then of `ys`, appends those of `xs + ys`. */
  lemma LinesAppend(lines: seq<LogLine>, xs: seq<Alert>, ys: seq<Alert>)
    ensures lines + Entries(xs) + Entries(ys) == lines + Entries(xs + ys)
  {
    EntriesConcat(xs, ys);
  }

  class AlertMonitor {
    const config: Config
    const logger: AlertLogger
    /** How a present float is rendered by `str`. */
    const repr: real -> string
    /** Alerts handed to `send_alert`, in order. */
    var sent: seq<Alert>
    /** Alerts handed to `simulate_trade`, in order. */
    var simulated: seq<Alert>

    /** Every dispatched alert has its own id, and that id is logged: no id is
        dispatched twice while the logger lives. */
    ghost predicate Valid()
      reads this, logger
    {
      && logger.Valid()
      && (forall i, j :: 0 <= i < j < |sent| ==> AlertId(sent[i]) != AlertId(sent[j]))
      && (forall i :: 0 <= i < |sent| ==> AlertId(sent[i]) in logger.logged)
      && (forall a :: a in simulated ==> a in sent)
    }

    /** `AlertMonitor(config_path)` with the parsed configuration and the
        existing log file, if any. */
    constructor (config: Config, logFile: Option<seq<LogLine>>, repr: real -> string)
      ensures this.config == config && this.repr == repr && fresh(logger)
      ensures sent == [] && simulated == []
      ensures logger.lines == (if logFile.Some? then logFile.value else [])
      ensures Valid()
    {
      this.config := config;
      this.repr := repr;
      logger := new AlertLogger(logFile);
      sent := [];
      simulated := [];
    }

    /** One rule against one symbol's state. Returns false when a rule
        function raised, which ends the tick. */
    method CheckRule(symbol: string, rule: RuleConfig, d: StateDict, date: string) returns (ok: bool)
      requires Valid()
      modifies this, logger
      ensures Valid() && old(logger.logged) <= logger.logged
      ensures var step := CheckRuleSpec(symbol, rule, d, date, old(logger.logged), repr);
              && (step.Raised? ==> !ok)
              && (step.Quiet? ==> ok)
              && (step.Fired? ==> ok == step.gate.Success?)
              && sent == old(sent) + (if step.Fired? then [step.alert] else [])
              && logger.lines == old(logger.lines) + (if step.Fired? then Entries([step.alert]) else [])
              && simulated == old(simulated)
                              + (if step.Fired? && step.gate == Success(true) then [step.alert] else [])
    {
      var step := CheckRuleSpec(symbol, rule, d, date, logger.logged, repr);
      if !step.Fired? {
        return !step.Raised?;
      }
      var cond := Resolve(rule.condition).value;
      var alertId := symbol + ":" + rule.name + ":" + date;
      assert !logger.IsDuplicate(alertId);
      var alert := step.alert;
      assert AlertId(alert) == alertId;
      sent := sent + [alert];
      logger.LogAlert(alertId, alert);
      if step.gate.Failure? {
        return false;
      }
      if step.gate.value {
        simulated := simulated + [alert];
      }
      return true;
    }

    /** The rules of one symbol, in order, on its state and latest date;
        `added` are the alerts dispatched meanwhile. */
    method CheckSymbol(symbol: string, rules: seq<RuleConfig>, d: StateDict, date: string)
      returns (ok: bool, ghost added: seq<Alert>)
      requires Valid()
      modifies this, logger
      ensures Valid() && old(logger.logged) <= logger.logged
      ensures sent == old(sent) + added
      ensures logger.lines == old(logger.lines) + Entries(added)
      ensures forall m :: 0 <= m < |added| ==>
                FromRules(added[m], symbol, rules, d, date, old(logger.logged), repr)
    {
      added := [];
      var k := 0;
      while k < |rules|
        invariant 0 <= k <= |rules|
        invariant Valid()
        invariant sent == old(sent) + added
        invariant logger.lines == old(logger.lines) + Entries(added)
        invariant old(logger.logged) <= logger.logged
        invariant forall m :: 0 <= m < |added| ==>
                    FromRules(added[m], symbol, rules, d, date, old(logger.logged), repr)
      {
        ghost var step := CheckRuleSpec(symbol, rules[k], d, date, logger.logged, repr);
        var ruleOk := CheckRule(symbol, rules[k], d, date);
        if step.Fired? {
          EntriesConcat(added, [step.alert]);
          added := added + [step.alert];
        }
        if !ruleOk {
          return false, added;
        }
        k := k + 1;
      }
      return true, added;
    }

    /** The body of the tick for the `j`-th configured symbol: skipped without
        data, otherwise its twin is built and its rules are checked. */
    method CheckSymbolAt(data: map<string, SymbolData>, today: string, j: nat)
      returns (ok: bool, ghost added: seq<Alert>)
      requires DataValid(data) && Valid() && j < |config.symbols|
      modifies this, logger
      ensures Valid() && old(logger.logged) <= logger.logged
      ensures sent == old(sent) + added
      ensures logger.lines == old(logger.lines) + Entries(added)
      ensures forall m :: 0 <= m < |added| ==>
                AlertId(added[m]) !in old(logger.logged) && FiredBy(added[m], config, data, today, repr)
    {
      var (symbol, rules) := config.symbols[j];
      var sd := StateDictFor(data, symbol);
      if sd.None? {
        return true, [];
      }
      var twin := new TwinState(data[symbol].frame, data[symbol].ind);
      var st := twin.GetState();
      var d := ToDict(st);
      assert d == sd.value;
      var date := LatestDate(data[symbol].dates, today);
      ok, added := CheckSymbol(symbol, rules, d, date);
      forall m | 0 <= m < |added|
        ensures AlertId(added[m]) !in old(logger.logged) && FiredBy(added[m], config, data, today, repr)
      {
        FromRulesFiredBy(added[m], j, config, data, today, repr, d, date, old(logger.logged));
      }
    }

    /** `check_all_symbols()`: one tick over the configured symbols. Symbols
        without data are skipped. Every alert dispatched in the tick, listed
        in `added`, comes from a rule that holds, carries an id logged
        neither before the tick nor earlier in it, and is appended to the log. */
    method CheckAllSymbols(data: map<string, SymbolData>, today: string)
      returns (ok: bool, ghost added: seq<Alert>)
      requires DataValid(data) && Valid()
      modifies this, logger
      ensures Valid()
      ensures sent == old(sent) + added
      ensures logger.lines == old(logger.lines) + Entries(added)
      ensures forall m :: 0 <= m < |added| ==>
                AlertId(added[m]) !in old(logger.logged) && FiredBy(added[m], config, data, today, repr)
    {
      added := [];
      var j := 0;
      while j < |config.symbols|
        invariant 0 <= j <= |config.symbols|
        invariant Valid()
        invariant sent == old(sent) + added
        invariant logger.lines == old(logger.lines) + Entries(added)
        invariant old(logger.logged) <= logger.logged
        invariant forall m :: 0 <= m < |added| ==>
                    AlertId(added[m]) !in old(logger.logged) && FiredBy(added[m], config, data, today, repr)
      {
        var symbolOk, got := CheckSymbolAt(data, today, j);
        LinesAppend(old(logger.lines), added, got);
        AppendAssoc(old(sent), added, got);
        added := added + got;
        if !symbolOk {
          return false, added;
        }
        j := j + 1;
      }
      return true, added;
    }
  }

  /** The monitor's headline guarantee, across any number of ticks: the ids of
      the dispatched alerts are pairwise different. */
  lemma DispatchedAtMostOnce(m: AlertMonitor, i: int, j: int)
    requires m.Valid() && 0 <= i < |m.sent| && 0 <= j < |m.sent| && i != j
    ensures AlertId(m.sent[i]) != AlertId(m.sent[j])
  {
  }
}

/** The alert log and its deduplication set (modeling/alerts/log.py). The log
    file is a sequence of lines; a line is either a JSON record carrying a
    string `alert_id`, or a line the loader skips. */
module AlertLog {
  import opened Numeric
  import opened AlertRules

  /** One alert as the monitor builds it. */
  datatype Alert = Alert(symbol: string, rule: string, confidence: Value, summary: Value, timestamp: string)

  /** A line of the log file: `{"alert_id": id, **alert}`, valid JSON without
      a usable `alert_id`, or text that does not parse. */
  datatype LogLine = Entry(alertId: string, alert: Alert) | Unkeyed | Malformed

  /** The ids of the parseable lines. */
  function IdsOf(lines: seq<LogLine>): (ids: set<string>)
    ensures forall i :: 0 <= i < |lines| && lines[i].Entry? ==> lines[i].alertId in ids
    ensures forall id :: id in ids ==> exists i :: 0 <= i < |lines| && lines[i].Entry? && lines[i].alertId == id
  {
    set i | 0 <= i < |lines| && lines[i].Entry? :: lines[i].alertId
  }

  lemma IdsOfAppend(lines: seq<LogLine>, line: LogLine)
    ensures IdsOf(lines + [line]) == IdsOf(lines) + (if line.Entry? then {line.alertId} else {})
  {
    var l2 := lines + [line];
    forall id | id in IdsOf(l2) ensures id in IdsOf(lines) + (if line.Entry? then {line.alertId} else {}) {
      var i :| 0 <= i < |l2| && l2[i].Entry? && l2[i].alertId == id;
      if i < |lines| {
        assert lines[i] == l2[i];
      }
    }
    forall id | id in IdsOf(lines) ensures id in IdsOf(l2) {
      var i :| 0 <= i < |lines| && lines[i].Entry? && lines[i].alertId == id;
      assert l2[i] == lines[i];
    }
    if line.Entry? {
      assert l2[|lines|] == line;
    }
  }

  class AlertLogger {
    /** `self.logged` */
    var logged: set<string>
    /** The contents of the log file. */
    var lines: seq<LogLine>

    /** Every logged id comes from the file and every record of the file is
        logged: the set is exactly the ids of the file's records. */
    ghost predicate Valid()
      reads this
    {
      logged == IdsOf(lines)
    }

    /** `AlertLogger(log_file)`: reads the file when it exists, one line at a
        time, skipping the lines that do not parse or have no `alert_id`. */
    constructor (file: Option<seq<LogLine>>)
      ensures lines == (if file.Some? then file.value else [])
      ensures Valid()
    {
      logged := {};
      lines := if file.Some? then file.value else [];
      new;
      var ls := lines;
      var i := 0;
      while i < |ls|
        invariant 0 <= i <= |ls| && lines == ls
        invariant logged == IdsOf(ls[..i])
      {
        assert ls[..i + 1] == ls[..i] + [ls[i]];
        IdsOfAppend(ls[..i], ls[i]);
        if ls[i].Entry? {
          logged := logged + {ls[i].alertId};
        }
        i := i + 1;
      }
      assert ls[..i] == ls;
    }

    /** `is_duplicate(alert_id)` */
    function IsDuplicate(alertId: string): (r: bool)
      reads this
      ensures r <==> alertId in logged
    {
      alertId in logged
    }

    /** `log_alert(alert_id, alert)`: marks the id and appends one record,
        without checking for a duplicate. */
    method LogAlert(alertId: string, alert: Alert)
      requires Valid()
      modifies this
      ensures Valid()
      ensures logged == old(logged) + {alertId}
      ensures lines == old(lines) + [Entry(alertId, alert)]
    {
      IdsOfAppend(lines, Entry(alertId, alert));
      logged := logged + {alertId};
      lines := lines + [Entry(alertId, alert)];
    }
  }
}

/** The `.env` loader the ingestion and connection-test scripts run at start
    up: each `KEY=VALUE` line of the file is written into the process
    environment. The file is given as its lines, or as `None` when it does
    not exist; the environment is a map from names to values. */
module EnvFile {
  import opened Numeric
  import opened Text

  /** A string with no surrounding whitespace, as `strip()` leaves it. */
  predicate Trimmed(s: string)
  {
    s == [] || (!IsSpace(s[0]) && !IsSpace(s[|s| - 1]))
  }

  /** `strip()` leaves a trimmed string as it is, and always produces one. */
  lemma StripTrimmed(s: string)
    ensures Trimmed(Strip(s))
    ensures Trimmed(s) ==> Strip(s) == s
  {
  }

  /** Whether a stripped line is an assignment: not blank, not a comment,
      and holding an `=`. */
  predicate IsAssignment(line: string)
  {
    line != "" && !StartsWith(line, "#") && '=' in line
  }

  /** One line of the file: the stripped key and value on either side of its
      first `=`, or nothing for a blank, comment or `=`-less line. */
  function ParseLine(raw: string): (r: Option<(string, string)>)
    ensures r.Some? <==> IsAssignment(Strip(raw))
    ensures r.Some? ==> Trimmed(r.value.0) && Trimmed(r.value.1)
  {
    var line := Strip(raw);
    if IsAssignment(line) then SplitAssignment(line) else None
  }

  /** `line.split('=', 1)` with both halves stripped. */
  function SplitAssignment(line: string): (r: Option<(string, string)>)
    requires '=' in line
    ensures r.Some? && Trimmed(r.value.0) && Trimmed(r.value.1)
  {
    var k := IndexOf(line, '=');
    StripTrimmed(line[..k]);
    StripTrimmed(line[k + 1..]);
    Some((Strip(line[..k]), Strip(line[k + 1..])))
  }

  /** The split is at the first `=`: the key is what stands before it and
      the value everything after it, further `=` signs included. */
  lemma SplitsAtFirstEquals(line: string, k: nat)
    requires k < |line| && line[k] == '=' && '=' !in line[..k]
    ensures SplitAssignment(line) == Some((Strip(line[..k]), Strip(line[k + 1..])))
  {
    assert IndexOf(line, '=') == k;
  }

  /** Writing a key and a value back as `key=value` and reading the line
      gives them back, even when the value holds further `=` signs; any
      whitespace around the line is ignored. */
  lemma ParseLineRoundTrip(key: string, value: string, pad: string)
    requires key != "" && Trimmed(key) && key[0] != '#' && '=' !in key
    requires Trimmed(value)
    requires forall i :: 0 <= i < |pad| ==> IsSpace(pad[i])
    ensures ParseLine(pad + key + "=" + value + pad) == Some((key, value))
  {
    var line := key + "=" + value;
    assert pad + key + "=" + value + pad == pad + line + pad;
    AssignmentLine(key, value);
    StripPadding(pad, line);
  }

  /** The unpadded `key=value` line is a trimmed assignment that splits
      back into its key and value. */
  lemma AssignmentLine(key: string, value: string)
    requires key != "" && Trimmed(key) && key[0] != '#' && '=' !in key
    requires Trimmed(value)
    ensures var line := key + "=" + value;
            line != [] && Trimmed(line) && IsAssignment(line) && SplitAssignment(line) == Some((key, value))
  {
    var line := key + "=" + value;
    assert Trimmed(line);
    assert !StartsWith(line, "#") by { assert line[..1] == [key[0]]; }
    assert line[|key|] == '=';
    assert line[..|key|] == key;
    SplitsAtFirstEquals(line, |key|);
    assert line[|key| + 1..] == value;
    StripTrimmed(key);
    StripTrimmed(value);
  }

  /** `strip()` removes whitespace padding on both sides of a trimmed text. */
  lemma {:induction false} StripPadding(pad: string, s: string)
    requires s != [] && Trimmed(s)
    requires forall i :: 0 <= i < |pad| ==> IsSpace(pad[i])
    ensures Strip(pad + s + pad) == s
  {
    assert pad + s + pad == pad + (s + pad);
    StripLeftPadding(pad, s + pad);
    StripRightPadding(s, pad);
  }

  lemma {:induction false} StripLeftPadding(pad: string, s: string)
    requires forall i :: 0 <= i < |pad| ==> IsSpace(pad[i])
    requires s == [] || !IsSpace(s[0])
    ensures StripLeft(pad + s) == s
  {
    if pad != [] {
      assert (pad + s)[1..] == pad[1..] + s;
      StripLeftPadding(pad[1..], s);
    } else {
      assert pad + s == s;
    }
  }

  lemma {:induction false} StripRightPadding(s: string, pad: string)
    requires forall i :: 0 <= i < |pad| ==> IsSpace(pad[i])
    requires s == [] || !IsSpace(s[|s| - 1])
    ensures StripRight(s + pad) == s
  {
    if pad != [] {
      assert (s + pad)[..|s + pad| - 1] == s + pad[..|pad| - 1];
      StripRightPadding(s, pad[..|pad| - 1]);
    } else {
      assert s + pad == s;
    }
  }

  /** Blank lines, comments and lines without `=` are skipped. */
  lemma IgnoredLines(raw: string)
    ensures Strip(raw) == "" ==> ParseLine(raw).None?
    ensures StartsWith(Strip(raw), "#") ==> ParseLine(raw).None?
    ensures '=' !in Strip(raw) ==> ParseLine(raw).None?
  {
  }

  /** What each line of the file assigns, if anything. */
  function Entries(lines: seq<string>): (r: seq<Option<(string, string)>>)
    ensures |r| == |lines| && forall i :: 0 <= i < |lines| ==> r[i] == ParseLine(lines[i])
  {
    seq(|lines|, i requires 0 <= i < |lines| => ParseLine(lines[i]))
  }

  /** The environment after applying the assignments in order, a later one
      overriding an earlier one. */
  function Apply(env: map<string, string>, entries: seq<Option<(string, string)>>): (r: map<string, string>)
    ensures env.Keys <= r.Keys
  {
    if entries == [] then env
    else
      var before := Apply(env, entries[..|entries| - 1]);
      var last := entries[|entries| - 1];
      if last.Some? then before[last.value.0 := last.value.1] else before
  }

  lemma ApplyNext(env: map<string, string>, entries: seq<Option<(string, string)>>, i: nat)
    requires i < |entries|
    ensures Apply(env, entries[..i + 1])
            == if entries[i].Some? then Apply(env, entries[..i])[entries[i].value.0 := entries[i].value.1]
               else Apply(env, entries[..i])
  {
    assert entries[..i + 1][..i] == entries[..i];
  }

  /** Whether some entry assigns `key`. */
  predicate Assigns(entries: seq<Option<(string, string)>>, key: string)
  {
    exists i :: 0 <= i < |entries| && entries[i].Some? && entries[i].value.0 == key
  }

  /** A key is set afterwards exactly when it was set before or some line
      assigns it, and a key no line assigns keeps its old value. */
  lemma {:induction false} AppliedKeys(env: map<string, string>, entries: seq<Option<(string, string)>>, key: string)
    ensures key in Apply(env, entries) <==> key in env || Assigns(entries, key)
    ensures !Assigns(entries, key) && key in env ==> Apply(env, entries)[key] == env[key]
  {
    if entries != [] {
      var init := entries[..|entries| - 1];
      AppliedKeys(env, init, key);
      if Assigns(init, key) {
        var i :| 0 <= i < |init| && init[i].Some? && init[i].value.0 == key;
        assert entries[i] == init[i];
      }
      if Assigns(entries, key) && !Assigns(init, key) {
        var i :| 0 <= i < |entries| && entries[i].Some? && entries[i].value.0 == key;
        assert i == |init|;
      }
    }
  }

  /** The last line assigning a key decides its value. */
  lemma {:induction false} LastWriteWins(env: map<string, string>, entries: seq<Option<(string, string)>>, i: nat)
    requires i < |entries| && entries[i].Some?
    requires forall j :: i < j < |entries| && entries[j].Some? ==> entries[j].value.0 != entries[i].value.0
    ensures entries[i].value.0 in Apply(env, entries)
    ensures Apply(env, entries)[entries[i].value.0] == entries[i].value.1
  {
    if i < |entries| - 1 {
      var init := entries[..|entries| - 1];
      assert init[i] == entries[i];
      forall j | i < j < |init| && init[j].Some?
        ensures init[j].value.0 != init[i].value.0
      {
        assert init[j] == entries[j];
      }
      LastWriteWins(env, init, i);
    }
  }

  /** The index of the first entry assigning the empty key, which
      `os.environ[""] = value` refuses with `OSError`; `|entries|` when
      there is none. */
  function FirstEmptyKey(entries: seq<Option<(string, string)>>): (r: nat)
    ensures r <= |entries|
    ensures forall j :: 0 <= j < r ==> !EmptyKeyAt(entries, j)
    ensures r < |entries| ==> EmptyKeyAt(entries, r)
  {
    FirstEmptyKeyFrom(entries, 0)
  }

  predicate EmptyKeyAt(entries: seq<Option<(string, string)>>, j: nat)
  {
    j < |entries| && entries[j].Some? && entries[j].value.0 == ""
  }

  function FirstEmptyKeyFrom(entries: seq<Option<(string, string)>>, i: nat): (r: nat)
    requires i <= |entries|
    ensures i <= r <= |entries|
    ensures forall j :: i <= j < r ==> !EmptyKeyAt(entries, j)
    ensures r < |entries| ==> EmptyKeyAt(entries, r)
    decreases |entries| - i
  {
    if i == |entries| then i
    else if EmptyKeyAt(entries, i) then i
    else FirstEmptyKeyFrom(entries, i + 1)
  }

  /** A line `=value` assigns the empty key. */
  lemma EmptyKeyLine(value: string)
    requires Trimmed(value)
    ensures ParseLine("=" + value) == Some(("", value))
  {
    var line := "=" + value;
    assert line != [] && line[0] == '=';
    assert Trimmed(line);
    StripTrimmed(line);
    assert !StartsWith(line, "#");
    SplitsAtFirstEquals(line, 0);
    assert line[1..] == value;
    StripTrimmed(value);
    assert line[..0] == "";
  }

  /** The loading stops before the first empty key, so it never sets the
      empty key: the empty key is set afterwards exactly when it was before. */
  lemma LoadedKeysNonEmpty(env: map<string, string>, entries: seq<Option<(string, string)>>)
    ensures "" in Apply(env, entries[..FirstEmptyKey(entries)]) <==> "" in env
  {
    var done := entries[..FirstEmptyKey(entries)];
    AppliedKeys(env, done, "");
    assert !Assigns(done, "") by {
      forall i | 0 <= i < |done| ensures !(done[i].Some? && done[i].value.0 == "") {
        assert done[i] == entries[i] && !EmptyKeyAt(entries, i);
      }
    }
  }

  /** A line before the first empty key is applied as `Apply` says. */
  lemma LoadStep(env: map<string, string>, entries: seq<Option<(string, string)>>, i: nat)
    requires i < |entries| && i <= FirstEmptyKey(entries) && !EmptyKeyAt(entries, i)
    ensures i + 1 <= FirstEmptyKey(entries)
    ensures Apply(env, entries[..i + 1])
            == if entries[i].Some? then Apply(env, entries[..i])[entries[i].value.0 := entries[i].value.1]
               else Apply(env, entries[..i])
  {
    ApplyNext(env, entries, i);
  }

  lemma StopsAtEmptyKey(entries: seq<Option<(string, string)>>, i: nat)
    requires i <= FirstEmptyKey(entries) && EmptyKeyAt(entries, i)
    ensures FirstEmptyKey(entries) == i
  {
  }

  lemma LoadedAll(entries: seq<Option<(string, string)>>, i: nat)
    requires i == |entries| && i <= FirstEmptyKey(entries)
    ensures FirstEmptyKey(entries) == |entries| && entries[..i] == entries
  {
  }

  /** The process environment `load_env_file` writes into. */
  class Environment {
    var vars: map<string, string>

    constructor (initial: map<string, string>)
      ensures vars == initial
    {
      vars := initial;
    }

    /** `load_env_file`: a missing file changes nothing; otherwise the lines
        are applied as `ApplyEntries` says. */
    method LoadEnvFile(file: Option<seq<string>>) returns (error: Option<string>)
      modifies this
      ensures file.None? ==> vars == old(vars) && error.None?
      ensures file.Some? ==>
                var entries := Entries(file.value);
                var k := FirstEmptyKey(entries);
                && vars == Apply(old(vars), entries[..k])
                && (error.Some? <==> k < |entries|)
                && (error.Some? ==> error.value == "OSError")
    {
      error := None;
      if file.Some? {
        error := ApplyEntries(Entries(file.value));
      }
    }

    /** The loop over the lines: each assignment is applied in turn, up to
        one with an empty key, whose assignment raises `OSError` and leaves
        the lines before it applied. */
    method ApplyEntries(entries: seq<Option<(string, string)>>) returns (error: Option<string>)
      modifies this
      ensures vars == Apply(old(vars), entries[..FirstEmptyKey(entries)])
      ensures error.Some? <==> FirstEmptyKey(entries) < |entries|
      ensures error.Some? ==> error.value == "OSError"
    {
      var i := 0;
      while i < |entries|
        invariant 0 <= i <= FirstEmptyKey(entries)
        invariant vars == Apply(old(vars), entries[..i])
      {
        if EmptyKeyAt(entries, i) {
          StopsAtEmptyKey(entries, i);
          return Some("OSError");
        }
        LoadStep(old(vars), entries, i);
        if entries[i].Some? {
          vars := vars[entries[i].value.0 := entries[i].value.1];
        }
        i := i + 1;
      }
      LoadedAll(entries, i);
      return None;
    }
  }
}

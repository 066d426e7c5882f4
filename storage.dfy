/** The SQLite store of daily prices: the parameterised query `query_data`
    builds, and the column normalisation `save_data` applies to a downloaded
    frame before appending it to the `stock_prices` table. The connection,
    table creation and the `to_sql` write are not modelled. */
module Storage {
  import opened Numeric
  import opened Text
  import opened Sorting

  // ------------------------------------------------------------ query_data

  /** Python truthiness of an optional string argument: `None` and `""` are
      both false. */
  predicate Given(arg: Option<string>)
  {
    arg.Some? && arg.value != ""
  }

  /** The argument as a one-element parameter list when it is given. */
  function ParamOf(arg: Option<string>): (r: seq<string>)
    ensures |r| <= 1
    ensures |r| == 1 <==> Given(arg)
    ensures Given(arg) ==> r == [arg.value]
  {
    if Given(arg) then [arg.value] else []
  }

  const BaseQuery := "SELECT * FROM stock_prices WHERE 1=1"
  const SymbolClause := " AND Symbol = ?"
  const StartClause := " AND Date >= ?"
  const EndClause := " AND Date <= ?"

  /** The clause for an argument, or nothing when it is not given. */
  function ClauseOf(arg: Option<string>, clause: string): string
  {
    if Given(arg) then clause else ""
  }

  /** `query_data` up to the call into SQLite: the SQL text and its
      parameters, built by successive appends. */
  method BuildQuery(symbol: Option<string>, startDate: Option<string>, endDate: Option<string>)
    returns (query: string, params: seq<string>)
    ensures query == BaseQuery + ClauseOf(symbol, SymbolClause) + ClauseOf(startDate, StartClause)
                     + ClauseOf(endDate, EndClause)
    ensures params == ParamOf(symbol) + ParamOf(startDate) + ParamOf(endDate)
    ensures StartsWith(query, BaseQuery)
    ensures Count(query, '?') == |params|
    ensures forall p :: p in params ==> p != ""
  {
    query := BaseQuery;
    params := [];
    if Given(symbol) {
      query := query + SymbolClause;
      params := params + [symbol.value];
    }
    assert query == BaseQuery + ClauseOf(symbol, SymbolClause);
    if Given(startDate) {
      query := query + StartClause;
      params := params + [startDate.value];
    }
    assert query == BaseQuery + ClauseOf(symbol, SymbolClause) + ClauseOf(startDate, StartClause);
    if Given(endDate) {
      query := query + EndClause;
      params := params + [endDate.value];
    }
    QueryShape(symbol, startDate, endDate);
  }

  /** The query text starts with the base query and holds one placeholder
      per given argument. */
  lemma QueryShape(symbol: Option<string>, startDate: Option<string>, endDate: Option<string>)
    ensures var q := BaseQuery + ClauseOf(symbol, SymbolClause) + ClauseOf(startDate, StartClause)
                     + ClauseOf(endDate, EndClause);
            StartsWith(q, BaseQuery)
            && Count(q, '?') == |ParamOf(symbol)| + |ParamOf(startDate)| + |ParamOf(endDate)|
  {
    PlaceholderCounts();
    ClauseCount(symbol, SymbolClause);
    ClauseCount(startDate, StartClause);
    ClauseCount(endDate, EndClause);
    AppendedCounts(BaseQuery, ClauseOf(symbol, SymbolClause), ClauseOf(startDate, StartClause),
                   ClauseOf(endDate, EndClause));
  }

  /** A clause adds a placeholder exactly when its argument is given. */
  lemma ClauseCount(arg: Option<string>, clause: string)
    requires Count(clause, '?') == 1
    ensures Count(ClauseOf(arg, clause), '?') == |ParamOf(arg)|
  {
  }

  lemma AppendedCounts(base: string, x: string, y: string, z: string)
    ensures StartsWith(base + x + y + z, base)
    ensures Count(base + x + y + z, '?') == Count(base, '?') + Count(x, '?') + Count(y, '?') + Count(z, '?')
  {
    CountAppend(base, x, '?');
    CountAppend(base + x, y, '?');
    CountAppend(base + x + y, z, '?');
    assert (base + x + y + z)[..|base|] == base;
  }

  /** The base query has no placeholder and each clause exactly one. */
  lemma PlaceholderCounts()
    ensures Count(BaseQuery, '?') == 0
    ensures Count(SymbolClause, '?') == 1
    ensures Count(StartClause, '?') == 1
    ensures Count(EndClause, '?') == 1
  {
    NoPlaceholder(BaseQuery);
    OnePlaceholderAtEnd(SymbolClause);
    OnePlaceholderAtEnd(StartClause);
    OnePlaceholderAtEnd(EndClause);
  }

  lemma {:induction false} NoPlaceholder(s: string)
    requires forall i :: 0 <= i < |s| ==> s[i] != '?'
    ensures Count(s, '?') == 0
  {
    if s != [] {
      NoPlaceholder(s[..|s| - 1]);
    }
  }

  lemma OnePlaceholderAtEnd(s: string)
    requires s != [] && s[|s| - 1] == '?'
    requires forall i :: 0 <= i < |s| - 1 ==> s[i] != '?'
    ensures Count(s, '?') == 1
  {
    NoPlaceholder(s[..|s| - 1]);
  }

  // -------------------------------------------------- save_data columns

  /** A frame cell: SQL NULL (pandas NaN or None), a number or a string. */
  datatype Cell = Null | Number(value: real) | Text(text: string)

  /** The frame's column labels: plain names or a MultiIndex of tuples. */
  datatype Header = Flat(names: seq<string>) | MultiIndex(tuples: seq<seq<string>>)

  /** A downloaded frame: its header, one sequence of cells per column, and
      its (named or unnamed) row index. */
  datatype Frame = Frame(header: Header, data: seq<seq<Cell>>, indexName: Option<string>, index: seq<Cell>)

  function Width(h: Header): nat
  {
    match h
    case Flat(names) => |names|
    case MultiIndex(tuples) => |tuples|
  }

  ghost predicate WellFormed(f: Frame)
  {
    |f.data| == Width(f.header) && forall i :: 0 <= i < |f.data| ==> |f.data[i]| == |f.index|
  }

  /** `'_'.join(str(i) for i in col if i)`: the non-empty parts of a tuple
      joined by underscores. */
  function FlattenTuple(parts: seq<string>): (r: string)
    ensures Filter(parts, NonEmpty) == [] ==> r == ""
    ensures |Filter(parts, NonEmpty)| == 1 ==> r == Filter(parts, NonEmpty)[0]
  {
    Join(Filter(parts, NonEmpty), "_")
  }

  predicate NonEmpty(s: string) { s != "" }

  /** The column names after flattening. */
  function FlatNames(h: Header): (r: seq<string>)
    ensures |r| == Width(h)
  {
    match h
    case Flat(names) => names
    case MultiIndex(tuples) => seq(|tuples|, i requires 0 <= i < |tuples| => FlattenTuple(tuples[i]))
  }

  /** Joining puts one underscore between each pair of kept parts and no
      other, so the flat name has exactly the parts' own underscores plus
      one fewer than the number of kept parts. */
  lemma {:induction false} JoinUnderscores(parts: seq<string>)
    requires parts != []
    ensures Count(Join(parts, "_"), '_') == CountAll(parts, '_') + |parts| - 1
  {
    if |parts| > 1 {
      JoinUnderscores(parts[1..]);
      CountAppend(parts[0], "_", '_');
      CountAppend(parts[0] + "_", Join(parts[1..], "_"), '_');
      assert Count("_", '_') == 1 by { assert "_"[..0] == ""; }
    }
  }

  function CountAll(parts: seq<string>, c: char): nat
  {
    if parts == [] then 0 else Count(parts[0], c) + CountAll(parts[1..], c)
  }

  /** Empty parts do not show in the flat name: dropping them first gives
      the same name. */
  lemma FlattenSkipsEmpty(parts: seq<string>)
    ensures FlattenTuple(parts) == FlattenTuple(Filter(parts, NonEmpty))
  {
    FilterIdempotent(parts, NonEmpty);
  }

  lemma {:induction false} FilterIdempotent<T>(s: seq<T>, keep: T -> bool)
    ensures Filter(Filter(s, keep), keep) == Filter(s, keep)
  {
    if s != [] {
      FilterIdempotent(s[1..], keep);
      if keep(s[0]) {
        assert ([s[0]] + Filter(s[1..], keep))[1..] == Filter(s[1..], keep);
      }
    }
  }

  function Nulls(n: nat): (r: seq<Cell>)
    ensures |r| == n && forall i :: 0 <= i < n ==> r[i] == Null
  {
    seq(n, i => Null)
  }

  /** The frame as a list of named columns, with a Date column guaranteed:
      when neither Date nor Datetime is a column, a Date/Datetime index
      becomes the first column, and otherwise the index is dropped and a
      Date column of None is added at the end. */
  function WithDate(f: Frame): (r: (seq<string>, seq<seq<Cell>>))
    requires WellFormed(f)
    ensures |r.0| == |r.1|
    ensures forall i :: 0 <= i < |r.1| ==> |r.1[i]| == |f.index|
    ensures "Date" in r.0 || "Datetime" in r.0
  {
    var names := FlatNames(f.header);
    if "Date" !in names && "Datetime" !in names then
      if f.indexName == Some("Date") || f.indexName == Some("Datetime") then
        ([f.indexName.value] + names, [f.index] + f.data)
      else (names + ["Date"], f.data + [Nulls(|f.index|)])
    else (names, f.data)
  }

  /** The `col_map` renaming: Datetime to Date and "Adj Close" to
      Adj_Close; every other name maps to itself. */
  function Alias(name: string): (r: string)
    ensures r == "Date" <==> name == "Date" || name == "Datetime"
    ensures r == "Adj_Close" <==> name == "Adj Close" || name == "Adj_Close"
    ensures name != "Datetime" && name != "Adj Close" ==> r == name
  {
    if name == "Datetime" then "Date"
    else if name == "Adj Close" then "Adj_Close"
    else name
  }

  function Renamed(names: seq<string>): (r: seq<string>)
    ensures |r| == |names| && forall i :: 0 <= i < |names| ==> r[i] == Alias(names[i])
  {
    seq(|names|, i requires 0 <= i < |names| => Alias(names[i]))
  }

  /** One name per column, and every column `height` cells long. */
  predicate Sized(names: seq<string>, data: seq<seq<Cell>>, height: nat)
  {
    |names| == |data| && forall i :: 0 <= i < |data| ==> |data[i]| == height
  }

  /** `df[name]`: the first column of that name, or the column of NaN that
      the required-columns loop adds when there is none. */
  function ColumnNamed(names: seq<string>, data: seq<seq<Cell>>, name: string, height: nat): (r: seq<Cell>)
    requires Sized(names, data, height)
    ensures |r| == height
    ensures name !in names ==> r == Nulls(height)
    ensures name in names ==> exists i :: 0 <= i < |names| && names[i] == name && r == data[i]
                                          && name !in names[..i]
  {
    if names == [] then Nulls(height)
    else if names[0] == name then
      assert names[..0] == [];
      data[0]
    else
      var r := ColumnNamed(names[1..], data[1..], name, height);
      if name in names[1..] then
        var i :| 0 <= i < |names[1..]| && names[1..][i] == name && r == data[1..][i] && name !in names[1..][..i];
        assert names[..i + 1] == [names[0]] + names[1..][..i];
        r
      else r
  }

  /** `pd.to_numeric(errors='coerce')` on one cell. */
  function ToNumeric(c: Cell): (r: Cell)
    ensures r.Null? || r.Number?
    ensures c.Number? ==> r == c
  {
    match c
    case Text(s) =>
      var n := ParseInt(s);
      if n.Some? then Number(n.value as real) else Null
    case _ => c
  }

  function Coerced(col: seq<Cell>): (r: seq<Cell>)
    ensures |r| == |col| && forall i :: 0 <= i < |col| ==> r[i] == ToNumeric(col[i])
  {
    seq(|col|, i requires 0 <= i < |col| => ToNumeric(col[i]))
  }

  /** The table schema, in its fixed column order. */
  const Schema: seq<string> := ["Date", "Open", "High", "Low", "Close", "Adj_Close", "Volume", "Symbol"]

  /** The normalised frame: a column list in `Schema` order. */
  datatype Table = Table(names: seq<string>, columns: seq<seq<Cell>>)

  /** A column after `pd.to_numeric(errors='coerce')`. */
  ghost predicate AllNumeric(col: seq<Cell>)
  {
    forall j :: 0 <= j < |col| ==> col[j].Null? || col[j].Number?
  }

  /** `df[name]` coerced to numbers, for one of the numeric schema columns. */
  function NumericColumn(names: seq<string>, data: seq<seq<Cell>>, name: string, height: nat): (r: seq<Cell>)
    requires Sized(names, data, height)
    ensures |r| == height && AllNumeric(r)
  {
    Coerced(ColumnNamed(names, data, name, height))
  }

  /** The column normalisation of `save_data`, up to the `to_sql` write. */
  function Normalise(f: Frame, symbol: string): (r: Table)
    requires WellFormed(f)
    ensures r.names == Schema && |r.columns| == |Schema|
    ensures forall k :: 0 <= k < |r.columns| ==> |r.columns[k]| == |f.index|
    ensures forall k :: 1 <= k < 7 ==> AllNumeric(r.columns[k])
    ensures forall j :: 0 <= j < |f.index| ==> r.columns[7][j] == Text(symbol)
  {
    var (names0, data) := WithDate(f);
    assert Sized(Renamed(names0), data, |f.index|);
    Table(Schema, SchemaColumns(Renamed(names0), data, |f.index|, symbol))
  }

  /** The schema columns picked from the renamed frame, and the symbol. */
  function SchemaColumns(names: seq<string>, data: seq<seq<Cell>>, h: nat, symbol: string): (r: seq<seq<Cell>>)
    requires Sized(names, data, h)
    ensures |r| == 8
    ensures forall k :: 0 <= k < 8 ==> |r[k]| == h
    ensures forall k :: 1 <= k < 7 ==> AllNumeric(r[k])
    ensures forall j :: 0 <= j < h ==> r[7][j] == Text(symbol)
  {
    var numeric := seq(6, j requires 0 <= j < 6 => NumericColumn(names, data, Schema[j + 1], h));
    [ColumnNamed(names, data, "Date", h)] + numeric + [seq(h, j => Text(symbol))]
  }

  /** Schema column k is `df[Schema[k]]`, coerced when numeric. */
  lemma SchemaColumn(names: seq<string>, data: seq<seq<Cell>>, h: nat, symbol: string, k: nat)
    requires Sized(names, data, h) && k < 7
    ensures var named := ColumnNamed(names, data, Schema[k], h);
            SchemaColumns(names, data, h, symbol)[k] == if k == 0 then named else Coerced(named)
  {
    var c := SchemaColumns(names, data, h, symbol);
    if k > 0 {
      assert c[k] == NumericColumn(names, data, Schema[k], h);
    }
  }

  /** Column k of the result is `df[Schema[k]]`, coerced when numeric. */
  lemma NormalisedColumn(f: Frame, symbol: string, k: nat)
    requires WellFormed(f) && k < 7
    ensures var (names0, data) := WithDate(f);
            var col := Normalise(f, symbol).columns[k];
            var named := ColumnNamed(Renamed(names0), data, Schema[k], |f.index|);
            col == if k == 0 then named else Coerced(named)
  {
    var (names0, data) := WithDate(f);
    var names, h := Renamed(names0), |f.index|;
    assert Sized(names, data, h);
    assert Normalise(f, symbol).columns == SchemaColumns(names, data, h, symbol);
    SchemaColumn(names, data, h, symbol, k);
  }

  /** Each numeric column of the result is the first source column that
      renames to it, coerced to numbers, or all NULL when there is none. */
  lemma NumericColumnSource(f: Frame, symbol: string, k: nat)
    requires WellFormed(f) && 1 <= k < 7
    ensures var (names0, data) := WithDate(f);
            var col := Normalise(f, symbol).columns[k];
            (forall i :: 0 <= i < |names0| ==> Alias(names0[i]) != Schema[k]) ==> col == Nulls(|f.index|)
  {
    var (names0, data) := WithDate(f);
    var names := Renamed(names0);
    NormalisedColumn(f, symbol, k);
    if forall i :: 0 <= i < |names0| ==> Alias(names0[i]) != Schema[k] {
      assert Schema[k] !in names;
      assert Coerced(Nulls(|f.index|)) == Nulls(|f.index|);
    }
  }

  /** A numeric column that is present arrives coerced, from the first
      source column that renames to it. */
  lemma NumericColumnPresent(f: Frame, symbol: string, k: nat, i: nat)
    requires WellFormed(f) && 1 <= k < 7
    requires var (names0, data) := WithDate(f);
             i < |names0| && Alias(names0[i]) == Schema[k]
             && forall j :: 0 <= j < i ==> Alias(names0[j]) != Schema[k]
    ensures var (names0, data) := WithDate(f);
            Normalise(f, symbol).columns[k] == Coerced(data[i])
  {
    var (names0, data) := WithDate(f);
    FirstColumn(Renamed(names0), data, Schema[k], |f.index|, i);
    NormalisedColumn(f, symbol, k);
  }

  /** The column `df[name]` reads is the first of that name. */
  lemma FirstColumn(names: seq<string>, data: seq<seq<Cell>>, name: string, height: nat, i: nat)
    requires Sized(names, data, height)
    requires i < |names| && names[i] == name && forall j :: 0 <= j < i ==> names[j] != name
    ensures ColumnNamed(names, data, name, height) == data[i]
  {
    var c := ColumnNamed(names, data, name, height);
    var i' :| 0 <= i' < |names| && names[i'] == name && c == data[i'] && name !in names[..i'];
    assert i' == i;
  }

  /** The Date column of the result is the frame's Date or Datetime column,
      whichever comes first, or else its Date/Datetime index, or else all
      NULL. */
  lemma DateColumnSource(f: Frame, symbol: string)
    requires WellFormed(f)
    ensures var names := FlatNames(f.header);
            var col := Normalise(f, symbol).columns[0];
            var dateless := "Date" !in names && "Datetime" !in names;
            var dateIndex := f.indexName == Some("Date") || f.indexName == Some("Datetime");
            (dateless && dateIndex ==> col == f.index)
            && (dateless && !dateIndex ==> col == Nulls(|f.index|))
  {
    var names := FlatNames(f.header);
    var (names0, data) := WithDate(f);
    var renamed := Renamed(names0);
    NormalisedColumn(f, symbol, 0);
    if "Date" !in names && "Datetime" !in names {
      if f.indexName == Some("Date") || f.indexName == Some("Datetime") {
        assert renamed[0] == "Date";
      } else {
        assert renamed[|names|] == "Date";
        forall j | 0 <= j < |names| ensures renamed[j] != "Date" {
          assert names0[j] == names[j];
        }
        assert "Date" !in renamed[..|names|];
      }
    }
  }
}

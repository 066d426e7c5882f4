/** A pandas DataFrame reduced to what the pattern detectors rely on: a row
    count and named columns of equal length. A column assignment `df[name] = col`
    replaces or adds one column and touches nothing else. */
module Frames {
  import opened Numeric
  import opened Text

  /** One cell: a float (NaN as `None`), a boolean, or a string. */
  datatype Cell = NumCell(num: Num) | FlagCell(flag: bool) | TextCell(text: string)

  /** Column names. The ones the system writes or reads are constructors, so
      that distinct names are distinct by construction; `Name` gives the
      string pandas uses. */
  datatype Col =
    | Date | Open | High | Low | Close | AdjClose | Volume | Symbol
    | Ema(length: int) | Sma(length: int) | Vwap | Macd | MacdSignal | Rsi
    | Bbl | Bbu | Kcl | Kcu | SqueezeOnCol | SqueezeOffCol
    | GoldenCrossCol | SupportCol | ResistanceCol | TrendCol
    | Named(name: string)

  function Name(c: Col): string
  {
    match c
    case Date => "Date"
    case Open => "Open"
    case High => "High"
    case Low => "Low"
    case Close => "Close"
    case AdjClose => "Adj_Close"
    case Volume => "Volume"
    case Symbol => "Symbol"
    case Ema(n) => "EMA_" + IntToString(n)
    case Sma(n) => "SMA_" + IntToString(n)
    case Vwap => "VWAP"
    case Macd => "MACD_12_26_9"
    case MacdSignal => "MACDs_12_26_9"
    case Rsi => "RSI"
    case Bbl => "BBL_5_2.0"
    case Bbu => "BBU_5_2.0"
    case Kcl => "KCLe_20_2"
    case Kcu => "KCUe_20_2"
    case SqueezeOnCol => "Squeeze_On"
    case SqueezeOffCol => "Squeeze_Off"
    case GoldenCrossCol => "Golden_Cross"
    case SupportCol => "Support"
    case ResistanceCol => "Resistance"
    case TrendCol => "Trend"
    case Named(n) => n
  }

  datatype Frame = Frame(height: nat, columns: map<Col, seq<Cell>>)

  /** Every column has one cell per row. */
  predicate Valid(f: Frame)
  {
    forall c :: c in f.columns ==> |f.columns[c]| == f.height
  }

  /** `g` is `f` with the columns `added` assigned: same rows, and every
      other column of `f` kept as it was. */
  ghost predicate Extends(g: Frame, f: Frame, added: set<Col>)
  {
    && g.height == f.height
    && (forall c :: c in added ==> c in g.columns)
    && (forall c :: c !in added ==> (c in g.columns <==> c in f.columns))
    && (forall c :: c in f.columns && c !in added ==> g.columns[c] == f.columns[c])
  }

  /** `df[name] = col` */
  function WithColumn(f: Frame, name: Col, col: seq<Cell>): (r: Frame)
    requires Valid(f) && |col| == f.height
    ensures Valid(r) && r.height == f.height && r.columns == f.columns[name := col]
  {
    Frame(f.height, f.columns[name := col])
  }

  lemma WithColumnExtends(f: Frame, name: Col, col: seq<Cell>)
    requires Valid(f) && |col| == f.height
    ensures Extends(WithColumn(f, name, col), f, {name})
  {
  }

  /** Several columns assigned at once. */
  function WithColumns(f: Frame, added: map<Col, seq<Cell>>): (r: Frame)
    requires Valid(f) && forall c :: c in added ==> |added[c]| == f.height
    ensures Valid(r) && r.height == f.height && r.columns == f.columns + added
  {
    Frame(f.height, f.columns + added)
  }

  /** A column read as floats: booleans count as 0/1 and strings as missing. */
  function Nums(col: seq<Cell>): (r: seq<Num>)
    ensures |r| == |col|
  {
    seq(|col|, i requires 0 <= i < |col| =>
      match col[i]
      case NumCell(x) => x
      case FlagCell(b) => Some(if b then 1.0 else 0.0)
      case TextCell(_) => None)
  }

  function NumCol(xs: seq<Num>): (r: seq<Cell>)
    ensures |r| == |xs| && Nums(r) == xs
  {
    seq(|xs|, i requires 0 <= i < |xs| => NumCell(xs[i]))
  }

  function FlagCol(bs: seq<bool>): (r: seq<Cell>)
    ensures |r| == |bs| && forall i :: 0 <= i < |bs| ==> r[i] == FlagCell(bs[i])
  {
    seq(|bs|, i requires 0 <= i < |bs| => FlagCell(bs[i]))
  }

  function TextCol(ss: seq<string>): (r: seq<Cell>)
    ensures |r| == |ss| && forall i :: 0 <= i < |ss| ==> r[i] == TextCell(ss[i])
  {
    seq(|ss|, i requires 0 <= i < |ss| => TextCell(ss[i]))
  }

  lemma ExtendsTrans(h: Frame, g: Frame, f: Frame, a: set<Col>, b: set<Col>)
    requires Extends(g, f, a) && Extends(h, g, b)
    ensures Extends(h, f, a + b)
  {
  }

  /** A frame that extends `f` by exactly the columns of `m`, with their
      values, is `f` with `m` assigned. */
  lemma ExtendsByMap(g: Frame, f: Frame, m: map<Col, seq<Cell>>)
    requires Extends(g, f, m.Keys) && forall c :: c in m ==> g.columns[c] == m[c]
    ensures g.columns == f.columns + m
  {
    forall c | c in g.columns
      ensures c in f.columns + m && g.columns[c] == (f.columns + m)[c]
    {
    }
    assert g.columns.Keys == (f.columns + m).Keys;
  }

  /** A key the added map does not hold keeps its value in the union. */
  lemma UnionKeeps<K, V>(a: map<K, V>, m: map<K, V>, k: K)
    requires k in a && k !in m
    ensures k in a + m && (a + m)[k] == a[k]
  {
  }

  /** A key of the added map takes its value from it. */
  lemma UnionTakes<K, V>(a: map<K, V>, m: map<K, V>, k: K)
    requires k in m
    ensures k in a + m && (a + m)[k] == m[k]
  {
  }
}

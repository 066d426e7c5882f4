/** The parts of modeling/indicators.py that are not library maths: the TTM
    squeeze predicates over Bollinger and Keltner band values and the column
    names `add_ema` writes. The band and EMA values themselves are inputs. */
module Indicators {
  import opened Numeric
  import opened Text
  import opened Frames

  /** Squeeze on: the Bollinger band lies strictly inside the Keltner channel. */
  predicate SqueezeOn(bbl: Num, bbu: Num, kcl: Num, kcu: Num)
  {
    Gt(bbl, kcl) && Lt(bbu, kcu)
  }

  /** Squeeze off: the Bollinger band strictly encloses the Keltner channel. */
  predicate SqueezeOff(bbl: Num, bbu: Num, kcl: Num, kcu: Num)
  {
    Lt(bbl, kcl) && Gt(bbu, kcu)
  }

  lemma SqueezeExclusive(bbl: Num, bbu: Num, kcl: Num, kcu: Num)
    ensures !(SqueezeOn(bbl, bbu, kcl, kcu) && SqueezeOff(bbl, bbu, kcl, kcu))
  {
  }

  /** Touching lower bands, a band that only partly overlaps the channel, or a
      missing value leaves both flags false. */
  lemma SqueezeNeither(bbl: Num, bbu: Num, kcl: Num, kcu: Num)
    requires || bbl == kcl
             || (Gt(bbl, kcl) && Gt(bbu, kcu))
             || (Lt(bbl, kcl) && Lt(bbu, kcu))
             || bbl.None? || bbu.None? || kcl.None? || kcu.None?
    ensures !SqueezeOn(bbl, bbu, kcl, kcu) && !SqueezeOff(bbl, bbu, kcl, kcu)
  {
  }

  /** The four band columns `add_ttm_squeeze` reads, one value per row. */
  datatype Bands = Bands(bbl: seq<Num>, bbu: seq<Num>, kcl: seq<Num>, kcu: seq<Num>)

  predicate BandsFit(b: Bands, height: nat)
  {
    |b.bbl| == height && |b.bbu| == height && |b.kcl| == height && |b.kcu| == height
  }

  function SqueezeOnColumn(b: Bands): (r: seq<bool>)
    requires BandsFit(b, |b.bbl|)
    ensures |r| == |b.bbl|
    ensures forall i :: 0 <= i < |r| ==> (r[i] <==> SqueezeOn(b.bbl[i], b.bbu[i], b.kcl[i], b.kcu[i]))
  {
    seq(|b.bbl|, i requires 0 <= i < |b.bbl| => SqueezeOn(b.bbl[i], b.bbu[i], b.kcl[i], b.kcu[i]))
  }

  function SqueezeOffColumn(b: Bands): (r: seq<bool>)
    requires BandsFit(b, |b.bbl|)
    ensures |r| == |b.bbl|
    ensures forall i :: 0 <= i < |r| ==> (r[i] <==> SqueezeOff(b.bbl[i], b.bbu[i], b.kcl[i], b.kcu[i]))
  {
    seq(|b.bbl|, i requires 0 <= i < |b.bbl| => SqueezeOff(b.bbl[i], b.bbu[i], b.kcl[i], b.kcu[i]))
  }

  const SqueezeColumns: set<Col> := {Bbl, Bbu, Kcl, Kcu, SqueezeOnCol, SqueezeOffCol}

  /** The columns `add_ttm_squeeze` writes, given the band values. */
  function SqueezeMap(b: Bands): (m: map<Col, seq<Cell>>)
    requires BandsFit(b, |b.bbl|)
    ensures m.Keys == SqueezeColumns
    ensures forall c :: c in m ==> |m[c]| == |b.bbl|
  {
    map[Bbl := NumCol(b.bbl), Bbu := NumCol(b.bbu), Kcl := NumCol(b.kcl), Kcu := NumCol(b.kcu),
        SqueezeOnCol := FlagCol(SqueezeOnColumn(b)), SqueezeOffCol := FlagCol(SqueezeOffColumn(b))]
  }

  /** `add_ttm_squeeze(df)` given the band values: the band columns and the two
      flags are added, no row is ever both on and off, and nothing else changes. */
  function AddTtmSqueeze(f: Frame, b: Bands): (r: Frame)
    requires Valid(f) && BandsFit(b, f.height)
    ensures Valid(r) && r.height == f.height && r.columns == f.columns + SqueezeMap(b)
    ensures forall i :: 0 <= i < f.height ==>
              !(r.columns[SqueezeOnCol][i].flag && r.columns[SqueezeOffCol][i].flag)
  {
    var r := WithColumns(f, SqueezeMap(b));
    forall i | 0 <= i < f.height
      ensures !(r.columns[SqueezeOnCol][i].flag && r.columns[SqueezeOffCol][i].flag)
    {
      SqueezeExclusive(b.bbl[i], b.bbu[i], b.kcl[i], b.kcu[i]);
    }
    r
  }

  /** The column `add_ema` writes for a length: `f'EMA_{length}'`. */
  function EmaName(n: int): (r: string)
    ensures r == Name(Ema(n)) && StartsWith(r, "EMA_")
  {
    "EMA_" + IntToString(n)
  }

  /** Two different lengths never write the same column. */
  lemma EmaNameInjective(a: int, b: int)
    requires EmaName(a) == EmaName(b)
    ensures a == b
  {
    assert EmaName(a)[4..] == IntToString(a);
    assert EmaName(b)[4..] == IntToString(b);
    IntToStringInjective(a, b);
  }

  function EmaColumns(lengths: seq<int>): set<Col>
  {
    set n | n in lengths :: Ema(n)
  }

  lemma EmaColumnsOfThree(a: int, b: int, c: int)
    ensures EmaColumns([a, b, c]) == {Ema(a), Ema(b), Ema(c)}
  {
    var s := [a, b, c];
    assert s[0] == a && s[1] == b && s[2] == c;
    forall x | x in EmaColumns(s)
      ensures x in {Ema(a), Ema(b), Ema(c)}
    {
      var n :| n in s && x == Ema(n);
    }
  }

  /** No later entry repeats `s[k]`. */
  predicate LastOccurrence(s: seq<int>, k: int)
  {
    0 <= k < |s| && forall k2 :: k < k2 < |s| ==> s[k2] != s[k]
  }

  /** `add_ema(df, lengths)` given the EMA series `emas[k]` for `lengths[k]`:
      one `EMA_<n>` column per requested length, the last computation winning
      for a repeated length, and no other column touched. */
  function AddEma(f: Frame, lengths: seq<int>, emas: seq<seq<Num>>): (r: Frame)
    requires Valid(f) && |emas| == |lengths|
    requires forall k :: 0 <= k < |emas| ==> |emas[k]| == f.height
    ensures Valid(r) && Extends(r, f, EmaColumns(lengths))
    ensures forall k :: LastOccurrence(lengths, k) ==> r.columns[Ema(lengths[k])] == NumCol(emas[k])
    decreases |lengths|
  {
    if lengths == [] then
      assert EmaColumns(lengths) == {};
      f
    else
      var g := WithColumn(f, Ema(lengths[0]), NumCol(emas[0]));
      WithColumnExtends(f, Ema(lengths[0]), NumCol(emas[0]));
      var rest := lengths[1..];
      assert forall k :: 0 <= k < |emas[1..]| ==> |emas[1..][k]| == g.height by {
        forall k | 0 <= k < |emas[1..]| ensures |emas[1..][k]| == g.height {
          assert emas[1..][k] == emas[k + 1];
        }
      }
      var r := AddEma(g, rest, emas[1..]);
      EmaColumnsCons(lengths);
      ExtendsTrans(r, g, f, {Ema(lengths[0])}, EmaColumns(rest));
      forall k | LastOccurrence(lengths, k)
        ensures r.columns[Ema(lengths[k])] == NumCol(emas[k])
      {
        LastOccurrenceTail(lengths, k);
        if k > 0 {
          assert emas[1..][k - 1] == emas[k];
        }
      }
      r
  }

  lemma EmaColumnsCons(lengths: seq<int>)
    requires lengths != []
    ensures EmaColumns(lengths) == {Ema(lengths[0])} + EmaColumns(lengths[1..])
  {
    assert lengths == [lengths[0]] + lengths[1..];
  }

  /** The last occurrence in a non-empty list is the head when nothing after
      repeats it, and otherwise the last occurrence in the tail. */
  lemma LastOccurrenceTail(lengths: seq<int>, k: int)
    requires LastOccurrence(lengths, k)
    ensures k > 0 ==> LastOccurrence(lengths[1..], k - 1) && lengths[1..][k - 1] == lengths[k]
    ensures k == 0 ==> Ema(lengths[0]) !in EmaColumns(lengths[1..])
  {
    if k == 0 {
      forall j | 0 <= j < |lengths[1..]|
        ensures lengths[1..][j] != lengths[0]
      {
        assert lengths[1..][j] == lengths[j + 1];
      }
    }
  }

  /** `add_ema` with three different lengths writes exactly those three
      columns, each with its own series. */
  lemma AddThreeEmas(f: Frame, a: int, b: int, c: int, ea: seq<Num>, eb: seq<Num>, ec: seq<Num>)
    requires Valid(f) && |ea| == f.height && |eb| == f.height && |ec| == f.height
    requires a != b && a != c && b != c
    ensures AddEma(f, [a, b, c], [ea, eb, ec])
            == Frame(f.height, f.columns + map[Ema(a) := NumCol(ea), Ema(b) := NumCol(eb), Ema(c) := NumCol(ec)])
  {
    var lengths := [a, b, c];
    var r := AddEma(f, lengths, [ea, eb, ec]);
    var m := map[Ema(a) := NumCol(ea), Ema(b) := NumCol(eb), Ema(c) := NumCol(ec)];
    EmaColumnsOfThree(a, b, c);
    assert LastOccurrence(lengths, 0) && LastOccurrence(lengths, 1) && LastOccurrence(lengths, 2);
    assert r.columns[Ema(lengths[0])] == NumCol(ea);
    assert r.columns[Ema(lengths[1])] == NumCol(eb);
    assert r.columns[Ema(lengths[2])] == NumCol(ec);
    ExtendsByMap(r, f, m);
  }

  /** `add_ttm_squeeze` adds the squeeze columns and nothing else. */
  lemma SqueezeFrame(f: Frame, b: Bands)
    requires Valid(f) && BandsFit(b, f.height)
    ensures AddTtmSqueeze(f, b) == Frame(f.height, f.columns + SqueezeMap(b))
  {
  }
}

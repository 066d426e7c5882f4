/** The options data provider's rule logic over a chain of call and put rows:
    the default expiration and strike grid of the mock chain, max pain, the
    at-the-money row, open-interest support and resistance, the sentiment
    label and the strategy menu. Black-Scholes prices and Greeks and the
    random volumes of the mock chain are not modelled; rows are inputs. */
module OptionsData {
  import opened Numeric
  import opened Sorting
  import opened Calendar
  import opened ChainStats
  import Alpaca

  /** One row of a calls or puts frame. */
  datatype OptionRow = OptionRow(strike: real, volume: int, openInterest: int)

  // ------------------------------------------------------- expiry and grid

  /** `4 - weekday`, plus 7 when not positive. */
  function DaysAhead(weekday: nat): (r: nat)
    requires weekday < 7
    ensures 1 <= r <= 7
    ensures (weekday + r) % 7 == 4
  {
    var d := 4 - weekday;
    if d <= 0 then d + 7 else d
  }

  /** This rule and the one the Alpaca provider writes with `% 7` pick the
      same Friday. */
  lemma DaysAheadAgrees(weekday: nat)
    requires weekday < 7
    ensures DaysAhead(weekday) == Alpaca.DaysUntilFriday(weekday)
  {
  }

  /** The expiration of the mock chain: the given one, else the next Friday
      after today, never today itself. */
  function Expiration(today: Day, given: Option<string>): (r: string)
    ensures given.Some? ==> r == given.value
    ensures given.None? ==> exists d: Day :: today < d <= today + 7 && Weekday(d) == 4 && r == IsoDate(d)
  {
    if given.Some? then given.value
    else
      var d := today + DaysAhead(Weekday(today));
      assert Weekday(d) == 4;
      IsoDate(d)
  }

  /** The strikes of the mock chain: `round(price + i * 5, 2)` for i from -10
      to 10. */
  method StrikeGrid(price: real) returns (strikes: seq<real>)
    ensures |strikes| == 21
    ensures forall k :: 0 <= k < 21 ==> strikes[k] == Round2(price + ((k - 10) * 5) as real)
  {
    strikes := [];
    var i := -10;
    while i < 11
      invariant -10 <= i <= 11
      invariant |strikes| == i + 10
      invariant forall k :: 0 <= k < |strikes| ==> strikes[k] == Round2(price + ((k - 10) * 5) as real)
    {
      strikes := strikes + [Round2(price + (i * 5) as real)];
      i := i + 1;
    }
  }

  /** For a price in whole cents the grid is exact: it runs from price - 50 to
      price + 50 in steps of 5 with the price itself in the middle. */
  lemma GridOfCents(cents: int, k: nat)
    requires k < 21
    ensures Round2(cents as real / 100.0 + ((k - 10) * 5) as real) == cents as real / 100.0 + ((k - 10) * 5) as real
  {
    var c := cents + (k - 10) * 500;
    assert c as real / 100.0 == cents as real / 100.0 + ((k - 10) * 5) as real;
    Round2OfHundredths(c);
  }

  // -------------------------------------------------------------- max pain

  function Strikes(rows: seq<OptionRow>): (r: seq<real>)
    ensures |r| == |rows| && forall i :: 0 <= i < |rows| ==> r[i] == rows[i].strike
  {
    seq(|rows|, i requires 0 <= i < |rows| => rows[i].strike)
  }

  /** The first occurrence of each value, in order (`set` before sorting). */
  function Dedup(s: seq<real>): (r: seq<real>)
    ensures forall x :: x in r <==> x in s
    ensures forall i, j :: 0 <= i < j < |r| ==> r[i] != r[j]
  {
    if s == [] then []
    else
      var d := Dedup(s[..|s| - 1]);
      assert forall x :: x in s ==> x in s[..|s| - 1] || x == s[|s| - 1];
      if s[|s| - 1] in d then d else d + [s[|s| - 1]]
  }

  function Less(a: real, b: real): bool { a < b }

  /** `sorted(set(call strikes + put strikes))` */
  function PainStrikes(calls: seq<OptionRow>, puts: seq<OptionRow>): (r: seq<real>)
    ensures forall x :: x in r <==> x in Strikes(calls) || x in Strikes(puts)
    ensures forall i, j :: 0 <= i < j < |r| ==> r[i] <= r[j]
  {
    var d := Dedup(Strikes(calls) + Strikes(puts));
    LessOrder();
    SortByOrdered(d, Less);
    SortByMembers(d, Less);
    SortBy(d, Less)
  }

  lemma LessOrder()
    ensures StrictWeakOrder(Less)
  {
  }

  function TotalInterest(rows: seq<OptionRow>): int
  {
    if rows == [] then 0 else TotalInterest(rows[..|rows| - 1]) + rows[|rows| - 1].openInterest
  }

  function TotalVolume(rows: seq<OptionRow>): int
  {
    if rows == [] then 0 else TotalVolume(rows[..|rows| - 1]) + rows[|rows| - 1].volume
  }

  /** Σ (strike - at) over the rows. */
  function Distance(rows: seq<OptionRow>, at: real): real
  {
    if rows == [] then 0.0 else Distance(rows[..|rows| - 1], at) + (rows[|rows| - 1].strike - at)
  }

  /** Σ open interest × (strike - at) over the rows. */
  function WeightedDistance(rows: seq<OptionRow>, at: real): real
  {
    if rows == [] then 0.0
    else WeightedDistance(rows[..|rows| - 1], at) + rows[|rows| - 1].openInterest as real * (rows[|rows| - 1].strike - at)
  }

  function CallsAbove(calls: seq<OptionRow>, at: real): seq<OptionRow>
  {
    Filter(calls, (c: OptionRow) => c.strike > at)
  }

  function PutsBelow(puts: seq<OptionRow>, at: real): seq<OptionRow>
  {
    Filter(puts, (p: OptionRow) => p.strike < at)
  }

  /** The pain at a strike as written: the open interest of the calls above
      times the sum of their distances, plus the same product for the puts
      below. */
  function PainAsWritten(calls: seq<OptionRow>, puts: seq<OptionRow>, at: real): real
  {
    var up := CallsAbove(calls, at);
    var down := PutsBelow(puts, at);
    TotalInterest(up) as real * Distance(up, at) + TotalInterest(down) as real * -Distance(down, at)
  }

  /** The pain at a strike as intended: each contract's open interest times
      its own distance, summed over the calls above and the puts below. */
  function Pain(calls: seq<OptionRow>, puts: seq<OptionRow>, at: real): real
  {
    WeightedDistance(CallsAbove(calls, at), at) - WeightedDistance(PutsBelow(puts, at), at)
  }

  /** The index of the first smallest value (`min` keeps the first). */
  function FirstMinimum(values: seq<real>): (r: nat)
    requires values != []
    ensures r < |values|
    ensures forall i :: 0 <= i < |values| ==> values[r] <= values[i]
    ensures forall i :: 0 <= i < r ==> values[r] < values[i]
  {
    if |values| == 1 then 0
    else
      var m := FirstMinimum(values[..|values| - 1]);
      if values[|values| - 1] < values[m] then |values| - 1 else m
  }

  function PainsAsWritten(calls: seq<OptionRow>, puts: seq<OptionRow>, strikes: seq<real>): (r: seq<real>)
    ensures |r| == |strikes|
    ensures forall i :: 0 <= i < |strikes| ==> r[i] == PainAsWritten(calls, puts, strikes[i])
  {
    seq(|strikes|, i requires 0 <= i < |strikes| => PainAsWritten(calls, puts, strikes[i]))
  }

  function Pains(calls: seq<OptionRow>, puts: seq<OptionRow>, strikes: seq<real>): (r: seq<real>)
    ensures |r| == |strikes|
    ensures forall i :: 0 <= i < |strikes| ==> r[i] == Pain(calls, puts, strikes[i])
  {
    seq(|strikes|, i requires 0 <= i < |strikes| => Pain(calls, puts, strikes[i]))
  }

  /** `_calculate_max_pain` as written. */
  function MaxPainAsWritten(calls: seq<OptionRow>, puts: seq<OptionRow>): (r: real)
    ensures calls == [] || puts == [] ==> r == 0.0
    ensures calls != [] && puts != [] ==> r in Strikes(calls) || r in Strikes(puts)
  {
    if calls == [] || puts == [] then 0.0
    else
      var strikes := PainStrikes(calls, puts);
      assert calls[0].strike in Strikes(calls);
      strikes[FirstMinimum(PainsAsWritten(calls, puts, strikes))]
  }

  /** `_calculate_max_pain` with the intended pain. */
  function MaxPain(calls: seq<OptionRow>, puts: seq<OptionRow>): (r: real)
    ensures calls == [] || puts == [] ==> r == 0.0
    ensures calls != [] && puts != [] ==> r in Strikes(calls) || r in Strikes(puts)
  {
    if calls == [] || puts == [] then 0.0
    else
      var strikes := PainStrikes(calls, puts);
      assert calls[0].strike in Strikes(calls);
      strikes[FirstMinimum(Pains(calls, puts, strikes))]
  }

  /** The max-pain loop: one pain value per strike, then the first minimum. */
  method CalculateMaxPain(calls: seq<OptionRow>, puts: seq<OptionRow>) returns (r: real)
    ensures r == MaxPain(calls, puts)
  {
    if calls == [] || puts == [] {
      return 0.0;
    }
    var strikes := PainStrikes(calls, puts);
    var values: seq<real> := [];
    var i := 0;
    while i < |strikes|
      invariant 0 <= i <= |strikes|
      invariant values == Pains(calls, puts, strikes)[..i]
    {
      values := values + [Pain(calls, puts, strikes[i])];
      i := i + 1;
    }
    assert values == Pains(calls, puts, strikes);
    assert calls[0].strike in Strikes(calls);
    return strikes[FirstMinimum(values)];
  }

  /** The first minimum over values listed by ascending keys is no more than
      any value and strictly less than the value of any smaller key. */
  lemma FirstMinimumOfAscending(keys: seq<real>, values: seq<real>, j: nat)
    requires |keys| == |values| && j < |values|
    requires forall a, b :: 0 <= a < b < |keys| ==> keys[a] <= keys[b]
    ensures var m := FirstMinimum(values);
            values[m] <= values[j] && (keys[j] < keys[m] ==> values[m] < values[j])
  {
  }

  /** With both sides quoted, max pain is a quoted strike whose pain is no
      more than at any quoted strike, and every lower quoted strike has
      strictly more pain. With a side empty it is 0.0. */
  lemma MaxPainMinimises(calls: seq<OptionRow>, puts: seq<OptionRow>, s: real)
    requires calls != [] && puts != []
    requires s in Strikes(calls) || s in Strikes(puts)
    ensures var r := MaxPain(calls, puts);
            (r in Strikes(calls) || r in Strikes(puts))
            && Pain(calls, puts, r) <= Pain(calls, puts, s)
            && (s < r ==> Pain(calls, puts, r) < Pain(calls, puts, s))
  {
    var strikes := PainStrikes(calls, puts);
    var values := Pains(calls, puts, strikes);
    var j :| 0 <= j < |strikes| && strikes[j] == s;
    FirstMinimumOfAscending(strikes, values, j);
    var m := FirstMinimum(values);
    assert strikes[m] in strikes;
  }

  /** The same for the code as written: its answer is a quoted strike of
      least as-written pain, and every lower quoted strike has strictly more
      as-written pain. */
  lemma MaxPainAsWrittenMinimises(calls: seq<OptionRow>, puts: seq<OptionRow>, s: real)
    requires calls != [] && puts != []
    requires s in Strikes(calls) || s in Strikes(puts)
    ensures var r := MaxPainAsWritten(calls, puts);
            (r in Strikes(calls) || r in Strikes(puts))
            && PainAsWritten(calls, puts, r) <= PainAsWritten(calls, puts, s)
            && (s < r ==> PainAsWritten(calls, puts, r) < PainAsWritten(calls, puts, s))
  {
    var strikes := PainStrikes(calls, puts);
    var values := PainsAsWritten(calls, puts, strikes);
    var j :| 0 <= j < |strikes| && strikes[j] == s;
    FirstMinimumOfAscending(strikes, values, j);
    var m := FirstMinimum(values);
    assert strikes[m] in strikes;
  }

  /** An index whose value is no more than any other and strictly less than
      every earlier one is the first minimum. */
  lemma FirstMinimumAt(values: seq<real>, k: nat)
    requires k < |values|
    requires forall i :: 0 <= i < |values| ==> values[k] <= values[i]
    requires forall i :: 0 <= i < k ==> values[k] < values[i]
    ensures FirstMinimum(values) == k
  {
    var m := FirstMinimum(values);
    assert values[m] <= values[k] && values[k] <= values[m];
  }

  /** The first minimum of three values, case by case. */
  lemma FirstOfThree(v: seq<real>)
    requires |v| == 3
    ensures FirstMinimum(v) == if v[0] <= v[1] && v[0] <= v[2] then 0
                               else if v[1] <= v[2] then 1 else 2
  {
    var k := if v[0] <= v[1] && v[0] <= v[2] then 0 else if v[1] <= v[2] then 1 else 2;
    forall i | 0 <= i < |v| ensures v[k] <= v[i] {
    }
    forall i | 0 <= i < k ensures v[k] < v[i] {
    }
    FirstMinimumAt(v, k);
  }

  lemma ThreeValues(p: seq<real>, a: real, b: real, c: real)
    requires |p| == 3 && p[0] == a && p[1] == b && p[2] == c
    ensures p == [a, b, c]
  {
  }

  const ExampleCalls := [OptionRow(1.0, 0, 1), OptionRow(2.0, 0, 1), OptionRow(3.0, 0, 1)]
  const ExamplePuts := [OptionRow(1.0, 0, 2)]

  /** Calls at 1, 2 and 3 with one contract open each and two puts open at 1:
      as written the pain at 1, 2, 3 is 6, 3, 4 and max pain is 2; summing
      each contract's own pain gives 3, 3, 4 and max pain 1. */
  lemma MaxPainAsWrittenDiffers()
    ensures MaxPainAsWritten(ExampleCalls, ExamplePuts) == 2.0
    ensures MaxPain(ExampleCalls, ExamplePuts) == 1.0
  {
    ExampleStrikes();
    ExampleAsWritten();
    ExampleIntended();
  }

  /** As written, the example's pains are 6, 3 and 4, so max pain is 2. */
  lemma ExampleAsWritten()
    requires PainStrikes(ExampleCalls, ExamplePuts) == [1.0, 2.0, 3.0]
    ensures MaxPainAsWritten(ExampleCalls, ExamplePuts) == 2.0
  {
    WrittenPains(PainStrikes(ExampleCalls, ExamplePuts));
    FirstOfThree([6.0, 3.0, 4.0]);
  }

  /** Summed per contract, the example's pains are 3, 3 and 4, so max pain is 1. */
  lemma ExampleIntended()
    requires PainStrikes(ExampleCalls, ExamplePuts) == [1.0, 2.0, 3.0]
    ensures MaxPain(ExampleCalls, ExamplePuts) == 1.0
  {
    IntendedPains(PainStrikes(ExampleCalls, ExamplePuts));
    FirstOfThree([3.0, 3.0, 4.0]);
  }

  lemma WrittenPains(strikes: seq<real>)
    requires strikes == [1.0, 2.0, 3.0]
    ensures PainsAsWritten(ExampleCalls, ExamplePuts, strikes) == [6.0, 3.0, 4.0]
  {
    PainAtOne();
    PainAtTwo();
    PainAtThree();
    var p := PainsAsWritten(ExampleCalls, ExamplePuts, strikes);
    assert p[0] == 6.0 && p[1] == 3.0 && p[2] == 4.0;
    ThreeValues(p, 6.0, 3.0, 4.0);
  }

  lemma IntendedPains(strikes: seq<real>)
    requires strikes == [1.0, 2.0, 3.0]
    ensures Pains(ExampleCalls, ExamplePuts, strikes) == [3.0, 3.0, 4.0]
  {
    PainAtOne();
    PainAtTwo();
    PainAtThree();
    var p := Pains(ExampleCalls, ExamplePuts, strikes);
    assert p[0] == 3.0 && p[1] == 3.0 && p[2] == 4.0;
    ThreeValues(p, 3.0, 3.0, 4.0);
  }

  lemma ExampleStrikes()
    ensures PainStrikes(ExampleCalls, ExamplePuts) == [1.0, 2.0, 3.0]
  {
    assert Strikes(ExampleCalls) + Strikes(ExamplePuts) == [1.0, 2.0, 3.0, 1.0];
    ExampleDedup();
    ExampleSort();
  }

  lemma ExampleDedup()
    ensures Dedup([1.0, 2.0, 3.0, 1.0]) == [1.0, 2.0, 3.0]
  {
    assert [1.0, 2.0, 3.0, 1.0][..3] == [1.0, 2.0, 3.0];
    assert [1.0, 2.0, 3.0][..2] == [1.0, 2.0];
    assert [1.0, 2.0][..1] == [1.0];
    assert Dedup([1.0]) == [1.0];
    assert Dedup([1.0, 2.0]) == [1.0, 2.0];
    assert Dedup([1.0, 2.0, 3.0]) == [1.0, 2.0, 3.0];
  }

  lemma ExampleSort()
    ensures SortBy([1.0, 2.0, 3.0], Less) == [1.0, 2.0, 3.0]
  {
    assert [1.0, 2.0, 3.0][1..] == [2.0, 3.0];
    assert [2.0, 3.0][1..] == [3.0];
    assert [3.0][1..] == [];
    assert SortBy([3.0], Less) == [3.0];
    assert SortBy([2.0, 3.0], Less) == Insert(2.0, [3.0], Less) == [2.0, 3.0];
    assert Insert(1.0, [2.0, 3.0], Less) == [1.0, 2.0, 3.0];
  }

  lemma PainAtOne()
    ensures PainAsWritten(ExampleCalls, ExamplePuts, 1.0) == 6.0
    ensures Pain(ExampleCalls, ExamplePuts, 1.0) == 3.0
  {
    var up := [OptionRow(2.0, 0, 1), OptionRow(3.0, 0, 1)];
    FilterThree(ExampleCalls, 1.0);
    assert CallsAbove(ExampleCalls, 1.0) == up;
    FilterOne(ExamplePuts, (p: OptionRow) => p.strike < 1.0);
    assert up[..1] == [OptionRow(2.0, 0, 1)];
    assert up[..1][..0] == [];
    assert Distance(up[..1], 1.0) == 1.0 && TotalInterest(up[..1]) == 1;
    assert WeightedDistance(up[..1], 1.0) == 1.0;
    assert TotalInterest(up) == 2 && Distance(up, 1.0) == 3.0;
    assert WeightedDistance(up, 1.0) == 3.0;
  }

  lemma PainAtTwo()
    ensures PainAsWritten(ExampleCalls, ExamplePuts, 2.0) == 3.0
    ensures Pain(ExampleCalls, ExamplePuts, 2.0) == 3.0
  {
    var up := [OptionRow(3.0, 0, 1)];
    FilterThree(ExampleCalls, 2.0);
    assert CallsAbove(ExampleCalls, 2.0) == up;
    FilterOne(ExamplePuts, (p: OptionRow) => p.strike < 2.0);
    assert PutsBelow(ExamplePuts, 2.0) == ExamplePuts;
    assert up[..0] == [] && ExamplePuts[..0] == [];
    assert TotalInterest(up) == 1 && Distance(up, 2.0) == 1.0;
    assert TotalInterest(ExamplePuts) == 2 && Distance(ExamplePuts, 2.0) == -1.0;
    assert WeightedDistance(up, 2.0) == 1.0 && WeightedDistance(ExamplePuts, 2.0) == -2.0;
  }

  lemma PainAtThree()
    ensures PainAsWritten(ExampleCalls, ExamplePuts, 3.0) == 4.0
    ensures Pain(ExampleCalls, ExamplePuts, 3.0) == 4.0
  {
    FilterThree(ExampleCalls, 3.0);
    assert CallsAbove(ExampleCalls, 3.0) == [];
    FilterOne(ExamplePuts, (p: OptionRow) => p.strike < 3.0);
    assert PutsBelow(ExamplePuts, 3.0) == ExamplePuts;
    assert ExamplePuts[..0] == [];
    assert TotalInterest(ExamplePuts) == 2 && Distance(ExamplePuts, 3.0) == -2.0;
    assert WeightedDistance(ExamplePuts, 3.0) == -4.0;
  }

  lemma FilterOne(s: seq<OptionRow>, keep: OptionRow -> bool)
    requires |s| == 1
    ensures Filter(s, keep) == if keep(s[0]) then s else []
  {
    assert s[1..] == [];
  }

  lemma FilterThree(calls: seq<OptionRow>, at: real)
    requires calls == [OptionRow(1.0, 0, 1), OptionRow(2.0, 0, 1), OptionRow(3.0, 0, 1)]
    requires at == 1.0 || at == 2.0 || at == 3.0
    ensures at == 1.0 ==> CallsAbove(calls, at) == calls[1..]
    ensures at == 2.0 ==> CallsAbove(calls, at) == calls[2..]
    ensures at == 3.0 ==> CallsAbove(calls, at) == []
  {
    var above := (c: OptionRow) => c.strike > at;
    var tail2 := calls[2..];
    assert tail2 == [OptionRow(3.0, 0, 1)];
    assert tail2[1..] == [];
    assert Filter(tail2, above) == if at < 3.0 then tail2 else [];
    assert calls[1..] == [calls[1]] + tail2;
    assert calls[1..][1..] == tail2;
    assert Filter(calls[1..], above) == if at < 2.0 then calls[1..] else Filter(tail2, above);
    assert calls[1..] == calls[1..];
    assert Filter(calls, above) == Filter(calls[1..], above);
  }

  // ------------------------------------------------------- at the money

  /** `(strike - price).abs().idxmin()`: the first row nearest the price, or
      nothing for an empty frame. */
  function FindAtm(rows: seq<OptionRow>, price: real): (r: Option<OptionRow>)
    ensures r.None? <==> rows == []
    ensures r.Some? ==> r.value in rows
    ensures r.Some? ==> forall i :: 0 <= i < |rows| ==> Abs(r.value.strike - price) <= Abs(rows[i].strike - price)
  {
    if rows == [] then None
    else
      var gaps := seq(|rows|, i requires 0 <= i < |rows| => Abs(rows[i].strike - price));
      var m := FirstMinimum(gaps);
      assert forall i :: 0 <= i < |rows| ==> gaps[i] == Abs(rows[i].strike - price);
      assert gaps[m] == Abs(rows[m].strike - price);
      Some(rows[m])
  }

  // ------------------------------------------ open-interest support levels

  /** `Series.quantile(p)` with linear interpolation between the two sorted
      values around position (n - 1) p. */
  function Quantile(values: seq<real>, p: real): (r: real)
    requires values != [] && 0.0 <= p < 1.0
    ensures exists i, j :: 0 <= i < |values| && 0 <= j < |values| && values[i] <= r <= values[j]
  {
    var v := SortBy(values, Less);
    SortByOrdered(values, Less);
    SortByMembers(values, Less);
    var h := (|v| - 1) as real * p;
    var lo := FloorIndex(|v|, p);
    var frac := h - lo as real;
    assert v[lo] in values;
    if lo + 1 < |v| then
      var gap := v[lo + 1] - v[lo];
      assert !Less(v[lo + 1], v[lo]);
      InterpolationBetween(frac, gap);
      assert v[lo + 1] in values;
      BetweenMembers(values, v[lo], v[lo + 1], v[lo] + frac * gap);
      v[lo] + frac * gap
    else
      BetweenMembers(values, v[lo], v[lo], v[lo]);
      v[lo]
  }

  /** The interpolation position (n - 1) p rounded down: an index, no more
      than the position and within one of it. */
  function FloorIndex(n: nat, p: real): (lo: nat)
    requires n > 0 && 0.0 <= p < 1.0
    ensures lo < n
    ensures lo as real <= (n - 1) as real * p < lo as real + 1.0
  {
    if n > 1 then
      assert (n - 1) as real * (1.0 - p) > 0.0;
      ((n - 1) as real * p).Floor
    else 0
  }

  /** A value lying between two members lies between two indexed values. */
  lemma BetweenMembers(values: seq<real>, x: real, y: real, r: real)
    requires x in values && y in values && x <= r <= y
    ensures exists i, j :: 0 <= i < |values| && 0 <= j < |values| && values[i] <= r <= values[j]
  {
    var i :| 0 <= i < |values| && values[i] == x;
    var j :| 0 <= j < |values| && values[j] == y;
    assert values[i] <= r <= values[j];
  }

  lemma InterpolationBetween(frac: real, gap: real)
    requires 0.0 <= frac <= 1.0 && gap >= 0.0
    ensures 0.0 <= frac * gap <= gap
  {
    assert (1.0 - frac) * gap >= 0.0;
  }

  function Interests(rows: seq<OptionRow>): (r: seq<real>)
    ensures |r| == |rows| && forall i :: 0 <= i < |rows| ==> r[i] == rows[i].openInterest as real
  {
    seq(|rows|, i requires 0 <= i < |rows| => rows[i].openInterest as real)
  }

  function MoreInterest(a: OptionRow, b: OptionRow): bool { a.openInterest > b.openInterest }

  /** `_find_support_resistance`: the strikes of the (at most) three rows with
      the largest open interest among those above the 80th percentile,
      ascending. The level kind is not used: support is computed on puts and
      resistance on calls in the same way. */
  /** `options[options['open_interest'] > options['open_interest'].quantile(0.8)]` */
  function HighInterest(rows: seq<OptionRow>): (r: seq<OptionRow>)
    requires rows != []
    ensures forall row :: row in r <==> row in rows && row.openInterest as real > Quantile(Interests(rows), 0.8)
  {
    var q := Quantile(Interests(rows), 0.8);
    Filter(rows, (row: OptionRow) => row.openInterest as real > q)
  }

  /** `nlargest(3, 'open_interest')`: a stable sort by descending open
      interest, then the first three. */
  function TopInterest(high: seq<OptionRow>): seq<OptionRow>
  {
    Take(SortBy(high, MoreInterest), 3)
  }

  function OpenInterestLevels(rows: seq<OptionRow>): (r: seq<real>)
    ensures |r| <= 3
    ensures rows == [] ==> r == []
  {
    if rows == [] then []
    else SortBy(Strikes(TopInterest(HighInterest(rows))), Less)
  }

  lemma MoreInterestOrder()
    ensures StrictWeakOrder(MoreInterest)
  {
  }

  /** The three rows of largest open interest (all rows when there are
      fewer): every row left out has no more open interest than any taken. */
  lemma NLargest(high: seq<OptionRow>)
    ensures var top := TopInterest(high);
            && |top| == (if |high| < 3 then |high| else 3)
            && multiset(top) <= multiset(high)
            && forall a, b :: a in top && b in multiset(high) - multiset(top) ==> b.openInterest <= a.openInterest
  {
    MostInterest(high);
    var top := TopInterest(high);
    forall a, b | a in top && b in multiset(high) - multiset(top)
      ensures b.openInterest <= a.openInterest
    {
      assert !MoreInterest(b, a);
    }
  }

  /** No row left out of the first three by open interest ranks ahead of
      one taken. */
  lemma MostInterest(high: seq<OptionRow>)
    ensures var top := TopInterest(high);
            && |top| == (if |high| < 3 then |high| else 3)
            && multiset(top) <= multiset(high)
            && forall a, b :: a in top && b in multiset(high) - multiset(top) ==> !MoreInterest(b, a)
  {
    MoreInterestOrder();
    TopOf(high, 3, MoreInterest);
  }

  /** The levels are the strikes of the (at most three) rows of largest open
      interest among those above the 80th percentile, in ascending order;
      each is the strike of such a row. */
  lemma OpenInterestLevelsShape(rows: seq<OptionRow>)
    ensures var r := OpenInterestLevels(rows);
            |r| <= 3
            && (rows == [] ==> r == [])
            && (forall i, j :: 0 <= i < j < |r| ==> r[i] <= r[j])
            && (rows != [] ==>
                  var high := HighInterest(rows);
                  && |r| == (if |high| < 3 then |high| else 3)
                  && multiset(r) == multiset(Strikes(TopInterest(high))))
            && (rows != [] ==> forall x :: x in r ==>
                  exists row :: row in rows && row.strike == x
                                && row.openInterest as real > Quantile(Interests(rows), 0.8))
  {
    var r := OpenInterestLevels(rows);
    if rows != [] {
      var high := HighInterest(rows);
      var top := TopInterest(high);
      NLargest(high);
      SortByOrdered(Strikes(top), Less);
      forall i, j | 0 <= i < j < |r| ensures r[i] <= r[j] {
        assert !Less(r[j], r[i]);
      }
      forall x | x in r
        ensures exists row :: row in rows && row.strike == x && row.openInterest as real > Quantile(Interests(rows), 0.8)
      {
        assert x in multiset(Strikes(top));
        var k :| 0 <= k < |top| && Strikes(top)[k] == x;
        assert top[k] in multiset(high);
        assert top[k] in high;
      }
    }
  }

  /** When every row has the same open interest none is above the
      percentile, so there are no levels. */
  lemma UniformInterestNoLevels(rows: seq<OptionRow>, oi: int)
    requires forall i :: 0 <= i < |rows| ==> rows[i].openInterest == oi
    ensures OpenInterestLevels(rows) == []
  {
    if rows != [] {
      var q := Quantile(Interests(rows), 0.8);
      assert q == oi as real;
      FilterNone(rows, (row: OptionRow) => row.openInterest as real > q);
      assert HighInterest(rows) == [];
      assert TopInterest(HighInterest(rows)) == [];
    }
  }

  // -------------------------------------------------------------- sentiment

  /** `_analyze_options_sentiment` */
  function SentimentOf(calls: seq<OptionRow>, puts: seq<OptionRow>): (r: Sentiment)
    ensures calls == [] || puts == [] ==> r == Neutral
    ensures r == Bearish <==> calls != [] && puts != []
                              && PutCallRatio(TotalVolume(puts), TotalVolume(calls)) > 1.2
                              && TotalInterest(puts) > TotalInterest(calls)
    ensures r == Bullish <==> calls != [] && puts != []
                              && PutCallRatio(TotalVolume(puts), TotalVolume(calls)) < 0.8
                              && TotalInterest(calls) > TotalInterest(puts)
  {
    if calls == [] || puts == [] then Neutral
    else
      var pcr := PutCallRatio(TotalVolume(puts), TotalVolume(calls));
      if pcr > 1.2 && TotalInterest(puts) > TotalInterest(calls) then Bearish
      else if pcr < 0.8 && TotalInterest(calls) > TotalInterest(puts) then Bullish
      else Neutral
  }

  /** A bullish reading needs more call than put open interest and a bearish
      one the reverse, so swapping the two sides' open interest can never keep
      a directional reading. */
  lemma SentimentNeedsInterestLead(calls: seq<OptionRow>, puts: seq<OptionRow>)
    ensures SentimentOf(calls, puts) == Bullish ==> TotalInterest(calls) > TotalInterest(puts)
    ensures SentimentOf(calls, puts) == Bearish ==> TotalInterest(puts) > TotalInterest(calls)
    ensures TotalInterest(calls) == TotalInterest(puts) ==> SentimentOf(calls, puts) == Neutral
  {
  }

  // --------------------------------------------------------- strategy menu

  datatype MenuStrategy = LongCall | BullCallSpread | LongPut | BearPutSpread | IronCondor | Straddle

  /** `get_options_strategies` for an outlook, given whether a chain came
      back. */
  function StrategyMenu(outlook: string, hasChain: bool): (r: seq<MenuStrategy>)
    ensures !hasChain ==> r == []
    ensures hasChain ==> |r| == 2 && r[0] != r[1]
    ensures hasChain ==> (LongCall in r <==> outlook == "BULLISH")
    ensures hasChain ==> (LongPut in r <==> outlook == "BEARISH")
    ensures hasChain ==> (Straddle in r <==> outlook != "BULLISH" && outlook != "BEARISH")
  {
    if !hasChain then []
    else if outlook == "BULLISH" then [LongCall, BullCallSpread]
    else if outlook == "BEARISH" then [LongPut, BearPutSpread]
    else [IronCondor, Straddle]
  }

  /** The three menus share no strategy, and any outlook other than the two
      directional ones gets the neutral menu. */
  lemma MenusDisjoint(a: string, b: string)
    requires (a == "BULLISH") != (b == "BULLISH") || (a == "BEARISH") != (b == "BEARISH")
    ensures forall x :: x in StrategyMenu(a, true) ==> x !in StrategyMenu(b, true)
  {
  }
}

/** Chain aggregates shared by the option providers: the put/call volume
    ratio, and open interest summed per strike with the strike holding the
    most of it. A Python dictionary remembers the order in which its keys were
    first inserted, and `max` over its keys returns the first key with the
    largest value, so the model keeps that order next to the map. */
module ChainStats {
  import opened Numeric

  /** An insertion-ordered dictionary from strike to summed open interest. */
  datatype Tally = Tally(strikes: seq<real>, interest: map<real, int>)

  /** The keys of the map are exactly the listed strikes, each listed once. */
  ghost predicate WellFormed(t: Tally)
  {
    && (forall k :: k in t.interest <==> k in t.strikes)
    && (forall i, j :: 0 <= i < j < |t.strikes| ==> t.strikes[i] != t.strikes[j])
  }

  /** `d[strike] = d.get(strike, 0) + oi` */
  function Add(t: Tally, strike: real, oi: int): (r: Tally)
    requires WellFormed(t)
    ensures WellFormed(r)
    ensures strike in r.interest
    ensures forall k :: k in t.interest ==> k in r.interest
  {
    if strike in t.interest then Tally(t.strikes, t.interest[strike := t.interest[strike] + oi])
    else Tally(t.strikes + [strike], t.interest[strike := oi])
  }

  /** The dictionary after adding every (strike, open interest) pair in order. */
  function TallyOf(pairs: seq<(real, int)>): (r: Tally)
    ensures WellFormed(r)
  {
    if pairs == [] then Tally([], map[])
    else
      var last := pairs[|pairs| - 1];
      Add(TallyOf(pairs[..|pairs| - 1]), last.0, last.1)
  }

  /** The open interest of every pair quoting `strike`, summed. */
  function InterestAt(pairs: seq<(real, int)>, strike: real): int
  {
    if pairs == [] then 0
    else InterestAt(pairs[..|pairs| - 1], strike)
         + (if pairs[|pairs| - 1].0 == strike then pairs[|pairs| - 1].1 else 0)
  }

  /** The dictionary holds exactly the quoted strikes, each with the open
      interest of all pairs at that strike summed. */
  lemma {:induction false} TallyOfSums(pairs: seq<(real, int)>, strike: real)
    ensures strike in TallyOf(pairs).interest <==> exists i :: 0 <= i < |pairs| && pairs[i].0 == strike
    ensures strike in TallyOf(pairs).interest ==> TallyOf(pairs).interest[strike] == InterestAt(pairs, strike)
  {
    if pairs != [] {
      var init := pairs[..|pairs| - 1];
      TallyOfSums(init, strike);
      if strike in TallyOf(pairs).interest && strike !in TallyOf(init).interest {
        assert pairs[|pairs| - 1].0 == strike;
      }
      if exists i :: 0 <= i < |pairs| && pairs[i].0 == strike {
        var i :| 0 <= i < |pairs| && pairs[i].0 == strike;
        if i < |pairs| - 1 {
          assert init[i].0 == strike;
        }
      }
      if strike !in TallyOf(init).interest {
        assert InterestAt(init, strike) == 0 by {
          NoneQuoted(init, strike);
        }
      }
    }
  }

  lemma {:induction false} NoneQuoted(pairs: seq<(real, int)>, strike: real)
    requires forall i :: 0 <= i < |pairs| ==> pairs[i].0 != strike
    ensures InterestAt(pairs, strike) == 0
  {
    if pairs != [] {
      NoneQuoted(pairs[..|pairs| - 1], strike);
    }
  }

  /** The first strike of `strikes` whose interest is largest (`max` keeps the
      first of equal maxima). */
  function Best(strikes: seq<real>, interest: map<real, int>): (r: real)
    requires strikes != [] && forall i :: 0 <= i < |strikes| ==> strikes[i] in interest
    ensures r in strikes && r in interest
    ensures forall i :: 0 <= i < |strikes| ==> interest[strikes[i]] <= interest[r]
    ensures exists i :: 0 <= i < |strikes| && strikes[i] == r
                        && forall j :: 0 <= j < i ==> interest[strikes[j]] < interest[r]
  {
    if |strikes| == 1 then strikes[0]
    else
      var init := strikes[..|strikes| - 1];
      var last := strikes[|strikes| - 1];
      var b := Best(init, interest);
      assert forall j :: 0 <= j < |strikes| - 1 ==> strikes[j] == init[j];
      if interest[last] > interest[b] then
        last
      else
        var i :| 0 <= i < |init| && init[i] == b && forall j :: 0 <= j < i ==> interest[init[j]] < interest[b];
        assert strikes[i] == b;
        b
  }

  /** `max(d.keys(), key=lambda k: d[k])`, `None` for an empty dictionary
      (where Python raises). */
  function MostInterest(t: Tally): (r: Option<real>)
    requires WellFormed(t)
    ensures r.None? <==> t.strikes == []
    ensures r.Some? ==> r.value in t.interest
    ensures r.Some? ==> forall k :: k in t.interest ==> t.interest[k] <= t.interest[r.value]
  {
    if t.strikes == [] then None
    else
      assert forall i :: 0 <= i < |t.strikes| ==> t.strikes[i] in t.strikes;
      var b := Best(t.strikes, t.interest);
      assert forall k :: k in t.interest ==> exists i :: 0 <= i < |t.strikes| && t.strikes[i] == k;
      Some(b)
  }

  /** The sentiment labels "BEARISH", "BULLISH" and "NEUTRAL". */
  datatype Sentiment = Bearish | Bullish | Neutral

  /** `put_volume / max(call_volume, 1)`: never a division by zero, and the
      ratio times the divisor gives back the put volume. */
  function PutCallRatio(putVolume: int, callVolume: int): (r: real)
    ensures r * MaxInt(callVolume, 1) as real == putVolume as real
    ensures putVolume >= 0 ==> r >= 0.0
    ensures callVolume <= 1 ==> r == putVolume as real
  {
    putVolume as real / MaxInt(callVolume, 1) as real
  }
}

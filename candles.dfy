/**
 * Price candles, candle colour, and the numeric helpers every zone engine
 * shares: absolute value, min/max and rounding to a number of decimals.
 */
module Candles {

  datatype Option<T> = None | Some(value: T)

  function OptionToSeq<T>(o: Option<T>): seq<T> {
    if o.Some? then [o.value] else []
  }

  /** The present values of a sequence of options, in order: the rows a loop
      appends when each step may or may not append one. */
  function Somes<T>(s: seq<Option<T>>): seq<T> {
    if s == [] then [] else Somes(s[..|s| - 1]) + OptionToSeq(s[|s| - 1])
  }

  /** Extending the scanned prefix by one position appends that position's value, if any. */
  lemma SomesStep<T>(s: seq<Option<T>>, k: nat)
    requires k < |s|
    ensures Somes(s[..k + 1]) == Somes(s[..k]) + OptionToSeq(s[k])
  {
    assert s[..k + 1][..k] == s[..k];
  }

  /**
   * Two option sequences that are present at the same positions keep the
   * same number of values, and values kept at the same place come from the
   * same position, so any relation holding position by position holds
   * between the kept values.
   */
  lemma {:induction false} SomesAligned<A, B>(s: seq<Option<A>>, t: seq<Option<B>>, R: (A, B) -> bool)
    requires |s| == |t|
    requires forall k :: 0 <= k < |s| ==> s[k].Some? == t[k].Some?
    requires forall k :: 0 <= k < |s| && s[k].Some? && t[k].Some? ==> R(s[k].value, t[k].value)
    ensures |Somes(s)| == |Somes(t)|
    ensures forall k :: 0 <= k < |Somes(s)| ==> R(Somes(s)[k], Somes(t)[k])
  {
    if s != [] {
      var n := |s| - 1;
      assert forall k :: 0 <= k < n ==> s[..n][k] == s[k] && t[..n][k] == t[k];
      SomesAligned(s[..n], t[..n], R);
    }
  }

  /** A sequence with no present value keeps nothing. */
  lemma {:induction false} SomesOfNones<T>(s: seq<Option<T>>)
    requires forall k :: 0 <= k < |s| ==> s[k].None?
    ensures Somes(s) == []
  {
    if s != [] {
      SomesOfNones(s[..|s| - 1]);
    }
  }

  /** Each kept value comes from some position of the sequence. */
  lemma {:induction false} SomesIndex<T>(s: seq<Option<T>>, x: T) returns (a: nat)
    requires x in Somes(s)
    ensures a < |s| && s[a] == Some(x)
  {
    var init := s[..|s| - 1];
    if x in Somes(init) {
      a := SomesIndex(init, x);
      assert s[a] == init[a];
    } else {
      a := |s| - 1;
    }
  }

  /** Each present value is kept. */
  lemma {:induction false} SomesContains<T>(s: seq<Option<T>>, a: nat)
    requires a < |s| && s[a].Some?
    ensures s[a].value in Somes(s)
  {
    var init := s[..|s| - 1];
    if a < |s| - 1 {
      assert s[a] == init[a];
      SomesContains(init, a);
    }
  }


  /** One OHLCV sample of a series; `time` is the ordering key (the index date). */
  datatype Candle = Candle(time: int, open: real, high: real, low: real, close: real, volume: real)

  /** Body direction: 'g' (close above open), 'r' (close below open), and the flat
      case, which the engines store as None ('d' for doji in one variant). */
  datatype Color = Green | Red | Neutral

  /** "Long" and "Base" come from the close-to-close size rule; "Normal" is the
      non-Base tag of the body-to-range rule. */
  datatype Kind = Long | Base | Normal

  /**
   * One entry of the classified_candles dictionary: the date, the prices the
   * engines read back (the stored close may already be rounded), the colour
   * and the kind tag.
   */
  datatype ClassifiedCandle = ClassifiedCandle(
    time: int, open: real, high: real, low: real, close: real, color: Color, kind: Kind)

  /** The stored prices of a classified candle keep open and close inside [low, high]. */
  predicate StoredWellFormed(c: ClassifiedCandle) {
    c.low <= c.open <= c.high && c.low <= c.close <= c.high
  }

  function ColorOf(open: real, close: real): Color {
    if close > open then Green else if close < open then Red else Neutral
  }

  function Abs(x: real): real { if x < 0.0 then -x else x }

  function Min(a: real, b: real): real { if a <= b then a else b }

  function Max(a: real, b: real): real { if a >= b then a else b }

  /** The price relations a market-data candle obeys: open and close inside [low, high]. */
  predicate WellFormed(c: Candle) {
    c.low <= c.open <= c.high && c.low <= c.close <= c.high
  }

  predicate AllWellFormed(s: seq<Candle>) {
    forall i :: 0 <= i < |s| ==> WellFormed(s[i])
  }

  /** Timestamps strictly increase along the series (the index is sorted and unique). */
  predicate StrictlyIncreasing(s: seq<Candle>) {
    forall i, j :: 0 <= i < j < |s| ==> s[i].time < s[j].time
  }

  function Pow10(places: nat): (r: real)
    ensures r >= 1.0
  {
    if places == 0 then 1.0 else 10.0 * Pow10(places - 1)
  }

  /**
   * Rounding to `places` decimals, half-way cases upwards. It stands for
   * Python's round(x, places) on floats; see the README for what that leaves out.
   */
  function RoundTo(x: real, places: nat): real {
    RoundAtScale(x, Pow10(places))
  }

  /** Rounding to a multiple of 1/scale. */
  function RoundAtScale(x: real, scale: real): real
    requires scale > 0.0
  {
    ((x * scale + 0.5).Floor as real) / scale
  }

  /** Rounding keeps order: the only property of it the zone proofs rely on. */
  lemma RoundMonotone(x: real, y: real, places: nat)
    requires x <= y
    ensures RoundTo(x, places) <= RoundTo(y, places)
  {
    RoundAtScaleMonotone(x, y, Pow10(places));
  }

  lemma RoundAtScaleMonotone(x: real, y: real, scale: real)
    requires x <= y && scale > 0.0
    ensures RoundAtScale(x, scale) <= RoundAtScale(y, scale)
  {
    var fx := (x * scale + 0.5).Floor;
    var fy := (y * scale + 0.5).Floor;
    ScaleMonotone(x, y, scale);
    assert fx <= fy;
    DivideMonotone(fx as real, fy as real, scale);
  }

  lemma ScaleMonotone(a: real, b: real, s: real)
    requires a <= b && s > 0.0
    ensures a * s <= b * s
  {
    assert b * s - a * s == (b - a) * s;
  }

  lemma DivideMonotone(a: real, b: real, s: real)
    requires a <= b && s > 0.0
    ensures a / s <= b / s
  {
    assert b / s - a / s == (b - a) / s;
  }

  /** Rounding zero at any number of decimals gives zero. */
  lemma RoundZero(places: nat)
    ensures RoundTo(0.0, places) == 0.0
  {
    var scale := Pow10(places);
    assert 0.0 * scale + 0.5 == 0.5;
    assert RoundAtScale(0.0, scale) == 0.0;
  }
}

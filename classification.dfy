/**
 * Long/Base classification shared by the close-to-close engines
 * (DZSZ4.py, DZSZNASDAQ.py and DZSZ.py hold the same code): rounded sizes,
 * the threshold, the long-candle dates and the classified_candles dictionary.
 */
module Classification {
  import opened Candles

  /** Size of candle i (i >= 1): its close-to-close move, rounded to one decimal. */
  function Size(series: seq<Candle>, i: nat): real
    requires 1 <= i < |series|
  {
    RoundTo(Abs(series[i].close - series[i - 1].close), 1)
  }

  /** rounded_candle_sizes: position i - 1 holds the size of candle i. */
  function RoundedSizes(series: seq<Candle>): seq<real>
    requires |series| >= 1
  {
    seq(|series| - 1, k requires 0 <= k < |series| - 1 => Size(series, k + 1))
  }

  function Sum(xs: seq<real>): real {
    if xs == [] then 0.0 else Sum(xs[..|xs| - 1]) + xs[|xs| - 1]
  }

  /**
   * long_candle_threshold = round(mean size, 1) * 1.5. A series of fewer than
   * two candles has no sizes; the source divides by zero there.
   */
  function Threshold(series: seq<Candle>): real
    requires |series| >= 2
  {
    RoundTo(Sum(RoundedSizes(series)) / ((|series| - 1) as real), 1) * 1.5
  }

  predicate IsLong(series: seq<Candle>, threshold: real, i: nat)
    requires 1 <= i < |series|
  {
    Size(series, i) >= threshold
  }

  /** The dictionary entry for candle i: its close is stored rounded to one decimal. */
  function Classify(series: seq<Candle>, threshold: real, i: nat): ClassifiedCandle
    requires 1 <= i < |series|
  {
    var c := series[i];
    ClassifiedCandle(c.time, c.open, c.high, c.low, RoundTo(c.close, 1), ColorOf(c.open, c.close),
                     if IsLong(series, threshold, i) then Long else Base)
  }

  /** classified_candles: one entry for each candle from index 1 on. */
  function ClassifiedMap(series: seq<Candle>, threshold: real): map<nat, ClassifiedCandle> {
    map i: nat | 1 <= i < |series| :: Classify(series, threshold, i)
  }

  /** The classified dictionary holds exactly the candles from index 1 on. */
  ghost predicate Covers(series: seq<Candle>, classified: map<nat, ClassifiedCandle>) {
    forall i: nat :: i in classified <==> 1 <= i < |series|
  }

  /** A dictionary with the keys and the entries of classified_candles. */
  ghost predicate ClassifiedFrom(series: seq<Candle>, threshold: real, classified: map<nat, ClassifiedCandle>) {
    Covers(series, classified)
    && forall i :: 1 <= i < |series| ==> classified[i] == Classify(series, threshold, i)
  }

  lemma ClassifiedMapIsClassified(series: seq<Candle>, threshold: real)
    ensures ClassifiedFrom(series, threshold, ClassifiedMap(series, threshold))
  {
  }

  /** long_candle_dates as positions: the Long candles among indices 1 .. k - 1, in order. */
  function LongIndicesBelow(series: seq<Candle>, threshold: real, k: nat): seq<nat>
    requires k <= |series|
  {
    if k <= 1 then []
    else LongIndicesBelow(series, threshold, k - 1)
         + (if IsLong(series, threshold, k - 1) then [k - 1] else [])
  }

  function LongIndices(series: seq<Candle>, threshold: real): seq<nat> {
    LongIndicesBelow(series, threshold, |series|)
  }

  predicate Increasing(xs: seq<nat>) {
    forall a, b :: 0 <= a < b < |xs| ==> xs[a] < xs[b]
  }

  /**
   * The long-candle list holds exactly the Long candles, in chronological order;
   * index 0 never appears.
   */
  lemma {:induction false} LongIndicesBelowExact(series: seq<Candle>, threshold: real, k: nat)
    requires k <= |series|
    ensures Increasing(LongIndicesBelow(series, threshold, k))
    ensures forall a :: 0 <= a < |LongIndicesBelow(series, threshold, k)| ==>
              1 <= LongIndicesBelow(series, threshold, k)[a] < k
    ensures forall i :: 1 <= i < k ==>
              (i in LongIndicesBelow(series, threshold, k) <==> IsLong(series, threshold, i))
  {
    if k > 1 {
      LongIndicesBelowExact(series, threshold, k - 1);
    }
  }

  lemma LongIndicesExact(series: seq<Candle>, threshold: real)
    ensures Increasing(LongIndices(series, threshold))
    ensures forall a :: 0 <= a < |LongIndices(series, threshold)| ==>
              1 <= LongIndices(series, threshold)[a] < |series|
    ensures forall i :: 1 <= i < |series| ==>
              (i in LongIndices(series, threshold) <==> IsLong(series, threshold, i))
  {
    LongIndicesBelowExact(series, threshold, |series|);
  }

  /**
   * Between two consecutive entries of the long-candle list every candle is
   * Base, so the base run between them is the whole gap.
   */
  lemma BetweenConsecutiveLongsIsBase(series: seq<Candle>, threshold: real, a: nat, i: nat)
    requires a + 1 < |LongIndices(series, threshold)|
    requires LongIndices(series, threshold)[a] < i < LongIndices(series, threshold)[a + 1]
    ensures 1 <= i < |series| && !IsLong(series, threshold, i)
  {
    var longs := LongIndices(series, threshold);
    LongIndicesExact(series, threshold);
    forall b | 0 <= b < |longs| ensures longs[b] != i {
      if b <= a {
        assert longs[b] <= longs[a];
      } else {
        assert longs[a + 1] <= longs[b];
      }
    }
  }

  /** The dictionary loop of analyze_zones: one entry per candle from index 1 on. */
  method ClassifyCandles(series: seq<Candle>, threshold: real) returns (classified: map<nat, ClassifiedCandle>)
    ensures forall i: nat :: i in classified <==> 1 <= i < |series|
    ensures forall i :: 1 <= i < |series| ==>
              classified[i].kind == (if Size(series, i) >= threshold then Long else Base)
              && classified[i].color == ColorOf(series[i].open, series[i].close)
    ensures classified == ClassifiedMap(series, threshold)
  {
    classified := map[];
    var i := 1;
    while i < |series|
      invariant 1 <= i <= |series| || |series| == 0
      invariant classified == map j: nat | 1 <= j < i && j < |series| :: Classify(series, threshold, j)
    {
      var color := ColorOf(series[i].open, series[i].close);
      var kind := if Size(series, i) >= threshold then Long else Base;
      classified := classified[i := ClassifiedCandle(series[i].time, series[i].open, series[i].high,
                                                     series[i].low, RoundTo(series[i].close, 1), color, kind)];
      i := i + 1;
    }
  }

  lemma {:induction false} SumOfZeros(xs: seq<real>)
    requires forall k :: 0 <= k < |xs| ==> xs[k] == 0.0
    ensures Sum(xs) == 0.0
  {
    if xs != [] {
      SumOfZeros(xs[..|xs| - 1]);
    }
  }

  /** A flat series (every close equal) has threshold 0, so every candle from index 1 is Long. */
  lemma FlatSeriesAllLong(series: seq<Candle>)
    requires |series| >= 2
    requires forall k :: 0 <= k < |series| ==> series[k].close == series[0].close
    ensures Threshold(series) == 0.0
    ensures forall i :: 1 <= i < |series| ==> IsLong(series, Threshold(series), i)
  {
    RoundZero(1);
    var sizes := RoundedSizes(series);
    forall k | 0 <= k < |sizes| ensures sizes[k] == 0.0 {
      assert series[k + 1].close - series[k].close == 0.0;
    }
    SumOfZeros(sizes);
    assert 0.0 / ((|series| - 1) as real) == 0.0;
  }
}

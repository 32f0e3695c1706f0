/**
 * The script DZSZ.py: the same classification as the other engines, a
 * proper if/elif topology chain, prices rounded to one decimal, and no cap on
 * the number of base candles. It collects (start, end, price, price) tuples.
 */
module EngineDzsz {
  import opened Candles
  import opened Aggregator
  import opened Classification
  import opened ZoneRange
  import opened ZoneStatus
  import opened EngineDzsz4

  /** One entry of consecutive_long_candles_with_base_gap. */
  datatype ZoneTuple = ZoneTuple(startTime: int, endTime: int, first: real, second: real)

  /** The proper elif chain of lines 177-191; a pair with a neutral candle is 'Unknown'. */
  function PairTopology(first: Color, second: Color): (ZoneType, Topology) {
    if first == Red && second == Red then (SupplyZone, DBD)
    else if first == Green && second == Green then (DemandZone, RBR)
    else if first == Green && second == Red then (SupplyZone, RBD)
    else if first == Red && second == Green then (DemandZone, DBR)
    else (NeutralZone, NoTopology)
  }

  /**
   * The two chains agree on reversal pairs; the broken chain of DZSZ4.py and
   * DZSZNASDAQ.py turns the continuation pairs (red/red, green/green) that
   * this chain labels DBD and RBR into Neutral.
   */
  lemma ChainsAgreeOnReversals(first: Color, second: Color)
    ensures PairTopology(first, second).1 != NoTopology <==> first != Neutral && second != Neutral
    ensures PairTopology(first, second).0 == SupplyZone <==> PairTopology(first, second).1 in {DBD, RBD}
    ensures PairTopology(first, second).0 == DemandZone <==> PairTopology(first, second).1 in {RBR, DBR}
    ensures PairTopology4(first, second)
            == if PairTopology(first, second).1 in {DBR, RBD} then PairTopology(first, second)
               else (NeutralZone, NoTopology)
  {
  }

  /** The tuple appended for the long-candle pair (start, end), if any. */
  function TupleFor(series: seq<Candle>, classified: map<nat, ClassifiedCandle>, start: nat, end: nat): Option<ZoneTuple>
    requires Covers(series, classified) && 1 <= start < end < |series|
  {
    var topology := PairTopology(classified[start].color, classified[end].color).1;
    var range := ZonePriceRange(classified, topology, start, end, 1);
    if range.None? then None
    else Some(ZoneTuple(series[start].time, series[end].time, range.value.0, range.value.1))
  }

  function PairTuples(series: seq<Candle>, classified: map<nat, ClassifiedCandle>, longs: seq<nat>): seq<Option<ZoneTuple>>
    requires Covers(series, classified) && ValidLongs(series, longs)
  {
    if |longs| < 2 then []
    else seq(|longs| - 1, a requires 0 <= a < |longs| - 1 =>
               TupleFor(series, classified, longs[a], longs[a + 1]))
  }

  /** What the script collects; None where it stops with a division by zero
      (fewer than two candles, so no sizes to average). */
  function ZonesDzsz(series: seq<Candle>): Option<seq<ZoneTuple>> {
    if |series| < 2 then None
    else
      var threshold := Threshold(series);
      LongIndicesExact(series, threshold);
      Some(Somes(PairTuples(series, ClassifiedMap(series, threshold), LongIndices(series, threshold))))
  }

  /** One pass of the pair loop of DZSZ.py: the topology chain and the price range. */
  method ZoneTupleForPair(series: seq<Candle>, classified: map<nat, ClassifiedCandle>, start: nat, end: nat)
    returns (tuple: Option<ZoneTuple>)
    requires Covers(series, classified) && 1 <= start < end < |series|
    ensures tuple == TupleFor(series, classified, start, end)
  {
    var first, second := classified[start].color, classified[end].color;
    var zoneType, zoneClassification;
    if first == Red && second == Red {
      zoneType, zoneClassification := DBD, SupplyZone;
    } else if first == Green && second == Green {
      zoneType, zoneClassification := RBR, DemandZone;
    } else if first == Green && second == Red {
      zoneType, zoneClassification := RBD, SupplyZone;
    } else if first == Red && second == Green {
      zoneType, zoneClassification := DBR, DemandZone;
    } else {
      zoneType, zoneClassification := NoTopology, NeutralZone;
    }
    assert (zoneClassification, zoneType) == PairTopology(first, second);
    var priceRange := ZonePriceRange(classified, zoneType, start, end, 1);
    tuple := None;
    if priceRange.Some? {
      tuple := Some(ZoneTuple(series[start].time, series[end].time, priceRange.value.0, priceRange.value.1));
    }
  }

  /** The body of DZSZ.py: classification (lines 12-56) and the pair loop (lines 168-196). */
  method RunDzsz(series: seq<Candle>) returns (result: Option<seq<ZoneTuple>>)
    ensures result == ZonesDzsz(series)
  {
    if |series| < 2 {
      return None;
    }
    var sizes := RoundedSizes(series);
    var avgCandleSize := RoundTo(Sum(sizes) / (|sizes| as real), 1);
    var threshold := avgCandleSize * 1.5;
    assert threshold == Threshold(series);
    var longs := LongIndices(series, threshold);
    LongIndicesExact(series, threshold);
    var classified := ClassifyCandles(series, threshold);
    ghost var results := PairTuples(series, classified, longs);
    var found: seq<ZoneTuple> := [];
    if longs == [] {
      return Some(found);
    }
    assert |results| == |longs| - 1;
    for a := 1 to |longs|
      invariant found == Somes(results[..a - 1])
    {
      var tuple := ZoneTupleForPair(series, classified, longs[a - 1], longs[a]);
      SomesStep(results, a - 1);
      assert results[a - 1] == tuple;
      if tuple.Some? {
        found := found + [tuple.value];
      }
    }
    assert results[..|longs| - 1] == results;
    return Some(found);
  }

  /**
   * For a pair of long candles with only Base candles between them, a tuple
   * is collected exactly when neither candle is neutral and at least one
   * candle lies between them, however many there are.
   */
  lemma TupleForConsecutiveLongs(series: seq<Candle>, classified: map<nat, ClassifiedCandle>, start: nat, end: nat)
    requires Covers(series, classified) && 1 <= start < end < |series|
    requires forall i: nat :: start < i < end ==> classified[i].kind == Base
    ensures TupleFor(series, classified, start, end).Some?
            <==> classified[start].color != Neutral && classified[end].color != Neutral && end - start >= 2
  {
    BaseRunOfAllBaseGap(classified, start, end);
    var topology := PairTopology(classified[start].color, classified[end].color).1;
    ChainsAgreeOnReversals(classified[start].color, classified[end].color);
    RangeDefinedIff(classified, topology, start, end, 1);
  }

  /**
   * With well-formed candles, Supply tuples (DBD, RBD) carry the higher price
   * first and Demand tuples (RBR, DBR) the lower price first.
   */
  lemma TupleOrientation(series: seq<Candle>, threshold: real, classified: map<nat, ClassifiedCandle>,
                         start: nat, end: nat)
    requires ClassifiedFrom(series, threshold, classified) && 1 <= start < end < |series|
    requires AllWellFormed(series)
    requires TupleFor(series, classified, start, end).Some?
    ensures var pair := PairTopology(classified[start].color, classified[end].color);
            var t := TupleFor(series, classified, start, end).value;
            (pair.0 == SupplyZone ==> t.first >= t.second)
            && (pair.0 == DemandZone ==> t.first <= t.second)
  {
    var topology := PairTopology(classified[start].color, classified[end].color).1;
    forall i: nat | start < i < end ensures OpenInsideRange(classified[i]) {
      assert classified[i] == Classify(series, threshold, i);
      assert WellFormed(series[i]);
    }
    RangeOrientation(classified, topology, start, end, 1);
  }

  /** Every pair DZSZ4.py writes a zone for is also collected by DZSZ.py, with the same dates. */
  lemma Dzsz4ZonesAreCollected(symbol: string, series: seq<Candle>, classified: map<nat, ClassifiedCandle>,
                               start: nat, end: nat)
    requires Covers(series, classified) && 1 <= start < end < |series|
    requires RowFor4(symbol, series, classified, start, end).Some?
    ensures TupleFor(series, classified, start, end).Some?
    ensures TupleFor(series, classified, start, end).value.startTime
            == RowFor4(symbol, series, classified, start, end).value.startTime
    ensures TupleFor(series, classified, start, end).value.endTime
            == RowFor4(symbol, series, classified, start, end).value.endTime
  {
    var first, second := classified[start].color, classified[end].color;
    ChainsAgreeOnReversals(first, second);
    RangeDefinedIff(classified, PairTopology4(first, second).1, start, end, 2);
    RangeDefinedIff(classified, PairTopology(first, second).1, start, end, 1);
  }
}

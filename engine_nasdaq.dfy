/**
 * The zone engine of DZSZNASDAQ.py. It classifies and pairs long candles as
 * DZSZ4.py does, but its status scan does not stop at a test, it has no
 * quality (Bad) override, and its table has no tested_date column.
 */
module EngineNasdaq {
  import opened Candles
  import opened Classification
  import opened ZoneRange
  import opened ZoneStatus
  import opened EngineDzsz4

  /** One row of the NASDAQ demand_supply_zones table. */
  datatype NasdaqRow = NasdaqRow(
    symbol: string, startTime: int, endTime: int, baseCount: nat,
    zoneType: ZoneType, classification: Topology,
    priceRangeHigh: real, priceRangeLow: real, status: Status)

  /** The row written for the long-candle pair (start, end), if any. The colour
      chain is the same broken chain as in DZSZ4.py (lines 247-261). */
  function RowForNasdaq(symbol: string, series: seq<Candle>, classified: map<nat, ClassifiedCandle>,
                        start: nat, end: nat): Option<NasdaqRow>
    requires Covers(series, classified) && 1 <= start < end < |series|
  {
    var pair := PairTopology4(classified[start].color, classified[end].color);
    var zoneType, topology := pair.0, pair.1;
    var baseCount := |BaseRun(classified, start, end)|;
    var range := ZonePriceRange(classified, topology, start, end, 2);
    if range.None? || baseCount >= 7 || baseCount == 0 then None
    else
      var high, low := range.value.0, range.value.1;
      Some(NasdaqRow(symbol, series[start].time, series[end].time, baseCount, zoneType, topology,
                     high, low, SweepStatus(series, end + 1, high, low, zoneType)))
  }

  function PairResultsNasdaq(symbol: string, series: seq<Candle>, classified: map<nat, ClassifiedCandle>,
                             longs: seq<nat>): seq<Option<NasdaqRow>>
    requires Covers(series, classified) && ValidLongs(series, longs)
  {
    if |longs| < 2 then []
    else seq(|longs| - 1, a requires 0 <= a < |longs| - 1 =>
               RowForNasdaq(symbol, series, classified, longs[a], longs[a + 1]))
  }

  /** Every row analyze_zones of DZSZNASDAQ.py writes for one series, in insertion order. */
  function ZonesNasdaq(symbol: string, series: seq<Candle>): seq<NasdaqRow> {
    if |series| < 2 then []
    else
      var threshold := Threshold(series);
      LongIndicesExact(series, threshold);
      Somes(PairResultsNasdaq(symbol, series, ClassifiedMap(series, threshold), LongIndices(series, threshold)))
  }

  /** One pass of the pair loop of DZSZNASDAQ.py's analyze_zones. */
  method ZoneForPairNasdaq(symbol: string, series: seq<Candle>, classified: map<nat, ClassifiedCandle>,
                           start: nat, end: nat) returns (row: Option<NasdaqRow>)
    requires Covers(series, classified) && 1 <= start < end < |series|
    ensures row == RowForNasdaq(symbol, series, classified, start, end)
  {
    var first, second := classified[start].color, classified[end].color;
    var zoneType, classification := NeutralZone, NoTopology;
    if first == Red && second == Red {
      zoneType, classification := SupplyZone, DBD;
    } else if first == Green && second == Green {
      zoneType, classification := DemandZone, RBR;
    }
    if first == Red && second == Green {
      zoneType, classification := DemandZone, DBR;
    } else if first == Green && second == Red {
      zoneType, classification := SupplyZone, RBD;
    } else {
      zoneType, classification := NeutralZone, NoTopology;
    }
    var baseCandles := BaseRun(classified, start, end);
    var baseCandleCount := |baseCandles|;
    var result := ZonePriceRange(classified, classification, start, end, 2);
    row := None;
    if result.Some? && baseCandleCount < 7 && baseCandleCount != 0 {
      var priceRangeHigh, priceRangeLow := result.value.0, result.value.1;
      var zoneStatus := UpdateZoneStatusNasdaq(series, priceRangeHigh, priceRangeLow, zoneType, end);
      row := Some(NasdaqRow(symbol, series[start].time, series[end].time, baseCandleCount, zoneType,
                            classification, priceRangeHigh, priceRangeLow, zoneStatus));
    }
  }

  /** analyze_zones of DZSZNASDAQ.py, with the database inserts collected as a sequence. */
  method AnalyzeZonesNasdaq(symbol: string, series: seq<Candle>) returns (rows: seq<NasdaqRow>)
    ensures rows == ZonesNasdaq(symbol, series)
  {
    if |series| < 2 {
      return [];
    }
    var sizes := RoundedSizes(series);
    var avgCandleSize := RoundTo(Sum(sizes) / (|sizes| as real), 1);
    var threshold := avgCandleSize * 1.5;
    assert threshold == Threshold(series);
    var longs := LongIndices(series, threshold);
    LongIndicesExact(series, threshold);
    var classified := ClassifyCandles(series, threshold);
    ghost var results := PairResultsNasdaq(symbol, series, classified, longs);
    rows := [];
    if longs == [] {
      return;
    }
    assert |results| == |longs| - 1;
    for a := 1 to |longs|
      invariant rows == Somes(results[..a - 1])
    {
      var row := ZoneForPairNasdaq(symbol, series, classified, longs[a - 1], longs[a]);
      SomesStep(results, a - 1);
      assert results[a - 1] == row;
      if row.Some? {
        rows := rows + [row.value];
      }
    }
    assert results[..|longs| - 1] == results;
  }

  /**
   * The zone a DZSZNASDAQ.py row and a DZSZ4.py row describe is the same:
   * dates, base count, type, topology and prices agree. The statuses agree on
   * Active and Violated zones; the NASDAQ scan is never Bad, and where DZSZ4
   * reports a test the NASDAQ scan may go on to find a violation.
   */
  predicate SameZone(r4: ZoneRow, n: NasdaqRow) {
    r4.symbol == n.symbol && r4.startTime == n.startTime && r4.endTime == n.endTime
    && r4.baseCount == n.baseCount && r4.zoneType == n.zoneType && r4.classification == n.classification
    && r4.priceRangeHigh == n.priceRangeHigh && r4.priceRangeLow == n.priceRangeLow
    && n.status != Bad
    && (r4.status == Active ==> n.status == Active)
    && (r4.status == Violated ==> n.status == Violated)
    && (n.status == Active ==> r4.status == Active || r4.status == Bad)
  }

  /** For one pair of long candles, both engines write a row or neither does, and the rows agree. */
  lemma PairAgrees(symbol: string, series: seq<Candle>, classified: map<nat, ClassifiedCandle>, start: nat, end: nat)
    requires Covers(series, classified) && 1 <= start < end < |series|
    ensures RowFor4(symbol, series, classified, start, end).Some?
            == RowForNasdaq(symbol, series, classified, start, end).Some?
    ensures RowFor4(symbol, series, classified, start, end).Some? ==>
              SameZone(RowFor4(symbol, series, classified, start, end).value,
                       RowForNasdaq(symbol, series, classified, start, end).value)
  {
    var pair := PairTopology4(classified[start].color, classified[end].color);
    var range := ZonePriceRange(classified, pair.1, start, end, 2);
    if range.Some? {
      ScansAgree(series, end + 1, range.value.0, range.value.1, pair.0);
    }
  }

  /**
   * DZSZNASDAQ.py and DZSZ4.py write the same zones for a series, in the same
   * order; the rows differ only in status as SameZone allows.
   */
  lemma NasdaqWritesSameZones(symbol: string, series: seq<Candle>)
    ensures |ZonesNasdaq(symbol, series)| == |Zones4(symbol, series)|
    ensures forall k :: 0 <= k < |Zones4(symbol, series)| ==>
              SameZone(Zones4(symbol, series)[k], ZonesNasdaq(symbol, series)[k])
  {
    if |series| >= 2 {
      var threshold := Threshold(series);
      var classified := ClassifiedMap(series, threshold);
      var longs := LongIndices(series, threshold);
      LongIndicesExact(series, threshold);
      var s := PairResults4(symbol, series, classified, longs);
      var t := PairResultsNasdaq(symbol, series, classified, longs);
      forall k | 0 <= k < |s|
        ensures s[k].Some? == t[k].Some?
        ensures s[k].Some? && t[k].Some? ==> SameZone(s[k].value, t[k].value)
      {
        PairAgrees(symbol, series, classified, longs[k], longs[k + 1]);
      }
      SomesAligned(s, t, SameZone);
      assert Zones4(symbol, series) == Somes(s);
    }
  }
}

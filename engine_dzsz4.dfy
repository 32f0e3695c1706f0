/**
 * The zone engine of DZSZ4.py: analyze_zones (classification, the loop over
 * consecutive long candles, the quality override), and the helper
 * is_last_long_candle_valid, which DZSZ4.py defines but never calls.
 */
module EngineDzsz4 {
  import opened Candles
  import opened Aggregator
  import opened Classification
  import opened ZoneRange
  import opened ZoneStatus

  /** One row of the demand_supply_zones table. */
  datatype ZoneRow = ZoneRow(
    symbol: string, startTime: int, endTime: int, baseCount: nat,
    zoneType: ZoneType, classification: Topology,
    priceRangeHigh: real, priceRangeLow: real,
    status: Status, testedDate: Option<int>)

  /**
   * What the colour chain leaves behind. The second `if` (line 397) starts a
   * new chain whose `else` overwrites whatever the first chain chose, so only
   * red/green and green/red pairs keep a topology.
   */
  function PairTopology4(first: Color, second: Color): (ZoneType, Topology) {
    if first == Red && second == Green then (DemandZone, DBR)
    else if first == Green && second == Red then (SupplyZone, RBD)
    else (NeutralZone, NoTopology)
  }

  /** The wick the chain computes for the end candle: upper wick for DBR, low
      minus the lower body edge for RBD. Other topologies emit no row. */
  function EndWick(topology: Topology, end: ClassifiedCandle): real {
    match topology
    case DBR => end.high - Max(end.open, end.close)
    case RBD => end.low - Min(end.open, end.close)
    case _ => 0.0
  }

  /** The quality test of line 432: the wick exceeds a tenth of the end candle's body. */
  predicate BadWick(topology: Topology, end: ClassifiedCandle) {
    EndWick(topology, end) > 0.1 * Abs(end.open - end.close)
  }

  /** The row written for the long-candle pair (start, end), if any. */
  function RowFor4(symbol: string, series: seq<Candle>, classified: map<nat, ClassifiedCandle>,
                   start: nat, end: nat): Option<ZoneRow>
    requires Covers(series, classified) && 1 <= start < end < |series|
  {
    var pair := PairTopology4(classified[start].color, classified[end].color);
    var zoneType, topology := pair.0, pair.1;
    var baseCount := |BaseRun(classified, start, end)|;
    var range := ZonePriceRange(classified, topology, start, end, 2);
    if range.None? || baseCount >= 7 || baseCount == 0 then None
    else
      var high, low := range.value.0, range.value.1;
      var decision := FirstDecision(series, end + 1, high, low, zoneType);
      Some(ZoneRow(symbol, series[start].time, series[end].time, baseCount, zoneType, topology,
                   high, low, if BadWick(topology, classified[end]) then Bad else decision.0, decision.1))
  }

  predicate ValidLongs(series: seq<Candle>, longs: seq<nat>) {
    Increasing(longs) && forall a :: 0 <= a < |longs| ==> 1 <= longs[a] < |series|
  }

  /** The outcome of the pair loop for each consecutive pair of the long-candle list, in order. */
  function PairResults4(symbol: string, series: seq<Candle>, classified: map<nat, ClassifiedCandle>,
                        longs: seq<nat>): seq<Option<ZoneRow>>
    requires Covers(series, classified) && ValidLongs(series, longs)
  {
    if |longs| < 2 then []
    else seq(|longs| - 1, a requires 0 <= a < |longs| - 1 =>
               RowFor4(symbol, series, classified, longs[a], longs[a + 1]))
  }

  /** The rows the pair loop writes once the long-candle threshold is fixed, in insertion order. */
  function ZonesAt(symbol: string, series: seq<Candle>, threshold: real): seq<ZoneRow> {
    LongIndicesExact(series, threshold);
    Somes(PairResults4(symbol, series, ClassifiedMap(series, threshold), LongIndices(series, threshold)))
  }

  /** Every row analyze_zones writes for one series; a series of fewer than
      two candles writes none (the division by zero is swallowed). */
  function Zones4(symbol: string, series: seq<Candle>): seq<ZoneRow> {
    if |series| < 2 then [] else ZonesAt(symbol, series, Threshold(series))
  }

  /** One pass of the pair loop of analyze_zones: the colour chain, the base
      run, the price range, the status scan and the quality override. */
  method ZoneForPair4(symbol: string, series: seq<Candle>, classified: map<nat, ClassifiedCandle>,
                      start: nat, end: nat) returns (row: Option<ZoneRow>)
    requires Covers(series, classified) && 1 <= start < end < |series|
    ensures row == RowFor4(symbol, series, classified, start, end)
  {
    var first, second := classified[start].color, classified[end].color;
    var endCandle := classified[end];
    var delOC := Abs(endCandle.open - endCandle.close);
    var zoneType, classification, wick := NeutralZone, NoTopology, 0.0;
    if first == Red && second == Red {
      zoneType, classification := SupplyZone, DBD;
      wick := endCandle.low - Min(endCandle.open, endCandle.close);
    } else if first == Green && second == Green {
      zoneType, classification := DemandZone, RBR;
      wick := endCandle.high - Max(endCandle.open, endCandle.close);
    }
    if first == Red && second == Green {
      zoneType, classification := DemandZone, DBR;
      wick := endCandle.high - Max(endCandle.open, endCandle.close);
    } else if first == Green && second == Red {
      zoneType, classification := SupplyZone, RBD;
      wick := endCandle.low - Min(endCandle.open, endCandle.close);
    } else {
      zoneType, classification := NeutralZone, NoTopology;
    }
    assert (zoneType, classification) == PairTopology4(first, second);
    var baseCandles := BaseRun(classified, start, end);
    var baseCandleCount := |baseCandles|;
    var result := ZonePriceRange(classified, classification, start, end, 2);
    row := None;
    if result.Some? && baseCandleCount < 7 && baseCandleCount != 0 {
      assert wick == EndWick(classification, endCandle);
      var priceRangeHigh, priceRangeLow := result.value.0, result.value.1;
      var zoneStatus, testedDate := UpdateZoneStatus(series, priceRangeHigh, priceRangeLow, zoneType, end);
      if wick > 0.1 * delOC {
        zoneStatus := Bad;
      }
      row := Some(ZoneRow(symbol, series[start].time, series[end].time, baseCandleCount, zoneType,
                          classification, priceRangeHigh, priceRangeLow, zoneStatus, testedDate));
    }
  }

  /** analyze_zones of DZSZ4.py, with the database inserts collected as a sequence. */
  method AnalyzeZones4(symbol: string, series: seq<Candle>) returns (rows: seq<ZoneRow>)
    ensures rows == Zones4(symbol, series)
  {
    if |series| < 2 {
      return [];
    }
    var sizes := RoundedSizes(series);
    var avgCandleSize := RoundTo(Sum(sizes) / (|sizes| as real), 1);
    var threshold := avgCandleSize * 1.5;
    assert threshold == Threshold(series);
    var longs := LongIndices(series, threshold);
    LongIndicesExact(series, threshold);
    var classified := ClassifyCandles(series, threshold);
    ghost var results := PairResults4(symbol, series, classified, longs);
    rows := [];
    if longs == [] {
      return;
    }
    assert |results| == |longs| - 1;
    for a := 1 to |longs|
      invariant rows == Somes(results[..a - 1])
    {
      var row := ZoneForPair4(symbol, series, classified, longs[a - 1], longs[a]);
      SomesStep(results, a - 1);
      assert results[a - 1] == row;
      if row.Some? {
        rows := rows + [row.value];
      }
    }
    assert results[..|longs| - 1] == results;
  }

  /**
   * What one pair of long candles with only Base candles between them yields:
   * a row exactly when the pair is red/green or green/red and 1 to 6 candles
   * lie between them; the row is then DBR/Demand or RBD/Supply, dated by the
   * two long candles, and its base count is the number of candles between them.
   */
  lemma RowForConsecutiveLongs(symbol: string, series: seq<Candle>, classified: map<nat, ClassifiedCandle>,
                               start: nat, end: nat)
    requires Covers(series, classified) && 1 <= start < end < |series|
    requires forall i: nat :: start < i < end ==> classified[i].kind == Base
    ensures var topology := PairTopology4(classified[start].color, classified[end].color).1;
            RowFor4(symbol, series, classified, start, end).Some?
            <==> (topology == DBR || topology == RBD) && 2 <= end - start <= 7
    ensures var r := RowFor4(symbol, series, classified, start, end);
            r.Some? ==>
              r.value.baseCount == end - start - 1
              && ((r.value.classification == DBR && r.value.zoneType == DemandZone)
                  || (r.value.classification == RBD && r.value.zoneType == SupplyZone))
              && r.value.startTime == series[start].time && r.value.endTime == series[end].time
  {
    BaseRunOfAllBaseGap(classified, start, end);
    var topology := PairTopology4(classified[start].color, classified[end].color).1;
    RangeDefinedIff(classified, topology, start, end, 2);
  }

  /** Entry b of the pair results is the outcome of the pair (longs[b], longs[b + 1]). */
  lemma PairResultsAt(symbol: string, series: seq<Candle>, classified: map<nat, ClassifiedCandle>,
                      longs: seq<nat>, b: nat)
    requires Covers(series, classified) && ValidLongs(series, longs)
    requires b < |PairResults4(symbol, series, classified, longs)|
    ensures b + 1 < |longs|
    ensures PairResults4(symbol, series, classified, longs)[b]
            == RowFor4(symbol, series, classified, longs[b], longs[b + 1])
  {
  }

  /** A row kept from the pair results is the outcome of one consecutive pair of the list. */
  lemma PairOfRow(symbol: string, series: seq<Candle>, classified: map<nat, ClassifiedCandle>,
                  longs: seq<nat>, row: ZoneRow) returns (b: nat)
    requires Covers(series, classified) && ValidLongs(series, longs)
    requires row in Somes(PairResults4(symbol, series, classified, longs))
    ensures b + 1 < |longs|
    ensures RowFor4(symbol, series, classified, longs[b], longs[b + 1]) == Some(row)
  {
    b := SomesIndex(PairResults4(symbol, series, classified, longs), row);
    PairResultsAt(symbol, series, classified, longs, b);
  }

  /** Each row the pair loop writes is the outcome of some pair of consecutive
      long candles, which have only Base candles between them. */
  lemma ZonesAtFromPairs(symbol: string, series: seq<Candle>, threshold: real, row: ZoneRow)
    returns (classified: map<nat, ClassifiedCandle>, start: nat, end: nat)
    requires row in ZonesAt(symbol, series, threshold)
    ensures 1 <= start < end < |series|
    ensures ClassifiedFrom(series, threshold, classified)
    ensures RowFor4(symbol, series, classified, start, end) == Some(row)
    ensures forall i :: start < i < end ==> !IsLong(series, threshold, i)
  {
    classified := ClassifiedMap(series, threshold);
    ClassifiedMapIsClassified(series, threshold);
    var longs := LongIndices(series, threshold);
    LongIndicesExact(series, threshold);
    var b := PairOfRow(symbol, series, classified, longs, row);
    forall i | longs[b] < i < longs[b + 1] ensures !IsLong(series, threshold, i) {
      BetweenConsecutiveLongsIsBase(series, threshold, b, i);
    }
    start, end := longs[b], longs[b + 1];
  }

  lemma ZonesFromPairs(symbol: string, series: seq<Candle>, row: ZoneRow)
    returns (threshold: real, classified: map<nat, ClassifiedCandle>, start: nat, end: nat)
    requires row in Zones4(symbol, series)
    ensures 1 <= start < end < |series|
    ensures ClassifiedFrom(series, threshold, classified)
    ensures RowFor4(symbol, series, classified, start, end) == Some(row)
    ensures forall i :: start < i < end ==> !IsLong(series, threshold, i)
  {
    threshold := Threshold(series);
    classified, start, end := ZonesAtFromPairs(symbol, series, threshold, row);
  }

  /**
   * Only DBR (Demand) and RBD (Supply) zones are ever written, each with 1 to
   * 6 base candles, which are all the candles between its two long candles.
   */
  lemma OnlyDbrAndRbdRows(symbol: string, series: seq<Candle>, row: ZoneRow)
    requires row in Zones4(symbol, series)
    ensures 1 <= row.baseCount <= 6
    ensures (row.classification == DBR && row.zoneType == DemandZone)
            || (row.classification == RBD && row.zoneType == SupplyZone)
  {
    var threshold, classified, start, end := ZonesFromPairs(symbol, series, row);
    forall i: nat | start < i < end ensures classified[i].kind == Base {
      assert classified[i] == Classify(series, threshold, i);
    }
    RowForConsecutiveLongs(symbol, series, classified, start, end);
  }

  /**
   * Properties of a written row when the market data is well formed. Its
   * tested date follows its end date. A Demand (DBR) row is stored with
   * price_range_high <= price_range_low — the unpacking swaps the two — so
   * its touch interval is empty and it can be Tested only when the two prices
   * coincide. A Supply (RBD) row has price_range_high >= price_range_low, and
   * is Bad only when the end candle's stored (rounded) close lies below its low.
   */
  lemma RowForWellFormed(symbol: string, series: seq<Candle>, threshold: real,
                         classified: map<nat, ClassifiedCandle>, start: nat, end: nat)
    requires ClassifiedFrom(series, threshold, classified) && 1 <= start < end < |series|
    requires AllWellFormed(series) && StrictlyIncreasing(series)
    requires RowFor4(symbol, series, classified, start, end).Some?
    ensures var row := RowFor4(symbol, series, classified, start, end).value;
            (row.testedDate.Some? ==> row.testedDate.value > row.endTime)
            && (row.classification == DBR ==> row.priceRangeHigh <= row.priceRangeLow)
            && (row.classification == DBR && row.status == Tested ==> row.priceRangeHigh == row.priceRangeLow)
            && (row.classification == RBD ==> row.priceRangeHigh >= row.priceRangeLow)
            && (row.classification == RBD && row.status == Bad ==> RoundTo(series[end].close, 1) < series[end].low)
  {
    var pair := PairTopology4(classified[start].color, classified[end].color);
    var zoneType, topology := pair.0, pair.1;
    var range := ZonePriceRange(classified, topology, start, end, 2);
    var high, low := range.value.0, range.value.1;
    FirstDecisionExact(series, end + 1, high, low, zoneType);
    forall i: nat | start < i < end ensures OpenInsideRange(classified[i]) {
      assert classified[i] == Classify(series, threshold, i);
      assert WellFormed(series[i]);
    }
    RangeOrientation(classified, topology, start, end, 2);
    if high < low {
      EmptyIntervalNeverTested(series, end + 1, high, low, zoneType);
    }
    assert classified[end] == Classify(series, threshold, end);
    assert WellFormed(series[end]);
  }

  /** The same properties for any row written for a well-formed, time-ordered series. */
  lemma ZonesOfWellFormedSeries(symbol: string, series: seq<Candle>, row: ZoneRow)
    requires AllWellFormed(series) && StrictlyIncreasing(series)
    requires row in Zones4(symbol, series)
    ensures row.testedDate.Some? ==> row.testedDate.value > row.endTime
    ensures row.zoneType == DemandZone ==> row.priceRangeHigh <= row.priceRangeLow
    ensures row.zoneType == DemandZone && row.status == Tested ==> row.priceRangeHigh == row.priceRangeLow
    ensures row.zoneType == SupplyZone ==> row.priceRangeHigh >= row.priceRangeLow
  {
    OnlyDbrAndRbdRows(symbol, series, row);
    var threshold, classified, start, end := ZonesFromPairs(symbol, series, row);
    RowForWellFormed(symbol, series, threshold, classified, start, end);
  }

  /** A candle whose body |close - open| reaches the threshold. */
  predicate LongBody(c: Candle, threshold: real) {
    Abs(c.close - c.open) >= threshold
  }

  /** The wick test of is_last_long_candle_valid: (max(high, low) - max(open, close)) / body
      is at most 0.10, a zero body counting as ratio 0. */
  predicate WickWithinTenPercent(c: Candle) {
    var body := Abs(c.close - c.open);
    var wick := Max(c.high, c.low) - Max(c.open, c.close);
    (if body != 0.0 then wick / body else 0.0) <= 0.10
  }

  /** stock_data.iloc[i]: a negative position counts from the end of the frame,
      and a position outside the frame is the IndexError (None). */
  function ILoc(series: seq<Candle>, i: int): (r: Option<Candle>)
    ensures r.Some? <==> -|series| <= i < |series|
    ensures 0 <= i < |series| ==> r == Some(series[i])
  {
    if 0 <= i < |series| then Some(series[i])
    else if -|series| <= i < 0 then Some(series[|series| + i])
    else None
  }

  /** The backward scan of is_last_long_candle_valid over positions i down to
      zoneStart + 1: Some(verdict) where it returns, None where iloc raises. */
  function LastLongScan(series: seq<Candle>, threshold: real, zoneStart: int, i: int): Option<bool>
    decreases i - zoneStart
  {
    if i <= zoneStart then Some(false)
    else
      var candle := ILoc(series, i);
      if candle.None? then None
      else if LongBody(candle.value, threshold) then Some(WickWithinTenPercent(candle.value))
      else LastLongScan(series, threshold, zoneStart, i - 1)
  }

  /**
   * is_last_long_candle_valid: scans from zoneEnd down to zoneStart + 1 for
   * the latest long-bodied candle; True iff one exists and its wick test holds.
   * None stands for the IndexError of a position outside the frame; an end
   * position past the last candle raises before any candle is read.
   */
  method IsLastLongCandleValid(zoneStart: int, zoneEnd: int, series: seq<Candle>, threshold: real)
    returns (valid: Option<bool>)
    ensures valid == LastLongScan(series, threshold, zoneStart, zoneEnd)
    ensures zoneStart < zoneEnd && |series| <= zoneEnd ==> valid.None?
  {
    var i := zoneEnd;
    while i > zoneStart
      invariant LastLongScan(series, threshold, zoneStart, i) == LastLongScan(series, threshold, zoneStart, zoneEnd)
      decreases i - zoneStart
    {
      var candle: Candle;
      if 0 <= i < |series| {
        candle := series[i];
      } else if -|series| <= i < 0 {
        candle := series[|series| + i];
      } else {
        return None;
      }
      if Abs(candle.close - candle.open) >= threshold {
        var bodySize := Abs(candle.close - candle.open);
        var wickSize := Max(candle.high, candle.low) - Max(candle.open, candle.close);
        var wickPercentage := if bodySize != 0.0 then wickSize / bodySize else 0.0;
        return Some(wickPercentage <= 0.10);
      }
      i := i - 1;
    }
    return Some(false);
  }

  /**
   * Within the frame (zoneStart >= -1, i below the length) the scan never
   * raises, and it answers True exactly when the latest long-bodied candle in
   * (zoneStart, i] exists and passes the wick test.
   */
  lemma {:induction false} LastLongScanMeaning(series: seq<Candle>, threshold: real, zoneStart: int, i: int)
    requires -1 <= zoneStart && i < |series|
    ensures LastLongScan(series, threshold, zoneStart, i).Some?
    ensures LastLongScan(series, threshold, zoneStart, i).value <==>
              exists k :: zoneStart < k <= i && 0 <= k
                && LongBody(series[k], threshold) && WickWithinTenPercent(series[k])
                && forall j :: k < j <= i ==> !LongBody(series[j], threshold)
    decreases i - zoneStart
  {
    if i > zoneStart {
      assert ILoc(series, i) == Some(series[i]);
      if LongBody(series[i], threshold) {
        if exists k :: zoneStart < k <= i && 0 <= k
             && LongBody(series[k], threshold) && WickWithinTenPercent(series[k])
             && forall j :: k < j <= i ==> !LongBody(series[j], threshold) {
          var k :| zoneStart < k <= i && 0 <= k
                   && LongBody(series[k], threshold) && WickWithinTenPercent(series[k])
                   && forall j :: k < j <= i ==> !LongBody(series[j], threshold);
          assert k == i;
        }
      } else {
        LastLongScanMeaning(series, threshold, zoneStart, i - 1);
        if exists k :: zoneStart < k <= i && 0 <= k
             && LongBody(series[k], threshold) && WickWithinTenPercent(series[k])
             && forall j :: k < j <= i ==> !LongBody(series[j], threshold) {
          var k :| zoneStart < k <= i && 0 <= k
                   && LongBody(series[k], threshold) && WickWithinTenPercent(series[k])
                   && forall j :: k < j <= i ==> !LongBody(series[j], threshold);
          assert k < i;
          assert forall j :: k < j <= i - 1 ==> !LongBody(series[j], threshold);
        }
      }
    }
  }
}

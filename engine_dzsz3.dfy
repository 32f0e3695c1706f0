/**
 * classify_candles_and_calculate_zones of DZSZ3.py: a body/range Base rule,
 * a colour-only zone zoneLabel, and zones between ADJACENT candles.
 */
module EngineDzsz3 {
  import opened Candles
  import opened Aggregator
  import opened ZoneRange
  import opened ZoneStatus

  /** One row this engine would insert. */
  datatype Row3 = Row3(
    symbol: string, startTime: int, endTime: int, baseCount: nat,
    zoneType: Topology, classification: Topology,
    priceRangeHigh: real, priceRangeLow: real, status: Status)

  /** The dictionary entry for one candle: raw close, colour g/r/d, and Base iff
      the body is under 30% of the high-low range, Normal otherwise. */
  function Classify3(c: Candle): ClassifiedCandle {
    ClassifiedCandle(c.time, c.open, c.high, c.low, c.close, ColorOf(c.open, c.close),
                     if Abs(c.close - c.open) < (c.high - c.low) * 0.3 then Base else Normal)
  }

  /** The row loop: every candle, index 0 included, gets an entry. */
  method ClassifyCandles3(series: seq<Candle>) returns (classified: map<nat, ClassifiedCandle>)
    ensures forall i: nat :: i in classified <==> i < |series|
    ensures forall i :: 0 <= i < |series| ==> classified[i] == Classify3(series[i])
  {
    classified := map[];
    for i := 0 to |series|
      invariant forall j: nat :: j in classified <==> j < i
      invariant forall j :: 0 <= j < i ==> classified[j] == Classify3(series[j])
    {
      var c := series[i];
      var color;
      if c.close > c.open {
        color := Green;
      } else if c.close < c.open {
        color := Red;
      } else {
        color := Neutral;
      }
      classified := classified[i := ClassifiedCandle(c.time, c.open, c.high, c.low, c.close, color,
                                                     if Abs(c.close - c.open) < (c.high - c.low) * 0.3 then Base else Normal)];
    }
  }

  /** The zone zoneLabel of line 190: DBD iff the earlier candle is green, else RBR. */
  function Label3(c: Color): Topology {
    if c == Green then DBD else RBR
  }

  /** The row inserted for the pair (start, end) when calculate_zone_price_range
      returns a range. */
  function RowFor3(symbol: string, series: seq<Candle>, classified: map<nat, ClassifiedCandle>,
                   start: nat, end: nat): Option<Row3>
    requires start < end < |series| && start in classified && CoversGap(classified, start, end)
  {
    var zoneLabel := Label3(classified[start].color);
    var range := ZonePriceRange3(classified, zoneLabel, start, end);
    if range.None? then None
    else Some(Row3(symbol, series[start].time, series[end].time, 1, zoneLabel, zoneLabel,
                   range.value.0, range.value.1, Active))
  }

  /**
   * The pair loop of classify_candles_and_calculate_zones, over ADJACENT
   * candles (i, i + 1). Nothing lies between them, so the base run is empty,
   * the combine step returns its sentinel and no row is ever inserted.
   */
  method CalculateZones3(symbol: string, series: seq<Candle>, classified: map<nat, ClassifiedCandle>)
    returns (rows: seq<Row3>)
    requires forall i: nat :: i < |series| ==> i in classified
    ensures rows == []
  {
    rows := [];
    var i := 0;
    while i + 1 < |series|
      invariant rows == []
    {
      var row := RowFor3(symbol, series, classified, i, i + 1);
      AdjacentPairsYieldNothing(symbol, series, classified, i);
      rows := rows + OptionToSeq(row);
      i := i + 1;
    }
  }

  /** classify_candles_and_calculate_zones: classification, then the pair loop. */
  method ClassifyCandlesAndCalculateZones3(symbol: string, series: seq<Candle>) returns (rows: seq<Row3>)
    ensures rows == []
  {
    var classified := ClassifyCandles3(series);
    rows := CalculateZones3(symbol, series, classified);
  }

  /**
   * Adjacent candles have nothing between them, so the base run is empty, the
   * combine step returns its sentinel and no pair ever yields a row.
   */
  lemma AdjacentPairsYieldNothing(symbol: string, series: seq<Candle>, classified: map<nat, ClassifiedCandle>, i: nat)
    requires i + 1 < |series| && i in classified
    ensures RowFor3(symbol, series, classified, i, i + 1) == None
  {
    assert BaseRun(classified, i, i + 1) == [];
  }

  /**
   * Between candles that are further apart the label decides the range: DBD
   * carries (high, lowest body) and RBR (highest body, low), both with the
   * higher price first when the candles between are well formed.
   */
  lemma RowFor3Orientation(symbol: string, series: seq<Candle>, classified: map<nat, ClassifiedCandle>,
                           start: nat, end: nat)
    requires start < end < |series| && start in classified && CoversGap(classified, start, end)
    requires forall i: nat :: start < i < end ==> OpenInsideRange(classified[i])
    requires RowFor3(symbol, series, classified, start, end).Some?
    ensures RowFor3(symbol, series, classified, start, end).value.priceRangeHigh
            >= RowFor3(symbol, series, classified, start, end).value.priceRangeLow
  {
    RangeOrientation3(classified, Label3(classified[start].color), start, end);
  }

  /** For a candle with a positive range, the DZSZ3 Base test and colour. A doji
      (open == close) with any range at all is Base, and a candle with no range
      is never Base. */
  lemma Classify3Meaning(c: Candle)
    ensures Classify3(c).kind == Base <==> Abs(c.close - c.open) < (c.high - c.low) * 0.3
    ensures Classify3(c).kind != Long
    ensures c.open == c.close && c.high > c.low ==> Classify3(c).kind == Base && Classify3(c).color == Neutral
    ensures c.high == c.low ==> Classify3(c).kind == Normal
  {
  }
}

/**
 * ChartXNDX.py: merging 1-hour candles into 2-hour candles, and the zone
 * overlay lines of plot_candlestick_chart.
 */
module Chart {
  import opened Candles
  import opened ZoneStatus
  import opened EngineDzsz4
  import opened EngineNasdaq

  /** The 2-hour candle made of the 1-hour candles a (earlier) and b (later). */
  function MergePair(a: Candle, b: Candle): Candle {
    Candle(a.time, a.open, Max(a.high, b.high), Min(a.low, b.low), b.close, a.volume + b.volume)
  }

  /** The merged series: pairs (0, 1), (2, 3), ...; a trailing odd candle is dropped. */
  function Merged(series: seq<Candle>): seq<Candle> {
    seq(|series| / 2, k requires 0 <= k < |series| / 2 => MergePair(series[2 * k], series[2 * k + 1]))
  }

  /** merge_to_2_hour_candles: steps through the series two candles at a time. */
  method MergeToTwoHourCandles(series: seq<Candle>) returns (merged: seq<Candle>)
    ensures |merged| == |series| / 2
    ensures forall k :: 0 <= k < |merged| ==>
              merged[k].time == series[2 * k].time
              && merged[k].open == series[2 * k].open && merged[k].close == series[2 * k + 1].close
              && merged[k].high == Max(series[2 * k].high, series[2 * k + 1].high)
              && merged[k].low == Min(series[2 * k].low, series[2 * k + 1].low)
              && merged[k].volume == series[2 * k].volume + series[2 * k + 1].volume
    ensures merged == Merged(series)
  {
    merged := [];
    var i := 0;
    while i < |series| - 1
      invariant 0 <= i && i % 2 == 0 && i <= |series|
      invariant |merged| == i / 2
      invariant forall k :: 0 <= k < |merged| ==> merged[k] == MergePair(series[2 * k], series[2 * k + 1])
    {
      var o := series[i].open;
      var c := series[i + 1].close;
      var h := Max(series[i].high, series[i + 1].high);
      var l := Min(series[i].low, series[i + 1].low);
      var volume := series[i].volume + series[i + 1].volume;
      merged := merged + [Candle(series[i].time, o, h, l, c, volume)];
      i := i + 2;
    }
  }

  function VolumeSum(series: seq<Candle>): real {
    if series == [] then 0.0 else VolumeSum(series[..|series| - 1]) + series[|series| - 1].volume
  }

  /** Merging keeps the total volume of the candles it uses: all of them for an
      even count, all but the dropped last one for an odd count. */
  lemma {:induction false} MergedVolume(series: seq<Candle>)
    ensures VolumeSum(Merged(series)) == VolumeSum(series[..2 * (|series| / 2)])
    decreases |series|
  {
    var m := |series| / 2;
    if m > 0 {
      var shorter := series[..2 * m - 2];
      MergedVolume(shorter);
      assert |shorter| / 2 == m - 1;
      assert Merged(series)[..m - 1] == Merged(shorter);
      assert shorter[..2 * (m - 1)] == shorter;
      var used := series[..2 * m];
      assert used[..2 * m - 1][..2 * m - 2] == shorter;
    } else {
      assert series[..0] == [];
    }
  }

  /** Two well-formed candles merge into a well-formed candle whose range covers both. */
  lemma MergePairWellFormed(a: Candle, b: Candle)
    requires WellFormed(a) && WellFormed(b)
    ensures WellFormed(MergePair(a, b))
    ensures MergePair(a, b).low <= Min(a.low, b.low) && Max(a.high, b.high) <= MergePair(a, b).high
  {
  }

  /** Merging a well-formed, time-ordered series gives a well-formed, time-ordered series. */
  lemma MergedWellFormed(series: seq<Candle>)
    requires AllWellFormed(series) && StrictlyIncreasing(series)
    ensures AllWellFormed(Merged(series)) && StrictlyIncreasing(Merged(series))
  {
    var merged := Merged(series);
    forall k | 0 <= k < |merged| ensures WellFormed(merged[k]) {
      assert WellFormed(series[2 * k]) && WellFormed(series[2 * k + 1]);
    }
    forall j, k | 0 <= j < k < |merged| ensures merged[j].time < merged[k].time {
      assert series[2 * j].time < series[2 * k].time;
    }
  }

  /** A zone row as the chart reads it from the database. */
  datatype ChartZone = ChartZone(startTime: int, endTime: int, high: real, low: real)

  datatype LineColor = RedLine | GreenLine

  /** One dotted horizontal line of the overlay. */
  datatype Line = Line(level: real, color: LineColor)

  /** Line 107: the zone starts before the last candle and ends after the first. */
  predicate Visible(data: seq<Candle>, zone: ChartZone)
    requires |data| > 0
  {
    zone.startTime < data[|data| - 1].time && zone.endTime > data[0].time
  }

  /** Line 114: red iff price_range_high - price_range_low > 0, otherwise green. */
  function ZoneColor(zone: ChartZone): LineColor {
    if zone.high - zone.low > 0.0 then RedLine else GreenLine
  }

  /** The two lines drawn for a zone: its high, then its low, in its colour. */
  function ZoneLines(zone: ChartZone): seq<Line> {
    [Line(zone.high, ZoneColor(zone)), Line(zone.low, ZoneColor(zone))]
  }

  /** The overlay lines for the zones, visited in order. */
  function OverlayLines(data: seq<Candle>, zones: seq<ChartZone>): seq<Line>
    requires |data| > 0
  {
    if zones == [] then []
    else
      var last := zones[|zones| - 1];
      OverlayLines(data, zones[..|zones| - 1]) + (if Visible(data, last) then ZoneLines(last) else [])
  }

  /** The overlay loop of plot_candlestick_chart. The source indexes the data's
      first and last candle, so it needs data whenever there are zones. */
  method PlotZoneOverlays(data: seq<Candle>, zones: seq<ChartZone>) returns (lines: seq<Line>)
    requires |data| > 0 || zones == []
    ensures |data| > 0 ==> lines == OverlayLines(data, zones)
    ensures |data| == 0 ==> lines == []
  {
    lines := [];
    for k := 0 to |zones|
      invariant |data| > 0 ==> lines == OverlayLines(data, zones[..k])
      invariant |data| == 0 ==> lines == []
    {
      assert zones[..k + 1][..k] == zones[..k];
      var zone := zones[k];
      if zone.startTime < data[|data| - 1].time && zone.endTime > data[0].time {
        var zoneHigh, zoneLow := zone.high, zone.low;
        var zoneColor := if zoneHigh - zoneLow > 0.0 then RedLine else GreenLine;
        lines := lines + [Line(zoneHigh, zoneColor)];
        lines := lines + [Line(zoneLow, zoneColor)];
      }
    }
    assert zones[..|zones|] == zones;
  }

  /** The visible zones, in order. */
  function VisibleZones(data: seq<Candle>, zones: seq<ChartZone>): seq<ChartZone>
    requires |data| > 0
  {
    if zones == [] then []
    else
      var last := zones[|zones| - 1];
      VisibleZones(data, zones[..|zones| - 1]) + (if Visible(data, last) then [last] else [])
  }

  /**
   * The overlay is "filter, then draw": exactly two lines per visible zone, in
   * zone order — the high line at 2k and the low line at 2k + 1, both in the
   * zone's colour.
   */
  lemma {:induction false} OverlayIsFilterThenDraw(data: seq<Candle>, zones: seq<ChartZone>)
    requires |data| > 0
    ensures |OverlayLines(data, zones)| == 2 * |VisibleZones(data, zones)|
    ensures forall k :: 0 <= k < |VisibleZones(data, zones)| ==>
              OverlayLines(data, zones)[2 * k] == Line(VisibleZones(data, zones)[k].high, ZoneColor(VisibleZones(data, zones)[k]))
              && OverlayLines(data, zones)[2 * k + 1] == Line(VisibleZones(data, zones)[k].low, ZoneColor(VisibleZones(data, zones)[k]))
    ensures forall z :: z in VisibleZones(data, zones) <==> z in zones && Visible(data, z)
  {
    if zones != [] {
      var init := zones[..|zones| - 1];
      OverlayIsFilterThenDraw(data, init);
      assert zones == init + [zones[|zones| - 1]];
    }
  }

  /** The zone a DZSZNASDAQ.py row describes, as the chart reads it once the
      ranking has copied its dates and prices into stock_price_results. */
  function ChartZoneOf(row: NasdaqRow): ChartZone {
    ChartZone(row.startTime, row.endTime, row.priceRangeHigh, row.priceRangeLow)
  }

  /**
   * Because DZSZNASDAQ.py stores Demand rows with price_range_high <=
   * price_range_low, the chart draws every Demand zone in green; a Supply
   * zone is red unless its two prices coincide.
   */
  lemma ChartColorsFollowZoneType(symbol: string, series: seq<Candle>, row: NasdaqRow)
    requires AllWellFormed(series) && StrictlyIncreasing(series)
    requires row in ZonesNasdaq(symbol, series)
    ensures row.zoneType == DemandZone ==> ZoneColor(ChartZoneOf(row)) == GreenLine
    ensures row.zoneType == SupplyZone ==>
              (ZoneColor(ChartZoneOf(row)) == RedLine <==> row.priceRangeHigh != row.priceRangeLow)
  {
    NasdaqWritesSameZones(symbol, series);
    var k :| 0 <= k < |ZonesNasdaq(symbol, series)| && ZonesNasdaq(symbol, series)[k] == row;
    ZonesOfWellFormedSeries(symbol, series, Zones4(symbol, series)[k]);
  }
}

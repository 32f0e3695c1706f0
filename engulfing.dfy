/**
 * EC.py: bullish and bearish engulfing candles, and the selection of those
 * that sit inside a stored zone after the zone ended. The price frame is an
 * object whose columns the two steps add in place.
 */
module Engulfing {
  import opened Candles
  import opened ZoneStatus
  import opened EngineDzsz4

  /** Bullish engulfing: opens at or below the previous close and below the
      previous open, closes above the previous open, with a body of at least
      engulf times the previous body. */
  predicate Bullish(prev: Candle, cur: Candle, engulf: real) {
    cur.open <= prev.close && cur.open < prev.open && cur.close > prev.open
    && Abs(cur.close - cur.open) >= engulf * Abs(prev.close - prev.open)
  }

  /** Bearish engulfing: the mirror image of Bullish. */
  predicate Bearish(prev: Candle, cur: Candle, engulf: real) {
    cur.open >= prev.close && cur.open > prev.open && cur.close < prev.open
    && Abs(cur.close - cur.open) >= engulf * Abs(prev.close - prev.open)
  }

  /** The Bullish_Engulfing column. The first row has no previous candle; its
      comparisons are against missing values and so are false. */
  function BullishColumn(bars: seq<Candle>, engulf: real): (r: seq<bool>)
    ensures |r| == |bars|
  {
    seq(|bars|, i requires 0 <= i < |bars| => i > 0 && Bullish(bars[i - 1], bars[i], engulf))
  }

  function BearishColumn(bars: seq<Candle>, engulf: real): (r: seq<bool>)
    ensures |r| == |bars|
  {
    seq(|bars|, i requires 0 <= i < |bars| => i > 0 && Bearish(bars[i - 1], bars[i], engulf))
  }

  /**
   * A bullish candle closes above its open and a bearish one below, so no
   * candle is both; the first candle is neither.
   */
  lemma EngulfingMeaning(bars: seq<Candle>, engulf: real, i: nat)
    requires i < |bars|
    ensures BullishColumn(bars, engulf)[i] ==> i > 0 && bars[i].close > bars[i].open
    ensures BearishColumn(bars, engulf)[i] ==> i > 0 && bars[i].close < bars[i].open
    ensures !(BullishColumn(bars, engulf)[i] && BearishColumn(bars, engulf)[i])
  {
  }

  /** The zone as EC.py reads it back from the ranking table. */
  datatype EcZone = EcZone(low: real, high: real, endTime: int)

  /** Line 131: a zone is a Demand zone iff its low is above its high. */
  predicate IsDemand(zone: EcZone) {
    zone.low > zone.high
  }

  function UpperWick(c: Candle): real { c.high - Max(c.close, c.open) }
  function LowerWick(c: Candle): real { Min(c.close, c.open) - c.low }
  function CandleRange(c: Candle): real { c.high - c.low }

  /** The Upper_Wick, Lower_Wick and Candle_Range columns. */
  function UpperWickColumn(bars: seq<Candle>): (r: seq<real>)
    ensures |r| == |bars| && forall i :: 0 <= i < |bars| ==> r[i] == UpperWick(bars[i])
  {
    seq(|bars|, i requires 0 <= i < |bars| => UpperWick(bars[i]))
  }

  function LowerWickColumn(bars: seq<Candle>): (r: seq<real>)
    ensures |r| == |bars| && forall i :: 0 <= i < |bars| ==> r[i] == LowerWick(bars[i])
  {
    seq(|bars|, i requires 0 <= i < |bars| => LowerWick(bars[i]))
  }

  function CandleRangeColumn(bars: seq<Candle>): (r: seq<real>)
    ensures |r| == |bars| && forall i :: 0 <= i < |bars| ==> r[i] == CandleRange(bars[i])
  {
    seq(|bars|, i requires 0 <= i < |bars| => CandleRange(bars[i]))
  }

  /**
   * wick / range < 0.2 as the frame computes it: a zero range gives +inf,
   * NaN or -inf for a positive, zero or negative wick, and only -inf passes.
   */
  predicate WickRatioBelow(wick: real, range: real) {
    if range == 0.0 then wick < 0.0 else wick / range < 0.2
  }

  /** A candle of the frame passes a zone's mask (lines 139-152): after the
      zone's end, flagged, inside [zone low, zone high], and with a short
      upper wick (demand) or lower wick (supply). */
  predicate Selected(c: Candle, flag: bool, zone: EcZone, demand: bool) {
    c.time > zone.endTime && flag && c.low >= zone.low && c.high <= zone.high
    && WickRatioBelow(if demand then UpperWick(c) else LowerWick(c), CandleRange(c))
  }

  /** The rows of the frame one zone selects, in frame order. */
  function InZone(bars: seq<Candle>, flags: seq<bool>, zone: EcZone, demand: bool): (r: seq<Candle>)
    requires |flags| == |bars|
    ensures |r| <= |bars|
  {
    if bars == [] then []
    else
      var k := |bars| - 1;
      InZone(bars[..k], flags[..k], zone, demand) + (if Selected(bars[k], flags[k], zone, demand) then [bars[k]] else [])
  }

  /** The concatenation of the selections of the zones of one type, in zone order:
      bullish rows for Demand zones (demand) or bearish rows for Supply zones. */
  function Filtered(bars: seq<Candle>, flags: seq<bool>, zones: seq<EcZone>, demand: bool): seq<Candle>
    requires |flags| == |bars|
  {
    if zones == [] then []
    else
      var last := zones[|zones| - 1];
      Filtered(bars, flags, zones[..|zones| - 1], demand)
      + (if IsDemand(last) == demand then InZone(bars, flags, last, demand) else [])
  }

  /** The 15-minute price frame, with the columns identify_engulfing_patterns
      and filter_engulfing_candles_in_zone add to it. */
  class PriceFrame {
    var bars: seq<Candle>
    var bullishEngulfing: seq<bool>
    var bearishEngulfing: seq<bool>
    var upperWick: seq<real>
    var lowerWick: seq<real>
    var candleRange: seq<real>

    constructor (bars: seq<Candle>)
      ensures this.bars == bars
      ensures bullishEngulfing == [] && bearishEngulfing == []
      ensures upperWick == [] && lowerWick == [] && candleRange == []
    {
      this.bars := bars;
      bullishEngulfing, bearishEngulfing := [], [];
      upperWick, lowerWick, candleRange := [], [], [];
    }

    predicate HasEngulfingColumns()
      reads this
    {
      |bullishEngulfing| == |bars| && |bearishEngulfing| == |bars|
    }

    /** identify_engulfing_patterns: adds the two engulfing columns, computed
        row by row against the previous row. */
    method IdentifyEngulfingPatterns(engulf: real)
      modifies this
      ensures bars == old(bars)
      ensures bullishEngulfing == BullishColumn(bars, engulf)
      ensures bearishEngulfing == BearishColumn(bars, engulf)
      ensures upperWick == old(upperWick) && lowerWick == old(lowerWick) && candleRange == old(candleRange)
      ensures HasEngulfingColumns()
    {
      bullishEngulfing := BullishColumn(bars, engulf);
      bearishEngulfing := BearishColumn(bars, engulf);
    }

    /**
     * filter_engulfing_candles_in_zone: for each zone, adds the wick and range
     * columns and keeps the flagged rows inside the zone after its end.
     */
    method FilterEngulfingCandlesInZone(zones: seq<EcZone>) returns (bullish: seq<Candle>, bearish: seq<Candle>)
      requires HasEngulfingColumns()
      modifies this
      ensures bars == old(bars)
      ensures bullishEngulfing == old(bullishEngulfing) && bearishEngulfing == old(bearishEngulfing)
      ensures bullish == Filtered(bars, bullishEngulfing, zones, true)
      ensures bearish == Filtered(bars, bearishEngulfing, zones, false)
      ensures zones != [] ==>
                upperWick == UpperWickColumn(bars)
                && lowerWick == LowerWickColumn(bars)
                && candleRange == CandleRangeColumn(bars)
      ensures zones == [] ==>
                upperWick == old(upperWick) && lowerWick == old(lowerWick) && candleRange == old(candleRange)
    {
      bullish, bearish := [], [];
      for z := 0 to |zones|
        invariant bars == old(bars)
        invariant bullishEngulfing == old(bullishEngulfing) && bearishEngulfing == old(bearishEngulfing)
        invariant bullish == Filtered(bars, bullishEngulfing, zones[..z], true)
        invariant bearish == Filtered(bars, bearishEngulfing, zones[..z], false)
        invariant z > 0 ==>
                    upperWick == UpperWickColumn(bars)
                    && lowerWick == LowerWickColumn(bars)
                    && candleRange == CandleRangeColumn(bars)
        invariant z == 0 ==>
                    upperWick == old(upperWick) && lowerWick == old(lowerWick) && candleRange == old(candleRange)
      {
        assert zones[..z + 1][..z] == zones[..z];
        var zone := zones[z];
        var demand := zone.low > zone.high;
        upperWick := UpperWickColumn(bars);
        lowerWick := LowerWickColumn(bars);
        candleRange := CandleRangeColumn(bars);
        if demand {
          bullish := bullish + InZone(bars, bullishEngulfing, zone, true);
        }
        if !demand {
          bearish := bearish + InZone(bars, bearishEngulfing, zone, false);
        }
      }
      assert zones[..|zones|] == zones;
    }
  }

  /**
   * The main step of process_stock_data_for_Engulfing_Candle for one ticker:
   * None when no price data came back (the ticker is skipped), otherwise
   * whether any bearish engulfing candle sits inside a Supply zone.
   */
  method ProcessStockData(data: Option<seq<Candle>>, zones: seq<EcZone>) returns (found: Option<bool>)
    ensures found.None? <==> data.None?
    ensures data.Some? ==> found.value == (Filtered(data.value, BearishColumn(data.value, 0.7), zones, false) != [])
  {
    if data.None? {
      return None;
    }
    var frame := new PriceFrame(data.value);
    frame.IdentifyEngulfingPatterns(0.7);
    var bullishInZone, bearishInZone := frame.FilterEngulfingCandlesInZone(zones);
    return Some(bearishInZone != []);
  }

  /** Every row one zone selects is a row of the frame that passes the zone's mask. */
  lemma {:induction false} InZoneWitness(bars: seq<Candle>, flags: seq<bool>, zone: EcZone, demand: bool, c: Candle)
    returns (i: nat)
    requires |flags| == |bars|
    requires c in InZone(bars, flags, zone, demand)
    ensures i < |bars| && bars[i] == c && Selected(c, flags[i], zone, demand)
  {
    var k := |bars| - 1;
    if c in InZone(bars[..k], flags[..k], zone, demand) {
      i := InZoneWitness(bars[..k], flags[..k], zone, demand, c);
    } else {
      i := k;
    }
  }

  /** Every row of the combined result is selected by some zone of the matching type. */
  lemma {:induction false} FilteredWitness(bars: seq<Candle>, flags: seq<bool>, zones: seq<EcZone>, demand: bool, c: Candle)
    returns (i: nat, zone: EcZone)
    requires |flags| == |bars|
    requires c in Filtered(bars, flags, zones, demand)
    ensures i < |bars| && bars[i] == c && Selected(c, flags[i], zone, demand)
    ensures zone in zones && IsDemand(zone) == demand
  {
    var init := zones[..|zones| - 1];
    if c in Filtered(bars, flags, init, demand) {
      i, zone := FilteredWitness(bars, flags, init, demand, c);
    } else {
      zone := zones[|zones| - 1];
      i := InZoneWitness(bars, flags, zone, demand, c);
    }
  }

  /**
   * Every selected row is a candle of the frame that engulfs its predecessor
   * (bullishly for demand, bearishly for supply), lies after the end of a zone
   * of the matching type, inside that zone's prices, with the short wick.
   */
  lemma SelectionWitness(bars: seq<Candle>, engulf: real, zones: seq<EcZone>, demand: bool, c: Candle)
    returns (i: nat, zone: EcZone)
    requires c in Filtered(bars, if demand then BullishColumn(bars, engulf) else BearishColumn(bars, engulf), zones, demand)
    ensures 1 <= i < |bars| && bars[i] == c
    ensures demand ==> Bullish(bars[i - 1], c, engulf)
    ensures !demand ==> Bearish(bars[i - 1], c, engulf)
    ensures zone in zones && IsDemand(zone) == demand
    ensures c.time > zone.endTime && zone.low <= c.low && c.high <= zone.high
    ensures WickRatioBelow(if demand then UpperWick(c) else LowerWick(c), CandleRange(c))
  {
    var flags := if demand then BullishColumn(bars, engulf) else BearishColumn(bars, engulf);
    i, zone := FilteredWitness(bars, flags, zones, demand, c);
    assert flags[i];
  }

  /** Within one zone, a selected row needs low >= zone low > zone high >= high,
      so a Demand zone selects no candle whose low is at most its high. */
  lemma {:induction false} DemandZoneSelectsNothing(bars: seq<Candle>, flags: seq<bool>, zone: EcZone)
    requires |flags| == |bars| && AllWellFormed(bars) && IsDemand(zone)
    ensures InZone(bars, flags, zone, true) == []
  {
    if bars != [] {
      var k := |bars| - 1;
      assert WellFormed(bars[k]);
      DemandZoneSelectsNothing(bars[..k], flags[..k], zone);
    }
  }

  /** For well-formed candles the bullish result is always empty. */
  lemma {:induction false} BullishResultEmpty(bars: seq<Candle>, flags: seq<bool>, zones: seq<EcZone>)
    requires |flags| == |bars| && AllWellFormed(bars)
    ensures Filtered(bars, flags, zones, true) == []
  {
    if zones != [] {
      BullishResultEmpty(bars, flags, zones[..|zones| - 1]);
      var last := zones[|zones| - 1];
      if IsDemand(last) {
        DemandZoneSelectsNothing(bars, flags, last);
      }
    }
  }

  /** The zone EC.py reads for a DZSZ4.py row. */
  function EcZoneOf(row: ZoneRow): EcZone {
    EcZone(row.priceRangeLow, row.priceRangeHigh, row.endTime)
  }

  /**
   * What line 131 makes of rows in DZSZ4.py's format (EC.py itself reads
   * StockDZSZ.db, which no engine modelled here writes): a Supply row is always read as a
   * Supply zone; a Demand row, stored with its prices swapped, is read as a
   * Demand zone unless the two prices coincide, in which case it is read as
   * Supply.
   */
  lemma EcReadsDzsz4Zones(symbol: string, series: seq<Candle>, row: ZoneRow)
    requires AllWellFormed(series) && StrictlyIncreasing(series)
    requires row in Zones4(symbol, series)
    ensures row.zoneType == SupplyZone ==> !IsDemand(EcZoneOf(row))
    ensures row.zoneType == DemandZone ==> (IsDemand(EcZoneOf(row)) <==> row.priceRangeHigh != row.priceRangeLow)
  {
    ZonesOfWellFormedSeries(symbol, series, row);
  }
}

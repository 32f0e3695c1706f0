/**
 * GreenListNDX.py: the wick/body quality rule, the timeframe window, and the
 * Green/Red-list decision of check_price_in_zone_with_timeframe.
 */
module GreenList {
  import opened Candles
  import opened ZoneStatus

  /** calculate_wick_and_body: the body, and the two wicks added together. */
  function WickAndBody(open: real, close: real, high: real, low: real): (r: (real, real))
    ensures r.0 >= 0.0
    ensures r.0 + r.1 == high - low
    ensures low <= Min(open, close) && Max(open, close) <= high ==> r.1 >= 0.0
  {
    var body := Abs(open - close);
    var wickTop := high - Max(open, close);
    var wickBottom := Min(open, close) - low;
    (body, wickTop + wickBottom)
  }

  /** is_valid_candle: rejected only when the candle has a body and its wicks
      exceed a tenth of it. */
  predicate IsValidCandle(open: real, close: real, high: real, low: real) {
    var bw := WickAndBody(open, close, high, low);
    !(bw.0 > 0.0 && bw.1 > 0.1 * bw.0)
  }

  /**
   * The rule in terms of the candle: a candle without a body (open == close)
   * is always valid; otherwise it is valid iff its range is at most 1.1 times
   * its body.
   */
  lemma IsValidCandleMeaning(open: real, close: real, high: real, low: real)
    ensures open == close ==> IsValidCandle(open, close, high, low)
    ensures open != close ==>
              (IsValidCandle(open, close, high, low) <==> high - low <= 1.1 * Abs(open - close))
  {
    var bw := WickAndBody(open, close, high, low);
    assert bw.1 == (high - low) - bw.0;
  }

  /** The look-back window of fetch_active_zones, in days; None where the source
      raises ValueError. */
  function DayWindow(timeframe: string): (r: Option<nat>)
    ensures r.Some? <==> timeframe in {"1d", "2h", "1h"}
    ensures r.Some? ==> 5 <= r.value <= 15
  {
    if timeframe == "1d" then Some(15)
    else if timeframe == "2h" then Some(10)
    else if timeframe == "1h" then Some(5)
    else None
  }

  /**
   * The padding of the tested date: a bare date gets " 00:00:00", a date
   * with minutes gets ":00", anything else is left as it is.
   */
  function PadTestedDate(testedDate: string): (r: string)
    ensures |testedDate| == 10 || |testedDate| == 16 ==> |r| == 19
    ensures |testedDate| <= |r| && testedDate == r[..|testedDate|]
    ensures |testedDate| != 10 && |testedDate| != 16 ==> r == testedDate
  {
    if |testedDate| == 10 then testedDate + " 00:00:00"
    else if |testedDate| == 16 then testedDate + ":00"
    else testedDate
  }

  /** Padding is idempotent: a padded date is padded no further. */
  lemma PadTestedDateIdempotent(testedDate: string)
    ensures PadTestedDate(PadTestedDate(testedDate)) == PadTestedDate(testedDate)
  {
  }

  datatype ListName = GreenList | RedList

  /**
   * The decision of lines 160-180: a Demand zone is Green iff the price is at
   * or above its low, a Supply zone Red iff the price is at or below its high;
   * any other zone type is on no list.
   */
  function ZoneList(zoneType: ZoneType, high: real, low: real, price: real): (r: Option<ListName>)
    ensures r.Some? <==> zoneType == DemandZone || zoneType == SupplyZone
    ensures zoneType == DemandZone ==> (r == Some(GreenList) <==> low <= price)
    ensures zoneType == SupplyZone ==> (r == Some(RedList) <==> price <= high)
  {
    if zoneType == DemandZone then
      if low <= price then Some(GreenList) else Some(RedList)
    else if zoneType == SupplyZone then
      if high >= price then Some(RedList) else Some(GreenList)
    else None
  }

  /** One zone fetched from the database, with what the loop learns about it:
      the current price (None when it could not be fetched) and the whole days
      since the padded tested date (None when that date does not parse). */
  datatype ActiveZone = ActiveZone(
    symbol: string, zoneType: ZoneType, high: real, low: real,
    startDate: string, testedDate: string,
    currentPrice: Option<real>, daysSinceTested: Option<int>)

  /** One row inserted into GreenRedList: end_date and tested_date both carry
      the padded tested date. */
  datatype ListEntry = ListEntry(
    symbol: string, startDate: string, endDate: string, high: real, low: real,
    testedDate: string, timeframe: string, list: ListName)

  /** The row written for one zone, if any. */
  function EntryFor(zone: ActiveZone, timeframe: string): Option<ListEntry> {
    if zone.currentPrice.None? || zone.daysSinceTested.None? || zone.daysSinceTested.value >= 3 then None
    else
      var list := ZoneList(zone.zoneType, zone.high, zone.low, zone.currentPrice.value);
      if list.None? then None
      else
        var tested := PadTestedDate(zone.testedDate);
        Some(ListEntry(zone.symbol, zone.startDate, tested, zone.high, zone.low, tested, timeframe, list.value))
  }

  /** The rows written for the zones, in order. */
  function Entries(zones: seq<ActiveZone>, timeframe: string): seq<ListEntry> {
    if zones == [] then []
    else Entries(zones[..|zones| - 1], timeframe) + OptionToSeq(EntryFor(zones[|zones| - 1], timeframe))
  }

  /** The row loop of check_price_in_zone_with_timeframe. None stands for the
      ValueError an unknown timeframe raises before any zone is read. */
  method CheckPriceInZoneWithTimeframe(zones: seq<ActiveZone>, timeframe: string)
    returns (entries: Option<seq<ListEntry>>)
    ensures entries.None? <==> DayWindow(timeframe).None?
    ensures entries.Some? ==> entries.value == Entries(zones, timeframe)
  {
    if DayWindow(timeframe).None? {
      return None;
    }
    var inserted: seq<ListEntry> := [];
    for k := 0 to |zones|
      invariant inserted == Entries(zones[..k], timeframe)
    {
      assert zones[..k + 1][..k] == zones[..k];
      var row := zones[k];
      var testedDate := row.testedDate;
      if |testedDate| == 10 {
        testedDate := testedDate + " 00:00:00";
      } else if |testedDate| == 16 {
        testedDate := testedDate + ":00";
      }
      var daysSinceTested := row.daysSinceTested;
      if row.currentPrice.Some? && daysSinceTested.Some? && daysSinceTested.value < 3 {
        var zoneList: Option<ListName> := None;
        var price := row.currentPrice.value;
        if row.zoneType == DemandZone {
          if row.low <= price {
            zoneList := Some(GreenList);
          } else {
            zoneList := Some(RedList);
          }
        } else if row.zoneType == SupplyZone {
          if row.high >= price {
            zoneList := Some(RedList);
          } else {
            zoneList := Some(GreenList);
          }
        }
        if zoneList.Some? {
          inserted := inserted + [ListEntry(row.symbol, row.startDate, testedDate, row.high, row.low,
                                            testedDate, timeframe, zoneList.value)];
        }
      }
    }
    assert zones[..|zones|] == zones;
    return Some(inserted);
  }

  /**
   * Each inserted row comes from a Supply or Demand zone with a known price
   * that was tested less than three days ago; its end date is that zone's
   * padded tested date, and its list follows ZoneList.
   */
  lemma {:induction false} EntriesFromRecentZones(zones: seq<ActiveZone>, timeframe: string)
    ensures |Entries(zones, timeframe)| <= |zones|
    ensures forall e :: e in Entries(zones, timeframe) ==>
              exists z :: z in zones && z.currentPrice.Some? && z.daysSinceTested.Some?
                && z.daysSinceTested.value < 3
                && (z.zoneType == DemandZone || z.zoneType == SupplyZone)
                && e.endDate == e.testedDate == PadTestedDate(z.testedDate)
                && Some(e.list) == ZoneList(z.zoneType, z.high, z.low, z.currentPrice.value)
  {
    if zones != [] {
      var init := zones[..|zones| - 1];
      EntriesFromRecentZones(init, timeframe);
      forall e | e in Entries(zones, timeframe)
        ensures exists z :: z in zones && z.currentPrice.Some? && z.daysSinceTested.Some?
                  && z.daysSinceTested.value < 3
                  && (z.zoneType == DemandZone || z.zoneType == SupplyZone)
                  && e.endDate == e.testedDate == PadTestedDate(z.testedDate)
                  && Some(e.list) == ZoneList(z.zoneType, z.high, z.low, z.currentPrice.value)
      {
        if e in Entries(init, timeframe) {
          var z :| z in init && z.currentPrice.Some? && z.daysSinceTested.Some?
                   && z.daysSinceTested.value < 3
                   && (z.zoneType == DemandZone || z.zoneType == SupplyZone)
                   && e.endDate == e.testedDate == PadTestedDate(z.testedDate)
                   && Some(e.list) == ZoneList(z.zoneType, z.high, z.low, z.currentPrice.value);
          assert z in zones;
        } else {
          assert zones[|zones| - 1] in zones;
        }
      }
    }
  }
}

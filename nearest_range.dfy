/**
 * CurrentPriceInZoneNDX.py: for every active zone whose current price is
 * known, which boundary of the zone the price is nearest to and how far
 * away; the results are ranked by that distance and replace the
 * stock_price_results table.
 */
module NearestRange {
  import opened Candles

  datatype Side = LowSide | HighSide

  /** An active zone as fetch_zones_from_db returns it, with the current price
      the loop fetches for its symbol (None when the fetch fails). */
  datatype ZoneQuote = ZoneQuote(
    symbol: string, startDate: string, endDate: string, high: real, low: real,
    timeframe: string, currentPrice: Option<real>)

  /** One row of stock_price_results. */
  datatype Ranked = Ranked(
    symbol: string, currentPrice: real, low: real, high: real,
    nearestRange: Side, nearestDiff: real, startDate: string, endDate: string, timeframe: string)

  /**
   * Lines 130-135: the nearer boundary and the distance to it. The low
   * boundary wins only when strictly nearer, so a tie goes to the high one.
   */
  function Nearest(price: real, low: real, high: real): (r: (Side, real))
    ensures r.0 == LowSide <==> Abs(price - low) < Abs(price - high)
    ensures r.1 == Min(Abs(price - low), Abs(price - high))
    ensures r.1 >= 0.0
    ensures r.1 == Abs(price - (if r.0 == LowSide then low else high))
  {
    var diffLow := Abs(price - low);
    var diffHigh := Abs(price - high);
    var nearestRange := if diffLow < diffHigh then LowSide else HighSide;
    (nearestRange, if nearestRange == LowSide then diffLow else diffHigh)
  }

  /** The price lies between the boundaries exactly when the two distances
      add up to the width of the zone; then the distance is at most half of it. */
  lemma NearestInsideZone(price: real, low: real, high: real)
    requires low <= price <= high
    ensures 2.0 * Nearest(price, low, high).1 <= high - low
    ensures Nearest(price, low, high).1 == 0.0 <==> price == low || price == high
  {
  }

  /** The entry appended for one zone; none when its price is unknown. */
  function RankedFor(zone: ZoneQuote): Option<Ranked> {
    if zone.currentPrice.None? then None
    else
      var price := zone.currentPrice.value;
      var nearest := Nearest(price, zone.low, zone.high);
      Some(Ranked(zone.symbol, price, zone.low, zone.high, nearest.0, nearest.1,
                  zone.startDate, zone.endDate, zone.timeframe))
  }

  /** closest_stocks before the sort: one entry per zone with a price, in zone order. */
  function Collected(zones: seq<ZoneQuote>): seq<Ranked> {
    Somes(seq(|zones|, k requires 0 <= k < |zones| => RankedFor(zones[k])))
  }

  /** The zones whose price is known, in order. */
  function Priced(zones: seq<ZoneQuote>): seq<ZoneQuote> {
    if zones == [] then []
    else Priced(zones[..|zones| - 1]) + (if zones[|zones| - 1].currentPrice.Some? then [zones[|zones| - 1]] else [])
  }

  /**
   * Zones without a price are skipped and every other zone contributes
   * exactly one entry, describing that zone, in zone order.
   */
  lemma {:induction false} CollectedDescribesPricedZones(zones: seq<ZoneQuote>)
    ensures |Collected(zones)| == |Priced(zones)|
    ensures forall k :: 0 <= k < |Collected(zones)| ==>
              var e, z := Collected(zones)[k], Priced(zones)[k];
              e.symbol == z.symbol && e.low == z.low && e.high == z.high
              && e.startDate == z.startDate && e.endDate == z.endDate && e.timeframe == z.timeframe
              && z.currentPrice == Some(e.currentPrice)
              && (e.nearestRange, e.nearestDiff) == Nearest(e.currentPrice, z.low, z.high)
  {
    if zones != [] {
      var n := |zones| - 1;
      var s := seq(|zones|, k requires 0 <= k < |zones| => RankedFor(zones[k]));
      assert s[..n] == seq(n, k requires 0 <= k < n => RankedFor(zones[..n][k]));
      CollectedDescribesPricedZones(zones[..n]);
      assert s[..|s|] == s;
      SomesStep(s, n);
    }
  }

  /** The ranking key. */
  function Key(r: Ranked): real { r.nearestDiff }

  predicate SortedByKey(s: seq<Ranked>) {
    forall i, j :: 0 <= i < j < |s| ==> Key(s[i]) <= Key(s[j])
  }

  /** The entries with ranking key d, in order. */
  function WithKey(s: seq<Ranked>, d: real): seq<Ranked> {
    if s == [] then []
    else WithKey(s[..|s| - 1], d) + (if Key(s[|s| - 1]) == d then [s[|s| - 1]] else [])
  }

  /** Inserts x after every entry whose key is at most x's, as a stable sort does. */
  function InsertStable(sorted: seq<Ranked>, x: Ranked): (r: seq<Ranked>)
    ensures |r| == |sorted| + 1
  {
    if sorted == [] || Key(sorted[|sorted| - 1]) <= Key(x) then sorted + [x]
    else InsertStable(sorted[..|sorted| - 1], x) + [sorted[|sorted| - 1]]
  }

  /** Inserting adds x and loses nothing. */
  lemma {:induction false} InsertStablePermutes(sorted: seq<Ranked>, x: Ranked)
    ensures multiset(InsertStable(sorted, x)) == multiset(sorted) + multiset{x}
  {
    if sorted != [] && Key(sorted[|sorted| - 1]) > Key(x) {
      var n := |sorted| - 1;
      InsertStablePermutes(sorted[..n], x);
      assert sorted == sorted[..n] + [sorted[n]];
    }
  }

  /** closest_stocks.sort(key=nearest_diff): a stable sort, here as insertion sort. */
  function SortByNearestDiff(s: seq<Ranked>): (r: seq<Ranked>)
    ensures |r| == |s|
  {
    if s == [] then [] else InsertStable(SortByNearestDiff(s[..|s| - 1]), s[|s| - 1])
  }

  /** Inserting keeps every key at most m when x's key and the keys already there are. */
  lemma {:induction false} InsertStableBounded(sorted: seq<Ranked>, x: Ranked, m: real)
    requires Key(x) <= m
    requires forall k :: 0 <= k < |sorted| ==> Key(sorted[k]) <= m
    ensures forall i :: 0 <= i < |InsertStable(sorted, x)| ==> Key(InsertStable(sorted, x)[i]) <= m
  {
    if sorted != [] && Key(sorted[|sorted| - 1]) > Key(x) {
      var n := |sorted| - 1;
      InsertStableBounded(sorted[..n], x, m);
      assert InsertStable(sorted, x) == InsertStable(sorted[..n], x) + [sorted[n]];
    }
  }

  lemma {:induction false} InsertStableSorted(sorted: seq<Ranked>, x: Ranked)
    requires SortedByKey(sorted)
    ensures SortedByKey(InsertStable(sorted, x))
  {
    if sorted != [] && Key(sorted[|sorted| - 1]) > Key(x) {
      var n := |sorted| - 1;
      var init := sorted[..n];
      var inner := InsertStable(init, x);
      InsertStableSorted(init, x);
      InsertStableBounded(init, x, Key(sorted[n]));
      var r := InsertStable(sorted, x);
      assert r == inner + [sorted[n]];
      forall i, j | 0 <= i < j < |r| ensures Key(r[i]) <= Key(r[j]) {
        assert r[i] == inner[i];
        if j < |inner| {
          assert r[j] == inner[j];
        }
      }
    } else if sorted != [] {
      var r := InsertStable(sorted, x);
      forall i, j | 0 <= i < j < |r| ensures Key(r[i]) <= Key(r[j]) {
        assert r[i] == sorted[i];
        if j < |sorted| {
          assert r[j] == sorted[j];
        } else {
          assert Key(sorted[i]) <= Key(sorted[|sorted| - 1]);
        }
      }
    }
  }

  lemma WithKeySnoc(s: seq<Ranked>, y: Ranked, d: real)
    ensures WithKey(s + [y], d) == WithKey(s, d) + (if Key(y) == d then [y] else [])
  {
    assert (s + [y])[..|s|] == s;
  }

  lemma {:induction false} InsertStableWithKey(sorted: seq<Ranked>, x: Ranked, d: real)
    ensures WithKey(InsertStable(sorted, x), d) == WithKey(sorted, d) + (if Key(x) == d then [x] else [])
  {
    if sorted == [] || Key(sorted[|sorted| - 1]) <= Key(x) {
      WithKeySnoc(sorted, x, d);
    } else {
      var n := |sorted| - 1;
      var init, last := sorted[..n], sorted[n];
      InsertStableWithKey(init, x, d);
      var inner := InsertStable(init, x);
      assert InsertStable(sorted, x) == inner + [last];
      WithKeySnoc(inner, last, d);
      assert sorted == init + [last];
      WithKeySnoc(init, last, d);
      // x's key is below last's, so at most one of the two is kept for d.
      if Key(last) == d {
        assert WithKey(inner, d) == WithKey(init, d);
      } else if Key(x) == d {
        assert WithKey(sorted, d) == WithKey(init, d);
      }
    }
  }

  /**
   * The ranking is sorted by nearest_diff, holds the same entries, and is
   * stable: the entries sharing any one distance keep their collected order.
   */
  lemma {:induction false} SortByNearestDiffCorrect(s: seq<Ranked>)
    ensures SortedByKey(SortByNearestDiff(s))
    ensures multiset(SortByNearestDiff(s)) == multiset(s)
    ensures forall d :: WithKey(SortByNearestDiff(s), d) == WithKey(s, d)
  {
    if s != [] {
      var n := |s| - 1;
      SortByNearestDiffCorrect(s[..n]);
      InsertStableSorted(SortByNearestDiff(s[..n]), s[n]);
      InsertStablePermutes(SortByNearestDiff(s[..n]), s[n]);
      assert s == s[..n] + [s[n]];
      forall d ensures WithKey(SortByNearestDiff(s), d) == WithKey(s, d) {
        InsertStableWithKey(SortByNearestDiff(s[..n]), s[n], d);
      }
    }
  }

  /** What check_stocks_in_range leaves in stock_price_results: None when the
      table is not touched, otherwise the rows that replace it. */
  function RankingTable(zones: seq<ZoneQuote>): Option<seq<Ranked>> {
    if Collected(zones) == [] then None else Some(SortByNearestDiff(Collected(zones)))
  }

  /** check_stocks_in_range: the collect loop (lines 117-148), the sort and the
      insert that replaces the table when there is anything to insert. */
  method CheckStocksInRange(zones: seq<ZoneQuote>) returns (table: Option<seq<Ranked>>)
    ensures table == RankingTable(zones)
  {
    if zones == [] {
      assert Collected(zones) == [];
      return None;
    }
    ghost var results := seq(|zones|, k requires 0 <= k < |zones| => RankedFor(zones[k]));
    var closestStocks: seq<Ranked> := [];
    for k := 0 to |zones|
      invariant closestStocks == Somes(results[..k])
    {
      SomesStep(results, k);
      var zone := zones[k];
      var currentPrice := zone.currentPrice;
      if currentPrice.None? {
        continue;
      }
      var diffLow := Abs(currentPrice.value - zone.low);
      var diffHigh := Abs(currentPrice.value - zone.high);
      var nearestRange := if diffLow < diffHigh then LowSide else HighSide;
      var nearestDiff := if nearestRange == LowSide then diffLow else diffHigh;
      closestStocks := closestStocks + [Ranked(zone.symbol, currentPrice.value, zone.low, zone.high,
                                               nearestRange, nearestDiff, zone.startDate, zone.endDate, zone.timeframe)];
    }
    assert results[..|zones|] == results;
    closestStocks := SortByNearestDiff(closestStocks);
    if closestStocks != [] {
      return Some(closestStocks);
    }
    return None;
  }

  /**
   * The table is replaced exactly when some zone has a price; it then holds
   * every collected entry once, nearest first, ties in zone order.
   */
  lemma RankingTableMeaning(zones: seq<ZoneQuote>)
    ensures RankingTable(zones).Some? <==> exists k :: 0 <= k < |zones| && zones[k].currentPrice.Some?
    ensures RankingTable(zones).Some? ==>
              SortedByKey(RankingTable(zones).value)
              && multiset(RankingTable(zones).value) == multiset(Collected(zones))
              && forall d :: WithKey(RankingTable(zones).value, d) == WithKey(Collected(zones), d)
  {
    CollectedDescribesPricedZones(zones);
    SortByNearestDiffCorrect(Collected(zones));
    PricedNonEmpty(zones);
  }

  lemma {:induction false} PricedNonEmpty(zones: seq<ZoneQuote>)
    ensures Priced(zones) != [] <==> exists k :: 0 <= k < |zones| && zones[k].currentPrice.Some?
  {
    if zones != [] {
      var n := |zones| - 1;
      PricedNonEmpty(zones[..n]);
      if exists k :: 0 <= k < n && zones[..n][k].currentPrice.Some? {
        var k :| 0 <= k < n && zones[..n][k].currentPrice.Some?;
        assert zones[k].currentPrice.Some?;
      }
      if exists k :: 0 <= k < |zones| && zones[k].currentPrice.Some? {
        var k :| 0 <= k < |zones| && zones[k].currentPrice.Some?;
        if k < n {
          assert zones[..n][k].currentPrice.Some?;
        }
      }
    }
  }
}

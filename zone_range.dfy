/**
 * calculate_zone_price_range: the base run between two boundary candles,
 * its combined candle, and the per-topology price pair.
 */
module ZoneRange {
  import opened Candles
  import opened Aggregator

  /** Zone topology from the colours of the two boundary candles; NoTopology is
      the 'None' / 'Unknown' label the engines give other colour pairs. */
  datatype Topology = DBD | RBR | RBD | DBR | NoTopology

  /** Every dictionary key the base-run comprehension looks up is present. */
  predicate CoversGap(classified: map<nat, ClassifiedCandle>, start: nat, end: nat) {
    forall i: nat :: start < i < end ==> i in classified
  }

  /** The base_candles list: the Base entries strictly between start and end, in index order. */
  function BaseRun(classified: map<nat, ClassifiedCandle>, start: nat, end: nat): seq<ClassifiedCandle>
    requires CoversGap(classified, start, end)
    decreases end
  {
    if end <= start + 1 then []
    else BaseRun(classified, start, end - 1)
         + (if classified[end - 1].kind == Base then [classified[end - 1]] else [])
  }

  /** Every member of the base run is a Base entry taken from the gap. */
  lemma {:induction false} BaseRunMembers(classified: map<nat, ClassifiedCandle>, start: nat, end: nat)
    requires CoversGap(classified, start, end)
    ensures |BaseRun(classified, start, end)| <= (if end <= start + 1 then 0 else end - start - 1)
    ensures forall k :: 0 <= k < |BaseRun(classified, start, end)| ==>
              BaseRun(classified, start, end)[k].kind == Base
              && exists i: nat :: start < i < end && BaseRun(classified, start, end)[k] == classified[i]
    decreases end
  {
    if end > start + 1 {
      BaseRunMembers(classified, start, end - 1);
      var run := BaseRun(classified, start, end);
      var prefix := BaseRun(classified, start, end - 1);
      forall k | 0 <= k < |run|
        ensures run[k].kind == Base && exists i: nat :: start < i < end && run[k] == classified[i]
      {
        if k < |prefix| {
          assert run[k] == prefix[k];
        } else {
          assert run[k] == classified[end - 1];
        }
      }
    }
  }

  /** When no entry of the gap is Long, the base run is the whole gap: its length is end - start - 1. */
  lemma {:induction false} BaseRunOfAllBaseGap(classified: map<nat, ClassifiedCandle>, start: nat, end: nat)
    requires start < end
    requires CoversGap(classified, start, end)
    requires forall i: nat :: start < i < end ==> classified[i].kind == Base
    ensures |BaseRun(classified, start, end)| == end - start - 1
    decreases end
  {
    if end > start + 1 {
      BaseRunOfAllBaseGap(classified, start, end - 1);
    }
  }

  /**
   * The price pair of DZSZ4.py and DZSZNASDAQ.py (two decimals) and of DZSZ.py
   * (one decimal), in the order the tuple carries it. The engines store the
   * first component as price_range_high and the second as price_range_low.
   */
  function ZonePriceRange(classified: map<nat, ClassifiedCandle>, topology: Topology,
                          start: nat, end: nat, places: nat): Option<(real, real)>
    requires start in classified && CoversGap(classified, start, end)
  {
    var startCandle := classified[start];
    var agg := Combine(BaseRun(classified, start, end));
    if agg.Empty? then None
    else match topology
      case DBD => Some((RoundTo(agg.high, places), RoundTo(agg.lowestBody, places)))
      case RBR => Some((RoundTo(agg.low, places), RoundTo(agg.highestBody, places)))
      case RBD => Some((RoundTo(Max(agg.high, startCandle.high), places), RoundTo(agg.lowestBody, places)))
      case DBR => Some((RoundTo(Min(agg.low, startCandle.low), places), RoundTo(agg.highestBody, places)))
      case NoTopology => None
  }

  /** The two-topology variant of DZSZ3.py: the higher price first for both labels. */
  function ZonePriceRange3(classified: map<nat, ClassifiedCandle>, topology: Topology,
                           start: nat, end: nat): Option<(real, real)>
    requires CoversGap(classified, start, end)
  {
    var agg := Combine(BaseRun(classified, start, end));
    if agg.Empty? then None
    else match topology
      case DBD => Some((RoundTo(agg.high, 2), RoundTo(agg.lowestBody, 2)))
      case RBR => Some((RoundTo(agg.highestBody, 2), RoundTo(agg.low, 2)))
      case _ => None
  }

  /** A price pair exists exactly when the base run is non-empty and the topology is one of the four. */
  lemma RangeDefinedIff(classified: map<nat, ClassifiedCandle>, topology: Topology,
                        start: nat, end: nat, places: nat)
    requires start in classified && CoversGap(classified, start, end)
    ensures ZonePriceRange(classified, topology, start, end, places).Some?
            <==> BaseRun(classified, start, end) != [] && topology != NoTopology
  {
  }

  /** An entry whose (raw) open lies inside its own high-low range. */
  predicate OpenInsideRange(c: ClassifiedCandle) {
    c.low <= c.open <= c.high
  }

  /**
   * Orientation of the pair. For DBD and RBD the first price is the higher
   * one; for RBR and DBR it is the LOWER one, so a Demand zone stored from
   * it has price_range_high <= price_range_low.
   */
  lemma RangeOrientation(classified: map<nat, ClassifiedCandle>, topology: Topology,
                         start: nat, end: nat, places: nat)
    requires start in classified && CoversGap(classified, start, end)
    requires forall i: nat :: start < i < end ==> OpenInsideRange(classified[i])
    requires ZonePriceRange(classified, topology, start, end, places).Some?
    ensures var r := ZonePriceRange(classified, topology, start, end, places).value;
            (topology == DBD || topology == RBD ==> r.0 >= r.1)
            && (topology == RBR || topology == DBR ==> r.0 <= r.1)
  {
    var run := BaseRun(classified, start, end);
    BaseRunMembers(classified, start, end);
    var first := run[0];
    var i: nat :| start < i < end && first == classified[i];
    assert OpenInsideRange(first);
    var agg := Combine(run);
    MaxHighIsMaximum(run);
    MinLowIsMinimum(run);
    LowestBodyIsMinimum(run);
    HighestBodyIsMaximum(run);
    assert agg.lowestBody <= first.open <= agg.high;
    assert agg.low <= first.open <= agg.highestBody;
    RoundMonotone(agg.lowestBody, agg.high, places);
    RoundMonotone(agg.lowestBody, Max(agg.high, classified[start].high), places);
    RoundMonotone(agg.low, agg.highestBody, places);
    RoundMonotone(Min(agg.low, classified[start].low), agg.highestBody, places);
  }

  /** The same orientation for DZSZ3.py: both labels put the higher price first. */
  lemma RangeOrientation3(classified: map<nat, ClassifiedCandle>, topology: Topology, start: nat, end: nat)
    requires CoversGap(classified, start, end)
    requires forall i: nat :: start < i < end ==> OpenInsideRange(classified[i])
    requires ZonePriceRange3(classified, topology, start, end).Some?
    ensures ZonePriceRange3(classified, topology, start, end).value.0
            >= ZonePriceRange3(classified, topology, start, end).value.1
  {
    var run := BaseRun(classified, start, end);
    BaseRunMembers(classified, start, end);
    var i: nat :| start < i < end && run[0] == classified[i];
    assert OpenInsideRange(run[0]);
    var agg := Combine(run);
    MaxHighIsMaximum(run);
    MinLowIsMinimum(run);
    LowestBodyIsMinimum(run);
    HighestBodyIsMaximum(run);
    RoundMonotone(agg.lowestBody, agg.high, 2);
    RoundMonotone(agg.low, agg.highestBody, 2);
  }

  /**
   * The start candle only ever widens the zone: RBD's upper wick bound is at
   * least DBD's and DBR's lower wick bound at most RBR's, with the body bound
   * unchanged.
   */
  lemma StartCandleWidens(classified: map<nat, ClassifiedCandle>, start: nat, end: nat, places: nat)
    requires start in classified && CoversGap(classified, start, end)
    requires BaseRun(classified, start, end) != []
    ensures ZonePriceRange(classified, RBD, start, end, places).value.0
            >= ZonePriceRange(classified, DBD, start, end, places).value.0
    ensures ZonePriceRange(classified, RBD, start, end, places).value.1
            == ZonePriceRange(classified, DBD, start, end, places).value.1
    ensures ZonePriceRange(classified, DBR, start, end, places).value.0
            <= ZonePriceRange(classified, RBR, start, end, places).value.0
    ensures ZonePriceRange(classified, DBR, start, end, places).value.1
            == ZonePriceRange(classified, RBR, start, end, places).value.1
  {
    var agg := Combine(BaseRun(classified, start, end));
    RoundMonotone(agg.high, Max(agg.high, classified[start].high), places);
    RoundMonotone(Min(agg.low, classified[start].low), agg.low, places);
  }
}

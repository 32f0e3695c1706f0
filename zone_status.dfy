/**
 * update_zone_status: the forward scan over the candles after a zone's end
 * candle. DZSZ4.py stops at the first deciding candle; DZSZNASDAQ.py keeps
 * scanning after a test and stops only on a violation.
 */
module ZoneStatus {
  import opened Candles

  datatype ZoneType = SupplyZone | DemandZone | NeutralZone

  datatype Status = Active | Tested | Violated | Bad

  /** The candle's high or its low lies in [low, high]. */
  predicate Touches(c: Candle, high: real, low: real) {
    (low <= c.high <= high) || (low <= c.low <= high)
  }

  /** A close beyond the zone's far boundary: above high for Supply, below low for Demand. */
  predicate Breaks(c: Candle, high: real, low: real, zoneType: ZoneType) {
    (zoneType == SupplyZone && c.close > high) || (zoneType == DemandZone && c.close < low)
  }

  /** A candle that makes the halting scan stop. Zones of any other type are never decided. */
  predicate Decides(c: Candle, high: real, low: real, zoneType: ZoneType) {
    (zoneType == SupplyZone || zoneType == DemandZone)
    && (Breaks(c, high, low, zoneType) || Touches(c, high, low))
  }

  /** The (status, tested date) the halting scan reaches from position k on. */
  function FirstDecision(series: seq<Candle>, k: nat, high: real, low: real, zoneType: ZoneType): (Status, Option<int>)
    decreases |series| - k
  {
    if k >= |series| then (Active, None)
    else if Breaks(series[k], high, low, zoneType) then (Violated, None)
    else if Decides(series[k], high, low, zoneType) then (Tested, Some(series[k].time))
    else FirstDecision(series, k + 1, high, low, zoneType)
  }

  predicate NoDecisionBetween(series: seq<Candle>, k: nat, j: nat, high: real, low: real, zoneType: ZoneType)
    requires j <= |series|
  {
    forall m :: k <= m < j ==> !Decides(series[m], high, low, zoneType)
  }

  /**
   * The halting scan, characterised without recursion: Active iff no candle
   * from k on decides; otherwise the outcome is that of the FIRST deciding
   * candle — Violated (no date) if it closes beyond the boundary, else Tested
   * with its date.
   */
  lemma {:induction false} FirstDecisionExact(series: seq<Candle>, k: nat, high: real, low: real, zoneType: ZoneType)
    ensures var r := FirstDecision(series, k, high, low, zoneType);
            r.0 != Bad
            && (r.0 == Active <==> k >= |series| || NoDecisionBetween(series, k, |series|, high, low, zoneType))
            && (r.0 == Active ==> r.1 == None)
            && (r.0 != Active ==>
                  exists j :: k <= j < |series| && Decides(series[j], high, low, zoneType)
                    && NoDecisionBetween(series, k, j, high, low, zoneType)
                    && (r.0 == Violated <==> Breaks(series[j], high, low, zoneType))
                    && r.1 == (if r.0 == Violated then None else Some(series[j].time)))
    decreases |series| - k
  {
    if k < |series| && !Decides(series[k], high, low, zoneType) {
      FirstDecisionExact(series, k + 1, high, low, zoneType);
      var r := FirstDecision(series, k, high, low, zoneType);
      if r.0 != Active {
        var j :| k + 1 <= j < |series| && Decides(series[j], high, low, zoneType)
                 && NoDecisionBetween(series, k + 1, j, high, low, zoneType)
                 && (r.0 == Violated <==> Breaks(series[j], high, low, zoneType))
                 && r.1 == (if r.0 == Violated then None else Some(series[j].time));
        assert NoDecisionBetween(series, k, j, high, low, zoneType);
      }
    } else if k < |series| {
      assert NoDecisionBetween(series, k, k, high, low, zoneType);
    }
  }

  /** The loop of update_zone_status in DZSZ4.py: stops at the first deciding candle after `end`. */
  method UpdateZoneStatus(series: seq<Candle>, high: real, low: real, zoneType: ZoneType, end: nat)
    returns (status: Status, testedDate: Option<int>)
    requires end < |series|
    ensures status != Bad
    ensures (status == Tested) == testedDate.Some?
    ensures (status, testedDate) == FirstDecision(series, end + 1, high, low, zoneType)
  {
    status, testedDate := Active, None;
    var i := end + 1;
    while i < |series|
      invariant end + 1 <= i <= |series|
      invariant FirstDecision(series, i, high, low, zoneType) == FirstDecision(series, end + 1, high, low, zoneType)
    {
      var c := series[i];
      if zoneType == SupplyZone {
        if c.close > high {
          status := Violated;
          break;
        } else if low <= c.high <= high || low <= c.low <= high {
          status := Tested;
          testedDate := Some(c.time);
          break;
        }
      } else if zoneType == DemandZone {
        if c.close < low {
          status := Violated;
          break;
        } else if low <= c.high <= high || low <= c.low <= high {
          status := Tested;
          testedDate := Some(c.time);
          break;
        }
      }
      i := i + 1;
    }
  }

  /** In a time-ordered series the tested date of a zone is strictly after its end candle's date. */
  lemma TestedDateAfterEnd(series: seq<Candle>, end: nat, high: real, low: real, zoneType: ZoneType)
    requires end < |series| && StrictlyIncreasing(series)
    requires FirstDecision(series, end + 1, high, low, zoneType).0 == Tested
    ensures FirstDecision(series, end + 1, high, low, zoneType).1.Some?
    ensures FirstDecision(series, end + 1, high, low, zoneType).1.value > series[end].time
  {
    FirstDecisionExact(series, end + 1, high, low, zoneType);
  }

  /**
   * The status DZSZNASDAQ.py's scan ends with: Violated iff some later candle
   * breaks the zone; otherwise Tested iff some later candle touches it;
   * otherwise Active.
   */
  function SweepStatus(series: seq<Candle>, k: nat, high: real, low: real, zoneType: ZoneType): Status {
    if exists j :: k <= j < |series| && Breaks(series[j], high, low, zoneType) then Violated
    else if exists j :: k <= j < |series| && Decides(series[j], high, low, zoneType) then Tested
    else Active
  }

  /** The loop of update_zone_status in DZSZNASDAQ.py: a test does not stop it, a violation does. */
  method UpdateZoneStatusNasdaq(series: seq<Candle>, high: real, low: real, zoneType: ZoneType, end: nat)
    returns (status: Status)
    requires end < |series|
    ensures status == SweepStatus(series, end + 1, high, low, zoneType)
  {
    status := Active;
    var i := end + 1;
    while i < |series|
      invariant end + 1 <= i <= |series|
      invariant forall j :: end + 1 <= j < i ==> !Breaks(series[j], high, low, zoneType)
      invariant status == (if exists j :: end + 1 <= j < i && Decides(series[j], high, low, zoneType)
                           then Tested else Active)
    {
      var c := series[i];
      if zoneType == SupplyZone {
        if c.close > high {
          status := Violated;
          break;
        } else if low <= c.high <= high || low <= c.low <= high {
          status := Tested;
        }
      } else if zoneType == DemandZone {
        if c.close < low {
          status := Violated;
          break;
        } else if low <= c.high <= high || low <= c.low <= high {
          status := Tested;
        }
      }
      i := i + 1;
    }
  }

  /**
   * How the two scans relate: both are Active on exactly the same inputs, a
   * halting-scan violation is also a sweep violation, and a halting-scan test
   * becomes a violation in the sweep as soon as some LATER candle breaks the zone.
   */
  lemma ScansAgree(series: seq<Candle>, k: nat, high: real, low: real, zoneType: ZoneType)
    ensures var first := FirstDecision(series, k, high, low, zoneType).0;
            var sweep := SweepStatus(series, k, high, low, zoneType);
            (first == Active <==> sweep == Active)
            && (first == Violated ==> sweep == Violated)
            && (first == Tested ==> (sweep == Violated
                 <==> exists j :: k <= j < |series| && Breaks(series[j], high, low, zoneType)))
  {
    FirstDecisionExact(series, k, high, low, zoneType);
    var first := FirstDecision(series, k, high, low, zoneType).0;
    if first == Active {
      forall j | k <= j < |series| ensures !Breaks(series[j], high, low, zoneType) {
        assert !Decides(series[j], high, low, zoneType);
      }
    } else {
      var j :| k <= j < |series| && Decides(series[j], high, low, zoneType)
               && NoDecisionBetween(series, k, j, high, low, zoneType)
               && (first == Violated <==> Breaks(series[j], high, low, zoneType));
      assert Decides(series[j], high, low, zoneType);
    }
  }

  /**
   * A zone whose interval is empty (high < low) can never be touched, so
   * neither scan ever reports Tested for it.
   */
  lemma EmptyIntervalNeverTested(series: seq<Candle>, k: nat, high: real, low: real, zoneType: ZoneType)
    requires high < low
    ensures FirstDecision(series, k, high, low, zoneType).0 != Tested
    ensures SweepStatus(series, k, high, low, zoneType) != Tested
  {
    forall j | 0 <= j < |series| ensures !Touches(series[j], high, low) {
    }
    FirstDecisionExact(series, k, high, low, zoneType);
  }
}

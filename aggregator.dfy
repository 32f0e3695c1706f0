/**
 * combine_multiple_base_candles: folding a run of Base candles into one
 * synthetic candle (identical in the four engine copies).
 */
module Aggregator {
  import opened Candles

  /** The dictionary the fold returns: the all-None sentinel ('combined': False)
      or the synthetic candle ('combined': True). */
  datatype Aggregate =
    | Empty
    | Combined(open: real, close: real, high: real, low: real, color: Color,
               lowestBody: real, highestBody: real)

  /** The lower body edge a later candle contributes, chosen by its stored colour. */
  function LowEdge(c: ClassifiedCandle): real {
    match c.color
    case Green => c.open
    case Red => c.close
    case Neutral => Min(c.open, c.close)
  }

  /** The upper body edge a later candle contributes, chosen by its stored colour. */
  function HighEdge(c: ClassifiedCandle): real {
    match c.color
    case Green => c.close
    case Red => c.open
    case Neutral => Max(c.open, c.close)
  }

  function MaxHigh(run: seq<ClassifiedCandle>): real
    requires |run| > 0
  {
    if |run| == 1 then run[0].high else Max(MaxHigh(run[..|run| - 1]), run[|run| - 1].high)
  }

  function MinLow(run: seq<ClassifiedCandle>): real
    requires |run| > 0
  {
    if |run| == 1 then run[0].low else Min(MinLow(run[..|run| - 1]), run[|run| - 1].low)
  }

  /** Starts from the first candle's min(open, close), then takes the running
      minimum of each later candle's colour-selected lower edge. */
  function LowestBody(run: seq<ClassifiedCandle>): real
    requires |run| > 0
  {
    if |run| == 1 then Min(run[0].open, run[0].close)
    else Min(LowestBody(run[..|run| - 1]), LowEdge(run[|run| - 1]))
  }

  function HighestBody(run: seq<ClassifiedCandle>): real
    requires |run| > 0
  {
    if |run| == 1 then Max(run[0].open, run[0].close)
    else Max(HighestBody(run[..|run| - 1]), HighEdge(run[|run| - 1]))
  }

  /**
   * The value of the fold. Open and close both come from the FIRST candle;
   * the colour is the first candle's stored colour for a run of one and is
   * otherwise recomputed from that candle's (stored) open and close.
   */
  function Combine(run: seq<ClassifiedCandle>): Aggregate {
    if run == [] then Empty
    else Combined(run[0].open, run[0].close, MaxHigh(run), MinLow(run),
                  if |run| == 1 then run[0].color else ColorOf(run[0].open, run[0].close),
                  LowestBody(run), HighestBody(run))
  }

  /** The accumulator loop of combine_multiple_base_candles. */
  method CombineBaseCandles(candles: seq<ClassifiedCandle>) returns (agg: Aggregate)
    ensures agg.Empty? <==> candles == []
    ensures agg.Combined? ==> agg.open == candles[0].open && agg.close == candles[0].close
    ensures agg == Combine(candles)
  {
    if candles == [] {
      return Empty;
    }
    var newHigh, newLow := candles[0].high, candles[0].low;
    var newOpen, newClose := candles[0].open, candles[0].close;
    var newColor := candles[0].color;
    var lowestBody := Min(newOpen, newClose);
    var highestBody := Max(newOpen, newClose);
    for k := 1 to |candles|
      invariant newOpen == candles[0].open && newClose == candles[0].close
      invariant newHigh == MaxHigh(candles[..k]) && newLow == MinLow(candles[..k])
      invariant lowestBody == LowestBody(candles[..k])
      invariant highestBody == HighestBody(candles[..k])
      invariant newColor == if k == 1 then candles[0].color else ColorOf(newOpen, newClose)
    {
      var candle := candles[k];
      assert candles[..k + 1][..k] == candles[..k];
      newHigh := Max(newHigh, candle.high);
      newLow := Min(newLow, candle.low);
      var candleLowBody, candleHighBody;
      if candle.color == Green {
        candleLowBody, candleHighBody := candle.open, candle.close;
      } else if candle.color == Red {
        candleLowBody, candleHighBody := candle.close, candle.open;
      } else {
        candleLowBody, candleHighBody := Min(candle.open, candle.close), Max(candle.open, candle.close);
      }
      lowestBody := Min(lowestBody, candleLowBody);
      highestBody := Max(highestBody, candleHighBody);
      if newClose > newOpen {
        newColor := Green;
      } else if newClose < newOpen {
        newColor := Red;
      } else {
        newColor := Neutral;
      }
    }
    assert candles[..|candles|] == candles;
    agg := Combined(newOpen, newClose, newHigh, newLow, newColor, lowestBody, highestBody);
  }

  /** The envelope high is the largest high of the run: an upper bound that some candle attains. */
  lemma {:induction false} MaxHighIsMaximum(run: seq<ClassifiedCandle>)
    requires |run| > 0
    ensures forall k :: 0 <= k < |run| ==> run[k].high <= MaxHigh(run)
    ensures exists k :: 0 <= k < |run| && run[k].high == MaxHigh(run)
  {
    if |run| > 1 {
      var init := run[..|run| - 1];
      MaxHighIsMaximum(init);
      assert forall k :: 0 <= k < |init| ==> run[k] == init[k];
      var j :| 0 <= j < |init| && init[j].high == MaxHigh(init);
      if MaxHigh(init) >= run[|run| - 1].high {
        assert run[j].high == MaxHigh(run);
      } else {
        assert run[|run| - 1].high == MaxHigh(run);
      }
    } else {
      assert run[0].high == MaxHigh(run);
    }
  }

  /** The envelope low is the smallest low of the run: a lower bound that some candle attains. */
  lemma {:induction false} MinLowIsMinimum(run: seq<ClassifiedCandle>)
    requires |run| > 0
    ensures forall k :: 0 <= k < |run| ==> MinLow(run) <= run[k].low
    ensures exists k :: 0 <= k < |run| && run[k].low == MinLow(run)
  {
    if |run| > 1 {
      var init := run[..|run| - 1];
      MinLowIsMinimum(init);
      assert forall k :: 0 <= k < |init| ==> run[k] == init[k];
      var j :| 0 <= j < |init| && init[j].low == MinLow(init);
      if MinLow(init) <= run[|run| - 1].low {
        assert run[j].low == MinLow(run);
      } else {
        assert run[|run| - 1].low == MinLow(run);
      }
    } else {
      assert run[0].low == MinLow(run);
    }
  }

  /** lowest_body is the least of the first candle's min(open, close) and the
      colour-selected lower edges of the later candles, and equals one of them. */
  lemma {:induction false} LowestBodyIsMinimum(run: seq<ClassifiedCandle>)
    requires |run| > 0
    ensures LowestBody(run) <= Min(run[0].open, run[0].close)
    ensures forall k :: 1 <= k < |run| ==> LowestBody(run) <= LowEdge(run[k])
    ensures LowestBody(run) == Min(run[0].open, run[0].close)
            || exists k :: 1 <= k < |run| && LowestBody(run) == LowEdge(run[k])
  {
    if |run| > 1 {
      var init := run[..|run| - 1];
      LowestBodyIsMinimum(init);
      assert forall k :: 0 <= k < |init| ==> run[k] == init[k];
      if LowestBody(init) != Min(run[0].open, run[0].close) && LowestBody(init) <= LowEdge(run[|run| - 1]) {
        var j :| 1 <= j < |init| && LowestBody(init) == LowEdge(init[j]);
        assert LowestBody(run) == LowEdge(run[j]);
      }
    }
  }

  /** highest_body is the greatest of the first candle's max(open, close) and the
      colour-selected upper edges of the later candles, and equals one of them. */
  lemma {:induction false} HighestBodyIsMaximum(run: seq<ClassifiedCandle>)
    requires |run| > 0
    ensures Max(run[0].open, run[0].close) <= HighestBody(run)
    ensures forall k :: 1 <= k < |run| ==> HighEdge(run[k]) <= HighestBody(run)
    ensures HighestBody(run) == Max(run[0].open, run[0].close)
            || exists k :: 1 <= k < |run| && HighestBody(run) == HighEdge(run[k])
  {
    if |run| > 1 {
      var init := run[..|run| - 1];
      HighestBodyIsMaximum(init);
      assert forall k :: 0 <= k < |init| ==> run[k] == init[k];
      if HighestBody(init) != Max(run[0].open, run[0].close) && HighestBody(init) >= HighEdge(run[|run| - 1]) {
        var j :| 1 <= j < |init| && HighestBody(init) == HighEdge(init[j]);
        assert HighestBody(run) == HighEdge(run[j]);
      }
    }
  }

  /**
   * The body extremes of a combined candle never cross, whatever the colours:
   * both folds start from the first candle's min and max of open and close.
   */
  lemma BodyExtremesOrdered(run: seq<ClassifiedCandle>)
    requires |run| > 0
    ensures Combine(run).lowestBody <= Combine(run).highestBody
  {
    LowestBodyIsMinimum(run);
    HighestBodyIsMaximum(run);
  }

  /**
   * When every candle's stored open and close lie inside its own high-low
   * range, the combined bodies lie inside the combined envelope:
   * low <= lowest_body <= highest_body <= high.
   */
  lemma EnvelopeContainsBodies(run: seq<ClassifiedCandle>)
    requires |run| > 0
    requires forall k :: 0 <= k < |run| ==> StoredWellFormed(run[k])
    ensures Combine(run).low <= Combine(run).lowestBody
    ensures Combine(run).highestBody <= Combine(run).high
  {
    MinLowIsMinimum(run);
    MaxHighIsMaximum(run);
    LowestBodyIsMinimum(run);
    HighestBodyIsMaximum(run);
    var lo := LowestBody(run);
    if lo != Min(run[0].open, run[0].close) {
      var j :| 1 <= j < |run| && lo == LowEdge(run[j]);
      assert run[j].low <= lo;
    }
    var hi := HighestBody(run);
    if hi != Max(run[0].open, run[0].close) {
      var j :| 1 <= j < |run| && hi == HighEdge(run[j]);
      assert hi <= run[j].high;
    }
  }
}

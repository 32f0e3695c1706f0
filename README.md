# Demand/supply zone engine — a Dafny model

The repository scans OHLC candle series for demand and supply zones. A zone is
a price band between two "long" candles with a short run of "base" candles
between them. Each detected zone is written to a table and marked Active,
Tested, Violated or Bad according to the candles that follow it. Around that
engine sit several smaller scripts:
- a chart script that merges hourly candles into two-hour candles and overlays the stored zones;
- a Green/Red-list script for recently tested zones;
- a script that ranks active zones by the distance from the current price to the nearest boundary;
- a script that looks for engulfing candles inside the ranked zones.

This project models those pieces in Dafny, one module per concern:

| file | module | what it models |
|---|---|---|
| candles.dfy | `Candles` | candles, colours, min/max/abs, rounding to a number of decimals, and the option-sequence helpers the pair loops use |
| aggregator.dfy | `Aggregator` | `combine_multiple_base_candles` (the same code in all four engines) |
| classification.dfy | `Classification` | close-to-close sizes, the long-candle threshold, the long-candle list, and the `classified_candles` dictionary |
| zone_range.dfy | `ZoneRange` | the base run, and `calculate_zone_price_range` (four-topology and two-topology variants) |
| zone_status.dfy | `ZoneStatus` | `update_zone_status`: the halting scan of DZSZ4.py and the non-halting scan of DZSZNASDAQ.py |
| engine_dzsz4.dfy | `EngineDzsz4` | `analyze_zones` and `is_last_long_candle_valid` of DZSZ4.py |
| engine_nasdaq.dfy | `EngineNasdaq` | `analyze_zones` of DZSZNASDAQ.py, and how its rows relate to DZSZ4.py's |
| engine_dzsz.dfy | `EngineDzsz` | the module-level script DZSZ.py |
| engine_dzsz3.dfy | `EngineDzsz3` | `classify_candles_and_calculate_zones` of DZSZ3.py |
| chart.dfy | `Chart` | `merge_to_2_hour_candles` and the overlay loop of `plot_candlestick_chart` (ChartXNDX.py) |
| symbols.dfy | `Symbols` | `convert_to_nse_symbol` (DZSZ4.py and EC.py) |
| green_list.dfy | `GreenList` | wick/body rule, timeframe window, tested-date padding and the Green/Red decision (GreenListNDX.py) |
| engulfing.dfy | `Engulfing` | engulfing patterns and the in-zone filter of EC.py, on a price-frame object |
| nearest_range.dfy | `NearestRange` | the nearest-boundary ranking of CurrentPriceInZoneNDX.py |

**How the model is built.**
- Every loop of the source is a Dafny method with loop invariants. Each method is proved equal to a specification function, and lemmas state what that function means.
- The database inserts of a loop are returned as a sequence, in insertion order.
- The `classified_candles` dictionary is a `map` keyed by candle position.
- EC.py's pandas frame is a class whose columns the methods add in place.

The main facts proved:
- **DZSZ4.py writes only DBR and RBD zones.** The if/elif colour chain is broken, so only DBR (Demand) and RBD (Supply) zones are ever written, each with 1 to 6 base candles.
- **Demand prices are swapped.** Demand rows are stored with `price_range_high <= price_range_low`, so a Demand zone can be Tested only when its two prices coincide. DZSZNASDAQ.py stores them the same way, and the chart's colour test relies on the swap. EC.py's Demand/Supply test (line 131) relies on it too, for rows in this format.
- **The NASDAQ engine writes the same zones.** DZSZNASDAQ.py writes the same zones as DZSZ4.py. The two differ only in status: the non-halting scan turns a test into a violation when a later candle breaks the zone.
- **DZSZ3.py never inserts a row.** It pairs adjacent candles, which have nothing between them.
- **EC.py finds no bullish candle in a Demand zone** when the candles are well formed.
- **The ranking is correct.** It is sorted by distance, it is a permutation of the collected entries, and it is stable.

Behaviours of the code worth noting:
- **Zero mean size.** A zero mean size does not abort the analysis; every candle is then Long (`Classification.FlatSeriesAllLong`).
- **Aggregate close.** The combined candle's close is the first base candle's close.
- **Demand price order.** Demand zones are stored with their high at or below their low.
- **Topologies.** Only DBR and RBD are emitted by DZSZ4.py and DZSZNASDAQ.py.

## Model

| member | source | states |
|---|---|---|
| Candles.RoundMonotone | DZSZ4.py:335-339 | rounding to a number of decimals preserves order, the one property of `round` the zone proofs use |
| Candles.RoundZero | DZSZ4.py:339 | rounding zero gives zero, so a flat series has threshold 0 |
| Aggregator.CombineBaseCandles | DZSZ4.py:159-214 | the accumulator loop returns the empty sentinel exactly for an empty run; otherwise open and close both come from the first candle and the result equals the fold `Combine` |
| Aggregator.MaxHighIsMaximum | DZSZ4.py:181-183 | the combined high is the largest high of the run and is attained by some candle |
| Aggregator.MinLowIsMinimum | DZSZ4.py:181-184 | the combined low is the smallest low of the run and is attained by some candle |
| Aggregator.LowestBodyIsMinimum | DZSZ4.py:176-195 | lowest_body is the minimum of the first candle's lower body edge and the colour-selected lower edges of the later candles, and equals one of them |
| Aggregator.HighestBodyIsMaximum | DZSZ4.py:176-195 | highest_body is the maximum of the first candle's upper body edge and the colour-selected upper edges of the later candles, and equals one of them |
| Aggregator.BodyExtremesOrdered | DZSZ4.py:176-214 | lowest_body never exceeds highest_body, whatever the colours |
| Aggregator.EnvelopeContainsBodies | DZSZ4.py:159-214 | for well-formed stored candles, low <= lowest_body and highest_body <= high |
| Classification.LongIndicesBelowExact | DZSZ4.py:343-347 | the long-candle list over a prefix holds exactly the Long positions of that prefix, increasing, never index 0 |
| Classification.LongIndicesExact | DZSZ4.py:343-347 | long_candle_dates holds exactly the candles whose rounded size reaches the threshold, in chronological order; index 0 never appears |
| Classification.BetweenConsecutiveLongsIsBase | DZSZ4.py:377-379 | every candle strictly between two consecutive long candles is not Long |
| Classification.ClassifyCandles | DZSZ4.py:359-372 | the dictionary loop gives one entry per candle from index 1 on, Long iff the size reaches the threshold, with the candle's colour |
| Classification.FlatSeriesAllLong | DZSZ4.py:335-341 | a series with constant closes has threshold 0 and every candle from index 1 is Long; nothing aborts |
| ZoneRange.BaseRunMembers | DZSZ4.py:120-126 | the base run holds only Base entries from strictly between the two boundary candles, at most end - start - 1 of them |
| ZoneRange.BaseRunOfAllBaseGap | DZSZ4.py:414-421 | when the gap holds only Base candles, the base count is end - start - 1 |
| ZoneRange.RangeDefinedIff | DZSZ4.py:128-155 | a price range exists iff the base run is non-empty and the topology is DBD, RBR, RBD or DBR |
| ZoneRange.RangeOrientation | DZSZ4.py:134-152 | DBD and RBD carry the higher price first; RBR and DBR carry the lower price first |
| ZoneRange.RangeOrientation3 | DZSZ3.py:134-144 | in the two-topology variant both DBD and RBR carry the higher price first |
| ZoneRange.StartCandleWidens | DZSZ4.py:144-152 | the start candle only widens the wick bound (RBD vs DBD, DBR vs RBR), leaving the body bound unchanged |
| ZoneStatus.FirstDecisionExact | DZSZ4.py:86-111 | the halting scan is Active iff no later candle decides; otherwise its outcome is that of the first deciding candle: Violated without a date on a break, else Tested with that candle's date |
| ZoneStatus.UpdateZoneStatus | DZSZ4.py:59-115 | the loop with `break` returns the first-decision outcome; a date is set exactly when the zone is Tested; never Bad |
| ZoneStatus.TestedDateAfterEnd | DZSZ4.py:80-101 | in a time-ordered series the tested date is strictly after the zone's end date |
| ZoneStatus.UpdateZoneStatusNasdaq | DZSZNASDAQ.py:145-186 | the non-halting loop returns Violated iff some later candle breaks the zone, else Tested iff some later candle touches it, else Active |
| ZoneStatus.ScansAgree | DZSZNASDAQ.py:158-182 | both scans are Active on the same inputs; a halting-scan violation is a sweep violation; a halting-scan test is a sweep violation iff some later candle breaks the zone |
| ZoneStatus.EmptyIntervalNeverTested | DZSZ4.py:99-111 | a zone with high < low is never touched, so neither scan reports it Tested |
| EngineDzsz4.ZoneForPair4 | DZSZ4.py:381-433 | one pass of the pair loop (broken colour chain, base run, range, status scan, Bad override) produces the row `RowFor4` describes |
| EngineDzsz4.AnalyzeZones4 | DZSZ4.py:324-446 | analyze_zones writes exactly `Zones4`: one row per qualifying consecutive long-candle pair, in order, and nothing for fewer than two candles |
| EngineDzsz4.RowForConsecutiveLongs | DZSZ4.py:387-427 | a pair with only Base candles between yields a row iff it is red/green or green/red with 1 to 6 candles between; the row is DBR/Demand or RBD/Supply, with base count end - start - 1 and the pair's dates |
| EngineDzsz4.ZonesAtFromPairs | DZSZ4.py:377-433 | every written row comes from one consecutive long-candle pair with only non-Long candles between |
| EngineDzsz4.ZonesFromPairs | DZSZ4.py:335-433 | the same with the series' own threshold |
| EngineDzsz4.OnlyDbrAndRbdRows | DZSZ4.py:387-427 | every written row is DBR/Demand or RBD/Supply with 1 to 6 base candles |
| EngineDzsz4.RowForWellFormed | DZSZ4.py:397-433 | for well-formed data: the tested date follows the end date; a DBR row has high <= low and is Tested only if they are equal; an RBD row has high >= low and is Bad only if the stored rounded close is below the low |
| EngineDzsz4.ZonesOfWellFormedSeries | DZSZ4.py:429-433 | the same by zone type, for every row written for a well-formed, time-ordered series |
| EngineDzsz4.ILoc | DZSZ4.py:222 | `iloc[i]` succeeds exactly for -len <= i < len, and a non-negative position reads that candle |
| EngineDzsz4.IsLastLongCandleValid | DZSZ4.py:216-244 | the backward loop returns the scan `LastLongScan`, including the IndexError; an end position past the last candle raises |
| EngineDzsz4.LastLongScanMeaning | DZSZ4.py:216-244 | within the frame the scan never raises, and it is True iff the latest long-bodied candle in (zone_start, zone_end] exists and its wick is at most 10% of its body (a zero body counting as 0%) |
| EngineNasdaq.ZoneForPairNasdaq | DZSZNASDAQ.py:239-294 | one pass of the NASDAQ pair loop produces the row `RowForNasdaq` describes: same chain and range, non-halting status, no Bad override |
| EngineNasdaq.AnalyzeZonesNasdaq | DZSZNASDAQ.py:188-297 | analyze_zones writes exactly `ZonesNasdaq`, in order |
| EngineNasdaq.PairAgrees | DZSZNASDAQ.py:253-283 | for one long-candle pair both engines write a row or neither does, and the two rows describe the same zone |
| EngineNasdaq.NasdaqWritesSameZones | DZSZNASDAQ.py:188-294 | both engines write equally many rows and the k-th rows agree in dates, base count, type, topology and prices; statuses agree on Active and Violated, NASDAQ is never Bad |
| EngineDzsz.ChainsAgreeOnReversals | DZSZ.py:177-191 | the proper chain labels every non-neutral pair, Supply iff DBD/RBD and Demand iff RBR/DBR; DZSZ4.py's broken chain keeps only the reversal pairs |
| EngineDzsz.ZoneTupleForPair | DZSZ.py:170-194 | one pass of the topology loop collects the tuple `TupleFor` describes |
| EngineDzsz.RunDzsz | DZSZ.py:12-196 | the script collects exactly `ZonesDzsz`, and stops (None) on a series of fewer than two candles |
| EngineDzsz.TupleForConsecutiveLongs | DZSZ.py:170-194 | a pair with only Base candles between yields a tuple iff neither colour is neutral and at least one candle lies between; there is no upper bound |
| EngineDzsz.TupleOrientation | DZSZ.py:139-163 | for well-formed data Supply tuples carry the higher price first and Demand tuples the lower one |
| EngineDzsz.Dzsz4ZonesAreCollected | DZSZ.py:177-194 | every pair DZSZ4.py writes a zone for is also collected by DZSZ.py, with the same dates |
| EngineDzsz3.ClassifyCandles3 | DZSZ3.py:160-181 | every candle, index 0 included, gets an entry: colour g/r/d, Base iff the body is under 30% of the range |
| EngineDzsz3.Classify3Meaning | DZSZ3.py:166-181 | the body/range Base rule, never Long; a doji with a range is Base; a candle without range is Normal |
| EngineDzsz3.CalculateZones3 | DZSZ3.py:187-199 | the adjacent-pair loop inserts no row |
| EngineDzsz3.ClassifyCandlesAndCalculateZones3 | DZSZ3.py:157-199 | the whole function inserts no row for any series |
| EngineDzsz3.AdjacentPairsYieldNothing | DZSZ3.py:118-132 | adjacent candles have an empty base run, so the price range is None |
| EngineDzsz3.RowFor3Orientation | DZSZ3.py:134-144 | for candles further apart, the range carries the higher price first under both labels |
| Chart.MergeToTwoHourCandles | ChartXNDX.py:44-69 | the merged series has |s|/2 candles; candle k has the time and open of candle 2k, the close of 2k+1, the max high, the min low and the summed volume |
| Chart.MergedVolume | ChartXNDX.py:58-62 | merging preserves the total volume of the candles it uses (a trailing odd candle is dropped) |
| Chart.MergePairWellFormed | ChartXNDX.py:51-58 | two well-formed candles merge into a well-formed candle whose range covers both |
| Chart.MergedWellFormed | ChartXNDX.py:44-66 | merging a well-formed, time-ordered series gives a well-formed, time-ordered series |
| Chart.PlotZoneOverlays | ChartXNDX.py:99-133 | the overlay loop produces `OverlayLines`: a high line and a low line per visible zone |
| Chart.OverlayIsFilterThenDraw | ChartXNDX.py:107-133 | the overlay is exactly two lines per visible zone, in zone order, high at 2k and low at 2k+1 in the zone's colour; a zone is drawn iff it is visible |
| Chart.ChartColorsFollowZoneType | ChartXNDX.py:114 | for every row DZSZNASDAQ.py writes (which the chart draws, through the ranking table) a Demand zone is drawn green, and a Supply zone is red iff its two prices differ |
| Symbols.BeforeFirstDot | DZSZ4.py:320 | `split('.')[0]`: a dot-free prefix ending at the first dot or at the end |
| Symbols.ConvertToNseSymbol | DZSZ4.py:317-322 | the result is "NSE:" + ticker + "-EQ", the ticker cut at the first dot when the symbol ends in ".NS" |
| Symbols.BeforeFirstDotOfSuffixed | DZSZ4.py:320 | for a dot-free ticker followed by a dotted suffix, the text before the first dot is the ticker |
| Symbols.SuffixIsIgnored | EC.py:25-30 | a dot-free ticker converts to the same broker symbol with or without ".NS" |
| Symbols.InnerDotTruncates | EC.py:27-28 | for every ".NS" ticker with an inner dot, everything from the first dot on is lost: `head.tail.NS` becomes "NSE:" + head + "-EQ" |
| GreenList.WickAndBody | GreenListNDX.py:103-112 | the body is non-negative, body + wick is the high-low range, and the wick is non-negative for a well-formed candle |
| GreenList.IsValidCandleMeaning | GreenListNDX.py:113-119 | a bodiless candle is always valid; otherwise valid iff the range is at most 1.1 times the body |
| GreenList.DayWindow | GreenListNDX.py:12-19 | a window exists exactly for "1d", "2h" and "1h", and is 5 to 15 days; any other timeframe is the ValueError |
| GreenList.PadTestedDate | GreenListNDX.py:148-152 | a 10- or 16-character date becomes 19 characters and keeps its prefix; any other length is unchanged |
| GreenList.PadTestedDateIdempotent | GreenListNDX.py:148-152 | padding a padded date changes nothing |
| GreenList.ZoneList | GreenListNDX.py:160-180 | Demand is Green iff low <= price, Supply is Red iff price <= high, any other type is on no list |
| GreenList.CheckPriceInZoneWithTimeframe | GreenListNDX.py:134-194 | an unknown timeframe fails before any zone is read; otherwise the row loop inserts exactly `Entries` in zone order |
| GreenList.EntriesFromRecentZones | GreenListNDX.py:141-194 | every inserted row comes from a Supply or Demand zone with a known price tested less than 3 days ago, carries its padded tested date as end and tested date, and its list follows ZoneList |
| Engulfing.EngulfingMeaning | EC.py:97-117 | a bullish engulfing candle closes above its open and a bearish one below, so none is both; the first row is neither |
| Engulfing.PriceFrame.constructor | EC.py:83-94 | the frame holds the candles and no added columns |
| Engulfing.PriceFrame.IdentifyEngulfingPatterns | EC.py:97-121 | adds the two engulfing columns and changes nothing else |
| Engulfing.PriceFrame.FilterEngulfingCandlesInZone | EC.py:124-159 | returns the concatenated bullish selections of the Demand zones and bearish selections of the Supply zones; adds the wick and range columns once there is a zone |
| Engulfing.ProcessStockData | EC.py:161-178 | a ticker without data is skipped; otherwise the result says whether a bearish engulfing candle lies inside a Supply zone |
| Engulfing.InZoneWitness | EC.py:139-152 | every row a zone selects is a frame row passing that zone's mask |
| Engulfing.SelectionWitness | EC.py:128-157 | every selected candle engulfs its predecessor (bullish for demand, bearish for supply) and lies after the end of a matching zone, inside its prices, with the short wick |
| Engulfing.DemandZoneSelectsNothing | EC.py:141-146 | a Demand zone (low > high) selects no well-formed candle |
| Engulfing.BullishResultEmpty | EC.py:141-157 | for well-formed candles the combined bullish result is always empty |
| Engulfing.EcReadsDzsz4Zones | EC.py:131 | for rows in DZSZ4.py's format, a Supply row is read as Supply and a Demand row as Demand iff its two prices differ |
| NearestRange.Nearest | CurrentPriceInZoneNDX.py:130-135 | Low is chosen iff it is strictly nearer (ties go to High); the distance is the minimum of the two, non-negative, and is the distance to the chosen boundary |
| NearestRange.NearestInsideZone | CurrentPriceInZoneNDX.py:130-135 | for a price inside the zone the distance is at most half the width, and zero iff the price is on a boundary |
| NearestRange.CollectedDescribesPricedZones | CurrentPriceInZoneNDX.py:117-148 | zones without a price are skipped and every other zone gives exactly one entry describing it, in order |
| NearestRange.InsertStableSorted | CurrentPriceInZoneNDX.py:151 | inserting into a sorted ranking keeps it sorted |
| NearestRange.InsertStablePermutes | CurrentPriceInZoneNDX.py:151 | insertion adds exactly the new entry and loses none |
| NearestRange.InsertStableWithKey | CurrentPriceInZoneNDX.py:151 | insertion places the new entry after every entry with the same distance |
| NearestRange.SortByNearestDiffCorrect | CurrentPriceInZoneNDX.py:151 | the sort orders by nearest_diff, is a permutation, and keeps entries with equal distance in collected order |
| NearestRange.CheckStocksInRange | CurrentPriceInZoneNDX.py:101-157 | the collect loop, sort and insert leave exactly `RankingTable` |
| NearestRange.RankingTableMeaning | CurrentPriceInZoneNDX.py:150-157 | the table is replaced iff some zone has a price, and then holds every collected entry once, nearest first, ties in zone order |

## Left out

- Market-data fetching: yfinance, the Fyers API and `get_current_price`. The candle series and the current price are inputs; a failed price fetch is `None`.
- SQLite: table creation, the SQL filters of the fetch functions and the inserts. Inserted rows are returned as sequences, and the zones a query returns are inputs.
  - GreenListNDX.py's fetch keeps only Tested zones started within the window.
  - CurrentPriceInZoneNDX.py's fetch keeps only Active zones.
  - EC.py's fetch keeps the ranked zones of one ticker, ordered by distance.
- Plotting (mplfinance), `input()` prompts, printing, and the ChartXGRList.py and GreenList.py scripts.
- Wall clock and time zones: `datetime.now`, the time zone handling, and parsing `end_date`. Day counts since a test, and candle and zone times, are inputs (`int` times, `Option<int>` day counts where parsing may fail).
- Floating point: prices are `real`. `round(x, n)` is modelled as rounding half-up to n decimals; Python's binary floats and banker's rounding of exact halves are not modelled.
- Dictionary keys: the dictionaries are keyed by candle position. DZSZNASDAQ.py keys by day and DZSZ3.py by minute, so two candles that format to the same key would collide; the model does not capture that collision.
- Stored but unused fields: the `candle_size` and `date` fields of a dictionary entry are not stored, because nothing reads them.
- The `wick` variable of DZSZ4.py persists from one pair to the next. This is not modelled, because a row is written only for DBR and RBD pairs, which always set it afresh.
- `check_price_in_zone` (GreenListNDX.py:121-131) only chooses the timeframe for a database file and is not modelled.
- GreenListNDX.py raises TypeError on a zone without a tested date, and that error is not caught. The model takes the tested date as a string and does not represent the missing case.
- `is_valid_candle` is modelled although GreenListNDX.py never calls it.
- The broad `except` clauses are modelled only where they change the result: a series of fewer than two candles writes no rows in DZSZ4.py and DZSZNASDAQ.py, and stops DZSZ.py (`None`). `identify_engulfing_patterns` cannot raise on numeric data, so its `except` is not modelled.
- `is_last_long_candle_valid` is modelled although DZSZ4.py never calls it.
- EC.py reads `stock_price_results` of `../StockDZSZ.db`, which none of the modelled engines writes. `Engulfing.EcReadsDzsz4Zones` states what EC.py's Demand/Supply test makes of rows in DZSZ4.py's format; it does not describe EC.py's actual input.
- Chart.PlotZoneOverlays: requires data whenever there are zones, because the source indexes the first and last candle and fails on an empty frame.
- Engulfing.PriceFrame.FilterEngulfingCandlesInZone: requires the engulfing columns to be present, as the source does (it fails with KeyError otherwise).
- Sorting: Python's `list.sort` is a library call. It is modelled by a stable insertion sort whose properties are proved; the model fixes only the sort's result, not its algorithm.

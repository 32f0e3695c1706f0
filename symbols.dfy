/**
 * convert_to_nse_symbol (DZSZ4.py and EC.py hold the same code): turns a
 * Yahoo-style ticker into the broker's "NSE:<ticker>-EQ" form.
 */
module Symbols {

  predicate EndsWith(s: string, suffix: string) {
    |suffix| <= |s| && s[|s| - |suffix|..] == suffix
  }

  /** symbol.split('.')[0]: the text before the first '.', or all of it when there is none. */
  function BeforeFirstDot(s: string): (r: string)
    ensures |r| <= |s| && r == s[..|r|]
    ensures '.' !in r
    ensures |r| == |s| || s[|r|] == '.'
  {
    if s == [] || s[0] == '.' then [] else [s[0]] + BeforeFirstDot(s[1..])
  }

  /** 'NSE:' + the ticker + '-EQ', the ticker losing everything from its first
      '.' on when the symbol ends in '.NS'. */
  function ConvertToNseSymbol(symbol: string): (r: string)
    ensures |r| >= 7 && r[..4] == "NSE:" && r[|r| - 3..] == "-EQ"
    ensures EndsWith(symbol, ".NS") ==> r[4..|r| - 3] == BeforeFirstDot(symbol)
    ensures !EndsWith(symbol, ".NS") ==> r[4..|r| - 3] == symbol
  {
    var ticker := if EndsWith(symbol, ".NS") then BeforeFirstDot(symbol) else symbol;
    var r := "NSE:" + ticker + "-EQ";
    assert r[4..|r| - 3] == ticker;
    r
  }

  /** The text before the first dot of "ticker.NS", for a ticker without a dot, is the ticker. */
  lemma {:induction false} BeforeFirstDotOfSuffixed(ticker: string, suffix: string)
    requires '.' !in ticker && |suffix| > 0 && suffix[0] == '.'
    ensures BeforeFirstDot(ticker + suffix) == ticker
  {
    if ticker != [] {
      assert (ticker + suffix)[1..] == ticker[1..] + suffix;
      BeforeFirstDotOfSuffixed(ticker[1..], suffix);
    }
  }

  /**
   * A plain NSE ticker converts to the same broker symbol with or without the
   * '.NS' suffix, and the ticker can be read back from the middle of it.
   */
  lemma SuffixIsIgnored(ticker: string)
    requires '.' !in ticker
    ensures ConvertToNseSymbol(ticker + ".NS") == "NSE:" + ticker + "-EQ"
    ensures !EndsWith(ticker, ".NS") ==> ConvertToNseSymbol(ticker) == "NSE:" + ticker + "-EQ"
  {
    BeforeFirstDotOfSuffixed(ticker, ".NS");
    assert EndsWith(ticker + ".NS", ".NS") by {
      assert (ticker + ".NS")[|ticker + ".NS"| - 3..] == ".NS";
    }
  }

  /** A ".NS" ticker with an inner dot is cut at that dot: whatever follows
      the first dot is lost, so distinct tickers can share a broker symbol. */
  lemma InnerDotTruncates(head: string, tail: string)
    requires '.' !in head
    ensures ConvertToNseSymbol(head + "." + tail + ".NS") == "NSE:" + head + "-EQ"
  {
    var symbol := head + "." + tail + ".NS";
    assert symbol == head + ("." + tail + ".NS");
    BeforeFirstDotOfSuffixed(head, "." + tail + ".NS");
    assert EndsWith(symbol, ".NS") by {
      assert symbol[|symbol| - 3..] == ".NS";
    }
  }
}

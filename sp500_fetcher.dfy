/**
 * The ticker universe of the backend (`get_sp500_tickers` in
 * backend/utils/sp500_fetcher.py): the scraped S&P 500 symbols, cleaned, followed by
 * fixed lists of ETFs and stocks. The scrape is an input: `None` stands for a
 * request or parse that raised.
 */
module Sp500Fetcher {
  import opened Wrappers
  import opened Text
  import opened Seqs

  const CUSTOM_ETFS: seq<string> := ["SPY", "QQQ", "GLD", "SLV", "NLR"]
  const CUSTOM_STOCKS: seq<string> := ["TSLA", "AAPL", "AMZN", "MSFT", "PLTR", "NFLX", "CEG", "VST"]

  /** `ticker.replace('.', '-')`: a share-class dot becomes a dash, nothing else moves. */
  function CleanSymbol(t: string): (r: string)
    ensures |r| == |t| && '.' !in r
    ensures forall i :: 0 <= i < |t| && t[i] != '.' ==> r[i] == t[i]
    ensures forall i :: 0 <= i < |t| && t[i] == '.' ==> r[i] == '-'
  {
    ReplaceChar(t, '.', '-')
  }

  /** Cleaning every scraped symbol, keeping their number and order. */
  function CleanSymbols(ts: seq<string>): (r: seq<string>)
    ensures |r| == |ts|
    ensures forall i :: 0 <= i < |ts| ==> r[i] == CleanSymbol(ts[i]) && '.' !in r[i]
  {
    MapSeq(ts, CleanSymbol)
  }

  /** `get_sp500_tickers()` with the scraped `Symbol` column as input. */
  function GetSp500Tickers(scrape: Option<seq<string>>): (r: seq<string>)
    ensures scrape.None? ==> r == CUSTOM_ETFS + CUSTOM_STOCKS
    ensures scrape.Some? ==> && |r| == |scrape.value| + |CUSTOM_ETFS| + |CUSTOM_STOCKS|
                             && r[..|scrape.value|] == CleanSymbols(scrape.value)
                             && r[|scrape.value|..] == CUSTOM_ETFS + CUSTOM_STOCKS
  {
    match scrape
    case None => CUSTOM_ETFS + CUSTOM_STOCKS
    case Some(scraped) => CleanSymbols(scraped) + CUSTOM_ETFS + CUSTOM_STOCKS
  }

  /** The fallback holds the thirteen fixed tickers; a successful scrape adds thirteen to
      the scraped count and removes nothing, duplicates included. */
  lemma TickerCount(scrape: Option<seq<string>>)
    ensures scrape.None? ==> |GetSp500Tickers(scrape)| == 13
    ensures scrape.Some? ==> |GetSp500Tickers(scrape)| == |scrape.value| + 13
  {
  }

  /** Every fixed ETF and stock is monitored whether or not the scrape succeeds. */
  lemma CustomsAlwaysPresent(scrape: Option<seq<string>>, t: string)
    requires t in CUSTOM_ETFS || t in CUSTOM_STOCKS
    ensures t in GetSp500Tickers(scrape)
  {
    var r := GetSp500Tickers(scrape);
    var customs := CUSTOM_ETFS + CUSTOM_STOCKS;
    assert t in customs;
    var k :| 0 <= k < |customs| && customs[k] == t;
    var off := if scrape.Some? then |scrape.value| else 0;
    assert r[off..] == customs;
    assert r[off + k] == t;
  }

  /** No ticker in the result, scraped or fixed, still holds a dot. */
  lemma NoDotsRemain(scrape: Option<seq<string>>)
    ensures forall i :: 0 <= i < |GetSp500Tickers(scrape)| ==> '.' !in GetSp500Tickers(scrape)[i]
  {
    var r := GetSp500Tickers(scrape);
    var customs := CUSTOM_ETFS + CUSTOM_STOCKS;
    assert forall k :: 0 <= k < |customs| ==> '.' !in customs[k];
    var off := if scrape.Some? then |scrape.value| else 0;
    forall i | 0 <= i < |r| ensures '.' !in r[i] {
      if i >= off {
        assert r[i] == r[off..][i - off];
      } else {
        assert r[i] == r[..off][i];
      }
    }
  }
}

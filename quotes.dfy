/**
 The quote records of the financial data service, its fixed tables, and the
 deterministic rules that build a fresh record.

 Randomness is made explicit: every `Math.random()` draw becomes a `Unit`
 value (a real in [0, 1)) supplied by the caller, bundled in the order in
 which the service consumes them. Money values are exact reals.
 */
module Quotes {
  import opened Wrappers

  /** A single `Math.random()` result: a real in [0, 1). */
  type Unit = r: real | 0.0 <= r < 1.0

  /** Entry of the popular-stocks catalogue. */
  datatype StockInfo = StockInfo(symbol: string, name: string)

  /** Entry of the market-index table. */
  datatype IndexInfo = IndexInfo(symbol: string, name: string)

  /** A stock or index quote. `lastUpdated` is the clock value (ms) at generation. */
  datatype StockData = StockData(
    symbol: string,
    name: string,
    price: real,
    change: real,
    changePercent: real,
    volume: int,
    marketCap: Option<real>,
    lastUpdated: int)

  /** A mutual fund quote. `lastUpdated` is the clock value (ms) at generation. */
  datatype MutualFundData = MutualFundData(
    isin: string,
    name: string,
    amc: string,
    nav: real,
    change: real,
    changePercent: real,
    lastUpdated: int)

  /** The five draws a stock generation consumes, in evaluation order. */
  datatype StockDraws = StockDraws(price: Unit, change: Unit, changePercent: Unit, volume: Unit, marketCap: Unit)

  /** The four draws a fund generation consumes, in evaluation order. */
  datatype FundDraws = FundDraws(amc: Unit, nav: Unit, change: Unit, changePercent: Unit)

  /** The popular Indian stocks, in declaration order. */
  const POPULAR_STOCKS: seq<StockInfo> := [
    StockInfo("RELIANCE", "Reliance Industries Ltd"),
    StockInfo("TCS", "Tata Consultancy Services Ltd"),
    StockInfo("INFY", "Infosys Ltd"),
    StockInfo("HDFC", "HDFC Bank Ltd"),
    StockInfo("ICICIBANK", "ICICI Bank Ltd"),
    StockInfo("SBIN", "State Bank of India"),
    StockInfo("BHARTIARTL", "Bharti Airtel Ltd"),
    StockInfo("ITC", "ITC Ltd"),
    StockInfo("KOTAKBANK", "Kotak Mahindra Bank Ltd"),
    StockInfo("LT", "Larsen & Toubro Ltd")
  ]

  /** The asset-management companies a generated fund is drawn from. */
  const AMCS: seq<string> := ["SBI", "HDFC", "ICICI", "Aditya Birla", "UTI"]

  /** The market indices, in the order they are reported. */
  const INDICES: seq<IndexInfo> := [
    IndexInfo("NIFTY50", "Nifty 50"),
    IndexInfo("SENSEX", "BSE Sensex"),
    IndexInfo("BANKNIFTY", "Bank Nifty"),
    IndexInfo("NIFTYIT", "Nifty IT")
  ]

  /** Index of the first catalogue entry carrying `symbol`, as `Array.prototype.find` scans. */
  function FindIndex(table: seq<StockInfo>, symbol: string): (r: Option<nat>)
    ensures r.Some? ==> r.value < |table| && table[r.value].symbol == symbol
    ensures r.Some? ==> forall j :: 0 <= j < r.value ==> table[j].symbol != symbol
    ensures r.None? <==> forall j :: 0 <= j < |table| ==> table[j].symbol != symbol
  {
    if |table| == 0 then None
    else if table[0].symbol == symbol then Some(0)
    else match FindIndex(table[1..], symbol)
      case Some(i) => Some(i + 1)
      case None => None
  }

  /** No symbol occurs twice in a catalogue. */
  predicate DistinctStocks(table: seq<StockInfo>) {
    forall i, j :: 0 <= i < j < |table| ==> table[i].symbol != table[j].symbol
  }

  /** No symbol is listed twice in the popular-stocks catalogue. */
  lemma PopularSymbolsDistinct()
    ensures DistinctStocks(POPULAR_STOCKS)
  {
  }

  /** The first entry of `table` for `symbol`, or the fallback `<symbol> Ltd`. */
  function ResolveStockInfo(table: seq<StockInfo>, symbol: string): (r: StockInfo)
    ensures r.symbol == symbol
    ensures forall i :: 0 <= i < |table| && table[i].symbol == symbol && (forall j :: 0 <= j < i ==> table[j].symbol != symbol)
              ==> r == table[i]
    ensures (forall i :: 0 <= i < |table| ==> table[i].symbol != symbol) ==> r.name == symbol + " Ltd"
  {
    match FindIndex(table, symbol)
    case Some(i) => table[i]
    case None => StockInfo(symbol, symbol + " Ltd")
  }

  /** In a catalogue without repeated symbols, a listed symbol resolves to its own entry. */
  lemma ResolveListed(table: seq<StockInfo>, i: nat)
    requires DistinctStocks(table) && i < |table|
    ensures ResolveStockInfo(table, table[i].symbol) == table[i]
  {
  }

  /** The fund name for a sample ISIN carries its last four characters. */
  lemma FundNameSample()
    ensures FundName("INE123A01010") == "Sample Mutual Fund (1010)"
  {
  }

  /**
   The last `min(n, |s|)` characters of `s`. For `n > 0` this is JavaScript's
   `s.slice(-n)`; at `n == 0` JavaScript returns the whole string instead.
   */
  function SliceLast(s: string, n: nat): (r: string)
    ensures |r| == if |s| < n then |s| else n
    ensures s == s[..|s| - |r|] + r
  {
    var start := if |s| < n then 0 else |s| - n;
    s[start..]
  }

  /** The display name of a generated fund: it embeds the ISIN's last four characters. */
  function FundName(isin: string): (r: string)
    ensures r == "Sample Mutual Fund (" + SliceLast(isin, 4) + ")"
    ensures |isin| >= 4 ==> r[20..24] == isin[|isin| - 4..]
    ensures |isin| < 4 ==> r[20..20 + |isin|] == isin
  {
    var suffix := SliceLast(isin, 4);
    var r := "Sample Mutual Fund (" + suffix + ")";
    assert r[20..20 + |suffix|] == suffix;
    r
  }

  /** `Math.floor(r * 1000000) + 10000`: an integer volume in [10000, 1010000). */
  function VolumeFromDraw(r: Unit): (v: int)
    ensures 10000 <= v < 1010000
    ensures (v - 10000) as real <= r * 1000000.0 < (v - 10000 + 1) as real
  {
    (r * 1000000.0).Floor + 10000
  }

  /** `AMCS[Math.floor(r * 5)]`: one of the five companies. */
  function PickAmc(r: Unit): (amc: string)
    ensures amc in AMCS
    ensures amc == AMCS[(r * 5.0).Floor]
  {
    AMCS[(r * 5.0).Floor]
  }

  /** Every company is drawn by the fifth of [0, 1) that starts at its position. */
  lemma PickAmcCovers(j: nat)
    requires j < |AMCS|
    ensures PickAmc(j as real / 5.0) == AMCS[j]
  {
  }

  /** A freshly generated quote for `symbol`, named from the catalogue `table`, stamped with `now`. */
  function GenerateStock(table: seq<StockInfo>, symbol: string, now: int, d: StockDraws): (r: StockData)
    ensures r.symbol == symbol && r.name == ResolveStockInfo(table, symbol).name
    ensures 100.0 <= r.price < 3100.0
    ensures -50.0 <= r.change < 50.0
    ensures -5.0 <= r.changePercent < 5.0
    ensures 10000 <= r.volume < 1010000
    ensures r.marketCap.Some? && 10000.0 <= r.marketCap.value < 510000.0
    ensures r.lastUpdated == now
  {
    var info := ResolveStockInfo(table, symbol);
    StockData(
      info.symbol,
      info.name,
      d.price * 3000.0 + 100.0,
      (d.change - 0.5) * 100.0,
      (d.changePercent - 0.5) * 10.0,
      VolumeFromDraw(d.volume),
      Some(d.marketCap * 500000.0 + 10000.0),
      now)
  }

  /** A freshly generated fund quote for `isin`, stamped with `now`. */
  function GenerateFund(isin: string, now: int, d: FundDraws): (r: MutualFundData)
    ensures r.isin == isin && r.name == FundName(isin)
    ensures r.amc in AMCS
    ensures 10.0 <= r.nav < 110.0
    ensures -2.5 <= r.change < 2.5
    ensures -1.5 <= r.changePercent < 1.5
    ensures r.lastUpdated == now
  {
    MutualFundData(
      isin,
      FundName(isin),
      PickAmc(d.amc),
      d.nav * 100.0 + 10.0,
      (d.change - 0.5) * 5.0,
      (d.changePercent - 0.5) * 3.0,
      now)
  }

  /** The index view of a quote: renamed, price scaled by 100, market cap dropped, the rest kept. */
  function ToIndexRecord(data: StockData, indexName: string): (r: StockData)
    ensures r.symbol == data.symbol && r.name == indexName
    ensures r.price == 100.0 * data.price && r.marketCap.None?
    ensures r.change == data.change && r.changePercent == data.changePercent
    ensures r.volume == data.volume && r.lastUpdated == data.lastUpdated
  {
    data.(name := indexName, price := data.price * 100.0, marketCap := None)
  }

  /** The index symbols are pairwise distinct. */
  lemma IndexSymbolsDistinct()
    ensures forall i, j :: 0 <= i < j < |INDICES| ==> INDICES[i].symbol != INDICES[j].symbol
  {
  }

  /** No index symbol is in the popular catalogue, so each resolves to `<symbol> Ltd`. */
  lemma IndexNamesFallBack(i: nat)
    requires i < |INDICES|
    ensures ResolveStockInfo(POPULAR_STOCKS, INDICES[i].symbol).name == INDICES[i].symbol + " Ltd"
    ensures ResolveStockInfo(POPULAR_STOCKS, INDICES[i].symbol).name != INDICES[i].name
  {
    var s := INDICES[i].symbol;
    assert |s| == 6 || |s| == 7 || (|s| == 9 && s[0] == 'B');
    forall j | 0 <= j < |POPULAR_STOCKS|
      ensures POPULAR_STOCKS[j].symbol != s
    {
      var t := POPULAR_STOCKS[j].symbol;
      assert |t| != 6 && |t| != 7 && (|t| == 9 ==> t[0] != 'B');
    }
    assert (s + " Ltd")[|s|..] == " Ltd";
  }
}

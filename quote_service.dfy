/**
 The financial data service: one object standing for the static class, with
 its two time-expiring caches, the stock cache keyed by symbol and the fund
 cache keyed by ISIN. The clock reading and the random draws are parameters.
 */
module QuoteService {
  import opened Wrappers
  import opened Quotes
  import opened ExpiringCache

  /** A cached stock entry is what generation produces for its key, stamped with its entry time. */
  predicate StockEntryOk(table: seq<StockInfo>, key: string, e: Entry<StockData>) {
    && e.data.symbol == key
    && e.data.name == ResolveStockInfo(table, key).name
    && e.data.marketCap.Some?
    && 10000 <= e.data.volume < 1010000
    && e.data.lastUpdated == e.timestamp
  }

  predicate StockCacheOk(table: seq<StockInfo>, cache: Cache<StockData>) {
    forall k :: k in cache ==> StockEntryOk(table, k, cache[k])
  }

  /** A cached fund entry is what generation produces for its key, stamped with its entry time. */
  predicate FundEntryOk(key: string, e: Entry<MutualFundData>) {
    && e.data.isin == key
    && e.data.name == FundName(key)
    && e.data.amc in AMCS
    && e.data.lastUpdated == e.timestamp
  }

  predicate FundCacheOk(cache: Cache<MutualFundData>) {
    forall k :: k in cache ==> FundEntryOk(k, cache[k])
  }

  /**
   A stock lookup whose miss would store a well-formed entry keeps the cache
   well formed, and its answer is a record for the symbol asked.
   */
  lemma StockLookupOk(table: seq<StockInfo>, cache: Cache<StockData>, symbol: string, now: int, generated: StockData)
    requires StockCacheOk(table, cache)
    requires StockEntryOk(table, symbol, Entry(generated, now))
    ensures StockCacheOk(table, Lookup(cache, symbol, now, generated).1)
    ensures var data := Lookup(cache, symbol, now, generated).0;
            data.symbol == symbol && data.name == ResolveStockInfo(table, symbol).name && data.marketCap.Some?
  {
  }

  /** A fund lookup keeps the fund cache well formed, and its answer is a record for the ISIN asked. */
  lemma FundLookupOk(cache: Cache<MutualFundData>, isin: string, now: int, d: FundDraws)
    requires FundCacheOk(cache)
    ensures FundCacheOk(Lookup(cache, isin, now, GenerateFund(isin, now, d)).1)
    ensures var data := Lookup(cache, isin, now, GenerateFund(isin, now, d)).0;
            data.isin == isin && data.name == FundName(isin) && data.amc in AMCS
  {
  }

  /** No symbol occurs twice in an index table. */
  predicate DistinctSymbols(idx: seq<IndexInfo>) {
    forall i, j :: 0 <= i < j < |idx| ==> idx[i].symbol != idx[j].symbol
  }

  /** The symbols of the first `n` entries of an index table. */
  function Symbols(idx: seq<IndexInfo>, n: nat): set<string>
    requires n <= |idx|
  {
    set i | 0 <= i < n :: idx[i].symbol
  }

  /** For each index, the record a cache miss on its symbol would generate from its draws. */
  function Candidates(table: seq<StockInfo>, idx: seq<IndexInfo>, now: int, draws: seq<StockDraws>): (r: seq<StockData>)
    requires |draws| == |idx|
    ensures |r| == |idx|
    ensures forall i :: 0 <= i < |idx| ==> StockEntryOk(table, idx[i].symbol, Entry(r[i], now))
  {
    seq(|idx|, i requires 0 <= i < |idx| => GenerateStock(table, idx[i].symbol, now, draws[i]))
  }

  /**
   The first `n` turns of the market-index loop, as a function of the stock
   cache: each index in turn is looked up, `generated[i]` being what a miss
   stores, and its index view is appended to the results.
   */
  function IndicesFold(cache: Cache<StockData>, idx: seq<IndexInfo>, now: int, generated: seq<StockData>, n: nat)
    : (r: (seq<StockData>, Cache<StockData>))
    requires |generated| == |idx| && n <= |idx|
    ensures |r.0| == n
    decreases n
  {
    if n == 0 then ([], cache)
    else
      var prefix := IndicesFold(cache, idx, now, generated, n - 1);
      var step := Lookup(prefix.1, idx[n - 1].symbol, now, generated[n - 1]);
      (prefix.0 + [ToIndexRecord(step.0, idx[n - 1].name)], step.1)
  }

  /** The stock cache stays well formed through the index loop. */
  lemma {:induction false} IndicesFoldKeepsOk(table: seq<StockInfo>, cache: Cache<StockData>, idx: seq<IndexInfo>, now: int,
                                              generated: seq<StockData>, n: nat)
    requires |generated| == |idx| && n <= |idx|
    requires StockCacheOk(table, cache)
    requires forall i :: 0 <= i < |idx| ==> StockEntryOk(table, idx[i].symbol, Entry(generated[i], now))
    ensures StockCacheOk(table, IndicesFold(cache, idx, now, generated, n).1)
    decreases n
  {
    if n > 0 {
      IndicesFoldKeepsOk(table, cache, idx, now, generated, n - 1);
      var prefix := IndicesFold(cache, idx, now, generated, n - 1);
      StockLookupOk(table, prefix.1, idx[n - 1].symbol, now, generated[n - 1]);
      assert IndicesFold(cache, idx, now, generated, n).1 == Lookup(prefix.1, idx[n - 1].symbol, now, generated[n - 1]).1;
    }
  }

  /** The loop adds exactly the index symbols as keys and leaves every other entry as it was. */
  lemma {:induction false} IndicesFoldOtherKeys(cache: Cache<StockData>, idx: seq<IndexInfo>, now: int, generated: seq<StockData>, n: nat)
    requires |generated| == |idx| && n <= |idx|
    ensures var cache' := IndicesFold(cache, idx, now, generated, n).1;
            && cache'.Keys == cache.Keys + Symbols(idx, n)
            && forall k :: k in cache && k !in Symbols(idx, n) ==> cache'[k] == cache[k]
    decreases n
  {
    if n > 0 {
      IndicesFoldOtherKeys(cache, idx, now, generated, n - 1);
      LookupOtherKeys(IndicesFold(cache, idx, now, generated, n - 1).1, idx[n - 1].symbol, now, generated[n - 1]);
      assert Symbols(idx, n) == Symbols(idx, n - 1) + {idx[n - 1].symbol};
    }
  }

  /**
   After `n` turns the stock cache holds, for every symbol handled so far, the
   plain record whose index view was reported: the index views are not written
   back into the cache.
   */
  lemma {:induction false} IndicesFoldResults(cache: Cache<StockData>, idx: seq<IndexInfo>, now: int, generated: seq<StockData>, n: nat)
    requires |generated| == |idx| && n <= |idx|
    requires DistinctSymbols(idx)
    ensures var fold := IndicesFold(cache, idx, now, generated, n);
            && |fold.0| == n
            && forall i :: 0 <= i < n ==>
                 idx[i].symbol in fold.1 && fold.0[i] == ToIndexRecord(fold.1[idx[i].symbol].data, idx[i].name)
    decreases n
  {
    if n > 0 {
      IndicesFoldResults(cache, idx, now, generated, n - 1);
      var prefix := IndicesFold(cache, idx, now, generated, n - 1);
      var fold := IndicesFold(cache, idx, now, generated, n);
      LookupOtherKeys(prefix.1, idx[n - 1].symbol, now, generated[n - 1]);
      forall i | 0 <= i < n - 1
        ensures idx[i].symbol in fold.1 && fold.0[i] == ToIndexRecord(fold.1[idx[i].symbol].data, idx[i].name)
      {
        assert fold.0[i] == prefix.0[i];
        assert idx[i].symbol != idx[n - 1].symbol;
      }
    }
  }

  /**
   The latest turn of the loop answers as a lookup in the cache as it was
   before the loop would: the earlier turns touch only other symbols.
   */
  lemma IndicesFoldLast(cache: Cache<StockData>, idx: seq<IndexInfo>, now: int, generated: seq<StockData>, n: nat)
    requires |generated| == |idx| && 0 < n <= |idx|
    requires DistinctSymbols(idx)
    ensures var fold := IndicesFold(cache, idx, now, generated, n);
            var single := Lookup(cache, idx[n - 1].symbol, now, generated[n - 1]);
            && idx[n - 1].symbol in fold.1
            && fold.0[n - 1] == ToIndexRecord(single.0, idx[n - 1].name)
            && fold.1[idx[n - 1].symbol] == single.1[idx[n - 1].symbol]
  {
    IndicesFoldOtherKeys(cache, idx, now, generated, n - 1);
    var prefix := IndicesFold(cache, idx, now, generated, n - 1);
    var sym := idx[n - 1].symbol;
    assert sym !in Symbols(idx, n - 1) by {
      forall i | 0 <= i < n - 1
        ensures idx[i].symbol != sym
      {
      }
    }
    LookupOwnKeyOnly(prefix.1, cache, sym, now, generated[n - 1]);
  }

  /** Every turn of the loop answers as a lookup in the cache as it was before the loop would. */
  lemma {:induction false} IndicesFoldLookups(cache: Cache<StockData>, idx: seq<IndexInfo>, now: int, generated: seq<StockData>, n: nat)
    requires |generated| == |idx| && n <= |idx|
    requires DistinctSymbols(idx)
    ensures var fold := IndicesFold(cache, idx, now, generated, n);
            forall i :: 0 <= i < n ==>
              && idx[i].symbol in fold.1
              && fold.0[i] == ToIndexRecord(Lookup(cache, idx[i].symbol, now, generated[i]).0, idx[i].name)
              && fold.1[idx[i].symbol] == Lookup(cache, idx[i].symbol, now, generated[i]).1[idx[i].symbol]
    decreases n
  {
    if n > 0 {
      IndicesFoldLookups(cache, idx, now, generated, n - 1);
      IndicesFoldLast(cache, idx, now, generated, n);
      var prefix := IndicesFold(cache, idx, now, generated, n - 1);
      var fold := IndicesFold(cache, idx, now, generated, n);
      LookupOtherKeys(prefix.1, idx[n - 1].symbol, now, generated[n - 1]);
      forall i | 0 <= i < n - 1
        ensures && idx[i].symbol in fold.1
                && fold.0[i] == ToIndexRecord(Lookup(cache, idx[i].symbol, now, generated[i]).0, idx[i].name)
                && fold.1[idx[i].symbol] == Lookup(cache, idx[i].symbol, now, generated[i]).1[idx[i].symbol]
      {
        assert fold.0[i] == prefix.0[i];
        assert idx[i].symbol != idx[n - 1].symbol;
      }
    }
  }

  /**
   Each index follows the cache rule against the cache as it was before the
   loop: a live entry is reported and kept, otherwise the generated record is
   reported and stored with time stamp `now`.
   */
  lemma IndicesFoldHitMiss(cache: Cache<StockData>, idx: seq<IndexInfo>, now: int, generated: seq<StockData>)
    requires |generated| == |idx|
    requires DistinctSymbols(idx)
    ensures var fold := IndicesFold(cache, idx, now, generated, |idx|);
            && |fold.0| == |idx|
            && (forall i :: 0 <= i < |idx| && IsLive(cache, idx[i].symbol, now) ==>
                  && fold.0[i] == ToIndexRecord(cache[idx[i].symbol].data, idx[i].name)
                  && idx[i].symbol in fold.1 && fold.1[idx[i].symbol] == cache[idx[i].symbol])
            && (forall i :: 0 <= i < |idx| && !IsLive(cache, idx[i].symbol, now) ==>
                  && fold.0[i] == ToIndexRecord(generated[i], idx[i].name)
                  && idx[i].symbol in fold.1 && fold.1[idx[i].symbol] == Entry(generated[i], now))
  {
    IndicesFoldLookups(cache, idx, now, generated, |idx|);
  }

  /**
   The whole index loop: one result per index, in table order, carrying the
   index symbol and display name and no market cap, while the cache keeps the
   unscaled record under its own name and with its market cap.
   */
  lemma IndicesFoldShape(table: seq<StockInfo>, cache: Cache<StockData>, idx: seq<IndexInfo>, now: int, generated: seq<StockData>)
    requires |generated| == |idx|
    requires StockCacheOk(table, cache)
    requires forall i :: 0 <= i < |idx| ==> StockEntryOk(table, idx[i].symbol, Entry(generated[i], now))
    requires DistinctSymbols(idx)
    ensures var fold := IndicesFold(cache, idx, now, generated, |idx|);
            && StockCacheOk(table, fold.1)
            && |fold.0| == |idx|
            && forall i :: 0 <= i < |idx| ==>
                 && fold.0[i].symbol == idx[i].symbol && fold.0[i].name == idx[i].name
                 && fold.0[i].marketCap.None?
                 && idx[i].symbol in fold.1
                 && fold.0[i] == ToIndexRecord(fold.1[idx[i].symbol].data, idx[i].name)
                 && fold.0[i].price == 100.0 * fold.1[idx[i].symbol].data.price
                 && fold.1[idx[i].symbol].data.name == ResolveStockInfo(table, idx[i].symbol).name
                 && fold.1[idx[i].symbol].data.marketCap.Some?
  {
    IndicesFoldKeepsOk(table, cache, idx, now, generated, |idx|);
    IndicesFoldResults(cache, idx, now, generated, |idx|);
  }

  /**
   The index loop run on the draws: the shape of the results, the cache rule
   each index follows against the cache as it was before the loop, and the
   keys it touches.
   */
  lemma IndicesFromDraws(table: seq<StockInfo>, cache: Cache<StockData>, idx: seq<IndexInfo>, now: int, draws: seq<StockDraws>)
    requires |draws| == |idx|
    requires StockCacheOk(table, cache)
    requires DistinctSymbols(idx)
    ensures var fold := IndicesFold(cache, idx, now, Candidates(table, idx, now, draws), |idx|);
            && StockCacheOk(table, fold.1)
            && |fold.0| == |idx|
            && (forall i :: 0 <= i < |idx| ==>
                  && fold.0[i].symbol == idx[i].symbol && fold.0[i].name == idx[i].name
                  && fold.0[i].marketCap.None?
                  && idx[i].symbol in fold.1
                  && fold.0[i] == ToIndexRecord(fold.1[idx[i].symbol].data, idx[i].name)
                  && fold.0[i].price == 100.0 * fold.1[idx[i].symbol].data.price
                  && fold.1[idx[i].symbol].data.name == ResolveStockInfo(table, idx[i].symbol).name
                  && fold.1[idx[i].symbol].data.marketCap.Some?)
            && (forall i :: 0 <= i < |idx| && IsLive(cache, idx[i].symbol, now) ==>
                  && fold.0[i] == ToIndexRecord(cache[idx[i].symbol].data, idx[i].name)
                  && fold.1[idx[i].symbol] == cache[idx[i].symbol])
            && (forall i :: 0 <= i < |idx| && !IsLive(cache, idx[i].symbol, now) ==>
                  && fold.0[i] == ToIndexRecord(GenerateStock(table, idx[i].symbol, now, draws[i]), idx[i].name)
                  && fold.1[idx[i].symbol] == Entry(GenerateStock(table, idx[i].symbol, now, draws[i]), now))
            && fold.1.Keys == cache.Keys + Symbols(idx, |idx|)
            && (forall k :: k in cache && k !in Symbols(idx, |idx|) ==> fold.1[k] == cache[k])
  {
    var generated := Candidates(table, idx, now, draws);
    IndicesFoldShape(table, cache, idx, now, generated);
    IndicesFoldHitMiss(cache, idx, now, generated);
    IndicesFoldOtherKeys(cache, idx, now, generated, |idx|);
  }

  class FinancialDataService {
    /** The popular-stocks catalogue: names are resolved from it, and it is handed out as is. */
    const popularStocks: seq<StockInfo>
    var stockCache: Cache<StockData>
    var fundCache: Cache<MutualFundData>

    /**
     The catalogue has ten entries without a repeated symbol, and both caches
     hold only records generated for their own key.
     */
    ghost predicate Valid()
      reads this
    {
      && |popularStocks| == 10 && DistinctStocks(popularStocks)
      && StockCacheOk(popularStocks, stockCache) && FundCacheOk(fundCache)
    }

    /** The caches start empty. */
    constructor ()
      ensures Valid()
      ensures popularStocks == POPULAR_STOCKS
      ensures stockCache == map[] && fundCache == map[]
    {
      popularStocks := POPULAR_STOCKS;
      stockCache := map[];
      fundCache := map[];
      PopularSymbolsDistinct();
    }

    /** The catalogue as handed out: ten entries, distinct symbols, each resolving to itself. */
    function GetPopularStocks(): (r: seq<StockInfo>)
      requires Valid()
      reads this
      ensures |r| == 10
      ensures DistinctStocks(r)
      ensures forall i :: 0 <= i < |r| ==> ResolveStockInfo(popularStocks, r[i].symbol) == r[i]
    {
      popularStocks
    }

    /**
     The quote for `symbol` at time `now`: the cached record while it is live,
     otherwise a record generated from `draws` and stored under `symbol`.
     */
    method GetStockData(symbol: string, now: int, draws: StockDraws) returns (r: Option<StockData>)
      requires Valid()
      modifies this
      ensures Valid()
      ensures r.Some?
      ensures (r.value, stockCache) == Lookup(old(stockCache), symbol, now, GenerateStock(popularStocks, symbol, now, draws))
      ensures old(IsLive(stockCache, symbol, now)) ==> r.value == old(stockCache[symbol].data) && stockCache == old(stockCache)
      ensures !old(IsLive(stockCache, symbol, now)) ==>
                r.value == GenerateStock(popularStocks, symbol, now, draws) && stockCache == old(stockCache)[symbol := Entry(r.value, now)]
      ensures fundCache == old(fundCache)
      ensures r.value.symbol == symbol && r.value.name == ResolveStockInfo(popularStocks, symbol).name
      ensures r.value.marketCap.Some? && 10000 <= r.value.volume < 1010000
    {
      if symbol in stockCache && now - stockCache[symbol].timestamp < CACHE_DURATION {
        return Some(stockCache[symbol].data);
      }
      var mockData := GenerateStock(popularStocks, symbol, now, draws);
      stockCache := stockCache[symbol := Entry(mockData, now)];
      return Some(mockData);
    }

    /**
     The quote for fund `isin` at time `now`: the cached record while it is
     live, otherwise a record generated from `draws` and stored under `isin`.
     */
    method GetMutualFundData(isin: string, now: int, draws: FundDraws) returns (r: Option<MutualFundData>)
      requires Valid()
      modifies this
      ensures Valid()
      ensures r.Some?
      ensures (r.value, fundCache) == Lookup(old(fundCache), isin, now, GenerateFund(isin, now, draws))
      ensures old(IsLive(fundCache, isin, now)) ==> r.value == old(fundCache[isin].data) && fundCache == old(fundCache)
      ensures !old(IsLive(fundCache, isin, now)) ==>
                r.value == GenerateFund(isin, now, draws) && fundCache == old(fundCache)[isin := Entry(r.value, now)]
      ensures stockCache == old(stockCache)
      ensures r.value.isin == isin && r.value.name == FundName(isin) && r.value.amc in AMCS
    {
      if isin in fundCache && now - fundCache[isin].timestamp < CACHE_DURATION {
        return Some(fundCache[isin].data);
      }
      var mockData := GenerateFund(isin, now, draws);
      fundCache := fundCache[isin := Entry(mockData, now)];
      return Some(mockData);
    }

    /**
     The four market indices, in table order, each obtained through the stock
     lookup with its own draws and reported in its index view.
     */
    method GetMarketIndices(now: int, draws: seq<StockDraws>) returns (results: seq<StockData>)
      requires Valid()
      requires |draws| == |INDICES|
      modifies this
      ensures Valid()
      ensures (results, stockCache) == IndicesFold(old(stockCache), INDICES, now, Candidates(popularStocks, INDICES, now, draws), |INDICES|)
      ensures fundCache == old(fundCache)
      ensures |results| == 4
      ensures forall i :: 0 <= i < 4 ==>
                && results[i].symbol == INDICES[i].symbol && results[i].name == INDICES[i].name
                && results[i].marketCap.None?
                && INDICES[i].symbol in stockCache
                && results[i] == ToIndexRecord(stockCache[INDICES[i].symbol].data, INDICES[i].name)
                && results[i].price == 100.0 * stockCache[INDICES[i].symbol].data.price
                && stockCache[INDICES[i].symbol].data.name == ResolveStockInfo(popularStocks, INDICES[i].symbol).name
                && stockCache[INDICES[i].symbol].data.marketCap.Some?
      ensures forall i :: 0 <= i < 4 && old(IsLive(stockCache, INDICES[i].symbol, now)) ==>
                results[i] == ToIndexRecord(old(stockCache)[INDICES[i].symbol].data, INDICES[i].name)
                && stockCache[INDICES[i].symbol] == old(stockCache)[INDICES[i].symbol]
      ensures forall i :: 0 <= i < 4 && !old(IsLive(stockCache, INDICES[i].symbol, now)) ==>
                results[i] == ToIndexRecord(GenerateStock(popularStocks, INDICES[i].symbol, now, draws[i]), INDICES[i].name)
                && stockCache[INDICES[i].symbol] == Entry(GenerateStock(popularStocks, INDICES[i].symbol, now, draws[i]), now)
      ensures stockCache.Keys == old(stockCache).Keys + Symbols(INDICES, |INDICES|)
      ensures forall k :: k in old(stockCache) && k !in Symbols(INDICES, |INDICES|) ==> stockCache[k] == old(stockCache)[k]
    {
      results := LookUpIndices(now, draws);
      IndexSymbolsDistinct();
      IndicesFromDraws(popularStocks, old(stockCache), INDICES, now, draws);
    }

    /** The loop of the market-index operation: each index in turn through the stock lookup. */
    method LookUpIndices(now: int, draws: seq<StockDraws>) returns (results: seq<StockData>)
      requires Valid()
      requires |draws| == |INDICES|
      modifies this
      ensures Valid()
      ensures (results, stockCache) == IndicesFold(old(stockCache), INDICES, now, Candidates(popularStocks, INDICES, now, draws), |INDICES|)
      ensures fundCache == old(fundCache)
    {
      ghost var generated := Candidates(popularStocks, INDICES, now, draws);
      results := [];
      for i := 0 to |INDICES|
        invariant Valid()
        invariant (results, stockCache) == IndicesFold(old(stockCache), INDICES, now, generated, i)
        invariant fundCache == old(fundCache)
      {
        var index := INDICES[i];
        var data := GetStockData(index.symbol, now, draws[i]);
        if data.Some? {
          results := results + [ToIndexRecord(data.value, index.name)];
        }
      }
    }

    /** Empties both caches, so the next lookup of any key is a miss. */
    method ClearCache()
      requires Valid()
      modifies this
      ensures Valid()
      ensures stockCache == map[] && fundCache == map[]
    {
      stockCache := map[];
      fundCache := map[];
    }
  }
}

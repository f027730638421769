# Financial quote cache service, modelled in Dafny

This project models the quote cache service of a browser dashboard for Indian
market data (`FinancialDataService`). The service hands out synthetic stock and
mutual-fund quotes. It keeps them in two time-expiring caches: the stock cache,
keyed by symbol, and the fund cache, keyed by ISIN. An entry answers lookups for
5 minutes (300000 ms) after it was stored. After that the key counts as absent,
and the next lookup generates a new record and replaces the old entry. Around
the caches sit a few fixed rules:

- the ten-entry popular-stocks catalogue and the `<symbol> Ltd` fallback name;
- fund names built from the last four characters of the ISIN;
- the market-index view: four indices in a fixed order, renamed, price times 100, no market cap;
- clearing both caches.

Modules:

- `Wrappers`: `Option`, standing for the TypeScript `T | null` return.
- `Quotes`: the `StockData` and `MutualFundData` records, the catalogue, the
  AMC list, the index table, and the pure rules. These are name resolution
  (`Array.prototype.find`), `slice(-4)`, record generation and the index view.
- `ExpiringCache`: the freshness rule shared by both caches, as one function
  `Lookup` over `map<string, Entry<T>>`, with lemmas.
- `QuoteService`: the class `FinancialDataService`. It has the two cache maps
  as fields and the catalogue as a constant field. Its methods update the maps
  in place. The `for` loop of the market-index operation is the method
  `LookUpIndices`, specified by the function `IndicesFold`.

The static class becomes one object. The constructor creates the empty caches,
as the static initialisers do. Two things the service gets from the environment
are parameters:

- **The clock** (`Date.now()`) is a parameter `now: int`, in milliseconds.
- **Randomness** (`Math.random()`) is a set of draws, each a real in [0, 1)
  (type `Unit`). They come in bundles in the order the source uses them. A
  stock needs five draws (price, change, percent change, volume, market cap),
  a fund needs four (AMC, NAV, change, percent change). `GetMarketIndices`
  takes one stock bundle per index.

Money values are exact reals. The `lastUpdated` field holds the clock value the
record was generated at. Its ISO-string formatting is not modelled.

Two lookups of one key within 5 minutes give identical records only when the
5 minutes are counted from the moment the entry was stored, not from the first
of the two lookups. The model follows the code here, and `RepeatWithinWindow`
states the guarantee in that form.

## Model

| member | source | states |
|---|---|---|
| `Quotes.FindIndex` | src/utils/FinancialDataService.ts:64 | the result is the index of the first catalogue entry with the symbol; it is None exactly when no entry has it |
| `Quotes.ResolveStockInfo` | src/utils/FinancialDataService.ts:64-65 | the resolved entry keeps the symbol; it is the first catalogue entry for that symbol, or has name `symbol + " Ltd"` when the symbol is not listed |
| `Quotes.ResolveListed` | src/utils/FinancialDataService.ts:39-50 | in a catalogue without repeated symbols, every listed symbol resolves to its own entry |
| `Quotes.PopularSymbolsDistinct` | src/utils/FinancialDataService.ts:39-50 | no symbol is listed twice in the popular-stocks table |
| `Quotes.FundNameSample` | src/utils/FinancialDataService.ts:103 | the fund for ISIN INE123A01010 is named "Sample Mutual Fund (1010)" |
| `Quotes.SliceLast` | src/utils/FinancialDataService.ts:103 | the result is the last `min(n, len(s))` characters of `s`, a suffix of it; this is what `slice(-4)` returns |
| `Quotes.FundName` | src/utils/FinancialDataService.ts:103 | the fund name is "Sample Mutual Fund (" + last four characters + ")", or the whole ISIN in the brackets when it has fewer than four |
| `Quotes.VolumeFromDraw` | src/utils/FinancialDataService.ts:73 | `floor(r * 1000000) + 10000` is an integer in [10000, 1010000) and is the floor of the scaled draw |
| `Quotes.PickAmc` | src/utils/FinancialDataService.ts:104 | the drawn AMC is one of SBI, HDFC, ICICI, Aditya Birla, UTI, the one at position `floor(r * 5)` |
| `Quotes.PickAmcCovers` | src/utils/FinancialDataService.ts:104 | every one of the five AMCs is drawn by some draw in [0, 1) |
| `Quotes.GenerateStock` | src/utils/FinancialDataService.ts:64-76 | a generated stock keeps the symbol and has the resolved name; price, change, percent change and market cap lie in the commented ranges; volume lies in [10000, 1010000); market cap is present; the time stamp is `now` |
| `Quotes.GenerateFund` | src/utils/FinancialDataService.ts:101-109 | a generated fund keeps the ISIN and has the built name; the AMC is one of the five; NAV, change and percent change lie in the commented ranges; the time stamp is `now` |
| `Quotes.ToIndexRecord` | src/utils/FinancialDataService.ts:137-142 | the index view has the index name, the price times 100 and no market cap; symbol, change, percent change, volume and time stamp are kept |
| `Quotes.IndexSymbolsDistinct` | src/utils/FinancialDataService.ts:125-130 | the four index symbols are distinct |
| `Quotes.IndexNamesFallBack` | src/utils/FinancialDataService.ts:125-130 | no index symbol is in the catalogue, so each resolves to `<symbol> Ltd`, which differs from the index display name |
| `ExpiringCache.Lookup` | src/utils/FinancialDataService.ts:56-79 | after a lookup the key holds a live entry answering with the returned value; a live entry is returned with the cache unchanged; otherwise the generated value is returned and stored with time stamp `now` |
| `ExpiringCache.LookupOtherKeys` | src/utils/FinancialDataService.ts:79 | a lookup adds only its own key and leaves every other entry as it was |
| `ExpiringCache.LookupOwnKeyOnly` | src/utils/FinancialDataService.ts:56-79 | a lookup depends only on the entry under its own key: two caches that agree there give the same answer and the same new entry |
| `ExpiringCache.ExpiryBoundary` | src/utils/FinancialDataService.ts:34 | an entry is live exactly while `now < timestamp + 300000` |
| `ExpiringCache.RepeatWithinWindow` | src/utils/FinancialDataService.ts:56-60 | a second lookup within the stored entry's window returns the same value and changes nothing, whatever it would have generated |
| `ExpiringCache.MissStampsNow` | src/utils/FinancialDataService.ts:79 | a miss stamps the entry with the lookup time, so it stays live for the next 300000 ms |
| `ExpiringCache.ExpiredRegenerates` | src/utils/FinancialDataService.ts:57 | once an entry's window has passed, the next lookup returns the new value with a strictly later time stamp |
| `ExpiringCache.EmptyMisses` | src/utils/FinancialDataService.ts:153-156 | in an emptied cache every lookup is a miss that stores exactly the generated value |
| `ExpiringCache.LookupsCommute` | src/utils/FinancialDataService.ts:79 | lookups of two different keys give the same answers and the same cache in either order |
| `QuoteService.StockLookupOk` | src/utils/FinancialDataService.ts:56-79 | a stock lookup keeps every cached record generated for its own key, and answers with the symbol asked and its resolved name |
| `QuoteService.FundLookupOk` | src/utils/FinancialDataService.ts:93-112 | a fund lookup keeps every cached record generated for its own ISIN, and answers with the ISIN asked, its built name and an AMC of the five |
| `QuoteService.Candidates` | src/utils/FinancialDataService.ts:135 | the record a miss on each index symbol would generate is a well-formed entry for that symbol |
| `QuoteService.IndicesFold` | src/utils/FinancialDataService.ts:134-144 | the first `n` turns of the loop give exactly `n` results |
| `QuoteService.IndicesFoldKeepsOk` | src/utils/FinancialDataService.ts:134-144 | the stock cache stays well formed through the index loop |
| `QuoteService.IndicesFoldOtherKeys` | src/utils/FinancialDataService.ts:134-135 | the index loop adds exactly the index symbols as keys and leaves every other entry unchanged |
| `QuoteService.IndicesFoldResults` | src/utils/FinancialDataService.ts:135-142 | after the loop each result is the index view of the record now cached under its symbol, so the renamed, scaled copies are not written back |
| `QuoteService.IndicesFoldLast` | src/utils/FinancialDataService.ts:134-135 | the latest turn answers, and leaves its own entry, as a single lookup in the cache from before the loop would |
| `QuoteService.IndicesFoldLookups` | src/utils/FinancialDataService.ts:134-142 | every turn answers, and leaves its own entry, as a single lookup of its symbol in the cache from before the loop would |
| `QuoteService.IndicesFoldHitMiss` | src/utils/FinancialDataService.ts:135-142 | an index whose entry was live before the loop is reported from that entry, which stays; any other index reports the generated record, stored with time stamp `now` |
| `QuoteService.IndicesFoldShape` | src/utils/FinancialDataService.ts:125-146 | one result per index in table order, with the index symbol and name, no market cap and 100 times the cached price; the cached record keeps its resolved name and its market cap |
| `QuoteService.IndicesFromDraws` | src/utils/FinancialDataService.ts:122-147 | the loop run on the draws: results in table order with display name, no market cap and 100 times the cached price; each index is a hit on the earlier live entry or a miss storing the record generated from its draws; only the index symbols are touched |
| `QuoteService.FinancialDataService.constructor` | src/utils/FinancialDataService.ts:34-50 | both caches start empty and the catalogue is the ten-entry popular-stocks table |
| `QuoteService.FinancialDataService.GetPopularStocks` | src/utils/FinancialDataService.ts:149-151 | the catalogue handed out has ten entries with distinct symbols, and each entry resolves to itself |
| `QuoteService.FinancialDataService.GetStockData` | src/utils/FinancialDataService.ts:52-87 | on a live entry the cached record is returned and nothing changes; otherwise a record is generated and stored under the symbol with time stamp `now`; the fund cache is unchanged; the answer always exists and carries the symbol and its resolved name |
| `QuoteService.FinancialDataService.GetMutualFundData` | src/utils/FinancialDataService.ts:89-120 | the same cache behaviour on the fund cache keyed by ISIN, with the stock cache unchanged; the answer carries the ISIN, the built name and one of the five AMCs |
| `QuoteService.FinancialDataService.GetMarketIndices` | src/utils/FinancialDataService.ts:122-147 | exactly four results in the order NIFTY50, SENSEX, BANKNIFTY, NIFTYIT, each with its display name, no market cap and 100 times the price of the unscaled record left in the cache; an index whose entry was live before the call is reported from that entry, which is kept, and any other is reported from the record generated from its own draws, stored with time stamp `now`; keys other than the index symbols keep their entries; the fund cache is unchanged |
| `QuoteService.FinancialDataService.LookUpIndices` | src/utils/FinancialDataService.ts:132-144 | the loop of the market-index operation: its results and the new stock cache are the index fold of the old cache over the four indices; the fund cache is unchanged |
| `QuoteService.FinancialDataService.ClearCache` | src/utils/FinancialDataService.ts:153-157 | both caches are empty afterwards |

## Left out

- `async`/`Promise` wrappers and `console.log`/`console.error`: every awaited call settles without waiting on anything outside the service, the model runs the calls one after another, and logging has no effect on results. Other code running while `getMarketIndices` is suspended at its `await` is not modelled.
- The `try`/`catch` blocks that return `null`: nothing inside them can throw. The methods return `Option` and always return `Some`; `GetMarketIndices` still keeps the source's `if (data)` test.
- One `getStockData` call reads the clock up to three times: `Date.now()` for the expiry test (line 57), `new Date()` for `lastUpdated` (line 75) and `Date.now()` for the entry's time stamp (line 79); the clock could move between them. The model reads the clock once per call.
- `lastUpdated` is `new Date().toISOString()` in the source. The model stores the millisecond clock value; ISO formatting is not modelled.
- `Math.random()` and floating point: draws are parameters, and arithmetic is exact.
- GenerateStock: its bounds on price, change, percent change and market cap hold in exact arithmetic. Floating-point rounding at the upper bound is not modelled.
- GenerateFund: its bounds on NAV, change and percent change hold in exact arithmetic. Floating-point rounding at the upper bound is not modelled.
- GetMarketIndices: takes one clock reading `now` for all four index lookups. In the source each of the four `getStockData` calls reads the clock again, so the records may carry different time stamps and each index's expiry is judged at a slightly later moment.
- GetMarketIndices: takes one draw bundle per index, which goes unused when that index hits the cache. The source draws from one global random stream, and only on misses.
- GetPopularStocks: returns the service's catalogue as a value. The source returns a reference to its own static array, which a caller could mutate. That aliasing is not modelled.
- `slice(-4)` works on UTF-16 code units in the source. The model works on Dafny characters (Unicode scalar values), so the two differ only on ISINs with characters outside the Basic Multilingual Plane.
- The unused `ETFData` interface.
- `src/utils/FirecrawlService.ts` (credential storage and crawl requests) wraps an external crawling client and `localStorage`, neither of which is visible. It is not part of this model.
- The React components and pages (rendering, toasts, progress simulation, number formatting, download links) are not part of this model. The same goes for the caller's upper-casing of the query and its stock-then-fund fallback, which are user-interface code.
- Two concurrent lookups of the same key overwriting each other: the model is sequential, like the single-threaded source.

# Trading bot core: signal rule, market report and simulated portfolio

A verified Dafny model of the deterministic logic of `async_trading_bot.py`, a
Telegram bot that watches six Binance trading pairs (`BTCUSDT`, `ETHUSDT`,
`BNBUSDT`, `SOLUSDT`, `ADAUSDT`, `EURUSDT`). The model covers these parts:

- **Market report** (`analyze_market_text`). For every tracked symbol, in order, the bot
  reads a spot price and the mean of up to seven daily closes. It emits a BUY notice when
  the price is strictly below 85% of that mean. Otherwise, for a held symbol, it emits one
  SELL notice per lot whose purchase price the spot price has reached +25% of (inclusive).
  A failure for one symbol becomes an error entry for that symbol only, and the loop always
  finishes. The exchange's answers are an input (`FeedResult`). The report is a list of
  `Entry` values, not formatted text.
- **Portfolio** (the module-level dictionary updated by `/compra` and `/venta`). It maps a
  symbol to its ordered list of lots `{monto, precio}`. `PortfolioStore` is a class with
  that map as its field. `AddLot` appends a lot and creates the key if needed. `RemoveLots`
  drops every lot of the given amount, deletes a key whose list becomes empty, and reports
  whether the symbol was held at all. The invariant "no key maps to an empty list" is
  preserved by both.
- **Profit percent** shown by `/cartera`: `(current - precio) / precio * 100`.

Prices and amounts are exact `real`s. Python raises a division by zero for an empty list
of closes and for a lot bought at price 0. Both are modelled as `None` (`Mean`,
`ProfitPercent`). For the closes, the analysis turns that `None` into an error entry with
the message `division by zero`.

Modules: `Wrappers` (Option), `Portfolio` (lots, the pure update functions `Without`,
`Bought`, `Sold` and the `PortfolioStore` class), `Signals` (mean, BUY/SELL comparisons,
notices, profit), `Analyzer` (feed results, report entries, the report loop).

Facts about the code that the model keeps:
- the code does not check that amounts and prices are positive;
- selling an unheld symbol only takes a "not found" reply branch (`found == false`), with
  no typed error;
- an error from saving the file is caught by the command's `except` branch, so the user is
  told the command failed, while the in-memory change already made stays in place.

## Model

| member | source | states |
|---|---|---|
| `Portfolio.Without` | async_trading_bot.py:130-131 | the kept lots are never of the sold amount and are no more than before |
| `Portfolio.Bought` | async_trading_bot.py:116-118 | after a buy the key exists; its list is the old list (or empty) with exactly the new lot appended; every other key is unchanged |
| `Portfolio.Sold` | async_trading_bot.py:129-137 | an absent symbol leaves the portfolio unchanged; otherwise the symbol's list is filtered and the key is kept exactly when something remains; other keys are unchanged and no key is added |
| `Portfolio.WithoutMembership` | async_trading_bot.py:130-131 | a lot survives a sell exactly when it was held and its amount differs from the sold amount, so every matching lot goes |
| `Portfolio.WithoutConcat` | async_trading_bot.py:130-131 | the filter distributes over concatenation, so the relative order of kept lots is preserved |
| `Portfolio.WithoutNoMatch` | async_trading_bot.py:130-131 | a list with no lot of the sold amount is left unchanged |
| `Portfolio.WithoutIdempotent` | async_trading_bot.py:130-131 | filtering the same amount twice equals filtering it once |
| `Portfolio.BoughtKeepsNoEmptyLists` | async_trading_bot.py:116-118 | buying preserves "no key maps to an empty list" |
| `Portfolio.SoldKeepsNoEmptyLists` | async_trading_bot.py:129-133 | selling preserves "no key maps to an empty list" |
| `Portfolio.SoldIdempotent` | async_trading_bot.py:129-137 | repeating the same `(symbol, amount)` sell changes nothing further |
| `Portfolio.BuyThenSellScenario` | async_trading_bot.py:116-133 | buying 100 BTCUSDT at 50000 on an empty portfolio gives exactly that one lot; selling 100 then deletes the key |
| `Portfolio.PortfolioStore.Empty` | async_trading_bot.py:34-47 | with no saved file the portfolio starts empty and satisfies the invariant |
| `Portfolio.PortfolioStore.Loaded` | async_trading_bot.py:34-37 | the portfolio starts as the saved mapping, and is valid when that mapping has no empty list |
| `Portfolio.PortfolioStore.AddLot` | async_trading_bot.py:116-118 | the new map is `Bought` of the old one: one lot appended under the symbol, other keys unchanged, invariant kept |
| `Portfolio.PortfolioStore.RemoveLots` | async_trading_bot.py:129-137 | `found` is whether the symbol was a key; if not, nothing changes; if so, the list is filtered and the key is deleted when it becomes empty; invariant kept |
| `Portfolio.StoreScenario` | async_trading_bot.py:111-137 | buy then sell of the same amount succeeds, and a second identical sell takes the not-found branch |
| `Signals.Mean` | async_trading_bot.py:56-60 | the mean is defined exactly for non-empty closes, and times their count equals their sum |
| `Signals.SumBounds` | async_trading_bot.py:60 | closes between `lo` and `hi` sum to between `n*lo` and `n*hi` |
| `Signals.QuotientBounds` | async_trading_bot.py:60 | dividing such a sum by the count gives a value between `lo` and `hi` |
| `Signals.MeanWithinBounds` | async_trading_bot.py:59-60 | any bounds on all closes also bound their mean |
| `Signals.MeanBetweenMinAndMax` | async_trading_bot.py:59-60 | the mean lies between the smallest and the largest close |
| `Signals.BuyThresholdIsStrict` | async_trading_bot.py:70 | a price of exactly 85% of the mean gives no BUY; any lower price does |
| `Signals.SellThresholdIsInclusive` | async_trading_bot.py:74 | a price of exactly +25% over a lot's price gives a SELL; any lower price does not |
| `Signals.IsBuy` | async_trading_bot.py:70 | for a positive mean, BUY means the price is more than 15% below the mean; a BUY price is always below a non-negative mean |
| `Signals.IsSell` | async_trading_bot.py:74 | for a positive purchase price, SELL means a gain of at least 25% over it; a SELL price is never below a non-negative purchase price |
| `Signals.SignalsFor` | async_trading_bot.py:70-75 | a BUY is the only notice when it fires; without a BUY there is none; an unheld symbol gets at most the BUY; a held symbol gets no more notices than it has lots |
| `Signals.SellSignals` | async_trading_bot.py:73-75 | there are at most as many notices as lots, and all of them are SELL notices |
| `Signals.SellSignalsAppend` | async_trading_bot.py:73-75 | one more lot adds its notice at the end exactly when it qualifies, so notices follow lot order |
| `Signals.SellSignalsExact` | async_trading_bot.py:73-75 | a SELL notice for a purchase price appears exactly when some lot at that price qualifies |
| `Signals.SellSignalsNone` | async_trading_bot.py:73-75 | there are no notices exactly when no lot qualifies |
| `Signals.SignalsBuy` | async_trading_bot.py:70-75 | a BUY notice appears exactly when `price < avg * 0.85`, and it is then the only notice |
| `Signals.SignalsSell` | async_trading_bot.py:70-75 | a SELL notice appears exactly when there is no BUY, the symbol is held, and one of its lots at that price qualifies |
| `Signals.ProfitPercent` | async_trading_bot.py:105 | defined exactly for a non-zero purchase price; then `current == precio + precio * profit / 100` |
| `Signals.ProfitAtCostAndThreshold` | async_trading_bot.py:105 | for a positive purchase price the profit is 0 at cost and 25 at 1.25 times cost |
| `Signals.ProfitNonNegative` | async_trading_bot.py:105-107 | for a positive purchase price the rising mark (profit >= 0) is shown exactly when `current >= precio` |
| `Signals.ProfitMatchesSell` | async_trading_bot.py:105 | for a positive purchase price the profit reaches 25% exactly when the lot draws a SELL notice |
| `Signals.ProfitScenario` | async_trading_bot.py:105 | bought at 50000, the profit is 0% at 50000 and 25% at 62500 |
| `Analyzer.AnalyzeSymbol` | async_trading_bot.py:66-79 | every entry names the symbol it was computed for |
| `Analyzer.Report` | async_trading_bot.py:63-80 | the report has exactly one entry per symbol |
| `Analyzer.AnalyzeSymbolError` | async_trading_bot.py:66-79 | an entry is an error exactly when the feed failed (carrying its message) or returned no closes (carrying `division by zero`) |
| `Analyzer.AnalyzeSymbolSuccess` | async_trading_bot.py:67-71 | a successful entry carries the spot price, the mean of the closes and the notices of `SignalsFor` for them, with a BUY notice exactly when the price is below 85% of that mean |
| `Analyzer.ReportAt` | async_trading_bot.py:63-80 | entry `i` of the report is the analysis of symbol `i` with its own feed result |
| `Analyzer.ReportSymbols` | async_trading_bot.py:64-80 | the report lists the symbols in the order given |
| `Analyzer.ReportIsolatesFailure` | async_trading_bot.py:65-79 | a failing feed for one symbol makes that entry an error carrying the failure and leaves every other entry unchanged |
| `Analyzer.AnalyzeMarket` | async_trading_bot.py:63-80 | the looping report builder always returns, with one entry per symbol, each the analysis of that symbol and its feed; it equals `Report` |
| `Analyzer.AllFeedsDownScenario` | async_trading_bot.py:63-80 | with every feed failing, the report is one error entry per tracked symbol, in order |

## Left out

- Binance calls (`get_price`, `get_klines`, lines 52-59): network I/O. Their answers are the `FeedResult` input. The limit of seven closes is the exchange's business, so any list of closes is accepted.
- Telegram plumbing: replies, `send_message`, handler registration, the job queue that runs the report every 3600 s after 10 s, and the help and unknown-command lists. These are I/O, framework code and timers.
- JSON persistence (`load_portfolio`, `save_portfolio`): file I/O. `PortfolioStore.Loaded` takes the decoded mapping, and saving after each change is not modelled.
- A failing save (lines 119, 134): the error reply it causes, sent even though the in-memory change of lines 117-118 or 130-133 has already been made, is not modelled; `AddLot` and `RemoveLots` describe the in-memory change only.
- Argument parsing (`float(...replace('$',''))`, `.upper()`) and the `:,.2f` text formatting, including the `"\n\n"` join of the report blocks. The model takes parsed values and returns structured entries.
- The `/cartera` listing loop (lines 97-108): it walks the dictionary in insertion order, calls the exchange per symbol, and has no error handling. Only its profit formula and the rising/falling mark are modelled, in `ProfitPercent` and `ProfitNonNegative`. A map does not keep the dictionary's key order.
- IEEE floating point: prices are exact reals, so rounding at the 0.85 and 1.25 boundaries is not modelled.
- Logging (lines 25-29, 78, 170) and the concurrency between scheduled reports and commands. `AnalyzeMarket` reads a snapshot of the portfolio passed as a parameter.

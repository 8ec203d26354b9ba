# Crypto dashboard: price endpoint, page state and price ticker

A Dafny model of the logic of a small cryptocurrency dashboard.

- **Backend** (`backend.dfy`) models the price endpoint of the API server.
  It checks the coin id against the coin table and then the range against the range table.
  It answers 400 for either error.
  It derives the Binance kline request: the trading pair, the interval and the candle limit.
  It turns the candles into a `{time, price}` history and returns the result only when both Binance replies are 200 and the history is non-empty.
  Anything the fetch raises becomes 503.
  The two Binance calls are function parameters, from the request to the reply.
- **Dashboard** (`dashboard.dfy`) models the page component.
  `ApplyFetch` is the state update for each fetch outcome: a reply with data, a reply with an empty history, or a failure.
  The class `Page` holds the same fields and updates them in place, and its `FetchData` is proved against `ApplyFetch`.
  The theme toggle has a persisted copy of the theme.
  The pure display helpers are the "last updated" text, the change-card label, the tick pattern and the chart palette.
- **PriceTicker** (`price_ticker.dfy`) models the ticker's up/down flash.
  It is a two-field state machine driven by new prices and by its reset timer.
- **Numerals** (`numerals.dfy`) renders naturals in decimal, as the template strings do, and parses them back.
  **Options** (`options.dfy`) holds `Option` and `Result`.

Prices, volumes and percentages are `real`. Times are integer milliseconds.

## Model

| member | source | states |
|---|---|---|
| `Backend.GetPrice` | backend/main.py:46-92 | An unknown coin gives 400 with the coin message, whatever the range. A known coin with an unknown range gives 400 with the range message. Otherwise the fetch for the coin's own pair decides: its result is returned, and anything it raises gives 503. A returned result echoes the coin and range and has a non-empty history. |
| `Backend.GetPriceOutcomes` | backend/main.py:62-92 | The answer is 400 exactly when the coin or the range is unknown. A result is returned exactly when both are known and the fetch succeeds. Every error status is 400 or 503. |
| `Backend.CoinSymbols` | backend/main.py:21-25 | The coin table has exactly bitcoin, ethereum and solana, mapped to BTCUSDT, ETHUSDT and SOLUSDT. |
| `Backend.RangeOrDefault` | backend/main.py:49 | A missing range parameter means 24h; a given one is used as is. |
| `Backend.MissingRangeMeans24h` | backend/main.py:47-74 | A request without a range parameter is answered exactly as one for 24h, and never with the invalid-range 400. |
| `Backend.BinanceInterval` | backend/main.py:100-108 | A known internal interval code maps to its Binance notation. An unknown code falls back to "1h". The result is always a Binance interval of the table. |
| `Backend.Limit` | backend/main.py:110-122 | The if/elif chain always asks for between 12 and 42 candles. |
| `Backend.KlinesQueryFor` | backend/main.py:128-133 | The kline request carries the pair and the mapped interval. Its limit never exceeds 1000 and equals the chain's limit. |
| `Backend.RangeCoverage` | backend/main.py:100-122 | For every configured range of the range table, the interval code is in the interval map, so the fallback is never used. The limit times the interval length equals the range length: 12×5m=1h, 24×15m=6h, 24×1h=24h, 42×4h=7d, 30×1d=30d. Interval lengths are parsed from Binance's notation. Range lengths are read from the table's days and hours. |
| `Backend.History` | backend/main.py:150-156 | One point per candle, in candle order. Each point's time is the candle's open time and its price is the candle's close. |
| `Backend.Volume` | backend/main.py:159 | The 24-hour volume is the ticker's quote volume, or 0 when the field is missing. |
| `Backend.ErrorText` | backend/main.py:172 | The raised text is "Binance returned status " followed by a decimal numeral that reads back as the kline reply's status. |
| `Backend.FetchFromBinance` | backend/main.py:95-172 | A result is returned exactly when both replies arrived with status 200 and the candle list is non-empty. The result carries the coin, the range, source "binance", the history of the candles, the volume, and `data_points` equal to the history length. Otherwise it raises, naming the kline status when both replies arrived. |
| `Numerals.NatToString` | frontend/src/App.jsx:146-148 | The decimal text of a number is non-empty, all digits, with no leading zero. |
| `Numerals.ParseNatToString` | frontend/src/App.jsx:146-148 | Parsing the decimal text of a number gives the number back. |
| `Numerals.NatToStringOfDigits` | frontend/src/App.jsx:146-148 | A digit string without a leading zero is the decimal text of its own value, so the rendering is onto the canonical numerals. |
| `Dashboard.PercentChange` | frontend/src/App.jsx:86-88 | The change in percent is the inverse of applying it: last = first + first × pct / 100. It is 0 exactly when the price did not move. For a positive first price it is positive exactly when the price rose. It requires a non-zero first price. |
| `Dashboard.ApplyFetch` | frontend/src/App.jsx:66-103 | After every fetch, loading is false. The update flag is raised only when loading was already over. A failure leaves data, price, change, volume and timestamp unchanged. A reply replaces the data and sets the timestamp. An empty reply keeps price, change and volume. A non-empty reply sets the price to the last point's price, the change to the percent change from the first, and the volume to the reply's volume or 0. |
| `Dashboard.InitialConsistent` | frontend/src/App.jsx:13-21 | The initial state satisfies the price/data consistency invariant. |
| `Dashboard.ApplyFetchKeepsConsistent` | frontend/src/App.jsx:78-92 | Whenever data is shown, the price and the change are those of that data. Every fetch outcome preserves this. |
| `Dashboard.ApplyFetchRepeatable` | frontend/src/App.jsx:76-92 | Applying the same reply a second time leaves data, statistics, timestamp and loading flag as the first time left them. |
| `Dashboard.TenPercentScenario` | frontend/src/App.jsx:81-91 | A reply with prices 100 then 110 and volume 5e9 shows price 110, change 10 and volume 5e9. |
| `Dashboard.OutcomeOf` | frontend/src/App.jsx:73-77 | An API result reaches the page as a reply with its history and volume. An error status reaches it as a failure. |
| `Dashboard.ApiAnswerUpdatesStats` | frontend/src/App.jsx:72-92 | End to end: after a successful API answer, the page shows the history of the candles Binance returned for the coin's pair, and the close of the last candle as its price. An error answer leaves data, price and change as they were. |
| `Dashboard.Page.constructor` | frontend/src/App.jsx:13-25 | The page starts with no data, no price, zero change and volume, loading, not updating, and the initial theme. |
| `Dashboard.Page.FetchData` | frontend/src/App.jsx:66-103 | The step-by-step handler leaves the state `ApplyFetch` gives and does not touch the theme. |
| `Dashboard.Page.HideUpdateIndicator` | frontend/src/App.jsx:102 | The delayed callback clears the update flag and nothing else. |
| `Dashboard.InitialTheme` | frontend/src/App.jsx:22-25 | The initial theme is the stored value, or dark when nothing or an empty string is stored. |
| `Dashboard.Toggled` | frontend/src/App.jsx:34-35 | A toggle maps dark to light and every other value to dark. |
| `Dashboard.ToggleTwice` | frontend/src/App.jsx:34-35 | Toggling twice restores the theme exactly when it was dark or light. |
| `Dashboard.ToggledThemeSurvivesRemount` | frontend/src/App.jsx:22-37 | After a toggle is persisted, the next mount starts with the toggled theme. |
| `Dashboard.Page.ToggleTheme` | frontend/src/App.jsx:34-39 | The theme becomes the toggled one, the persisted copy equals the new theme, and the fetch state is untouched. |
| `Dashboard.ChartColorsFor` | frontend/src/App.jsx:47-60 | The light palette is chosen exactly for the light theme, and the dark palette otherwise. |
| `Dashboard.ToggleSwitchesPalette` | frontend/src/App.jsx:34-60 | A toggle changes the chart palette exactly when the theme was dark or light. |
| `Dashboard.ElapsedSeconds` | frontend/src/App.jsx:143 | The elapsed whole seconds are the millisecond difference divided by 1000 and rounded down. |
| `Dashboard.FormatLastUpdated` | frontend/src/App.jsx:140-149 | It returns "" before any update, and "Just now" under ten seconds. |
| `Dashboard.LastUpdatedReadsBack` | frontend/src/App.jsx:145-148 | From ten seconds on, the text is a canonical decimal numeral followed by a suffix. Under a minute the suffix is "s ago" and the numeral reads back as the exact seconds. From a minute on the suffix is "m ago" and the numeral reads back as whole minutes m ≥ 1 with 60m ≤ diff < 60m + 60. |
| `Dashboard.ChangeLabel` | frontend/src/App.jsx:151-160 | Each configured range's label is the range in upper case. Any other string gets 24H, except names inherited from Object.prototype (see Left out). |
| `Dashboard.TickPattern` | frontend/src/App.jsx:113-127 | A zero tick gives no text. Otherwise the pattern is HH:mm exactly for 1h, 6h and 24h, and MMM dd for anything else. |
| `Dashboard.TickPatternFollowsRangeLength` | frontend/src/App.jsx:118-126 | For the configured ranges, ticks show clock time exactly when the range spans at most one day. |
| `PriceTicker.Initial` | frontend/src/components/PriceTicker.jsx:5-6 | The ticker starts with the first price and a neutral direction. |
| `PriceTicker.Step` | frontend/src/components/PriceTicker.jsx:8-11 | A higher price sets up and a lower one sets down. The remembered price becomes the new price. The state is unchanged exactly when the price equals the remembered one. |
| `PriceTicker.Settle` | frontend/src/components/PriceTicker.jsx:14-16 | The reset sets the direction to neutral and keeps the remembered price. |
| `PriceTicker.RunRemembersLast` | frontend/src/components/PriceTicker.jsx:9-11 | After any non-empty run of prices the remembered price is the last one. |
| `PriceTicker.RunOfSamePriceIsIdle` | frontend/src/components/PriceTicker.jsx:9 | A run of prices equal to the remembered price changes nothing. |
| `PriceTicker.RunShowsLastChange` | frontend/src/components/PriceTicker.jsx:8-11 | After a run, the direction is that of the last real change: up exactly when that price was higher than the one before it. |
| `PriceTicker.Ticker.constructor` | frontend/src/components/PriceTicker.jsx:5-6 | The component's fields start in the initial state. |
| `PriceTicker.Ticker.OnPrice` | frontend/src/components/PriceTicker.jsx:8-12 | The effect updates the fields in place to the state `Step` gives. |
| `PriceTicker.Ticker.OnResetTimer` | frontend/src/components/PriceTicker.jsx:14-16 | The timer callback updates the fields to the state `Settle` gives. |

## Left out

- HTTP: the `httpx` calls to Binance, the axios call of the page, CORS and server startup are I/O. Binance's replies are function parameters, and the page's reply is a `FetchOutcome` input.
- The health-check endpoint `/` and the `coinInfo` display table are not modelled, because they have no logic.
- Backend.History: the price is the candle's close as a real; the rounding to two decimals through a float is not modelled.
- Backend.FetchFromBinance: a reply body that is not valid JSON, or a candle whose fields do not convert, is not modelled. In the source such an exception also ends in the 503 answer.
- Backend.ErrorText: the text for a transport failure is a placeholder; the source passes on the HTTP library's own message, which is only logged.
- Dashboard.PercentChange, Dashboard.ApplyFetch and Dashboard.Page.FetchData require a non-zero first price. The source divides without a guard, and JavaScript would show Infinity or NaN, which `real` cannot represent.
- Dashboard.FetchOutcome: a reply without a `history` field is not modelled, because the endpoint always sends one. A volume that is missing or null reads as 0, like `|| 0`; NaN is not representable.
- Dashboard.Page.FetchData: `loading` is read when the handler runs. In the source the handler sees the value captured when the effect last ran. The whole handler is applied as one step.
- React scheduling: the 10-second interval, the 800 ms timeout, the extra refetch caused by the `loading` dependency and the ticker's timer cleanup are framework lifecycle. The two timer callbacks are modelled only as events (`HideUpdateIndicator`, `OnResetTimer`).
- Overlapping fetches can be applied out of order. That is asynchronous interleaving, outside this sequential model.
- Dashboard.ApplyFetchKeepsConsistent does not state that price and change always derive from the current history. After a reply with an empty history the page shows no data but keeps the old price and change, so only "whenever data is shown" holds. The endpoint never sends an empty history, so the page never reaches that state through it.
- Dashboard.ChangeLabel: a range equal to a name inherited from Object.prototype (`constructor`, `toString`, `valueOf`, `__proto__`, ...) finds a truthy member of the plain object, so the source returns that member instead of 24H. The model does not capture this. No reachable input hits it: the range starts as 24h and the range selector only sets the five configured ranges.
- Formatting: `toFixed`, `toLocaleString`, the "$X.XXB" volume text, date-fns output and the tooltip label are library formatting. `TickPattern` returns the pattern, not the formatted date.
- The coin and range selectors (`setCoin`, `setTimeRange`) are plain setters that only re-run the effect. The rendering guard that hides a zero price is view logic.
- The DOM `data-theme` attribute is not modelled; the local-storage copy is the field `storedTheme`.

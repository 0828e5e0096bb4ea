# Red pin bar screener — a Dafny model

`redpinbar.py` screens the USDT-margined perpetual futures of an exchange for a
two-bar reversal pattern on the hourly chart: a bullish ("blue") candle
immediately followed by a bearish "red pin bar" that opened below its 21-period
EMA and whose upper wick pierces that EMA. This project models, in Dafny:

- the **pattern detector** (`check_conditions`, `is_red_pin_bar`,
  `is_blue_bar`) as pure predicates over bars with exact `real` prices and an
  EMA21 of type `Option<real>`, where `None` is the NaN the indicator produces
  before warm-up (every comparison against it is false, as in floating point);
- the **symbol universe** filters (status `TRADING`, then tickers ending in
  `USDT`) as pure sequence functions;
- the **scan loop** that runs the per-symbol pipeline inside a catch-all and
  accumulates `qualified_symbols`, as a method with a `for` loop proved against
  the specification function `Scanned`. Fetching the candles and computing
  EMA21 is the parameter `fetch: string -> Option<seq<Bar>>`, `None` standing
  for any exception raised by the request, the decoding or the indicator.

Files: `wrappers.dfy` (Option), `subsequences.dfy` (order-preserving
selection), `pattern_detector.dfy`, `symbol_universe.dfy`,
`scan_orchestrator.dfy`.

Points where the code's behaviour is easy to misread:

- An empty candle series makes `df.index[-1]` (line 91) raise, so the symbol is
  skipped by the `except` (lines 98-99) as a failure; only a one-bar series
  reaches `check_conditions` and is not qualified. The printed result is the
  same either way; `ScanOrchestrator.Evaluate` keeps the two apart.
- The previous bar's EMA21 is never consulted (line 50), so an undefined EMA on
  the previous bar does not prevent a match.
- The universe is a list, not a set (lines 61, 74): both filters keep the
  exchange's listing order, and the suffix filter keeps every occurrence of a
  ticker it keeps (`SymbolUniverse.UsdtSymbols`).
- Worked example: previous bar 100 → 105; last bar open 98, close 95, high
  110, low 94, EMA21 100. Its upper wick is 110 − 98 = 12 by line 39 and it
  matches (`PatternDetector.WorkedExampleMatches`).
- `total_size` (line 38) is computed and never used; it is not modelled.

## Model

| member | source | states |
|---|---|---|
| `PatternDetector.BodySize` | redpinbar.py:37 | the body is never negative and is the open–close distance in one direction or the other |
| `PatternDetector.UpperWick` | redpinbar.py:39 | the upper wick is the high minus the larger of open and close (at most high − open and high − close, equal to one of them) |
| `PatternDetector.LowerWick` | redpinbar.py:40 | the lower wick is the smaller of open and close minus the low |
| `PatternDetector.IsRedPinBar` | redpinbar.py:36-47 | a red pin bar has a defined EMA21 with open < EMA21 < high, and a strictly positive upper wick |
| `PatternDetector.IsBlueBar` | redpinbar.py:49-50 | a blue bar has a positive body and is never a red pin bar |
| `PatternDetector.CheckConditions` | redpinbar.py:30-54 | fewer than two bars never qualify (false, not an error); a match needs a defined EMA21 on the last bar and a strictly bullish previous bar |
| `PatternDetector.RedPinBarClosedForm` | redpinbar.py:36-47 | red pin bar iff EMA21 defined, close < open < EMA21 < high, high − open > open − close and high − open > close − low (all strict) |
| `PatternDetector.CheckConditionsClosedForm` | redpinbar.py:30-54 | the verdict iff at least two bars, previous close > open, and the last bar meets all five strict conditions in raw prices |
| `PatternDetector.UndefinedEmaNeverMatches` | redpinbar.py:43-46 | a last bar whose EMA21 is undefined (NaN before warm-up) never matches, whatever the prices |
| `PatternDetector.WickEqualToBodyNeverMatches` | redpinbar.py:44 | upper wick equal to the body: no match (condition 3 is strict) |
| `PatternDetector.WicksEqualNeverMatches` | redpinbar.py:45 | upper wick equal to the lower wick: no match (condition 4 is strict) |
| `PatternDetector.ZeroUpperWickNeverMatches` | redpinbar.py:39-44 | a bar whose high is the top of its body has upper wick 0 and never matches |
| `PatternDetector.PreviousNotBullishNeverMatches` | redpinbar.py:49-52 | a doji or bearish previous bar rules the pattern out whatever the last bar is |
| `PatternDetector.OnlyLastTwoBarsMatter` | redpinbar.py:31-50 | two series of at least two bars whose last bars agree on open, high, low, close and EMA21 and whose previous bars agree on open and close get the same verdict: earlier bars, length, volume, times and the previous EMA21 do not matter |
| `PatternDetector.PrependingHistoryIrrelevant` | redpinbar.py:31-34 | prepending bars to a series of at least two bars does not change the verdict |
| `PatternDetector.WorkedExampleMatches` | redpinbar.py:36-53 | previous 100 → 105, last open 98 close 95 high 110 low 94 EMA21 100: body 3, upper wick 12, lower wick 1, match |
| `PatternDetector.BearishPreviousExample` | redpinbar.py:49-53 | the same last bar after a bearish bar (100 → 98) does not match |
| `PatternDetector.HighBelowEmaExample` | redpinbar.py:46-53 | a last bar with high 99 under EMA21 100 does not match |
| `SymbolUniverse.TradingSymbols` | redpinbar.py:61 | a ticker is kept iff some listed instrument with that ticker has status exactly TRADING; never longer than the listing |
| `SymbolUniverse.TradingSymbolsInListingOrder` | redpinbar.py:61 | the TRADING tickers are a subsequence of the listing's tickers |
| `SymbolUniverse.UsdtSymbols` | redpinbar.py:74 | a ticker is kept iff it ends in USDT, as many times as it occurs in the input; the result is an order-preserving subsequence of the input |
| `SymbolUniverse.Universe` | redpinbar.py:61-74 | the scanned universe holds exactly the USDT tickers of TRADING instruments, in listing order |
| `ScanOrchestrator.Evaluate` | redpinbar.py:80-99 | a symbol fails iff its fetch fails or its series is empty; it qualifies iff the detector holds on its series, and then with the open time of the last bar |
| `ScanOrchestrator.Recorded` | redpinbar.py:94-97 | one entry, for this symbol with its qualifying bar time, iff it qualifies; nothing otherwise |
| `ScanOrchestrator.Scanned` | redpinbar.py:77-99 | the accumulated list never has more entries than there are symbols |
| `ScanOrchestrator.ScannedSound` | redpinbar.py:79-97 | every reported entry is a scanned symbol that qualifies, with the open time of its qualifying bar |
| `ScanOrchestrator.Scan` | redpinbar.py:77-99 | the loop's accumulated list equals the specification `Scanned` of the symbols in order |
| `ScanOrchestrator.RunScreener` | redpinbar.py:71-99 | the run's result is the scan of the universe; its tickers are a subsequence of the listing's tickers (so it is no longer than the listing and every ticker is listed), each ends in USDT and belongs to a TRADING instrument |
| `ScanOrchestrator.ScannedInOrder` | redpinbar.py:77-99 | the reported tickers are an in-order subsequence of the scanned symbols |
| `ScanOrchestrator.ScannedComplete` | redpinbar.py:79-97 | every scanned symbol that qualifies is reported with its qualifying bar time |
| `ScanOrchestrator.ScannedAppend` | redpinbar.py:79-99 | scanning two lists in turn gives the concatenation of their results: symbols are processed independently |
| `ScanOrchestrator.FailureIsolation` | redpinbar.py:79-99 | making one symbol's fetch fail removes exactly that symbol's entries and leaves every other entry, and their order, unchanged |
| `ScanOrchestrator.MiddleFailureExample` | redpinbar.py:79-99 | with three symbols of which the middle one's fetch fails, the result is what the first and last record on their own |

## Left out

- HTTP requests and JSON decoding in `fetch_klines` and `get_futures_trading_pairs` (lines 8-27, 57-62): network I/O. The listing is the input `listing`, the candle fetch is the parameter `fetch`.
- DataFrame construction, column selection and the float conversion (lines 18-26): library plumbing; bars arrive as values.
- The EMA21 computation of the `ta` library (line 85), a floating-point recurrence with the library's own seeding: each bar carries its EMA21 as an input, `None` where it is NaN.
- IEEE rounding in the body and wick subtractions and NaN prices: prices are exact reals and always defined; only EMA21 may be undefined.
- Timestamps: the current time and the one-day window (lines 67-68), the UTC conversion (line 88) and the display conversion to the local zone (line 96). A qualification carries the bar's UTC open time, the same instant that is displayed.
- The `get_loc` lookup (line 31) is taken to return the last index, which holds when bar times are unique.
- The printing of the results (lines 102-105): console output.
- A failure of the listing request itself ends the program before the scan (line 71); the model starts from a listing that was obtained.

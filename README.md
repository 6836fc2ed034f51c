# StockAnalyzer — a verified model of its decision layer

StockAnalyzer fetches a company overview and a daily price series for a stock
symbol from a financial data provider. It then computes 20-, 50- and 200-entry
moving averages and prints a Buy or Sell recommendation. This project models
the computation and decision layer of `StockAnalyzerProgram/StockAnalyzer.cs`
in Dafny:

- `errors.dfy` (module `StockErrors`): the exceptions the analyzer throws,
  as an `Error` datatype and a `Result` type.
- `moving_average.dfy` (module `MovingAverages`): `CalculateMovingAverage`.
  It is an accumulator loop proved against the closed form `MovingAverage`:
  the sum of the last `period` entries in list order, divided by `period`.
- `responses.dfy` (module `Responses`): the key checks on the provider's
  JSON responses and the two extractions. The current price comes from the
  first series entry. The historical list keeps the closes of the entries
  that have one, in series order. The historical list is built by `GetHistoricalPrices`,
  a loop proved against the filter `Closes`.
- `analysis.dfy` (module `Analysis`): the averages and the verdict
  (`Analyze`), and the whole run of `PerformAnalysis`. The run returns a
  report or the error that stopped it, instead of printing.

A JSON response is a map from keys to values. The OVERVIEW response is a map
of text fields. The TIME_SERIES_DAILY response maps keys to text or to the
series of trading days. The series is kept as a sequence in the provider's
order. Each day holds its numeric fields, which may or may not include
`"4. close"`. A series key holding text, or a series with no entry, has no
first entry to read the current price from (`NoLatestEntry`, a runtime
exception in the source); the historical list walks no entries of a text
value and so comes out empty. C# `decimal` values are Dafny `real`s, so the division is exact.

The three HTTP responses become parameters of the analysis: the overview, the
daily response fetched for the quote, and the daily response fetched for the
history. The source fetches the daily series twice, once in `GetStockInfo`
and once in `GetHistoricalPrices`, so the two may differ. The model keeps them
apart and proves what holds when they are the same (`QuoteHeadsHistory`).

About the window: the calculator averages the *last* `period` entries of the
list in list order. The provider lists the newest day first, so the window
holds the oldest days of the page, not the most recent ones. The model keeps
this behaviour as the code has it. `NewerEntriesIgnored` and
`NewerDaysIgnored` state the consequence. For the list `[1, 2, 3, 4, 5]` with
period 3, the code gives 4.0 (`LastThreeOfFive`).

## Model

| member | source | states |
|---|---|---|
| MovingAverages.Window | StockAnalyzerProgram/StockAnalyzer.cs:64 | the averaged entries are exactly the last `period` entries of the list, in list order |
| MovingAverages.CalculateMovingAverage | StockAnalyzerProgram/StockAnalyzer.cs:60-70 | fails with NotEnoughDataPoints exactly when the list is shorter than the period; otherwise returns the sum of the last `period` entries divided by `period`; the loop keeps the sum of the entries visited so far |
| MovingAverages.SumBounds | StockAnalyzerProgram/StockAnalyzer.cs:63-67 | when every summed entry lies in [lo, hi], the accumulated sum lies in [n·lo, n·hi] |
| MovingAverages.AverageWithinBounds | StockAnalyzerProgram/StockAnalyzer.cs:63-69 | when every window entry lies in [lo, hi], the average exists and lies in [lo, hi] |
| MovingAverages.ConstantWindow | StockAnalyzerProgram/StockAnalyzer.cs:63-69 | a window of entries all equal to c averages to exactly c |
| MovingAverages.OnlyWindowMatters | StockAnalyzerProgram/StockAnalyzer.cs:64-66 | two lists of equal length that agree on the window give the same result, error or value |
| MovingAverages.EarlierEntryIrrelevant | StockAnalyzerProgram/StockAnalyzer.cs:64-66 | overwriting any entry at an index below Count − period leaves the result unchanged |
| MovingAverages.NewerEntriesIgnored | StockAnalyzerProgram/StockAnalyzer.cs:64 | entries put in front of a list long enough for the period never change the average; in a newest-first series these are the newest days |
| MovingAverages.LastThreeOfFive | StockAnalyzerProgram/StockAnalyzer.cs:60-70 | [1, 2, 3, 4, 5] with period 3 averages to 4 |
| Responses.Classify | StockAnalyzerProgram/StockAnalyzer.cs:22-31 | a response with "Information" is a rate-limit error whatever else it holds; otherwise it succeeds exactly when the required key is present, giving that key's value, and fails with the caller's not-found error when it is absent |
| Responses.LatestClose | StockAnalyzerProgram/StockAnalyzer.cs:49-55 | succeeds exactly when the series has a first entry and that entry has a close, giving that close; a series given as text or with no entry is NoLatestEntry; a first entry without a close is ClosingPriceNotFound |
| Responses.GetStockInfo | StockAnalyzerProgram/StockAnalyzer.cs:16-57 | a rate-limited overview fails with RateLimitExceeded whatever the daily response holds; a missing "Name" fails with NameNotFound; with a good overview, a rate-limited daily response fails with RateLimitExceeded and one without "Time Series (Daily)" with TimeSeriesNotFound, and otherwise the error is the one reading the first entry gives; success exactly when both responses pass their checks and the first entry has a close, giving the overview's name and that close |
| Responses.Closes | StockAnalyzerProgram/StockAnalyzer.cs:122-129 | the historical list is never longer than the series |
| Responses.HistoricalPrices | StockAnalyzerProgram/StockAnalyzer.cs:104-131 | a rate-limited response fails with RateLimitExceeded; a missing "Time Series (Daily)" fails with TimeSeriesNotFound; otherwise it succeeds, also for an empty series, one without closes or a text value, and the list is the closes of the entries that have one, at most one price per entry |
| Responses.GetHistoricalPrices | StockAnalyzerProgram/StockAnalyzer.cs:104-131 | the appending loop produces the closes of the entries that have one, in series order, with the same error cases as the checks |
| Responses.ClosesConcat | StockAnalyzerProgram/StockAnalyzer.cs:122-129 | extraction distributes over concatenation of series, so series order is kept |
| Responses.ClosesMembership | StockAnalyzerProgram/StockAnalyzer.cs:122-129 | a price is in the historical list exactly when some entry has it as its close |
| Responses.ClosesAllPresent | StockAnalyzerProgram/StockAnalyzer.cs:122-129 | when every entry has a close, the list has one price per entry, the i-th being the i-th entry's close |
| Responses.FirstEntry | StockAnalyzerProgram/StockAnalyzer.cs:123-128 | the first entry's close, when present, heads the historical list; when absent, the list is that of the remaining entries |
| Responses.QuoteHeadsHistory | StockAnalyzerProgram/StockAnalyzer.cs:49-55 | when the quote succeeds, the historical list of the same daily response is non-empty and starts with the current price |
| Responses.MissingFirstCloseFailsQuoteOnly | StockAnalyzerProgram/StockAnalyzer.cs:50-53 | a first entry without a close makes the quote fail with ClosingPriceNotFound while the historical list of the same response succeeds and skips it |
| Analysis.Recommend | StockAnalyzerProgram/StockAnalyzer.cs:89-96 | Buy exactly when the current price is strictly above the 20-entry average |
| Analysis.Analyze | StockAnalyzerProgram/StockAnalyzer.cs:79-96 | succeeds exactly when there are at least 200 prices, otherwise NotEnoughDataPoints; the three averages are those of the last 20, 50 and 200 entries; Buy exactly when the current price exceeds the 20-entry average |
| Analysis.AllOrNothing | StockAnalyzerProgram/StockAnalyzer.cs:79-87 | with 50 to 199 prices the 20- and 50-entry averages exist but the analysis still fails as a whole |
| Analysis.EqualPriceSells | StockAnalyzerProgram/StockAnalyzer.cs:89-96 | a current price equal to the 20-entry average gives Sell |
| Analysis.FlatHistory | StockAnalyzerProgram/StockAnalyzer.cs:79-96 | when the last 200 prices all equal c, every average is c and the verdict compares the current price with c |
| Analysis.NewerDaysIgnored | StockAnalyzerProgram/StockAnalyzer.cs:79-81 | prices put in front of a list of at least 200 never change the analysis |
| Analysis.AnalysisReport | StockAnalyzerProgram/StockAnalyzer.cs:72-97 | a failing quote ends the analysis with its error whatever the history holds, so a rate-limited overview gives RateLimitExceeded; a report exists exactly when the quote and history succeed and the history has at least 200 prices; a good quote with a failing history gives the history's error, and fewer than 200 prices give NotEnoughDataPoints; a report carries the overview's name, the quoted price and the averages and verdict `Analyze` computes from the history, so Buy exactly when that price exceeds the 20-entry average of the history |
| Analysis.PerformAnalysis | StockAnalyzerProgram/StockAnalyzer.cs:72-102 | running the quote, the history and the three calculator calls in sequence gives exactly the report or the first error |

## Left out

- HTTP requests, URL building and the HTTP client: network I/O. The responses are parameters.
- JSON parsing and Newtonsoft's token navigation: a foreign library. Responses are maps, and the daily series is a sequence of entries.
- Parsing of close strings into `decimal`: library parsing. Each day holds already-parsed numbers, so a close that fails to parse is not modelled.
- The precision, rounding and overflow of C# `decimal`: the model divides and adds exactly over `real`.
- A "Name" field that is not text, and a day record that is not an object: the model's types do not hold these shapes.
- Console output and exception messages: the model returns `Result` values instead. `PerformAnalysis` returns the error that the source prints and swallows in its catch-all handler.
- The blocking wait on asynchronous calls: it is plumbing and has no logic.
- `period <= 0`: the source does not guard it (0 divides by zero, a negative period averages nothing to 0). `CalculateMovingAverage` and `MovingAverage` require `period >= 1`; the analyzer only uses 20, 50 and 200.
- The constructor and its API key: they only feed the URLs.

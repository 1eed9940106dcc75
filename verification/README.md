# Stock analysis service: fetch tool, response cache and analyze endpoints

This project models the core of a small stock-analysis web service. The service
fetches a market snapshot for a ticker symbol from a data provider, has two LLM
stages turn it into a written report, caches the report for ten minutes per
upper-cased symbol, and serves it through two `POST` endpoints.

Three parts are modelled.

- **The fetch tool** (`YFinanceStockTool._run`).
  - One attempt (`MarketData.RunAttempt`) turns the provider's answers into a
    `Snapshot`. It also covers:
    - the empty-history message;
    - the future-year clamp on dates, which raises for 29 February moved into a
      non-leap year;
    - the percent change against the previous close, or against the bar's own
      open when there is only one bar;
    - the 52-week high and low with their dates, and the close's position in
      that range;
    - the quarterly revenue and net income;
    - the dividend yield;
    - the 09:30–16:00 market-open rule.
  - The retry loop is the method `FetchTool.Run`. It is proved against the
    recursive specification `FetchTool.Fetch`. It makes at most three attempts
    and retries only on an exception whose text contains "429", and only when
    that is not the last attempt. Its trailing "after 3 attempts" return is
    proved unreachable.
- **The response cache** (`analyze_stock`). It is a class, `AnalysisCache.Cache`,
  holding the cache dictionary as a `map` field. Its method `AnalyzeStock`:
  - deletes the entry on a forced refresh;
  - serves an entry strictly younger than 600 seconds;
  - otherwise fetches, parses, runs both stages and post-processes the report;
  - stores `(start time, report, data)` only on success;
  - turns any failure into a 500 "Error analyzing stock: …".

  The method is specified by the function `AnalysisCache.AnalyzeOutcome`, and
  the cache's properties are lemmas about that function. The report
  post-processing (`Report.PostProcess`) replaces the four date placeholders in
  order. It is proved to leave none of them behind.
- **The two analyze endpoints** (`Endpoints.AnalyzeEndpoint`,
  `Endpoints.AnalyzeDirect`). Both strip and upper-case the symbol and refuse a
  blank one. Any error goes through their own `except Exception` clause, so it
  reaches the client as a 500 whose detail quotes the original error.

These are inputs rather than computations:
- the provider's answers (one `Attempt` per possible try);
- the clock (current year, local time of day, the timestamp text);
- the call's start time `now`;
- the outcome of each LLM stage;
- the date the writer chain reads.

Numbers are Python floats, written as `real`.

Three points where the code behaves differently from what a reader of its
comments and messages might expect are modelled as the code has them:
- A cache entry is timestamped with the time read at the start of the call
  (`api.py:237`, stored at `api.py:276`), not at the end of the computation.
- A blank symbol does not produce a 400. The `HTTPException(400)` raised at
  `api.py:296` and `api.py:324` is caught by the handler's own
  `except Exception`, so the client receives a 500 whose detail is
  "Error analyzing stock: 400: Stock symbol is required"
  (`Endpoints.BlankSymbolIsServerError`).
- The same clause wraps the 500 raised by `analyze_stock` a second time. Its
  detail then reads "Error analyzing stock: 500: Error analyzing stock: …"
  (`Endpoints.AnalysisFailureIsWrappedTwice`).

Files:
- `wrappers.dfy`: `Option` and `Result`.
- `strings.dfy`: the Python string operations used.
- `market_data.dfy`: one attempt of the fetch tool.
- `fetch_tool.dfy`: the retry loop.
- `report.dfy`: the report date and placeholder replacement.
- `analysis_cache.dfy`: the cache.
- `endpoints.dfy`: the endpoints.

## Model

| member | source | states |
|---|---|---|
| Strings.Strip | api.py:293 | `str.strip()`: the result is the part of the input between a run of leading and a run of trailing whitespace (Python's `isspace` set), so only surrounding whitespace is removed. It is empty exactly when every character is whitespace, and otherwise neither starts nor ends with whitespace. |
| Strings.SurroundedRunIsStrip | api.py:293 | A non-empty run with only whitespace around it, whose own first and last characters are not whitespace, is exactly `strip()` of the text: the characterisation in `Strip`'s contract has one answer. |
| Strings.Upper | api.py:236 | `str.upper()`: same length; every character is the upper-case form of the one at its position. |
| Strings.UpperIdempotent | api.py:293 | Upper-casing an upper-cased symbol changes nothing, so the endpoint's symbol and the cache key agree. |
| Strings.ReplaceAll | api.py:270-273 | `s.replace(pat, rep)`: a text in which `pat` does not occur comes back unchanged. |
| Strings.ReplaceAllAvoids | api.py:270-273 | After `s.replace(pat, rep)`, a text `q` is absent in either case: `q` is `pat`, or `q` was absent before. This needs `rep` to hold neither end character of `q` and to have a character `q` lacks. |
| Strings.ReplaceAllIntroduces | api.py:270 | If `pat` occurs in `s`, then `rep` occurs in `s.replace(pat, rep)`. |
| Strings.ReplaceAllKeeps | api.py:271-273 | `s.replace(pat, rep)` keeps every occurrence of a text that cannot overlap `pat`. |
| MarketData.ClampYear | tools/financial_tools.py:48-54 | A date in a year after the current one moves into the current year, keeping month and day. A date not in the future is unchanged. It fails exactly when that day does not exist in the current year. |
| MarketData.ClampYearFailsOnlyOnLeapDay | tools/financial_tools.py:52 | The clamp fails only for 29 February moved into a non-leap year. |
| MarketData.ClampYearIdempotent | tools/financial_tools.py:81-82 | Clamping an already clamped date changes nothing. |
| MarketData.InfoGet | tools/financial_tools.py:128 | `info.get(key, "N/A")`: the stored value when the key is present, "N/A" otherwise. |
| MarketData.HighestBar | tools/financial_tools.py:74-78 | `idxmax` of the highs: no bar is higher, and no earlier bar is equally high. |
| MarketData.LowestBar | tools/financial_tools.py:75-86 | `idxmin` of the lows: no bar is lower, and no earlier bar is equally low. |
| MarketData.PercentChange | tools/financial_tools.py:59-64 | The change times the base equals (close − base) × 100, where the base is the previous close, or the bar's own open for a single bar. It raises exactly when the base is zero. |
| MarketData.PercentChangeUsesLastTwoBars | tools/financial_tools.py:60-62 | With two or more bars, earlier bars never affect the change. |
| MarketData.PercentChangeOfLoneBar | tools/financial_tools.py:63-64 | A lone bar is measured against its own open. |
| MarketData.PercentChangeSign | tools/financial_tools.py:62 | For a positive base, the change is positive exactly when the close rose, and zero exactly when it is unchanged. |
| MarketData.RangePosition | tools/financial_tools.py:112-120 | The result is a number exactly when both bounds are numbers and differ, and then equals (close − low) / (high − low) × 100. In every other case it is "N/A". |
| MarketData.RangePositionWithinRange | tools/financial_tools.py:115 | A close inside a non-empty range sits between 0 and 100 percent. |
| MarketData.Status | tools/financial_tools.py:137 | "Market Open" exactly from 09:30 to 16:00, both ends included. |
| MarketData.StatusAtBoundaries | tools/financial_tools.py:137 | 09:30 and 16:00 are open; one microsecond outside is closed. |
| MarketData.StatementFigures | tools/financial_tools.py:100-110 | Revenue (and net income) is a number exactly when the statements exist, are not empty and have that row, and is then the latest quarter's value. It is "N/A" otherwise, including when reading them raises. |
| MarketData.DividendYield | tools/financial_tools.py:154 | "N/A" when the yield is absent or None, the value × 100 when it is numeric, and an error exactly when it is a string. |
| MarketData.CopiedInfo | tools/financial_tools.py:128-170 | Exactly the fourteen copied metadata keys, each with its value or "N/A". |
| MarketData.YearFigures | tools/financial_tools.py:72-96 | With 1-year bars: the high is the High of the `idxmax` bar and the low the Low of the `idxmin` bar, so they bound every bar. Their dates are those bars' dates with the year clamped, and the position is `RangePosition` of the close in that range. It fails exactly when one of the two clamps fails, and then with the clamp's message. Without bars: the metadata bounds with "N/A" dates and their position. |
| MarketData.RunAttempt | tools/financial_tools.py:25-174 | A provider exception raises its own message. The "no recent data" message comes back exactly when the 1-month history is empty. Otherwise the steps fail in source order, each with its own message: a date clamp that fails raises "day is out of range for month"; then a zero base raises "float division by zero"; then a failing 1-year request raises its own exception text (so a rate-limited one stays retryable); then a failing 52-week date clamp raises "day is out of range for month"; then a string dividend yield raises the format error. When no step fails, the attempt returns a snapshot. That snapshot carries the clock's timestamp, the last bar with its clamped date, the percent change and the market status, the 52-week figures, the statement figures, the dividend yield and the copied metadata. |
| MarketData.Message | tools/financial_tools.py:182-184 | The three text results (the no-data message of line 66, the error message and the rate-limit message) start with "No", "E" or "F", a character at which no JSON value can start. |
| MarketData.SnapshotDateIsClampedLatest | tools/financial_tools.py:48-54 | The snapshot's date keeps the latest bar's month and day, and its year is the smaller of that bar's year and the current year. |
| MarketData.EmptyMonthIgnoresLaterRequests | tools/financial_tools.py:65-66 | An empty 1-month history returns the message whatever the later requests would answer. |
| FetchTool.Run | tools/financial_tools.py:20-184 | The loop returns `Fetch` and makes 1 to 3 attempts. Every attempt before the last raised an error containing "429" and was not the final attempt. The last attempt did not qualify for a retry, and the result is what it returned or its error message. |
| FetchTool.FetchFrom | tools/financial_tools.py:176-184 | From any attempt before the third, the result is a snapshot, the no-data message or an error message. An error message quotes the exception of one of the remaining attempts. |
| FetchTool.Fetch | tools/financial_tools.py:20-184 | The "after 3 attempts" message is never the tool's result. A snapshot or no-data result is what one of the three attempts returned, and an error message names the requested symbol. |
| FetchTool.FetchSettlesAtFirstNonRetryable | tools/financial_tools.py:176-182 | The result is decided by the first attempt that does not raise a retryable error. |
| FetchTool.OtherErrorIsNotRetried | tools/financial_tools.py:181-182 | An exception without "429" is reported at once, whatever later attempts would answer. |
| FetchTool.RateLimitedThreeTimes | tools/financial_tools.py:177 | After three rate-limited attempts, the third error is reported and there is no fourth attempt. |
| FetchTool.EmptyHistoryIsFinal | tools/financial_tools.py:65-66 | An empty history on the first attempt gives the no-data message without retrying. |
| Report.LongDate | api.py:168 | The `%B %d, %Y` date starts with the month's name and a space, has no brackets, and has a digit. |
| Report.PostProcess | api.py:269-273 | After the four replacements with a date that has no brackets and has a digit, none of the four placeholders occurs in the report. A report without placeholders is returned unchanged. |
| Report.PostProcessFillsInsertDate | api.py:270 | A report containing "[Insert Date]" comes out containing the date. |
| AnalysisCache.AnalysisFailure | api.py:280-281 | Any failure inside `analyze_stock` becomes a 500 error whose detail is "Error analyzing stock: " followed by the failure's message. |
| AnalysisCache.ParseToolOutput | api.py:255 | `json.loads` succeeds exactly on a snapshot and returns it. Each of the tool's plain-text messages is refused at its first character, which no JSON value can start with, so it fails with the decoder's "line 1 column 1 (char 0)" message. |
| AnalysisCache.Compute | api.py:251-278 | Succeeds exactly when the tool produced a snapshot and both LLM stages completed. It then returns that snapshot and the post-processed writer text, which has no placeholder left. Otherwise the message is the decoder's when there is no snapshot, else the agent's exception, else the writer's. |
| AnalysisCache.CacheHitIffUnexpired | api.py:244-249 | The work is skipped exactly when the call is not forced and the entry is younger than 600 seconds. The entry is then served as stored and the cache is untouched. |
| AnalysisCache.ComputedCallStoresOnlySuccess | api.py:275-281 | A computing call stores (start time, report, data) and answers with it on success. On failure it stores nothing, keeps a forced deletion, and answers with a 500. |
| AnalysisCache.ForcedCallAlwaysComputes | api.py:239-242 | A forced call always runs the work. A forced call that fails leaves no entry for the symbol. |
| AnalysisCache.OtherKeysUnchanged | api.py:234-281 | Entries under every other key are left exactly as they were. |
| AnalysisCache.CaseInsensitiveHit | api.py:236 | Symbols differing only in letter case get the same cached answer. |
| AnalysisCache.RepeatWithinExpiryIsServed | api.py:244-249 | An unforced repeat within 600 seconds of a successful computation is served from the cache, with the same report and data. |
| AnalysisCache.AnalyzeKeepsInvariant | api.py:234-281 | Every call keeps keys upper-case and cached reports free of placeholders. Every report returned is free of placeholders. |
| AnalysisCache.Cache.constructor | api.py:70 | The cache starts empty. |
| AnalysisCache.Cache.AnalyzeStock | api.py:234-281 | The new cache contents and the answer are those of `AnalyzeOutcome` on the old contents. The work counter grows by one exactly when the call computed. |
| Endpoints.NormalizeSymbol | api.py:293 | `strip().upper()`: the upper-cased form of a run of the raw symbol with only whitespace around it and no whitespace at its own ends, which by `Strings.SurroundedRunIsStrip` is `strip()` of it. The result itself neither starts nor ends with whitespace, is empty exactly when the raw symbol is whitespace only, and is already upper-case. |
| Endpoints.Describe | api.py:306-308 | `str()` of the 400 and the 500 HTTP errors is the status digits, a colon and a space, then the detail. |
| Endpoints.Rewrap | api.py:306-308 | The endpoint's `except Exception` turns any error into a 500 whose detail is "Error analyzing stock: " followed by the status and the detail of the original error. |
| Endpoints.Validate | api.py:293-296 | A blank symbol is refused with the re-wrapped 400. Any other symbol is accepted, normalised, non-empty and upper-case. |
| Endpoints.Respond | api.py:299-308 | A success answers with the symbol, report and data. An error from `analyze_stock` is re-wrapped as a 500. |
| Endpoints.AnalyzeEndpoint | api.py:288-308 | A blank symbol leaves the cache and work counter untouched and answers with the refusal. Any other symbol runs `analyze_stock` on the normalised symbol and answers through `Respond`. |
| Endpoints.ReadBody | api.py:318-319 | A body that is not an object, or a `symbol` that is not a string, gives the 500 quoting the AttributeError for `get` or `strip`. Otherwise the symbol is the field's text, or "" when absent, and the refresh flag is the truthiness of `force_refresh`, false when absent. |
| Endpoints.ForceRefreshByTruthiness | api.py:319 | A `force_refresh` of "false" forces a refresh; 0, null or an absent field does not. |
| Endpoints.AnalyzeDirect | api.py:310-337 | A body refused by `ReadBody`, or a blank symbol, leaves the cache and work counter untouched and answers with that 500. Any other body runs `analyze_stock` on the normalised symbol with the truthiness of `force_refresh`, and answers through `Respond`. |
| Endpoints.BlankSymbolIsServerError | api.py:295-308 | A blank symbol reaches the client as status 500 with detail "Error analyzing stock: 400: Stock symbol is required". |
| Endpoints.AnalysisFailureIsWrappedTwice | api.py:335-337 | A failure inside `analyze_stock` reaches the client as a 500 whose detail is "Error analyzing stock: 500: Error analyzing stock: " followed by the failure's message. |

## Left out

- Network access to the market-data provider. Each attempt's answers are an `Attempt` input.
- `time.sleep` and the random jitter between and after attempts. They do not affect results.
- Logging (`print`).
- The LLM agent, the writer chain and their prompt texts. Each stage is an input that completes with a text or raises.
- `datetime.now()` and `time.time()`. They are the `Clock`, `now` and `today` inputs, and one clock reading serves a whole fetch.
- The fallback to today's date when the latest bar's index is not a date (tools/financial_tools.py:55-57). Bars here always carry a calendar date.
- MarketData.PercentChange: a zero base is treated as Python float division, which raises ZeroDivisionError. The provider's NumPy values would give inf or nan instead.
- MarketData.RangePosition: for an empty range, the same Python float semantics apply, so the result is "N/A". NumPy values would give nan or inf text.
- NaN values in price histories. Bars are real numbers.
- Rounding to two decimals, the `%`-suffixed percent strings, the `%Y-%m-%d` date strings and the JSON layout. The snapshot keeps unrounded values and structured dates.
- Metadata values other than numbers, strings and None, such as booleans and lists.
- Strings.Upper: maps only the ASCII letters; Python's full Unicode upper-casing (including characters that expand) is not modelled.
- A `/analyze2` body that is not valid JSON. `request.json()` raises inside the handler and the client gets a 500; the model starts from the parsed body.
- Report.LongDate: `%B` is written with the English month names; a different C locale would change the names.
- The request-model validation of `/analyze` (a 422 on a malformed body).
- `GET /`, `GET /stock/{symbol}/data`, `GET /stock/{symbol}/report`, the interactive UI and the environment loading at startup. They are not part of this model.
- Concurrent requests racing on the cache dictionary. Calls are modelled one at a time.

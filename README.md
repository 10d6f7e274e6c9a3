# Pullback scan — a Dafny model

This project models the core of a pullback scanner for Japanese equities (`scan.js`).
For each ticker in a configured watchlist, the scanner takes the daily closing prices and volumes.
It computes a simple moving average (SMA), an exponential moving average (EMA), Wilder's RSI(14)
and MACD with a signal line and a histogram.
It scores four factors: the close is near its 25-day average, RSI is in the 28..45 band,
the MACD histogram is positive, and volume is not thin. A ticker with 3 or more of 4 is a hit.
The hits become the lines of a notification body.

Files, one module per component of `scan.js`:

- `wrappers.dfy` (`Wrappers`): `Option`. `None` stands for JavaScript's `null`, `undefined` and `NaN`.
- `averages.dfy` (`Averages`): `sma` and `ema`.
- `rsi.dfy` (`Rsi`): `rsi14`.
- `macd.dfy` (`MacdIndicator`): `macd`.
- `judgment.dfy` (`Judgment`): the derived object `fetchDaily` returns, and `judge`.
- `text.dfy` (`Text`): `split` and `join` with a one-character separator.
- `watchlist.dfy` (`Watchlist`): parsing the `WATCHLIST` setting.
- `scanner.dfy` (`Scanner`): the per-ticker loop in `handler`, the hit filter and the report lines.

Prices and volumes are exact `real`s. The loops of the source are methods:
`Ema`, `Rsi14`, `Macd`, `ScanTickers` and `BuildLines`.
The handler's `try` body (`EvaluateTicker`) and the handler itself (`Scan`) are methods that call them.
Each method is proved equal to a specification function, and the properties are proved about those functions.
The pure expressions are functions: `sma`, `judge`, the `split`/`map`/`filter` chain and the hit filter.

Inputs the model takes as parameters:

- the price supplier `fetch: (nat, string) -> Fetched`. It stands for the HTTP part of `fetchDaily`.
  `fetch(i, sym)` is the answer to the `i`-th call, so two calls for the same ticker may differ.
  It yields the null-filtered closes and volumes, or an error description.
- the timestamp string of the header.
- the number renderer `toFixed`.

Behaviour of the code worth knowing:

- A flat series gives RSI `100 - 100/101` (about 99.01), not 50.
  When the average loss is 0, `rs` is set to 100 (`Rsi.NonFallingSaturates`).
  So a flat, non-negative history scores 2 of 4 and does not pass (`Judgment.FlatSeriesScoresTwo`).
- Over exact reals, RSI lies in `[0, 100)` and never reaches 100.
- Closes and volumes are null-filtered separately, so they need not have the same length or be index-aligned.
  The model keeps them as two independent sequences.
- An empty close series is not an error in the code. The snapshot then has no close and no
  close averages, so `near25` fails.
  `volAvg20` depends only on the volumes. It is `NaN` only when the volume series is empty (scan.js:62).
  `NaN` is falsy, so `volOK` then holds.
  The model represents these missing values with `None` and evaluates such a ticker.
  A missing value renders as `undefined` in a report line, except a missing `sma25`, which renders as `NaN`.
- A setting made only of commas and spaces gives an empty watchlist, not the default one
  (`Watchlist.BlankSettingScansNothing`).

## Model

| member | source | states |
|---|---|---|
| `Averages.Last` | scan.js:5 | `slice(-n)` keeps the last `n` elements, or all of them when there are fewer, as a suffix of `s` |
| `Averages.Sma` | scan.js:5 | for `n` from 1 to the length of `s`, `sma(s, n)` lies between the minimum and the maximum of the last `n` elements |
| `Averages.SmaWithin` | scan.js:5 | for `n` from 1 to the length of `s`, `sma(s, n)` lies between any lower and upper bound of the last `n` elements |
| `Averages.SmaConstant` | scan.js:5 | for `n` from 1 to the length of the series, the SMA of a constant series is that constant |
| `Averages.SmaRoll` | scan.js:5 | appending `x` moves the SMA by `(x - dropped)/n`: the window of the last `n` elements slides by one |
| `Averages.SmaUnclampedUnderestimates` | scan.js:5 | `sma` divides by `n`, not by the slice length: for `n` above the length `L`, a positive constant series `c` averages to `L*c/n`, below `c`, which is why callers clamp `n` |
| `Averages.Alpha` | scan.js:7 | `k = 2/(n+1)` lies in `(0, 1]` for `n >= 1` |
| `Averages.EmaOf` | scan.js:8-10 | with `k` in `[0, 1]`, the recurrence `e = x*k + e*(1-k)` seeded with the first element never leaves any range that holds the whole series |
| `Averages.EmaValue` | scan.js:6-11 | `ema(arr, n)` lies between the minimum and the maximum of `arr` |
| `Averages.Ema` | scan.js:6-11 | the loop returns the EMA seeded with `arr[0]`, each later element `x` giving `x*k + e*(1-k)`; a one-element array returns `arr[0]` |
| `Averages.EmaWithin` | scan.js:6-11 | the EMA stays between any lower and upper bound of the series |
| `Averages.EmaConstant` | scan.js:6-11 | the EMA of a constant series is that constant |
| `Rsi.GainSum` | scan.js:15-19 | the first loop's `gains` over the changes 1..j is non-negative; a zero change counts as a gain |
| `Rsi.LossSum` | scan.js:15-19 | the first loop's `losses` over the changes 1..j is non-negative |
| `Rsi.Smoothed` | scan.js:20-25 | the initial averages are `gains/14` and `losses/14`; each later step is `(avg*13 + max(±diff, 0))/14`; both averages stay non-negative |
| `Rsi.Index` | scan.js:26-27 | `100 - 100/(1+rs)` with the `rs = 100` policy lies in `[0, 100)`; it is 0 when there are losses and no gains, and `100 - 100/101` when the average loss is 0 |
| `Rsi.RsiValue` | scan.js:12-28 | `null` exactly when there are fewer than 15 closes; otherwise a value in `[0, 100)` |
| `Rsi.Rsi14` | scan.js:12-28 | the two accumulation loops and the smoothing loop return `RsiValue(closes)` |
| `Rsi.AverageLossZero` | scan.js:15-25 | the smoothed average loss is exactly 0 iff no close up to that point fell below its predecessor |
| `Rsi.SaturatedWhenNoLoss` | scan.js:26-27 | whenever the average loss is 0, RSI is exactly `100 - 100/101` |
| `Rsi.NonFallingSaturates` | scan.js:12-28 | a series that never falls, a flat one included, gives `100 - 100/101`, not 50 |
| `MacdIndicator.MacdLine` | scan.js:31-33 | `ema12 - ema26` is at most the spread (maximum minus minimum) of the series, in either direction |
| `MacdIndicator.PrefixSeries` | scan.js:35-39 | the prefix loop builds exactly 35 MACD values |
| `MacdIndicator.MacdValue` | scan.js:29-42 | MACD, signal and histogram are each `null` exactly when there are fewer than 35 closes |
| `MacdIndicator.Macd` | scan.js:29-42 | the method with the prefix loop returns `MacdValue(closes)` |
| `MacdIndicator.HistogramIsDifference` | scan.js:31-41 | the last prefix value is `m = ema12 - ema26` of the whole series, and `hist == m - s` exactly |
| `MacdIndicator.SignalWithinPrefixSeries` | scan.js:40 | the signal lies within the range of the 35 prefix MACD values |
| `MacdIndicator.FlatIsZero` | scan.js:29-42 | on a flat series of 35 or more closes, MACD, signal and histogram are all 0 |
| `Judgment.LastOf` | scan.js:56 | `.at(-1)` is the last element, and `undefined` exactly for an empty series |
| `Judgment.ClampedSma` | scan.js:59-62 | `sma(s, Math.min(n, s.length))` is defined exactly when the series is non-empty (`0/0` otherwise); it lies between the minimum and the maximum of the series, and on a series of at most `n` elements it is the true mean |
| `Judgment.SnapshotOf` | scan.js:55-63 | the snapshot keeps both filtered series; `close` and `vol` are their last elements; `sma25` and `sma75` exist exactly when there are closes and lie in the range of the closes; `volAvg20` exists exactly when there are volumes and lies in the range of the volumes |
| `Judgment.Assess` | scan.js:70-76 | `near25` iff `0.98*sma25 <= close <= 1.02*sma25`; `rsiZone` iff RSI is not `null` and in `[28, 45]`; `macdUp` iff MACD, signal and histogram are defined and `hist > 0`; `volOK` iff `volAvg20` is missing or 0, or `vol >= 0.9*volAvg20`; `score` counts the true factors, `score <= 4`; `pass` iff `score >= 3` |
| `Judgment.Judge` | scan.js:67-77 | `score <= 4` and `pass` iff `score >= 3`; with at most 14 closes `rsiZone` fails, below 35 closes `macdUp` fails, and a passing ticker has at least 15 closes |
| `Judgment.CountFour` | scan.js:74 | `filter(Boolean).length` of the four factors is the sum of their 0/1 points |
| `Judgment.PassIffAtMostOneFails` | scan.js:74-75 | a ticker passes iff at most one factor fails |
| `Judgment.ShortHistory` | scan.js:67-75 | below 35 closes `macdUp` fails, so passing needs the other three factors; below 15 closes `rsiZone` fails too, and the ticker cannot pass |
| `Judgment.FlatSnapshot` | scan.js:55-63 | on a flat history the close equals `sma25`, and the last volume equals `volAvg20` |
| `Judgment.FlatIndicators` | scan.js:12-42 | on a flat history RSI is `null` or `100 - 100/101`, and the histogram is `null` or 0 |
| `Judgment.FlatSeriesScoresTwo` | scan.js:55-77 | a flat non-negative price history with flat non-negative volumes has `near25` and `volOK`, lacks `rsiZone` and `macdUp`, scores 2 and does not pass |
| `Text.Split` | scan.js:2 | `split(",")` yields at least one piece, and no piece contains the separator |
| `Text.SplitJoin` | scan.js:2 | joining the pieces of a split back with the separator gives the input |
| `Text.SplitAtSeparator` | scan.js:2 | the pieces of `a + sep + b` are the pieces of `a` followed by those of `b` |
| `Text.SplitWithoutSeparator` | scan.js:2 | text without the separator is a single piece |
| `Text.Join` | scan.js:113 | `join` of one line is that line, and the joined text always starts with the first line |
| `Text.JoinSplit` | scan.js:113 | lines without the separator, joined and split again, come back unchanged: the body can be read back into its lines |
| `Watchlist.Configured` | scan.js:2 | an unset or empty setting is replaced by `"6758.T,9432.T,7203.T"`; any other setting is used as it is; the result is never empty |
| `Watchlist.Leading` | scan.js:2 | `trim`'s leading cut: exactly the maximal whitespace prefix |
| `Watchlist.Trailing` | scan.js:2 | `trim`'s trailing cut: exactly the maximal whitespace suffix |
| `Watchlist.Trim` | scan.js:2 | `trim` yields a string that neither starts nor ends with whitespace and is no longer than its input |
| `Watchlist.TrimSpec` | scan.js:2 | `trim(s)` is an infix of `s` with only whitespace before and after it |
| `Watchlist.TrimFixesTrimmed` | scan.js:2 | `trim` leaves a trimmed string unchanged |
| `Watchlist.TrimIdempotent` | scan.js:2 | trimming twice is trimming once |
| `Watchlist.TrimBlank` | scan.js:2 | an all-whitespace piece trims to the empty string |
| `Watchlist.TrimEach` | scan.js:2 | `map(s => s.trim())` trims each piece in place, keeping the length |
| `Watchlist.DropEmpty` | scan.js:88 | `filter(Boolean)` keeps only non-empty pieces, each taken from the input, and keeps every non-empty piece of the input |
| `Watchlist.DropEmptyAppend` | scan.js:88 | `filter(Boolean)` works piece by piece: it distributes over concatenation, so it keeps order |
| `Watchlist.Parse` | scan.js:2 | every ticker parsed is non-empty, comma-free and trimmed |
| `Watchlist.Tickers` | scan.js:88 | every ticker scanned is non-empty, comma-free and trimmed; an unset or empty setting scans the default list, any other the setting's own tickers |
| `Watchlist.ParseJoin` | scan.js:2 | plain tickers joined with commas parse back to the same list, duplicates and order included |
| `Watchlist.ParseAtComma` | scan.js:2 | the tickers of `a,b` are those of `a` followed by those of `b`: order and duplicates are kept |
| `Watchlist.SingleTicker` | scan.js:2 | comma-free text is one ticker (its trim), or none when it is blank |
| `Watchlist.PlainTicker` | scan.js:2 | comma-free, trimmed, non-empty text is exactly one ticker |
| `Watchlist.DefaultTickers` | scan.js:2 | an unset or empty setting scans `["6758.T", "9432.T", "7203.T"]` |
| `Watchlist.BlankSettingScansNothing` | scan.js:2 | a non-empty setting of only commas and whitespace scans no ticker and does not fall back to the default |
| `Scanner.Evaluate` | scan.js:91-97 | the entry for a ticker carries that ticker; it is an error entry, carrying the fetch's error, exactly when the fetch failed; otherwise it holds the snapshot of the fetched series and the judgment `judge` gives that snapshot |
| `Scanner.EvaluateTicker` | scan.js:91-97 | the `try` body (snapshot, `rsi14`, `macd`, judgment) or the `catch` yields `Evaluate(sym, answer)` |
| `Scanner.ScanTickers` | scan.js:88-98 | `results` has exactly one entry per ticker, in list order; entry `i` depends only on ticker `i` and the `i`-th fetch, so a failure leaves the other entries unaffected; every judged entry carries `judge` of its snapshot |
| `Scanner.IsHit` | scan.js:101 | only a judged entry is a hit, and a judged hit scored at least 3 of 4 on at least 15 closes |
| `Scanner.Hits` | scan.js:101 | every hit passed without an error and is one of the results; there are at most as many hits as results |
| `Scanner.HitsAppend` | scan.js:101 | the hit filter distributes over concatenation: it is an order-preserving filter |
| `Scanner.HitsMembers` | scan.js:101 | an entry is a hit iff it is a result that passed without error |
| `Scanner.HitsScoreThree` | scan.js:101 | every hit of a scan was judged and, as `pass` requires (line 75), scored at least 3 of 4 |
| `Scanner.Header` | scan.js:103 | the first line opens with the chart emoji and closes with `)`, and the time stamp can be read back from it |
| `Scanner.Fixed` | scan.js:106-107 | `x?.toFixed(d)` renders a present number with `toFixed` and a missing one as the text JavaScript prints for it |
| `Scanner.Decimal` | scan.js:107 | the rendering of the score is a non-empty string of decimal digits |
| `Scanner.DecimalValue` | scan.js:107 | the digits rendered for the score denote the score, with no leading zero |
| `Scanner.HitLine` | scan.js:105-108 | every hit line starts with the bullet `•` and the hit's symbol in bold, and ends with `  Score:<score>/4` |
| `Scanner.HitLines` | scan.js:104-109 | one line per hit, the `i`-th line rendering the `i`-th hit |
| `Scanner.ReportLines` | scan.js:102-110 | `lines` starts with the header and has one line per hit, or two lines when there are no hits |
| `Scanner.BuildLines` | scan.js:102-110 | the pushes into `lines` give the header, one line per hit, then the placeholder when there are no hits |
| `Scanner.ReportShape` | scan.js:102-110 | the lines after the header render the hits in order, and the placeholder appears exactly when there are no hits |
| `Scanner.BodyShape` | scan.js:102-113 | the sent body always starts with the header; with no hits it is exactly the header, a newline and the placeholder |
| `Scanner.Scan` | scan.js:86-115 | the scan returns one result per watchlist ticker in order, each judged entry carrying `judge` of its snapshot, the hit count, and the joined report body |

## Left out

- The HTTP request and JSON navigation of `fetchDaily` (scan.js:46-54) are not modelled. They become the `fetch` parameter, which yields the null-filtered closes and volumes or an error description.
- `sendDiscord` (scan.js:80-84) reads an environment variable and posts over the network. It is not modelled. So the 500 response when delivery throws and the `res.status(...).json(...)` plumbing (scan.js:115-117) are left out as well.
- Scanner.Scan: does not model the delivery step or the HTTP response. It returns the body, the hit count and the results that the 200 response carries.
- The `toLocaleString` Tokyo timestamp (scan.js:103) and the `toFixed` number rendering (scan.js:106-107) are parameters. Floating-point formatting and locale formatting are not modelled.
- IEEE-754 doubles are modelled as exact reals. Rounding, overflow and `NaN` propagation are not modelled. The constants `0.98`, `1.02` and `0.9` are exact. A float average loss that underflows to 0 is not modelled either.
- Averages.Ema: requires a non-empty series and `n >= 1`. Every caller meets this; the `undefined` result of an empty array is not modelled.
- Averages.Sma: requires `n >= 1`. A zero count arises only from clamping an empty series, where `sma` is `0/0` = `NaN`; `ClampedSma` models that as `None`. On a non-empty series a zero count would divide the sum of the whole series by 0 (an infinite average, or `NaN` when that sum is 0), but no caller passes one.
- The top-level block at scan.js:120-124 is not modelled. It refers to `lines` outside the handler's scope. In the handler, `lines` always holds the header (`Scanner.ReportLines`), so its `lines.length` test could never be false.
- `api/ask.js` is not modelled. It is a webhook self-test: a configuration check, a GET/POST check and one `fetch`.
- `JSON.stringify` of the body and the error message `String(e)` are not modelled. The error description is whatever `fetch` reports.

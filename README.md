# binance_download `utils.py`, modelled in Dafny

`utils.py` downloads historical market data from the Binance REST API into
pandas DataFrames. Each downloader splits the requested period `[start, end]`
into fixed-length windows:

- `pd.date_range(start, end, freq="15D")` (or `"20D"` for funding rates), followed by `end` itself;
- consecutive boundaries are paired into windows.

It then issues one request per window, in order. The window bounds are converted to epoch milliseconds by `to_ms`, and every request asks for at most 500 rows.
The pages are concatenated, tagged with the symbol (kline endpoints only) and
deduplicated on their timestamp column, keeping the first row of each timestamp.
`get_rolling_future_coin_data` enumerates 84 candidate quarterly contract
codes `YYMMDD` and fetches the mark-price klines of each `{symbol}_{YYMMDD}`:

- a candidate whose fetch raises `BinanceAPIException` is skipped;
- the others are tagged with the full symbol and the delivery date;
- the tagged datasets are concatenated.

The model has six modules:

- `Arithmetic` (`arith.dfy`): Euclidean-division facts the proofs use.
- `Timestamps` (`timestamps.dfy`): timestamps as integer nanoseconds since the epoch (a pandas `Timestamp`'s value). `to_ms` is modelled as written: the decimal string of the value, cut to 13 characters and parsed back.
- `Pagination` (`pagination.dfy`): `pd.date_range`, the appended end point, and the `zip` of begins and ends into windows.
- `Frames` (`frames.dfy`): `pd.concat` and `drop_duplicates` on sequences of rows. `drop_duplicates` is given an independent description: the positions of the first row of each key.
- `Fetch` (`fetch.dfy`): the request loop and the four downloaders.
  - The exchange client is a function parameter from a request to a reply: rows, or a raised exception.
  - Each downloader is a method. It returns the dataset or the error the Python code raises, plus the log of requests it issued.
  - Each method is proved equal to a specification function. The lemmas state what that function promises.
- `Rolling` (`rolling.dfy`): the candidate codes, the skip-on-`BinanceAPIException` loop, and the tagging.

The errors the Python code raises become values of `Fetch.Error`:

- `Upstream`: an exception from the client, propagated;
- `NoObjectsToConcatenate`: `pd.concat([])`, the ValueError;
- `NoFundingTimeColumn`: `df.fundingTime` on a frame without columns, the AttributeError;
- `UndefinedName`: NameError.

Where the code and the documented intent differ, the model follows the code:

- When `start > end`, there are no windows. No request is sent, and every downloader fails with `NoObjectsToConcatenate`. The documentation treats `start <= end` as a precondition. The model does not, since the code handles that case by raising.
- The rolling downloader does not fail only when no candidate succeeds. It also fails on any error other than `BinanceAPIException`. That includes the `NoObjectsToConcatenate` raised by the first candidate's own fetch over an empty range (`Rolling.RollingEmptyRange`).
- `to_ms` is exact epoch-millisecond arithmetic only for 19-digit nanosecond values, from 2001-09-09 to 2286-11-20. The fetches use it as written, and lemmas state both its general value and where it is wrong.

## Model

| member | source | states |
|---|---|---|
| Timestamps.ToMsOfNonNegative | utils.py:21-24 | for every non-negative instant, `to_ms` returns the value itself when it has at most 13 digits, else the value with all digits after the 13th dropped (`ns / 10^(d-13)`) |
| Timestamps.ToMsOfNegative | utils.py:21-24 | for a pre-epoch instant the minus sign takes one of the 13 characters: the result is minus the magnitude cut to 12 digits |
| Timestamps.ToMsOfNineteenDigits | utils.py:21-24 | for every 19-digit nanosecond value (2001-09-09 to 2286-11-20) `to_ms` equals exact millisecond division `ns / 1_000_000` |
| Timestamps.ToMsOfNewYear2020 | utils.py:21-24 | 2020-01-01T00:00Z converts to 1577836800000 ms |
| Timestamps.ToMsBefore2001IsWrong | utils.py:21-24 | one nanosecond before 10^18 ns the 13 kept characters spell 9999999999999, ten times the true 999999999999 ms |
| Timestamps.DigitsRoundTrip | utils.py:24 | `int(str(n)) == n` for every non-negative `n` |
| Timestamps.DigitsPrefix | utils.py:24 | cutting the last `k` characters of `str(n)` spells `n` with its last `k` digits dropped |
| Timestamps.DropDigitsIsDivision | utils.py:24 | dropping `k` decimal digits is division by `10^k` |
| Pagination.DateRangeClosedForm | utils.py:31 | `pd.date_range(start, end, freq)` has `(end-start)/step + 1` points when `start <= end` (none otherwise), point `k` being `start + k*step` |
| Pagination.LastPointOfDateRange | utils.py:31 | the last grid point lies within one step before `end`, and equals `end` exactly when `end - start` is a multiple of the step |
| Pagination.BoundaryEndpoints | utils.py:31-32 | the boundary list always ends at `end`; for `start <= end` it starts at `start` and has `(end-start)/step + 2` points; for `start > end` it is `[end]` |
| Pagination.BoundaryGaps | utils.py:31-32 | interior boundary gaps are exactly the cadence; the final gap is below the cadence and zero iff `end` lies on the grid |
| Pagination.BoundariesSorted | utils.py:31-32 | for `start <= end` the boundaries are non-decreasing |
| Pagination.WindowsArePairs | utils.py:34-39 | `zip(date_range[:-1], date_range[1:])` yields `|b|-1` windows, window `i` being `(b[i], b[i+1])` |
| Pagination.WindowsCoverRange | utils.py:31-39 | for `start <= end` the windows are `(end-start)/step + 1` contiguous, non-inverted windows from `start` to `end`; for `start > end` there are none |
| Pagination.JanuaryTwentyTwentyWindows | utils.py:31-39 | 2020-01-01 to 2020-02-01 at 15 days gives exactly the windows 1-16 Jan, 16-31 Jan, 31 Jan-1 Feb |
| Frames.ConcatAppend | utils.py:45 | concatenation distributes over appending lists of frames |
| Frames.ConcatEmpty | utils.py:105 | the concatenation is empty iff every frame is empty |
| Frames.ConcatMembers | utils.py:45 | a row is in the concatenation iff it is in one of the frames |
| Frames.DropDuplicatesKeepsFirstRows | utils.py:52 | `drop_duplicates` keeps exactly the first row of each key, in input order (against the independent `FirstPositions`) |
| Frames.DropDuplicatesUnique | utils.py:52 | after `drop_duplicates` no two rows share a key |
| Frames.DropDuplicatesKeys | utils.py:52 | `drop_duplicates` loses no key: the key sets before and after are equal |
| Frames.DropDuplicatesOfUnique | utils.py:52 | rows with unique keys come through unchanged |
| Frames.DropDuplicatesIdempotent | utils.py:52 | deduplicating twice equals deduplicating once |
| Frames.DropDuplicatesOfSorted | utils.py:52 | rows in non-decreasing key order come out in strictly increasing key order |
| Fetch.FetchPages | utils.py:37-45 | the loop returns the pages of all requests in order, or the first exception raised; the requests issued are the requests in order up to and including the first one that raised |
| Fetch.PagesErrorStays | utils.py:39-45 | once a request has raised, later requests do not change the outcome |
| Fetch.PagesAnswered | utils.py:39-45 | the loop succeeds iff every request is answered, page `i` then being the reply to request `i` |
| Fetch.PagesFirstRaise | utils.py:39-45 | the loop fails with the exception of the first request that raised |
| Fetch.FetchKlines | utils.py:27-52 | the shared kline body returns the kline dataset specification's value, issues requests in window order, and its result has unique timestamps and carries the symbol in every row |
| Fetch.GetDataCoinFutureMark | utils.py:27-52 | as `FetchKlines`, on the mark-price klines endpoint |
| Fetch.GetDataCoinFutureIndex | utils.py:55-80 | as `FetchKlines`, on the index-price klines endpoint |
| Fetch.GetDataCoin | utils.py:114-141 | as `FetchKlines`, on the spot klines endpoint |
| Fetch.KlineDatasetRows | utils.py:45-52 | a kline dataset has unique timestamps, every row carries the symbol, and its timestamps are exactly the open times (ms to instant) of the fetched rows |
| Fetch.KlineDatasetKeepsFirst | utils.py:45-52 | each dataset row is the tagged form of some fetched row and no earlier fetched row has its open time |
| Fetch.KlineDatasetChronological | utils.py:45-52 | when the fetched rows arrive in time order, the dataset is strictly increasing in timestamp |
| Fetch.KlineFetchOutcome | utils.py:31-52 | an empty range sends no request and fails on the empty concatenation; a non-empty range sends at least one request and succeeds iff every request is answered, else fails with the first exception |
| Fetch.KlineQueriesCoverRange | utils.py:31-42 | the requests tile the period: none when `start > end`; otherwise `(end-start)/15d + 1` of them, the first starting at `to_ms(start)`, the last ending at `to_ms(end)`, each starting where the previous ended, all for the symbol, the interval and limit 500 |
| Fetch.StraddlingWindowIsInverted | utils.py:21-42 | a window from 10^18 - 1 ns to 10^18 ns is sent with its start time after its end time |
| Fetch.GetDataFundingRate | utils.py:83-110 | returns the funding dataset specification's value, issues requests in 20-day window order, and its result has unique funding times |
| Fetch.FundingDatasetRows | utils.py:103-110 | the funding dataset fails iff no rows were fetched; otherwise it has unique funding times, exactly those of the fetched rows |
| Fetch.FundingFetchOutcome | utils.py:87-110 | funding over an empty range sends nothing and fails on the empty concatenation; otherwise it fails with the first exception raised, and when every request is answered it fails on the missing `fundingTime` column iff every answer was empty, returning a dataset otherwise |
| Fetch.JanuaryTwentyTwentyFetch | utils.py:27-52 | a kline fetch for January 2020 sends exactly three requests, and if all are answered it returns a dataset with unique timestamps |
| Rolling.GetRollingFutureCoinData | utils.py:157-185 | returns the rolling specification's value over the 84 candidates, and every row's `symbol` equals its `fullsym` |
| Rolling.RollOver | utils.py:171-185 | the skip-on-`BinanceAPIException` loop over any list of codes returns the concatenated survivors, or fails on no survivors or on the first other error |
| Rolling.SurvivorsStep | utils.py:174-183 | one loop turn: a dataset is tagged and appended, a `BinanceAPIException` leaves the frames unchanged, any other error ends the loop |
| Rolling.CrossLength | utils.py:169 | the product of two lists has `|xs| * |ys|` entries |
| Rolling.CrossAt | utils.py:169 | entry `i` of the product is `xs[i / |ys|] + ys[i % |ys|]` (first list slowest) |
| Rolling.DeliveryCodesLayout | utils.py:162-169 | there are 84 codes, code `i` being year `i/28`, month `i/7 % 4`, day `i % 7` |
| Rolling.DeliveryCodesAreCodes | utils.py:162-169 | every candidate code is six decimal digits |
| Rolling.DeliveryCodesDistinct | utils.py:162-169 | no two candidates share a code, so no contract is fetched twice |
| Rolling.DeliveryDatesOfCodes | utils.py:169-179 | candidate `i` is delivered on `2020 + i/28`, month `3 * (i/7 % 4 + 1)`, day `22 + i % 7` |
| Rolling.DeliveryDateOfParts | utils.py:179 | `pd.Timestamp("20YYMMDD")` of the code built from year, month and day list entries is that calendar date |
| Rolling.SurvivorsErrorStays | utils.py:174-183 | an error the loop does not catch ends it: the outcome is fixed once a prefix has failed |
| Rolling.SurvivorsComplete | utils.py:174-183 | when every candidate succeeds or is skipped, the loop finishes, with no frames iff every candidate raised |
| Rolling.SurvivorsFirstUncaught | utils.py:176-183 | the loop fails with the first error that is not a `BinanceAPIException` |
| Rolling.SurvivorOrigin | utils.py:176-181 | each collected frame is one successful candidate's dataset tagged with its full symbol and delivery date |
| Rolling.SurvivorsInOrder | utils.py:174-185 | when every candidate succeeds or is skipped, the collected frames are exactly the successful candidates' tagged datasets, one each, in candidate order (against the independent `SuccessPositions`) |
| Rolling.AllSkippedFails | utils.py:182-185 | if every candidate raises `BinanceAPIException`, the empty concatenation fails rather than returning no rows |
| Rolling.SomeSurvivorSucceeds | utils.py:174-185 | if some candidate succeeds and all others succeed or are skipped, the result is a dataset |
| Rolling.SingleSurvivor | utils.py:174-185 | if exactly one candidate succeeds and the rest are skipped, the result is that candidate's tagged dataset |
| Rolling.SurvivorsAtMostOne | utils.py:174-183 | with all but one candidate skipped, at most one frame is collected |
| Rolling.RowOrigin | utils.py:175-185 | every result row is a row of some successful candidate's dataset, tagged with that candidate's full symbol and delivery date |
| Rolling.RollingRowsCarryTheirSymbol | utils.py:175-179 | every row's `symbol` equals its `fullsym`, which is `{symbol}_{code}` for a candidate whose delivery date the row carries |
| Rolling.RollingEmptyRange | utils.py:174-185 | over `start > end` the first candidate's empty concatenation is not caught and the call fails with it |
| Rolling.RollingNoContracts | utils.py:174-185 | if the exchange raises `BinanceAPIException` for every request, the call fails on the empty concatenation |
| Rolling.RollingAsWrittenFails | utils.py:169 | with a client answering every request with no rows, the intended function returns a dataset while the code as written fails with NameError on `product` |

## Left out

- The Binance client, API credentials and the network. The client is a function parameter, a pure map from request to reply. Rate limits, retries and replies that change over time are not modelled.
- The row payload of a kline (open, high, low, close, volume, ...) and of a funding record beyond `fundingTime`. These are an opaque type parameter `P`. Only the timestamp columns and the tagging columns are modelled.
- pandas internals: timezones, calendar arithmetic (`"15D"` is taken as a fixed 15 × 86400 s step, which holds for UTC timestamps), DataFrame indexes (`pd.concat` keeps the per-page index and `drop_duplicates` keeps it; the model has no index), column dtypes and `copy()`.
- `get_available_coin_symbols`, `get_available_future_usdt_symbols` and `get_available_future_coin_symbols` (utils.py:144-154). Each returns one field of one client call and has no logic of its own.
- The `tqdm` progress bars, the `print` calls (utils.py:180, 183) and the unused `matplotlib` import. They are output only.
- The module-level example calls (utils.py:194-198). They run at import time against the live exchange and the wall clock.
- The 64-bit width of pandas nanosecond timestamps. Timestamps are unbounded integers, so instants beyond year 2262 are not rejected as pandas would.
- The default `interval="1h"` / `freq='1h'` arguments. The model always passes the interval explicitly.
- Exception classes are reduced to two: `BinanceAPIException` (with its code and message) and any other exception. The subclass hierarchy of the client library is not modelled.

## Findings

| source | as written | input that shows it | evidently intended | confidence | as-written member | corrected member |
|---|---|---|---|---|---|---|
| utils.py:169 | `product(years, months, days)` is called, but `product` is never imported, so every call of `get_rolling_future_coin_data` raises NameError before any request | any call, e.g. a client that answers every request with no rows and `start <= end` | `itertools.product`, the 84 codes in years-major order | not executed | Rolling.RollingAsWrittenFails | Rolling.GetRollingFutureCoinData |

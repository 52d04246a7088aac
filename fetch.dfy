/** The windowed fetch shared by `get_data_coin_future_mark`,
    `get_data_coin_future_index`, `get_data_funding_rate` and `get_data_coin`.

    The exchange client is a function parameter `upstream` from a request to
    either the rows it returns or the exception it raises. Each fetch issues
    one request per window, in window order, appends each window's rows to a
    list of frames, concatenates them, converts the millisecond timestamps to
    instants, tags the rows with the symbol (kline variants only) and drops
    duplicate timestamps, keeping the first. */
module Fetch {

  import opened Timestamps
  import opened Pagination
  import opened Frames

  datatype Option<T> = None | Some(value: T)

  /** The client calls the fetch functions make. */
  datatype Endpoint =
    | SpotKlines          // get_klines
    | MarkPriceKlines     // futures_coin_mark_price_klines
    | IndexPriceKlines    // futures_coin_index_price_klines (symbol passed as `pair`)
    | FundingRateHistory  // futures_coin_funding_rate (no interval)

  /** The row cap every request passes (`limit=500`). */
  const RequestLimit: nat := 500

  /** One upstream request; times are millisecond epoch values. */
  datatype Query = Query(
    endpoint: Endpoint,
    symbol: string,
    interval: Option<string>,
    startTime: int,
    endTime: int,
    limit: nat)

  /** What the client can raise: `BinanceAPIException` (an invalid symbol,
      for one) or anything else (network errors and the like). */
  datatype Exception =
    | BinanceApiException(code: int, message: string)
    | OtherException(message: string)

  /** The client's answer to one request. */
  datatype Reply<R> = Rows(rows: seq<R>) | Raised(exception: Exception)

  /** Why a fetch fails. */
  datatype Error =
    | Upstream(exception: Exception)  // raised by the client and propagated
    | NoObjectsToConcatenate          // `pd.concat([])` raises ValueError
    | NoFundingTimeColumn             // `df.fundingTime` on a frame without columns
    | UndefinedName(name: string)     // NameError

  datatype Result<T> = Ok(value: T) | Err(error: Error)

  /** A kline as the client returns it: open time and close time in
      milliseconds, the other ten fields opaque. */
  datatype Kline<P> = Kline(openTime: int, closeTime: int, fields: P)

  /** A dataset row of the kline variants: times converted to instants
      (nanoseconds) and the `symbol` column added. */
  datatype Candle<P> = Candle(timestamp: int, closeTime: int, fields: P, symbol: string)

  /** A funding-rate record; `fundingTime` is in milliseconds as the client
      returns it and an instant once converted. There is no added symbol
      column. */
  datatype FundingRate<P> = FundingRate(fundingTime: int, fields: P)

  /** `pd.to_datetime(..., unit='ms')`. */
  function MsToInstant(ms: int): int {
    ms * NanosPerMilli
  }

  // ---------------------------------------------------------------------
  // Requests

  /** One request per window, bounds converted with `to_ms`. */
  function WindowQueries(ws: seq<Window>, endpoint: Endpoint, symbol: string, interval: Option<string>): seq<Query> {
    seq(|ws|, i requires 0 <= i < |ws| =>
      Query(endpoint, symbol, interval, ToMs(ws[i].begin), ToMs(ws[i].end), RequestLimit))
  }

  /** The requests of a kline fetch (15-day windows). */
  function KlineQueries(endpoint: Endpoint, start: int, end: int, symbol: string, interval: string): seq<Query> {
    WindowQueries(RangeWindows(start, end, KlineCadence), endpoint, symbol, Some(interval))
  }

  /** The requests of a funding-rate fetch (20-day windows). */
  function FundingQueries(start: int, end: int, symbol: string): seq<Query> {
    WindowQueries(RangeWindows(start, end, FundingCadence), FundingRateHistory, symbol, None)
  }

  /** The frames collected for `qs`, or the first exception raised. */
  function Pages<R>(qs: seq<Query>, upstream: Query -> Reply<R>): Result<seq<seq<R>>> {
    if qs == [] then Ok([])
    else
      match Pages(qs[..|qs| - 1], upstream)
      case Err(e) => Err(e)
      case Ok(dfs) =>
        match upstream(qs[|qs| - 1])
        case Raised(x) => Err(Upstream(x))
        case Rows(rows) => Ok(dfs + [rows])
  }

  predicate AllAnswered<R>(qs: seq<Query>, upstream: Query -> Reply<R>) {
    forall i :: 0 <= i < |qs| ==> upstream(qs[i]).Rows?
  }

  /** `issued` is what a loop over `qs` sends: the requests in order, one
      each, up to and including the first one that raises. */
  predicate IssuedInOrder<R>(issued: seq<Query>, qs: seq<Query>, upstream: Query -> Reply<R>) {
    && issued <= qs
    && (forall k :: 0 <= k < |issued| - 1 ==> upstream(issued[k]).Rows?)
    && ((issued == qs && AllAnswered(qs, upstream))
        || (issued != [] && upstream(issued[|issued| - 1]).Raised?))
  }

  /** The loop of every fetch function: one request per window, the rows of
      each appended to `dfs`; an exception ends the loop and the call. */
  method FetchPages<R>(qs: seq<Query>, upstream: Query -> Reply<R>)
    returns (pages: Result<seq<seq<R>>>, issued: seq<Query>)
    ensures pages == Pages(qs, upstream)
    ensures IssuedInOrder(issued, qs, upstream)
  {
    var dfs: seq<seq<R>> := [];
    issued := [];
    var i := 0;
    while i < |qs|
      invariant 0 <= i <= |qs|
      invariant issued == qs[..i]
      invariant AllAnswered(issued, upstream)
      invariant Pages(qs[..i], upstream) == Ok(dfs)
    {
      var reply := upstream(qs[i]);
      issued := issued + [qs[i]];
      assert qs[..i + 1][..i] == qs[..i];
      match reply
      case Raised(x) =>
        PagesErrorStays(qs, i + 1, upstream);
        return Err(Upstream(x)), issued;
      case Rows(rows) =>
        dfs := dfs + [rows];
      i := i + 1;
    }
    assert qs[..i] == qs;
    pages := Ok(dfs);
  }

  /** Once a prefix of the requests has failed, so has the whole fetch. */
  lemma {:induction false} PagesErrorStays<R>(qs: seq<Query>, k: nat, upstream: Query -> Reply<R>)
    requires k <= |qs| && Pages(qs[..k], upstream).Err?
    ensures Pages(qs, upstream) == Pages(qs[..k], upstream)
    decreases |qs| - k
  {
    if k < |qs| {
      var p := qs[..k + 1];
      assert p[..|p| - 1] == qs[..k];
      PagesErrorStays(qs, k + 1, upstream);
    } else {
      assert qs[..k] == qs;
    }
  }

  /** The fetch collects a frame for every request exactly when no request
      raises; then frame `i` holds the rows of request `i`. */
  lemma {:induction false} PagesAnswered<R>(qs: seq<Query>, upstream: Query -> Reply<R>)
    ensures Pages(qs, upstream).Ok? <==> AllAnswered(qs, upstream)
    ensures Pages(qs, upstream).Ok? ==>
              var dfs := Pages(qs, upstream).value;
              |dfs| == |qs| && forall i :: 0 <= i < |qs| ==> dfs[i] == upstream(qs[i]).rows
  {
    if qs != [] {
      var init := qs[..|qs| - 1];
      PagesAnswered(init, upstream);
      assert forall i :: 0 <= i < |init| ==> init[i] == qs[i];
    }
  }

  /** The fetch fails with the exception of the first request that raises. */
  lemma PagesFirstRaise<R>(qs: seq<Query>, upstream: Query -> Reply<R>, i: nat)
    requires i < |qs| && AllAnswered(qs[..i], upstream) && upstream(qs[i]).Raised?
    ensures Pages(qs, upstream) == Err(Upstream(upstream(qs[i]).exception))
  {
    var p := qs[..i + 1];
    assert p[..|p| - 1] == qs[..i];
    PagesAnswered(qs[..i], upstream);
    PagesErrorStays(qs, i + 1, upstream);
  }

  // ---------------------------------------------------------------------
  // Kline datasets

  function ToCandle<P>(k: Kline<P>, symbol: string): Candle<P> {
    Candle(MsToInstant(k.openTime), MsToInstant(k.closeTime), k.fields, symbol)
  }

  /** `df["symbol"] = symbol` and the two `pd.to_datetime` conversions. */
  function Candles<P>(rows: seq<Kline<P>>, symbol: string): seq<Candle<P>> {
    seq(|rows|, i requires 0 <= i < |rows| => ToCandle(rows[i], symbol))
  }

  function CandleTime<P>(c: Candle<P>): int {
    c.timestamp
  }

  /** Concatenation, tagging and `drop_duplicates('timestamp')`. */
  function KlineDataset<P>(pages: seq<seq<Kline<P>>>, symbol: string): Result<seq<Candle<P>>> {
    if pages == [] then Err(NoObjectsToConcatenate)
    else Ok(DropDuplicates(Candles(Concat(pages), symbol), CandleTime))
  }

  /** What a kline fetch returns. */
  function KlineFetch<P>(endpoint: Endpoint, start: int, end: int, symbol: string, interval: string,
                         upstream: Query -> Reply<Kline<P>>): Result<seq<Candle<P>>>
  {
    match Pages(KlineQueries(endpoint, start, end, symbol, interval), upstream)
    case Err(e) => Err(e)
    case Ok(pages) => KlineDataset(pages, symbol)
  }

  /** The body shared by the three kline fetch functions. */
  method FetchKlines<P>(endpoint: Endpoint, start: int, end: int, symbol: string, interval: string,
                        upstream: Query -> Reply<Kline<P>>)
    returns (r: Result<seq<Candle<P>>>, issued: seq<Query>)
    ensures r == KlineFetch(endpoint, start, end, symbol, interval, upstream)
    ensures IssuedInOrder(issued, KlineQueries(endpoint, start, end, symbol, interval), upstream)
    ensures r.Ok? ==> UniqueKeys(r.value, CandleTime) && forall c :: c in r.value ==> c.symbol == symbol
  {
    var dateRange := Boundaries(start, end, KlineCadence);
    var windows := Windows(dateRange);
    var pages;
    pages, issued := FetchPages(WindowQueries(windows, endpoint, symbol, Some(interval)), upstream);
    match pages
    case Err(e) =>
      r := Err(e);
    case Ok(dfs) =>
      if dfs == [] {
        r := Err(NoObjectsToConcatenate);
      } else {
        var df := Candles(Concat(dfs), symbol);
        r := Ok(DropDuplicates(df, CandleTime));
        KlineDatasetRows(dfs, symbol);
      }
  }

  /** `get_data_coin_future_mark`: mark-price klines. */
  method GetDataCoinFutureMark<P>(start: int, end: int, symbol: string, interval: string,
                                  upstream: Query -> Reply<Kline<P>>)
    returns (r: Result<seq<Candle<P>>>, issued: seq<Query>)
    ensures r == KlineFetch(MarkPriceKlines, start, end, symbol, interval, upstream)
    ensures IssuedInOrder(issued, KlineQueries(MarkPriceKlines, start, end, symbol, interval), upstream)
    ensures r.Ok? ==> UniqueKeys(r.value, CandleTime) && forall c :: c in r.value ==> c.symbol == symbol
  {
    r, issued := FetchKlines(MarkPriceKlines, start, end, symbol, interval, upstream);
  }

  /** `get_data_coin_future_index`: settlement-index klines. */
  method GetDataCoinFutureIndex<P>(start: int, end: int, symbol: string, interval: string,
                                   upstream: Query -> Reply<Kline<P>>)
    returns (r: Result<seq<Candle<P>>>, issued: seq<Query>)
    ensures r == KlineFetch(IndexPriceKlines, start, end, symbol, interval, upstream)
    ensures IssuedInOrder(issued, KlineQueries(IndexPriceKlines, start, end, symbol, interval), upstream)
    ensures r.Ok? ==> UniqueKeys(r.value, CandleTime) && forall c :: c in r.value ==> c.symbol == symbol
  {
    r, issued := FetchKlines(IndexPriceKlines, start, end, symbol, interval, upstream);
  }

  /** `get_data_coin`: spot klines. */
  method GetDataCoin<P>(start: int, end: int, symbol: string, interval: string,
                        upstream: Query -> Reply<Kline<P>>)
    returns (r: Result<seq<Candle<P>>>, issued: seq<Query>)
    ensures r == KlineFetch(SpotKlines, start, end, symbol, interval, upstream)
    ensures IssuedInOrder(issued, KlineQueries(SpotKlines, start, end, symbol, interval), upstream)
    ensures r.Ok? ==> UniqueKeys(r.value, CandleTime) && forall c :: c in r.value ==> c.symbol == symbol
  {
    r, issued := FetchKlines(SpotKlines, start, end, symbol, interval, upstream);
  }

  /** Every row of a kline dataset carries the symbol, no two share a
      timestamp, and the timestamps are exactly those of the fetched rows. */
  lemma KlineDatasetRows<P>(pages: seq<seq<Kline<P>>>, symbol: string)
    requires pages != []
    ensures var ds := KlineDataset(pages, symbol).value;
            && UniqueKeys(ds, CandleTime)
            && (forall c :: c in ds ==> c.symbol == symbol)
            && KeySet(ds, CandleTime) == set k | k in Concat(pages) :: MsToInstant(k.openTime)
  {
    var rows := Concat(pages);
    var cs := Candles(rows, symbol);
    var ds := DropDuplicates(cs, CandleTime);
    DropDuplicatesUnique(cs, CandleTime);
    DropDuplicatesKeys(cs, CandleTime);
    DropDuplicatesKeepsFirstRows(cs, CandleTime);
    var ps := FirstPositions(cs, CandleTime);
    forall c | c in ds ensures c.symbol == symbol {
      var j :| 0 <= j < |ds| && ds[j] == c;
      assert ds[j] == cs[ps[j]];
    }
    forall t | t in KeySet(cs, CandleTime) ensures t in set k | k in rows :: MsToInstant(k.openTime) {
      var i :| 0 <= i < |cs| && cs[i].timestamp == t;
      assert rows[i] in rows;
    }
    forall t | t in set k | k in rows :: MsToInstant(k.openTime) ensures t in KeySet(cs, CandleTime) {
      var k :| k in rows && MsToInstant(k.openTime) == t;
      var i :| 0 <= i < |rows| && rows[i] == k;
      assert CandleTime(cs[i]) == t;
    }
  }

  /** Each row of a kline dataset is the first fetched row with its open
      time, tagged and converted; so a row returned by two adjacent windows
      for their shared boundary appears once, as the earlier window gave it. */
  lemma KlineDatasetKeepsFirst<P>(pages: seq<seq<Kline<P>>>, symbol: string, j: nat) returns (i: nat)
    requires pages != [] && j < |KlineDataset(pages, symbol).value|
    ensures i < |Concat(pages)|
    ensures KlineDataset(pages, symbol).value[j] == ToCandle(Concat(pages)[i], symbol)
    ensures forall i' :: 0 <= i' < i ==> Concat(pages)[i'].openTime != Concat(pages)[i].openTime
  {
    var rows := Concat(pages);
    var cs := Candles(rows, symbol);
    DropDuplicatesKeepsFirstRows(cs, CandleTime);
    var ps := FirstPositions(cs, CandleTime);
    i := ps[j];
    assert FirstOfKey(cs, CandleTime, i);
    forall i' | 0 <= i' < i ensures rows[i'].openTime != rows[i].openTime {
      assert CandleTime(cs[i']) != CandleTime(cs[i]);
    }
  }

  predicate InTimeOrder<P>(rows: seq<Kline<P>>) {
    forall i, j :: 0 <= i <= j < |rows| ==> rows[i].openTime <= rows[j].openTime
  }

  /** When the fetched rows arrive in time order (windows in order and
      sorted within), the dataset is strictly increasing in time. */
  lemma KlineDatasetChronological<P>(pages: seq<seq<Kline<P>>>, symbol: string)
    requires pages != []
    requires InTimeOrder(Concat(pages))
    ensures var ds := KlineDataset(pages, symbol).value;
            forall i, j :: 0 <= i < j < |ds| ==> ds[i].timestamp < ds[j].timestamp
  {
    var rows := Concat(pages);
    var cs := Candles(rows, symbol);
    forall i, j | 0 <= i <= j < |cs| ensures CandleTime(cs[i]) <= CandleTime(cs[j]) {
      assert rows[i].openTime <= rows[j].openTime;
      assert CandleTime(cs[i]) == rows[i].openTime * NanosPerMilli;
      assert CandleTime(cs[j]) == rows[j].openTime * NanosPerMilli;
    }
    DropDuplicatesOfSorted(cs, CandleTime);
    var ds := KlineDataset(pages, symbol).value;
    assert ds == DropDuplicates(cs, CandleTime);
    forall i, j | 0 <= i < j < |ds| ensures ds[i].timestamp < ds[j].timestamp {
      assert CandleTime(ds[i]) < CandleTime(ds[j]);
    }
  }

  /** A kline fetch over an empty range (`start > end`) sends nothing and
      fails on the empty concatenation; over a non-empty range it succeeds
      exactly when no request raises, and otherwise fails with the first
      exception raised. */
  lemma KlineFetchOutcome<P>(endpoint: Endpoint, start: int, end: int, symbol: string, interval: string,
                             upstream: Query -> Reply<Kline<P>>)
    ensures var qs := KlineQueries(endpoint, start, end, symbol, interval);
            start > end ==> qs == [] && KlineFetch(endpoint, start, end, symbol, interval, upstream) == Err(NoObjectsToConcatenate)
    ensures var qs := KlineQueries(endpoint, start, end, symbol, interval);
            start <= end ==>
              && |qs| >= 1
              && (KlineFetch(endpoint, start, end, symbol, interval, upstream).Ok? <==> AllAnswered(qs, upstream))
    ensures var qs := KlineQueries(endpoint, start, end, symbol, interval);
            forall i :: 0 <= i < |qs| && AllAnswered(qs[..i], upstream) && upstream(qs[i]).Raised? ==>
              KlineFetch(endpoint, start, end, symbol, interval, upstream) == Err(Upstream(upstream(qs[i]).exception))
  {
    var qs := KlineQueries(endpoint, start, end, symbol, interval);
    WindowsCoverRange(start, end, KlineCadence);
    PagesAnswered(qs, upstream);
    forall i | 0 <= i < |qs| && AllAnswered(qs[..i], upstream) && upstream(qs[i]).Raised?
      ensures KlineFetch(endpoint, start, end, symbol, interval, upstream) == Err(Upstream(upstream(qs[i]).exception))
    {
      PagesFirstRaise(qs, upstream, i);
    }
  }

  /** The requests of a kline fetch tile the period: one per window, the
      first starting at `to_ms(start)`, the last ending at `to_ms(end)`, each
      starting where the previous one ended, all for the symbol, interval and
      the 500-row limit; an empty period gives no request. */
  lemma KlineQueriesCoverRange(endpoint: Endpoint, start: int, end: int, symbol: string, interval: string)
    ensures start > end ==> KlineQueries(endpoint, start, end, symbol, interval) == []
    ensures start <= end ==> var qs := KlineQueries(endpoint, start, end, symbol, interval);
              && |qs| == (end - start) / KlineCadence + 1
              && qs[0].startTime == ToMs(start)
              && qs[|qs| - 1].endTime == ToMs(end)
              && (forall i :: 0 <= i < |qs| - 1 ==> qs[i].endTime == qs[i + 1].startTime)
              && (forall i :: 0 <= i < |qs| ==>
                    qs[i].endpoint == endpoint && qs[i].symbol == symbol
                    && qs[i].interval == Some(interval) && qs[i].limit == RequestLimit)
  {
    WindowsCoverRange(start, end, KlineCadence);
  }

  /** A window from one nanosecond before 10^18 ns (2001-09-09T01:46:40Z) to
      10^18 ns is sent inverted: `to_ms` maps its begin past its end. */
  lemma StraddlingWindowIsInverted()
    ensures ToMs(999_999_999_999_999_999) > ToMs(1_000_000_000_000_000_000)
  {
    ToMsBefore2001IsWrong();
    ToMsOfNineteenDigits(1_000_000_000_000_000_000);
  }

  // ---------------------------------------------------------------------
  // Funding-rate datasets

  function ToInstantFunding<P>(f: FundingRate<P>): FundingRate<P> {
    FundingRate(MsToInstant(f.fundingTime), f.fields)
  }

  function FundingTime<P>(f: FundingRate<P>): int {
    f.fundingTime
  }

  /** Concatenation, `pd.to_datetime` on `fundingTime` and
      `drop_duplicates('fundingTime')`. A concatenation of frames built from
      empty answers has no columns at all, so reading `fundingTime` fails. */
  function FundingDataset<P>(pages: seq<seq<FundingRate<P>>>): Result<seq<FundingRate<P>>> {
    if pages == [] then Err(NoObjectsToConcatenate)
    else
      var rows := Concat(pages);
      if rows == [] then Err(NoFundingTimeColumn)
      else Ok(DropDuplicates(seq(|rows|, i requires 0 <= i < |rows| => ToInstantFunding(rows[i])), FundingTime))
  }

  /** What a funding-rate fetch returns. */
  function FundingFetch<P>(start: int, end: int, symbol: string,
                           upstream: Query -> Reply<FundingRate<P>>): Result<seq<FundingRate<P>>>
  {
    match Pages(FundingQueries(start, end, symbol), upstream)
    case Err(e) => Err(e)
    case Ok(pages) => FundingDataset(pages)
  }

  /** `get_data_funding_rate`: funding-rate history in 20-day windows. */
  method GetDataFundingRate<P>(start: int, end: int, symbol: string,
                               upstream: Query -> Reply<FundingRate<P>>)
    returns (r: Result<seq<FundingRate<P>>>, issued: seq<Query>)
    ensures r == FundingFetch(start, end, symbol, upstream)
    ensures IssuedInOrder(issued, FundingQueries(start, end, symbol), upstream)
    ensures r.Ok? ==> UniqueKeys(r.value, FundingTime)
  {
    var dateRange := Boundaries(start, end, FundingCadence);
    var windows := Windows(dateRange);
    var pages;
    pages, issued := FetchPages(WindowQueries(windows, FundingRateHistory, symbol, None), upstream);
    match pages
    case Err(e) =>
      r := Err(e);
    case Ok(dfs) =>
      if dfs == [] {
        r := Err(NoObjectsToConcatenate);
      } else {
        var rows := Concat(dfs);
        if rows == [] {
          r := Err(NoFundingTimeColumn);
        } else {
          var df := seq(|rows|, i requires 0 <= i < |rows| => ToInstantFunding(rows[i]));
          r := Ok(DropDuplicates(df, FundingTime));
          DropDuplicatesUnique(df, FundingTime);
        }
      }
  }

  /** A funding dataset has no two records with one funding time, and its
      funding times are exactly those fetched; it is an error only when no
      window was requested or every window came back empty. */
  lemma FundingDatasetRows<P>(pages: seq<seq<FundingRate<P>>>)
    ensures FundingDataset(pages).Err? <==> Concat(pages) == []
    ensures FundingDataset(pages).Ok? ==>
              var ds := FundingDataset(pages).value;
              && UniqueKeys(ds, FundingTime)
              && KeySet(ds, FundingTime) == set f | f in Concat(pages) :: MsToInstant(f.fundingTime)
  {
    var rows := Concat(pages);
    if pages != [] && rows != [] {
      var fs := seq(|rows|, i requires 0 <= i < |rows| => ToInstantFunding(rows[i]));
      DropDuplicatesUnique(fs, FundingTime);
      DropDuplicatesKeys(fs, FundingTime);
      forall t | t in KeySet(fs, FundingTime) ensures t in set f | f in rows :: MsToInstant(f.fundingTime) {
        var i :| 0 <= i < |fs| && fs[i].fundingTime == t;
        assert rows[i] in rows;
      }
      forall t | t in set f | f in rows :: MsToInstant(f.fundingTime) ensures t in KeySet(fs, FundingTime) {
        var f :| f in rows && MsToInstant(f.fundingTime) == t;
        var i :| 0 <= i < |rows| && rows[i] == f;
        assert FundingTime(fs[i]) == t;
      }
    }
  }

  /** A funding-rate fetch over an empty range sends nothing and fails on
      the empty concatenation. Over a non-empty range it fails with the first
      exception raised; when every request is answered it returns a dataset
      unless every answer was empty, in which case the missing `fundingTime`
      column fails it. */
  lemma FundingFetchOutcome<P>(start: int, end: int, symbol: string, upstream: Query -> Reply<FundingRate<P>>)
    ensures var qs := FundingQueries(start, end, symbol);
            start > end ==> qs == [] && FundingFetch(start, end, symbol, upstream) == Err(NoObjectsToConcatenate)
    ensures var qs := FundingQueries(start, end, symbol);
            start <= end ==>
              && |qs| >= 1
              && (AllAnswered(qs, upstream) ==>
                    if forall i :: 0 <= i < |qs| ==> upstream(qs[i]).rows == []
                    then FundingFetch(start, end, symbol, upstream) == Err(NoFundingTimeColumn)
                    else FundingFetch(start, end, symbol, upstream).Ok?)
    ensures var qs := FundingQueries(start, end, symbol);
            forall i :: 0 <= i < |qs| && AllAnswered(qs[..i], upstream) && upstream(qs[i]).Raised? ==>
              FundingFetch(start, end, symbol, upstream) == Err(Upstream(upstream(qs[i]).exception))
  {
    var qs := FundingQueries(start, end, symbol);
    WindowsCoverRange(start, end, FundingCadence);
    if start <= end && AllAnswered(qs, upstream) {
      FundingAllAnswered(qs, upstream);
    }
    forall i | 0 <= i < |qs| && AllAnswered(qs[..i], upstream) && upstream(qs[i]).Raised?
      ensures FundingFetch(start, end, symbol, upstream) == Err(Upstream(upstream(qs[i]).exception))
    {
      PagesFirstRaise(qs, upstream, i);
    }
  }

  /** With at least one request and every request answered, the funding
      dataset fails on the missing column exactly when every answer is empty. */
  lemma FundingAllAnswered<P>(qs: seq<Query>, upstream: Query -> Reply<FundingRate<P>>)
    requires |qs| >= 1 && AllAnswered(qs, upstream)
    ensures var r := match Pages(qs, upstream) case Err(e) => Err(e) case Ok(pages) => FundingDataset(pages);
            if forall i :: 0 <= i < |qs| ==> upstream(qs[i]).rows == []
            then r == Err(NoFundingTimeColumn)
            else r.Ok?
  {
    PagesAnswered(qs, upstream);
    var pages := Pages(qs, upstream).value;
    ConcatEmpty(pages);
    assert forall i :: 0 <= i < |qs| ==> pages[i] == upstream(qs[i]).rows;
  }

  /** The example of fetching 2020-01-01 to 2020-02-01 hourly: three
      requests, and when all three answer, a dataset without duplicate
      timestamps. */
  lemma JanuaryTwentyTwentyFetch<P>(symbol: string, upstream: Query -> Reply<Kline<P>>)
    requires var start := 1_577_836_800_000_000_000;
             AllAnswered(KlineQueries(SpotKlines, start, start + 31 * Day, symbol, "1h"), upstream)
    ensures var start := 1_577_836_800_000_000_000;
            && |KlineQueries(SpotKlines, start, start + 31 * Day, symbol, "1h")| == 3
            && KlineFetch(SpotKlines, start, start + 31 * Day, symbol, "1h", upstream).Ok?
            && UniqueKeys(KlineFetch(SpotKlines, start, start + 31 * Day, symbol, "1h", upstream).value, CandleTime)
  {
    var start := 1_577_836_800_000_000_000;
    var end := start + 31 * Day;
    JanuaryTwentyTwentyWindows();
    KlineFetchOutcome(SpotKlines, start, end, symbol, "1h", upstream);
    var pages := Pages(KlineQueries(SpotKlines, start, end, symbol, "1h"), upstream).value;
    KlineDatasetRows(pages, symbol);
  }
}

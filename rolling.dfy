/** `get_rolling_future_coin_data`: probing the quarterly coin-margined
    contracts.

    The candidate delivery codes `YYMMDD` are the cross product of three
    years, the four quarter-end months and seven possible delivery days. Each
    candidate symbol `{symbol}_{YYMMDD}` is fetched as mark-price klines; a
    candidate whose fetch raises `BinanceAPIException` (no such contract) is
    skipped, any other failure ends the call. The surviving datasets are tagged
    with the full symbol and the delivery date and concatenated in candidate
    order; when none survives, the empty concatenation fails. */
module Rolling {

  import opened Arithmetic
  import opened Timestamps
  import opened Frames
  import opened Fetch

  const Years: seq<string> := ["20", "21", "22"]
  const Months: seq<string> := ["03", "06", "09", "12"]
  const Days: seq<string> := ["22", "23", "24", "25", "26", "27", "28"]

  /** A calendar date, as `pd.Timestamp` parses it from `20YYMMDD`. */
  datatype Date = Date(year: int, month: int, day: int)

  /** A row of the rolling dataset: a mark-price row with the `fullsym` and
      `delivery_date` columns added. */
  datatype RollingCandle<P> = RollingCandle(candle: Candle<P>, fullSymbol: string, deliveryDate: Date)

  /** `f"{x}{y}"` for `x, y` in `product(xs, ys)`: `xs` varies slowest. */
  function Cross(xs: seq<string>, ys: seq<string>): seq<string> {
    if xs == [] then []
    else seq(|ys|, j requires 0 <= j < |ys| => xs[0] + ys[j]) + Cross(xs[1..], ys)
  }

  /** The 84 delivery codes, years-major, months-middle, days-minor. */
  function DeliveryCodes(): seq<string> {
    Cross(Cross(Years, Months), Days)
  }

  /** `f"{symbol}_{d}"`. */
  function FullSymbol(symbol: string, code: string): string {
    symbol + "_" + code
  }

  predicate IsCode(code: string) {
    |code| == 6 && AllDigits(code)
  }

  /** `pd.Timestamp(f"20{d}")`: the year is `20YY`. */
  function DeliveryDate(code: string): Date
    requires IsCode(code)
  {
    var s := "20" + code;
    Date(DigitsValue(s[..4]), DigitsValue(s[4..6]), DigitsValue(s[6..]))
  }

  /** A failure the loop catches: the client raised `BinanceAPIException`. */
  predicate Skipped(e: Error) {
    e.Upstream? && e.exception.BinanceApiException?
  }

  /** `tmp['fullsym'] = tmp_symbol` and `tmp['delivery_date'] = ...`. */
  function TagDelivery<P>(ds: seq<Candle<P>>, fullSymbol: string, date: Date): seq<RollingCandle<P>> {
    seq(|ds|, i requires 0 <= i < |ds| => RollingCandle(ds[i], fullSymbol, date))
  }

  /** The frames `dfs` the loop collects over `codes`, given what fetching
      each full symbol returns, or the first failure it does not catch. */
  function Survivors<P>(codes: seq<string>, symbol: string, fetch: string -> Result<seq<Candle<P>>>)
    : Result<seq<seq<RollingCandle<P>>>>
    requires forall i :: 0 <= i < |codes| ==> IsCode(codes[i])
  {
    if codes == [] then Ok([])
    else
      var code := codes[|codes| - 1];
      match Survivors(codes[..|codes| - 1], symbol, fetch)
      case Err(e) => Err(e)
      case Ok(dfs) =>
        match fetch(FullSymbol(symbol, code))
        case Ok(ds) => Ok(dfs + [TagDelivery(ds, FullSymbol(symbol, code), DeliveryDate(code))])
        case Err(e) => if Skipped(e) then Ok(dfs) else Err(e)
  }

  /** The result of the loop over `codes`: the concatenated survivors. */
  function RollingOver<P>(codes: seq<string>, symbol: string, fetch: string -> Result<seq<Candle<P>>>)
    : Result<seq<RollingCandle<P>>>
    requires forall i :: 0 <= i < |codes| ==> IsCode(codes[i])
  {
    match Survivors(codes, symbol, fetch)
    case Err(e) => Err(e)
    case Ok(dfs) => if dfs == [] then Err(NoObjectsToConcatenate) else Ok(Concat(dfs))
  }

  /** The mark-price fetch of one full symbol. */
  function MarkFetch<P>(start: int, end: int, interval: string, upstream: Query -> Reply<Kline<P>>)
    : string -> Result<seq<Candle<P>>>
  {
    s => KlineFetch(MarkPriceKlines, start, end, s, interval, upstream)
  }

  /** What `get_rolling_future_coin_data` returns once `product` is in scope. */
  function RollingFetch<P>(start: int, end: int, symbol: string, interval: string,
                           upstream: Query -> Reply<Kline<P>>): Result<seq<RollingCandle<P>>>
  {
    DeliveryCodesAreCodes();
    RollingOver(DeliveryCodes(), symbol, MarkFetch(start, end, interval, upstream))
  }

  /** `get_rolling_future_coin_data`, with `product` taken to be
      `itertools.product`. */
  method GetRollingFutureCoinData<P>(start: int, end: int, symbol: string, interval: string,
                                     upstream: Query -> Reply<Kline<P>>)
    returns (r: Result<seq<RollingCandle<P>>>)
    ensures r == RollingFetch(start, end, symbol, interval, upstream)
    ensures r.Ok? ==> forall row :: row in r.value ==> row.candle.symbol == row.fullSymbol
  {
    DeliveryCodesAreCodes();
    r := RollOver(start, end, symbol, interval, upstream, DeliveryCodes());
    RollingRowsCarryTheirSymbol(start, end, symbol, interval, upstream);
  }

  /** The loop of `get_rolling_future_coin_data` over the candidate codes:
      fetch each contract's mark-price klines, skip a contract on
      `BinanceAPIException`, tag and collect the rest, concatenate. */
  method RollOver<P>(start: int, end: int, symbol: string, interval: string,
                     upstream: Query -> Reply<Kline<P>>, deliveryDates: seq<string>)
    returns (r: Result<seq<RollingCandle<P>>>)
    requires forall i :: 0 <= i < |deliveryDates| ==> IsCode(deliveryDates[i])
    ensures r == RollingOver(deliveryDates, symbol, MarkFetch(start, end, interval, upstream))
  {
    ghost var fetch := MarkFetch(start, end, interval, upstream);
    var dfs: seq<seq<RollingCandle<P>>> := [];
    var i := 0;
    assert deliveryDates[..0] == [];
    while i < |deliveryDates|
      invariant 0 <= i <= |deliveryDates|
      invariant Survivors(deliveryDates[..i], symbol, fetch) == Ok(dfs)
    {
      var d := deliveryDates[i];
      var tmpSymbol := FullSymbol(symbol, d);
      var tmp, _ := GetDataCoinFutureMark(start, end, tmpSymbol, interval, upstream);
      assert fetch(tmpSymbol) == tmp;
      SurvivorsStep(deliveryDates, i, symbol, fetch, dfs);
      match tmp {
        case Ok(ds) =>
          dfs := dfs + [TagDelivery(ds, tmpSymbol, DeliveryDate(d))];
        case Err(e) =>
          if !Skipped(e) {
            SurvivorsErrorStays(deliveryDates, i + 1, symbol, fetch);
            return Err(e);
          }
      }
      i := i + 1;
    }
    assert deliveryDates[..i] == deliveryDates;
    if dfs == [] {
      r := Err(NoObjectsToConcatenate);
    } else {
      r := Ok(Concat(dfs));
    }
  }

  /** One turn of the loop: the frames collected over one more candidate. */
  lemma SurvivorsStep<P>(codes: seq<string>, i: nat, symbol: string, fetch: string -> Result<seq<Candle<P>>>,
                         dfs: seq<seq<RollingCandle<P>>>)
    requires forall i :: 0 <= i < |codes| ==> IsCode(codes[i])
    requires i < |codes| && Survivors(codes[..i], symbol, fetch) == Ok(dfs)
    ensures var full := FullSymbol(symbol, codes[i]);
            fetch(full).Ok? ==>
              Survivors(codes[..i + 1], symbol, fetch) == Ok(dfs + [TagDelivery(fetch(full).value, full, DeliveryDate(codes[i]))])
    ensures var full := FullSymbol(symbol, codes[i]);
            fetch(full).Err? ==>
              Survivors(codes[..i + 1], symbol, fetch) == if Skipped(fetch(full).error) then Ok(dfs) else Err(fetch(full).error)
  {
    var p := codes[..i + 1];
    assert p[..|p| - 1] == codes[..i];
  }

  // ---------------------------------------------------------------------
  // The candidates

  lemma {:induction false} CrossLength(xs: seq<string>, ys: seq<string>)
    ensures |Cross(xs, ys)| == |xs| * |ys|
  {
    if xs != [] {
      CrossLength(xs[1..], ys);
      assert |xs| * |ys| == |ys| + (|xs| - 1) * |ys|;
    }
  }

  /** Entry `i` of the product pairs `xs[i / |ys|]` with `ys[i % |ys|]`. */
  lemma {:induction false} CrossAt(xs: seq<string>, ys: seq<string>, i: nat)
    requires |ys| > 0 && i < |xs| * |ys|
    ensures |Cross(xs, ys)| == |xs| * |ys|
    ensures i / |ys| < |xs| && Cross(xs, ys)[i] == xs[i / |ys|] + ys[i % |ys|]
  {
    CrossLength(xs, ys);
    var n := |ys|;
    if i < n {
      DivUnique(i, n, 0, i);
    } else {
      assert |xs| * n == n + (|xs| - 1) * n;
      CrossAt(xs[1..], ys, i - n);
      var q, r := (i - n) / n, (i - n) % n;
      assert i == n * (q + 1) + r;
      DivUnique(i, n, q + 1, r);
    }
  }

  /** There are 3 x 4 x 7 = 84 codes; code `i` is year `i / 28`, month
      `i / 7 % 4` and day `i % 7` of the lists above. */
  lemma DeliveryCodesLayout()
    ensures |DeliveryCodes()| == 84
    ensures forall i :: 0 <= i < 84 ==>
              DeliveryCodes()[i] == Years[i / 28] + Months[i / 7 % 4] + Days[i % 7]
  {
    var ym := Cross(Years, Months);
    CrossLength(Years, Months);
    CrossLength(ym, Days);
    forall i | 0 <= i < 84
      ensures DeliveryCodes()[i] == Years[i / 28] + Months[i / 7 % 4] + Days[i % 7]
    {
      CrossAt(ym, Days, i);
      CrossAt(Years, Months, i / 7);
      DivDiv(i, 7, 4);
    }
  }

  lemma CodeParts(y: nat, m: nat, d: nat)
    requires y < 3 && m < 4 && d < 7
    ensures var code := Years[y] + Months[m] + Days[d];
            && IsCode(code)
            && code[..2] == Years[y] && code[2..4] == Months[m] && code[4..] == Days[d]
  {
  }

  lemma DeliveryCodesAreCodes()
    ensures forall i :: 0 <= i < |DeliveryCodes()| ==> IsCode(DeliveryCodes()[i])
  {
    DeliveryCodesLayout();
    forall i | 0 <= i < 84 ensures IsCode(DeliveryCodes()[i]) {
      CodeParts(i / 28, i / 7 % 4, i % 7);
    }
  }

  /** Position `i` of the product is recovered from its three coordinates. */
  lemma CodeIndex(i: nat)
    ensures i == 28 * (i / 28) + 7 * (i / 7 % 4) + i % 7
  {
    DivDiv(i, 7, 4);
    assert i / 7 == 4 * (i / 28) + i / 7 % 4;
  }

  /** Different coordinates spell different codes. */
  lemma CodePartsInjective(y: nat, m: nat, d: nat, y': nat, m': nat, d': nat)
    requires y < 3 && m < 4 && d < 7 && y' < 3 && m' < 4 && d' < 7
    requires Years[y] + Months[m] + Days[d] == Years[y'] + Months[m'] + Days[d']
    ensures y == y' && m == m' && d == d'
  {
    CodeParts(y, m, d);
    CodeParts(y', m', d');
    YearValue(y);
    YearValue(y');
    MonthValue(m);
    MonthValue(m');
    DayValue(d);
    DayValue(d');
  }

  /** No two candidates share a code, so no contract is fetched twice. */
  lemma DeliveryCodesDistinct()
    ensures forall i, j :: 0 <= i < j < |DeliveryCodes()| ==> DeliveryCodes()[i] != DeliveryCodes()[j]
  {
    DeliveryCodesLayout();
    forall i, j | 0 <= i < j < 84 ensures DeliveryCodes()[i] != DeliveryCodes()[j] {
      CodeIndex(i);
      CodeIndex(j);
      if DeliveryCodes()[i] == DeliveryCodes()[j] {
        CodePartsInjective(i / 28, i / 7 % 4, i % 7, j / 28, j / 7 % 4, j % 7);
        assert false;
      }
    }
  }

  lemma TwoDigitValue(s: string)
    requires |s| == 2 && AllDigits(s)
    ensures DigitsValue(s) == 10 * (s[0] as int - '0' as int) + (s[1] as int - '0' as int)
  {
    assert s[..1][..0] == [];
  }

  lemma FourDigitValue(s: string)
    requires |s| == 4 && AllDigits(s)
    ensures DigitsValue(s) == 100 * DigitsValue(s[..2]) + DigitsValue(s[2..])
  {
    var a, b, c := s[..3], s[..2], s[..1];
    assert a[..2] == b && b[..1] == c && c[..0] == [];
    assert s[2..][..1] == [s[2]] && [s[2]][..0] == [];
  }

  lemma YearValue(y: nat)
    requires y < 3
    ensures AllDigits(Years[y]) && DigitsValue(Years[y]) == 20 + y
  {
    TwoDigitValue(Years[y]);
    if y == 0 {} else if y == 1 {} else {}
  }

  lemma MonthValue(m: nat)
    requires m < 4
    ensures AllDigits(Months[m]) && DigitsValue(Months[m]) == 3 * (m + 1)
  {
    TwoDigitValue(Months[m]);
    if m == 0 {} else if m == 1 {} else if m == 2 {} else {}
  }

  lemma DayValue(d: nat)
    requires d < 7
    ensures AllDigits(Days[d]) && DigitsValue(Days[d]) == 22 + d
  {
    TwoDigitValue(Days[d]);
    if d == 0 {} else if d == 1 {} else if d == 2 {} else if d == 3 {}
    else if d == 4 {} else if d == 5 {} else {}
  }

  /** The code for year `y`, month `m` and day `d` of the lists above is
      delivered on day `22 + d` of month `3 * (m + 1)` of year `2020 + y`. */
  lemma DeliveryDateOfParts(y: nat, m: nat, d: nat)
    requires y < 3 && m < 4 && d < 7
    ensures IsCode(Years[y] + Months[m] + Days[d])
    ensures DeliveryDate(Years[y] + Months[m] + Days[d]) == Date(2020 + y, 3 * (m + 1), 22 + d)
  {
    var code := Years[y] + Months[m] + Days[d];
    CodeParts(y, m, d);
    var s := "20" + code;
    assert s[..4] == "20" + Years[y] && s[4..6] == Months[m] && s[6..] == Days[d];
    FourDigitValue(s[..4]);
    assert s[..4][..2] == "20" && s[..4][2..] == Years[y];
    TwoDigitValue("20");
    YearValue(y);
    MonthValue(m);
    DayValue(d);
  }

  /** Code `i` is delivered on day `22 + i % 7` of month `3 * (i / 7 % 4 + 1)`
      of year `2020 + i / 28`. */
  lemma DeliveryDatesOfCodes()
    ensures forall i :: 0 <= i < |DeliveryCodes()| ==>
              IsCode(DeliveryCodes()[i]) &&
              DeliveryDate(DeliveryCodes()[i]) == Date(2020 + i / 28, 3 * (i / 7 % 4 + 1), 22 + i % 7)
  {
    DeliveryCodesLayout();
    forall i | 0 <= i < 84
      ensures IsCode(DeliveryCodes()[i])
      ensures DeliveryDate(DeliveryCodes()[i]) == Date(2020 + i / 28, 3 * (i / 7 % 4 + 1), 22 + i % 7)
    {
      DeliveryDateOfParts(i / 28, i / 7 % 4, i % 7);
    }
  }

  // ---------------------------------------------------------------------
  // The skip-on-error loop

  /** A failure the loop does not catch ends it for good. */
  lemma {:induction false} SurvivorsErrorStays<P>(codes: seq<string>, k: nat, symbol: string,
                                                  fetch: string -> Result<seq<Candle<P>>>)
    requires forall i :: 0 <= i < |codes| ==> IsCode(codes[i])
    requires k <= |codes| && Survivors(codes[..k], symbol, fetch).Err?
    ensures Survivors(codes, symbol, fetch) == Survivors(codes[..k], symbol, fetch)
    decreases |codes| - k
  {
    if k < |codes| {
      var p := codes[..k + 1];
      assert p[..|p| - 1] == codes[..k];
      SurvivorsErrorStays(codes, k + 1, symbol, fetch);
    } else {
      assert codes[..k] == codes;
    }
  }

  /** Candidate `i` was skipped or yielded a dataset. */
  predicate Tolerated<P>(codes: seq<string>, symbol: string, fetch: string -> Result<seq<Candle<P>>>, i: int)
    requires 0 <= i < |codes|
  {
    var outcome := fetch(FullSymbol(symbol, codes[i]));
    outcome.Ok? || Skipped(outcome.error)
  }

  /** When no candidate fails in a way the loop does not catch, the loop
      finishes, with one frame per candidate that yielded a dataset. */
  lemma {:induction false} SurvivorsComplete<P>(codes: seq<string>, symbol: string,
                                                fetch: string -> Result<seq<Candle<P>>>)
    requires forall i :: 0 <= i < |codes| ==> IsCode(codes[i])
    requires forall i :: 0 <= i < |codes| ==> Tolerated(codes, symbol, fetch, i)
    ensures Survivors(codes, symbol, fetch).Ok?
    ensures (Survivors(codes, symbol, fetch).value == []) <==>
              forall i :: 0 <= i < |codes| ==> fetch(FullSymbol(symbol, codes[i])).Err?
  {
    if codes != [] {
      var init := codes[..|codes| - 1];
      forall i | 0 <= i < |init| ensures Tolerated(init, symbol, fetch, i) {
        assert init[i] == codes[i];
        assert Tolerated(codes, symbol, fetch, i);
      }
      SurvivorsComplete(init, symbol, fetch);
      assert Tolerated(codes, symbol, fetch, |codes| - 1);
      assert forall i :: 0 <= i < |init| ==> init[i] == codes[i];
    }
  }

  /** Independent description of which candidates yield a dataset: their
      positions, in increasing order. */
  ghost function SuccessPositions<P>(codes: seq<string>, symbol: string,
                                     fetch: string -> Result<seq<Candle<P>>>): (ps: seq<nat>)
    ensures forall j :: 0 <= j < |ps| ==> ps[j] < |codes|
    ensures forall j, k :: 0 <= j < k < |ps| ==> ps[j] < ps[k]
    ensures forall i :: 0 <= i < |codes| ==> (i in ps <==> fetch(FullSymbol(symbol, codes[i])).Ok?)
  {
    if codes == [] then []
    else
      var init := codes[..|codes| - 1];
      var ps := SuccessPositions(init, symbol, fetch);
      assert forall i :: 0 <= i < |init| ==> init[i] == codes[i];
      if fetch(FullSymbol(symbol, codes[|codes| - 1])).Ok? then ps + [|codes| - 1] else ps
  }

  /** When no candidate fails in a way the loop does not catch, the frames
      collected are exactly those of the candidates that yielded a dataset,
      one each, in candidate order, each tagged with its candidate's full
      symbol and delivery date. */
  lemma {:induction false} SurvivorsInOrder<P>(codes: seq<string>, symbol: string,
                                               fetch: string -> Result<seq<Candle<P>>>)
    requires forall i :: 0 <= i < |codes| ==> IsCode(codes[i])
    requires forall i :: 0 <= i < |codes| ==> Tolerated(codes, symbol, fetch, i)
    ensures Survivors(codes, symbol, fetch).Ok?
    ensures var dfs, ps := Survivors(codes, symbol, fetch).value, SuccessPositions(codes, symbol, fetch);
            && |dfs| == |ps|
            && forall k :: 0 <= k < |dfs| ==>
                 dfs[k] == TagDelivery(fetch(FullSymbol(symbol, codes[ps[k]])).value,
                                       FullSymbol(symbol, codes[ps[k]]), DeliveryDate(codes[ps[k]]))
  {
    SurvivorsComplete(codes, symbol, fetch);
    if codes != [] {
      var n := |codes| - 1;
      var init := codes[..n];
      forall i | 0 <= i < |init| ensures Tolerated(init, symbol, fetch, i) {
        assert init[i] == codes[i];
        assert Tolerated(codes, symbol, fetch, i);
      }
      SurvivorsInOrder(init, symbol, fetch);
      var dfs0, ps0 := Survivors(init, symbol, fetch).value, SuccessPositions(init, symbol, fetch);
      var dfs, ps := Survivors(codes, symbol, fetch).value, SuccessPositions(codes, symbol, fetch);
      assert forall k :: 0 <= k < |ps0| ==> init[ps0[k]] == codes[ps0[k]];
      assert Tolerated(codes, symbol, fetch, n);
      if fetch(FullSymbol(symbol, codes[n])).Ok? {
        assert dfs == dfs0 + [TagDelivery(fetch(FullSymbol(symbol, codes[n])).value,
                                          FullSymbol(symbol, codes[n]), DeliveryDate(codes[n]))];
        assert ps == ps0 + [n];
      } else {
        assert dfs == dfs0 && ps == ps0;
      }
    }
  }

  /** The loop fails with the first failure it does not catch. */
  lemma {:induction false} SurvivorsFirstUncaught<P>(codes: seq<string>, symbol: string,
                                                     fetch: string -> Result<seq<Candle<P>>>, k: nat)
    requires forall i :: 0 <= i < |codes| ==> IsCode(codes[i])
    requires k < |codes| && !Tolerated(codes, symbol, fetch, k)
    requires forall i :: 0 <= i < k ==> Tolerated(codes, symbol, fetch, i)
    ensures Survivors(codes, symbol, fetch) == Err(fetch(FullSymbol(symbol, codes[k])).error)
  {
    var p := codes[..k + 1];
    var init := codes[..k];
    assert p[..|p| - 1] == init;
    forall i | 0 <= i < |init| ensures Tolerated(init, symbol, fetch, i) {
      assert init[i] == codes[i];
      assert Tolerated(codes, symbol, fetch, i);
    }
    SurvivorsComplete(init, symbol, fetch);
    SurvivorsErrorStays(codes, k + 1, symbol, fetch);
  }

  /** Every frame the loop collects is the dataset of one candidate that
      yielded one, tagged with that candidate's symbol and delivery date. */
  lemma {:induction false} SurvivorOrigin<P>(codes: seq<string>, symbol: string,
                                             fetch: string -> Result<seq<Candle<P>>>, k: nat)
    returns (i: nat)
    requires forall i :: 0 <= i < |codes| ==> IsCode(codes[i])
    requires Survivors(codes, symbol, fetch).Ok? && k < |Survivors(codes, symbol, fetch).value|
    ensures i < |codes| && fetch(FullSymbol(symbol, codes[i])).Ok?
    ensures Survivors(codes, symbol, fetch).value[k] ==
              TagDelivery(fetch(FullSymbol(symbol, codes[i])).value, FullSymbol(symbol, codes[i]), DeliveryDate(codes[i]))
  {
    var init := codes[..|codes| - 1];
    var dfs := Survivors(init, symbol, fetch).value;
    if k < |dfs| {
      i := SurvivorOrigin(init, symbol, fetch, k);
      assert init[i] == codes[i];
    } else {
      i := |codes| - 1;
    }
  }

  // ---------------------------------------------------------------------
  // Properties of the loop's result

  /** If every candidate raises `BinanceAPIException`, the concatenation of
      nothing fails instead of returning an empty dataset. */
  lemma AllSkippedFails<P>(codes: seq<string>, symbol: string, fetch: string -> Result<seq<Candle<P>>>)
    requires forall i :: 0 <= i < |codes| ==> IsCode(codes[i])
    requires forall i :: 0 <= i < |codes| ==>
               fetch(FullSymbol(symbol, codes[i])).Err? && Skipped(fetch(FullSymbol(symbol, codes[i])).error)
    ensures RollingOver(codes, symbol, fetch) == Err(NoObjectsToConcatenate)
  {
    SurvivorsComplete(codes, symbol, fetch);
  }

  /** If some candidate yields a dataset and every other one yields a dataset
      or is skipped, the result is a dataset. */
  lemma SomeSurvivorSucceeds<P>(codes: seq<string>, symbol: string, fetch: string -> Result<seq<Candle<P>>>, j: nat)
    requires forall i :: 0 <= i < |codes| ==> IsCode(codes[i])
    requires j < |codes| && fetch(FullSymbol(symbol, codes[j])).Ok?
    requires forall i :: 0 <= i < |codes| ==> Tolerated(codes, symbol, fetch, i)
    ensures RollingOver(codes, symbol, fetch).Ok?
  {
    SurvivorsComplete(codes, symbol, fetch);
  }

  /** If exactly candidate `j` yields a dataset and all others are skipped,
      the result is that dataset, tagged with `j`'s symbol and delivery date. */
  lemma SingleSurvivor<P>(codes: seq<string>, symbol: string, fetch: string -> Result<seq<Candle<P>>>, j: nat)
    requires forall i :: 0 <= i < |codes| ==> IsCode(codes[i])
    requires j < |codes| && fetch(FullSymbol(symbol, codes[j])).Ok?
    requires forall i :: 0 <= i < |codes| && i != j ==>
               fetch(FullSymbol(symbol, codes[i])).Err? && Skipped(fetch(FullSymbol(symbol, codes[i])).error)
    ensures RollingOver(codes, symbol, fetch) ==
              Ok(TagDelivery(fetch(FullSymbol(symbol, codes[j])).value, FullSymbol(symbol, codes[j]), DeliveryDate(codes[j])))
  {
    assert forall i :: 0 <= i < |codes| ==> Tolerated(codes, symbol, fetch, i);
    SurvivorsComplete(codes, symbol, fetch);
    var dfs := Survivors(codes, symbol, fetch).value;
    var tagged := TagDelivery(fetch(FullSymbol(symbol, codes[j])).value, FullSymbol(symbol, codes[j]), DeliveryDate(codes[j]));
    forall k | 0 <= k < |dfs| ensures dfs[k] == tagged {
      var i := SurvivorOrigin(codes, symbol, fetch, k);
      assert i == j;
    }
    SurvivorsAtMostOne(codes, symbol, fetch, j);
    assert dfs == [tagged];
    assert Concat(dfs) == Concat([] + [tagged]) == tagged;
  }

  lemma {:induction false} SurvivorsAtMostOne<P>(codes: seq<string>, symbol: string,
                                                 fetch: string -> Result<seq<Candle<P>>>, j: nat)
    requires forall i :: 0 <= i < |codes| ==> IsCode(codes[i])
    requires j < |codes|
    requires forall i :: 0 <= i < |codes| && i != j ==>
               fetch(FullSymbol(symbol, codes[i])).Err? && Skipped(fetch(FullSymbol(symbol, codes[i])).error)
    requires Survivors(codes, symbol, fetch).Ok?
    ensures |Survivors(codes, symbol, fetch).value| <= 1
  {
    var init := codes[..|codes| - 1];
    if j < |init| {
      SurvivorsAtMostOne(init, symbol, fetch, j);
    } else if init != [] {
      assert forall i :: 0 <= i < |init| ==> init[i] == codes[i];
      assert forall i :: 0 <= i < |init| ==> Tolerated(init, symbol, fetch, i);
      SurvivorsComplete(init, symbol, fetch);
    }
  }

  /** Every row of the result comes from a candidate whose fetch yielded a
      dataset: the row is a row of that dataset, tagged with the candidate's
      full symbol and delivery date. */
  lemma RowOrigin<P>(codes: seq<string>, symbol: string, fetch: string -> Result<seq<Candle<P>>>,
                     row: RollingCandle<P>) returns (i: nat)
    requires forall i :: 0 <= i < |codes| ==> IsCode(codes[i])
    requires RollingOver(codes, symbol, fetch).Ok? && row in RollingOver(codes, symbol, fetch).value
    ensures i < |codes| && fetch(FullSymbol(symbol, codes[i])).Ok?
    ensures row.candle in fetch(FullSymbol(symbol, codes[i])).value
    ensures row.fullSymbol == FullSymbol(symbol, codes[i]) && row.deliveryDate == DeliveryDate(codes[i])
  {
    var dfs := Survivors(codes, symbol, fetch).value;
    ConcatMembers(dfs, row);
    var k :| 0 <= k < |dfs| && row in dfs[k];
    i := SurvivorOrigin(codes, symbol, fetch, k);
    var ds := fetch(FullSymbol(symbol, codes[i])).value;
    var m :| 0 <= m < |dfs[k]| && dfs[k][m] == row;
    assert row.candle == ds[m];
  }

  // ---------------------------------------------------------------------
  // The rolling fetch itself

  /** Every row of the rolling dataset carries, in `symbol`, `fullsym` and
      `delivery_date`, the contract it was fetched for. */
  lemma RollingRowsCarryTheirSymbol<P>(start: int, end: int, symbol: string, interval: string,
                                       upstream: Query -> Reply<Kline<P>>)
    ensures var r := RollingFetch(start, end, symbol, interval, upstream);
            r.Ok? ==> forall row :: row in r.value ==>
              && row.candle.symbol == row.fullSymbol
              && exists i :: 0 <= i < |DeliveryCodes()| && row.fullSymbol == FullSymbol(symbol, DeliveryCodes()[i])
                                         && row.deliveryDate == Date(2020 + i / 28, 3 * (i / 7 % 4 + 1), 22 + i % 7)
  {
    var r := RollingFetch(start, end, symbol, interval, upstream);
    if r.Ok? {
      forall row | row in r.value
        ensures row.candle.symbol == row.fullSymbol
        ensures exists i :: 0 <= i < |DeliveryCodes()| && row.fullSymbol == FullSymbol(symbol, DeliveryCodes()[i])
                                        && row.deliveryDate == Date(2020 + i / 28, 3 * (i / 7 % 4 + 1), 22 + i % 7)
      {
        var i := RollingRowOrigin(start, end, symbol, interval, upstream, row);
      }
    }
  }

  /** The candidate a row of the rolling dataset was fetched for. */
  lemma RollingRowOrigin<P>(start: int, end: int, symbol: string, interval: string,
                            upstream: Query -> Reply<Kline<P>>, row: RollingCandle<P>) returns (i: nat)
    requires RollingFetch(start, end, symbol, interval, upstream).Ok?
    requires row in RollingFetch(start, end, symbol, interval, upstream).value
    ensures i < |DeliveryCodes()| && row.fullSymbol == FullSymbol(symbol, DeliveryCodes()[i])
    ensures row.deliveryDate == Date(2020 + i / 28, 3 * (i / 7 % 4 + 1), 22 + i % 7)
    ensures row.candle.symbol == row.fullSymbol
  {
    var fetch := MarkFetch(start, end, interval, upstream);
    DeliveryCodesAreCodes();
    i := RowOrigin(DeliveryCodes(), symbol, fetch, row);
    DeliveryDatesOfCodes();
    var full := FullSymbol(symbol, DeliveryCodes()[i]);
    assert fetch(full) == KlineFetch(MarkPriceKlines, start, end, full, interval, upstream);
    var pages := Pages(KlineQueries(MarkPriceKlines, start, end, full, interval), upstream).value;
    KlineDatasetRows(pages, full);
  }

  /** Over an empty range (`start > end`) the first candidate's
      concatenation fails, and that ValueError is not caught. */
  lemma RollingEmptyRange<P>(start: int, end: int, symbol: string, interval: string,
                             upstream: Query -> Reply<Kline<P>>)
    requires start > end
    ensures RollingFetch(start, end, symbol, interval, upstream) == Err(NoObjectsToConcatenate)
  {
    var fetch := MarkFetch(start, end, interval, upstream);
    var codes := DeliveryCodes();
    DeliveryCodesAreCodes();
    DeliveryCodesLayout();
    KlineFetchOutcome(MarkPriceKlines, start, end, FullSymbol(symbol, codes[0]), interval, upstream);
    assert !Tolerated(codes, symbol, fetch, 0);
    SurvivorsFirstUncaught(codes, symbol, fetch, 0);
  }

  /** If every contract request raises `BinanceAPIException` (no candidate
      exists), the rolling fetch fails rather than returning no rows. */
  lemma RollingNoContracts<P>(start: int, end: int, symbol: string, interval: string,
                              upstream: Query -> Reply<Kline<P>>)
    requires start <= end
    requires forall q :: upstream(q).Raised? && upstream(q).exception.BinanceApiException?
    ensures RollingFetch(start, end, symbol, interval, upstream) == Err(NoObjectsToConcatenate)
  {
    var fetch := MarkFetch(start, end, interval, upstream);
    var codes := DeliveryCodes();
    DeliveryCodesAreCodes();
    forall i | 0 <= i < |codes|
      ensures fetch(FullSymbol(symbol, codes[i])).Err? && Skipped(fetch(FullSymbol(symbol, codes[i])).error)
    {
      var full := FullSymbol(symbol, codes[i]);
      KlineFetchOutcome(MarkPriceKlines, start, end, full, interval, upstream);
      var qs := KlineQueries(MarkPriceKlines, start, end, full, interval);
      assert qs[..0] == [];
      assert AllAnswered(qs[..0], upstream);
    }
    AllSkippedFails(codes, symbol, fetch);
  }

  // ---------------------------------------------------------------------
  // As written: `product` is not imported

  /** `get_rolling_future_coin_data` as written: the comprehension on line
      169 names `product`, which utils.py never imports, so every call
      raises NameError before any request is made. */
  function RollingFetchAsWritten<P>(start: int, end: int, symbol: string, interval: string,
                                    upstream: Query -> Reply<Kline<P>>): Result<seq<RollingCandle<P>>>
  {
    Err(UndefinedName("product"))
  }

  /** With a client that answers every request with no rows, the intended
      function returns a dataset, while the code as written fails. */
  lemma RollingAsWrittenFails<P>(start: int, end: int, symbol: string, interval: string)
    requires start <= end
    ensures var upstream: Query -> Reply<Kline<P>> := q => Rows([]);
            && RollingFetch(start, end, symbol, interval, upstream).Ok?
            && RollingFetchAsWritten(start, end, symbol, interval, upstream) == Err(UndefinedName("product"))
  {
    var upstream: Query -> Reply<Kline<P>> := q => Rows([]);
    var fetch := MarkFetch(start, end, interval, upstream);
    var codes := DeliveryCodes();
    DeliveryCodesAreCodes();
    DeliveryCodesLayout();
    forall i | 0 <= i < |codes| ensures fetch(FullSymbol(symbol, codes[i])).Ok? {
      KlineFetchOutcome(MarkPriceKlines, start, end, FullSymbol(symbol, codes[i]), interval, upstream);
    }
    SomeSurvivorSucceeds(codes, symbol, fetch, 0);
  }
}

/** fx.go: the two FX ingestion commands. `fx:fetch:range` validates a currency
    code and a closed date range, fetches the rate of every calendar day in it
    and stores each one, tallying failures without stopping; `fx:fetch_all`
    fetches the latest rates of every currency and stores them in order.
    The rate API is the function `get` from URL to reply (see FxClient); the
    database upsert is the function `upsert`, which says whether the row was
    stored. */
module Fx {
  import opened Wrappers
  import opened Text
  import opened Dates
  import opened FxClient
  import opened Commands
  import Config

  /** The columns of a foreign-exchange upsert that the handlers decide. The
      rates are carried as numbers; their text formatting is not modelled. */
  datatype FxRow = FxRow(currencyCode: string, date: Date,
                         buyingRate: real, sellingRate: real, middleRate: real)

  /** A validated `fx:fetch:range` request. */
  datatype RangeRequest = RangeRequest(code: string, start: Date, end: Date)

  /** The validation chain of `handlerFxFetchRange`, checked in this order:
      base URL configured, exactly three arguments, an upper-cased code three
      bytes long, a parsable start date, a parsable end date, and an end that
      is not before the start. */
  function ValidateRange(cfg: Config.Config, cmd: Command): (r: Result<RangeRequest, Error>)
    ensures cfg.fxApiBaseUrl == [] ==> r == Failure(FxBaseUrlMissing)
    ensures cfg.fxApiBaseUrl != [] && |cmd.args| != 3 ==> r == Failure(Usage(cmd.name))
    ensures r.Success? ==>
      |cmd.args| == 3 && r.value.code == ToUpper(cmd.args[0]) && Utf8Len(r.value.code) == 3
      && Parse(cmd.args[1]) == Some(r.value.start) && Parse(cmd.args[2]) == Some(r.value.end)
      && !Before(r.value.end, r.value.start)
  {
    if cfg.fxApiBaseUrl == [] then Failure(FxBaseUrlMissing)
    else if |cmd.args| != 3 then Failure(Usage(cmd.name))
    else
      var code := ToUpper(cmd.args[0]);
      if Utf8Len(code) != 3 then Failure(InvalidCurrencyCode(code))
      else match Parse(cmd.args[1])
        case None => Failure(StartDateInvalid(cmd.args[1]))
        case Some(start) =>
          match Parse(cmd.args[2])
          case None => Failure(EndDateInvalid(cmd.args[2]))
          case Some(end) =>
            if Before(end, start) then Failure(EndBeforeStart)
            else Success(RangeRequest(code, start, end))
  }

  /** Every request that passes each check is accepted, so the checks above are
      the whole of validation. */
  lemma ValidateRangeAccepts(cfg: Config.Config, cmd: Command)
    requires cfg.fxApiBaseUrl != [] && |cmd.args| == 3
    requires Utf8Len(ToUpper(cmd.args[0])) == 3
    requires Parse(cmd.args[1]).Some? && Parse(cmd.args[2]).Some?
    requires !Before(Parse(cmd.args[2]).value, Parse(cmd.args[1]).value)
    ensures ValidateRange(cfg, cmd)
      == Success(RangeRequest(ToUpper(cmd.args[0]), Parse(cmd.args[1]).value, Parse(cmd.args[2]).value))
  {
  }

  /** The code is checked before the dates: a bad code is reported even when
      both dates are unparsable too. */
  lemma CodeCheckedBeforeDates(cfg: Config.Config, cmd: Command)
    requires cfg.fxApiBaseUrl != [] && |cmd.args| == 3
    requires Utf8Len(ToUpper(cmd.args[0])) != 3
    ensures ValidateRange(cfg, cmd) == Failure(InvalidCurrencyCode(ToUpper(cmd.args[0])))
  {
  }

  // ---------------------------------------------------------------------------
  // The days of the range

  /** The number of calendar days from `start` through `end`. */
  function Span(start: Date, end: Date): (n: nat)
    requires Valid(start) && Valid(end) && !Before(end, start)
    ensures n >= 1
  {
    BeforeIsEarlier(end, start);
    DayNumber(end) - DayNumber(start) + 1
  }

  /** The `n` consecutive days from `d`. */
  function DaysFrom(d: Date, n: nat): (days: seq<Date>)
    requires Valid(d)
    ensures |days| == n
    decreases n
  {
    if n == 0 then [] else [d] + DaysFrom(NextDay(d), n - 1)
  }

  /** The days from `start` through `end`. */
  function DateRange(start: Date, end: Date): (days: seq<Date>)
    requires Valid(start) && Valid(end) && !Before(end, start)
  {
    DaysFrom(start, Span(start, end))
  }

  /** Each day in the layout "2006-01-02". */
  function FormatAll(days: seq<Date>): (texts: seq<string>)
    ensures |texts| == |days|
  {
    seq(|days|, k requires 0 <= k < |days| => Format(days[k]))
  }

  /** The loop test `!d.After(end)` fails exactly once `d` is `Span` days past `start`. */
  lemma PastEnd(start: Date, end: Date, d: Date, i: nat)
    requires Valid(start) && Valid(end) && Valid(d) && !Before(end, start)
    requires DayNumber(d) == DayNumber(start) + i
    ensures Before(end, d) <==> i >= Span(start, end)
  {
    BeforeIsEarlier(end, d);
  }

  /** The date-stepping loop: from `start`, while the day is not after `end`,
      append it formatted and step one day. */
  method EnumerateDates(start: Date, end: Date) returns (dates: seq<string>)
    requires Valid(start) && Valid(end) && !Before(end, start)
    ensures dates == FormatAll(DateRange(start, end))
  {
    dates := [];
    var d := start;
    ghost var days: seq<Date> := [];
    ghost var n := Span(start, end);
    PastEnd(start, end, d, 0);
    while !Before(end, d)
      invariant Valid(d) && |dates| == |days| <= n && DayNumber(d) == DayNumber(start) + |days|
      invariant Before(end, d) <==> |days| >= n
      invariant days + DaysFrom(d, n - |days|) == DaysFrom(start, n)
      invariant forall k :: 0 <= k < |days| ==> dates[k] == Format(days[k])
      decreases n - |days|
    {
      AppendAssoc(days, [d], DaysFrom(NextDay(d), n - |days| - 1));
      dates, days := dates + [Format(d)], days + [d];
      NextDayNumber(d);
      d := NextDay(d);
      PastEnd(start, end, d, |days|);
    }
    assert days + [] == days;
  }

  /** Each of the days from `d` after the first is the day after its predecessor. */
  lemma {:induction false} DaysFromNext(d: Date, n: nat, i: nat)
    requires Valid(d) && 1 <= i < n
    ensures Valid(DaysFrom(d, n)[i - 1])
    ensures DaysFrom(d, n)[i] == NextDay(DaysFrom(d, n)[i - 1])
    decreases i
  {
    if i > 1 {
      assert DaysFrom(d, n)[i] == DaysFrom(NextDay(d), n - 1)[i - 1];
      assert DaysFrom(d, n)[i - 1] == DaysFrom(NextDay(d), n - 1)[i - 2];
      DaysFromNext(NextDay(d), n - 1, i - 1);
    }
  }

  /** The `i`-th of the days from `d` is `i` days after `d`. */
  lemma {:induction false} DaysFromNumber(d: Date, n: nat, i: nat)
    requires Valid(d) && i < n
    ensures Valid(DaysFrom(d, n)[i]) && DayNumber(DaysFrom(d, n)[i]) == DayNumber(d) + i
    decreases i
  {
    if i > 0 {
      var e := NextDay(d);
      assert DaysFrom(d, n)[i] == DaysFrom(e, n - 1)[i - 1];
      DaysFromNumber(e, n - 1, i - 1);
      NextDayNumber(d);
    }
  }

  /** A day that does not come after `end` has a four-digit year. */
  lemma YearBound(d: Date, end: Date)
    requires Valid(d) && Valid(end) && end.year < 10000
    requires DayNumber(d) <= DayNumber(end)
    ensures d.year < 10000
  {
    BeforeIsEarlier(end, d);
  }

  /** The range starts with `start` and ends with `end`; it is never empty, so
      the source's "no dates" error can never be returned, and `start == end`
      gives exactly one day. */
  lemma DateRangeEnds(start: Date, end: Date)
    requires Valid(start) && Valid(end) && !Before(end, start)
    ensures |DateRange(start, end)| >= 1
    ensures DateRange(start, end)[0] == start
    ensures DateRange(start, end)[|DateRange(start, end)| - 1] == end
    ensures start == end <==> |DateRange(start, end)| == 1
  {
    var n := Span(start, end);
    DaysFromNumber(start, n, n - 1);
    DayNumberInjective(DaysFrom(start, n)[n - 1], end);
  }

  /** Each day of the range after the first is the day after its predecessor. */
  lemma DateRangeConsecutive(start: Date, end: Date, i: nat)
    requires Valid(start) && Valid(end) && !Before(end, start)
    requires 1 <= i < |DateRange(start, end)|
    ensures Valid(DateRange(start, end)[i - 1])
    ensures DateRange(start, end)[i] == NextDay(DateRange(start, end)[i - 1])
  {
    DaysFromNext(start, Span(start, end), i);
  }

  /** So the range is strictly ascending. */
  lemma DateRangeAscending(start: Date, end: Date, i: nat, j: nat)
    requires Valid(start) && Valid(end) && !Before(end, start)
    requires i < j < |DateRange(start, end)|
    ensures Before(DateRange(start, end)[i], DateRange(start, end)[j])
  {
    var days := DateRange(start, end);
    DaysFromNumber(start, Span(start, end), i);
    DaysFromNumber(start, Span(start, end), j);
    BeforeIsEarlier(days[i], days[j]);
  }

  /** Every formatted day of a range whose end parsed reads back as that day. */
  lemma DateRangeReadsBack(start: Date, end: Date, i: nat)
    requires Valid(start) && Valid(end) && !Before(end, start) && end.year < 10000
    requires i < |DateRange(start, end)|
    ensures Parse(FormatAll(DateRange(start, end))[i]) == Some(DateRange(start, end)[i])
  {
    var d := DateRange(start, end)[i];
    DaysFromNumber(start, Span(start, end), i);
    YearBound(d, end);
    ParseFormat(d);
  }

  // ---------------------------------------------------------------------------
  // One day of the range

  /** What happened to one requested day. */
  datatype DayResult =
    | FetchFailed(cause: ClientError)
    | ResponseDateInvalid(text: string)
    | StoreFailed(row: FxRow)
    | Stored(row: FxRow)

  /** The row stored for a fetched rate on a parsed date. */
  function RowOf(code: string, d: Date, info: RateInfo): FxRow
  {
    FxRow(code, d, info.buyingRate, info.sellingRate, info.middleRate)
  }

  /** One iteration of the per-day loop: fetch the day; a failed fetch (a 404
      included) is counted and skipped; otherwise the date in the response is
      parsed and the row is upserted under the requested code and the
      response's own date. */
  function Day(c: Client, get: string -> Reply<SingleRateResponse>, upsert: FxRow -> bool,
               code: string, date: string): DayResult
  {
    match FetchTargetCurrencyRates(c, get, code, date)
    case Failure(e) => FetchFailed(e)
    case Success(resp) =>
      var info := resp.data.rate;
      match Parse(info.date)
      case None => ResponseDateInvalid(info.date)
      case Some(d) =>
        var row := RowOf(code, d, info);
        if upsert(row) then Stored(row) else StoreFailed(row)
  }

  /** A failed fetch, a 404 among them, is recorded as such and nothing is
      upserted. A fetched day whose response date does not parse is recorded
      as such and nothing is upserted. Every other day upserts the row with the
      requested code, the response's own date and its three rates, and is
      stored exactly when that upsert succeeds. */
  lemma DayOutcome(c: Client, get: string -> Reply<SingleRateResponse>, upsert: FxRow -> bool,
                   code: string, date: string)
    ensures var fetched := FetchTargetCurrencyRates(c, get, code, date);
      Day(c, get, upsert, code, date).FetchFailed? <==> fetched.Failure?
    ensures var fetched := FetchTargetCurrencyRates(c, get, code, date);
      Day(c, get, upsert, code, date).ResponseDateInvalid? <==>
        fetched.Success? && Parse(fetched.value.data.rate.date).None?
    ensures var fetched := FetchTargetCurrencyRates(c, get, code, date);
      var r := Day(c, get, upsert, code, date);
      fetched.Success? && Parse(fetched.value.data.rate.date).Some? ==>
        var info := fetched.value.data.rate;
        (r.Stored? || r.StoreFailed?)
        && r.row == FxRow(code, Parse(info.date).value, info.buyingRate, info.sellingRate, info.middleRate)
        && (r.Stored? <==> upsert(r.row))
  {
  }

  /** The four counters of the range handler. */
  datatype Counters = Counters(successfulFetches: nat, failedFetches: nat,
                               successfulStores: nat, failedStores: nat)

  /** The counters after one more day. */
  function Count(c: Counters, r: DayResult): Counters
  {
    match r
    case FetchFailed(_) => c.(failedFetches := c.failedFetches + 1)
    case ResponseDateInvalid(_) =>
      c.(successfulFetches := c.successfulFetches + 1, failedStores := c.failedStores + 1)
    case StoreFailed(_) =>
      c.(successfulFetches := c.successfulFetches + 1, failedStores := c.failedStores + 1)
    case Stored(_) =>
      c.(successfulFetches := c.successfulFetches + 1, successfulStores := c.successfulStores + 1)
  }

  /** The counters after the days `rs`: every day is one fetch, successful or
      failed, and every successful fetch is one store, successful or failed. */
  function Tally(rs: seq<DayResult>): (c: Counters)
    ensures c.successfulFetches + c.failedFetches == |rs|
    ensures c.successfulStores + c.failedStores == c.successfulFetches
    ensures c.successfulStores <= c.successfulFetches <= |rs|
  {
    if rs == [] then Counters(0, 0, 0, 0) else Count(Tally(rs[..|rs| - 1]), rs[|rs| - 1])
  }

  /** The rows that reached the database, in the order they were stored. */
  function StoredRows(rs: seq<DayResult>): (rows: seq<FxRow>)
  {
    if rs == [] then []
    else StoredRows(rs[..|rs| - 1]) + (if rs[|rs| - 1].Stored? then [rs[|rs| - 1].row] else [])
  }

  /** `successfulStores` counts exactly the rows that were stored. */
  lemma {:induction false} TallyCountsStored(rs: seq<DayResult>)
    ensures Tally(rs).successfulStores == |StoredRows(rs)|
    decreases |rs|
  {
    if rs != [] {
      TallyCountsStored(rs[..|rs| - 1]);
    }
  }

  /** One pass of the per-day loop body, with the counter it increments. */
  method FetchDay(c: Client, get: string -> Reply<SingleRateResponse>, upsert: FxRow -> bool,
                  code: string, date: string, counts: Counters)
    returns (r: DayResult, counts': Counters)
    ensures r == Day(c, get, upsert, code, date)
    ensures counts' == Count(counts, r)
  {
    counts' := counts;
    var reply := FetchTargetCurrencyRates(c, get, code, date);
    if reply.Failure? {
      counts' := counts'.(failedFetches := counts'.failedFetches + 1);
      return FetchFailed(reply.error), counts';
    }
    counts' := counts'.(successfulFetches := counts'.successfulFetches + 1);
    var info := reply.value.data.rate;
    var parsed := Parse(info.date);
    if parsed.None? {
      counts' := counts'.(failedStores := counts'.failedStores + 1);
      return ResponseDateInvalid(info.date), counts';
    }
    var row := RowOf(code, parsed.value, info);
    if !upsert(row) {
      counts' := counts'.(failedStores := counts'.failedStores + 1);
      return StoreFailed(row), counts';
    }
    counts' := counts'.(successfulStores := counts'.successfulStores + 1);
    r := Stored(row);
  }

  /** The outcomes of the days `dates`, in order. */
  function DayResults(c: Client, get: string -> Reply<SingleRateResponse>, upsert: FxRow -> bool,
                      code: string, dates: seq<string>): seq<DayResult>
  {
    if dates == [] then []
    else DayResults(c, get, upsert, code, dates[..|dates| - 1]) + [Day(c, get, upsert, code, dates[|dates| - 1])]
  }

  /** One outcome per date, each the outcome of that date alone. */
  lemma {:induction false} DayResultsAt(c: Client, get: string -> Reply<SingleRateResponse>,
                                        upsert: FxRow -> bool, code: string, dates: seq<string>)
    ensures |DayResults(c, get, upsert, code, dates)| == |dates|
    ensures forall k :: 0 <= k < |dates| ==>
      DayResults(c, get, upsert, code, dates)[k] == Day(c, get, upsert, code, dates[k])
    decreases |dates|
  {
    if dates != [] {
      var init := dates[..|dates| - 1];
      DayResultsAt(c, get, upsert, code, init);
      assert forall k :: 0 <= k < |init| ==> dates[k] == init[k];
    }
  }

  /** The per-day loop: one fetch per date, in order, never stopping early. */
  method FetchDays(c: Client, get: string -> Reply<SingleRateResponse>, upsert: FxRow -> bool,
                   code: string, dates: seq<string>)
    returns (results: seq<DayResult>, counts: Counters)
    ensures results == DayResults(c, get, upsert, code, dates)
    ensures counts == Tally(results)
  {
    results, counts := [], Counters(0, 0, 0, 0);
    var i := 0;
    while i < |dates|
      invariant i <= |dates| && results == DayResults(c, get, upsert, code, dates[..i])
      invariant counts == Tally(results)
    {
      var r;
      r, counts := FetchDay(c, get, upsert, code, dates[i], counts);
      assert dates[..i + 1][..i] == dates[..i];
      assert (results + [r])[..|results|] == results;
      results := results + [r];
      i := i + 1;
    }
    assert dates[..i] == dates;
  }

  /** `handlerFxFetchRange`. On a rejected request nothing is fetched and the
      validation error is returned. Otherwise exactly one fetch is made per day
      of the range, in order, each day's outcome is recorded in `results`, the
      counters tally them, and the handler returns nil whatever happened. */
  method FetchRange(cfg: Config.Config, cmd: Command,
                    get: string -> Reply<SingleRateResponse>, upsert: FxRow -> bool)
    returns (err: Option<Error>, dates: seq<string>, results: seq<DayResult>, counts: Counters)
    ensures ValidateRange(cfg, cmd).Failure? ==>
      err == Some(ValidateRange(cfg, cmd).error) && dates == [] && results == []
    ensures ValidateRange(cfg, cmd).Success? ==>
      var req := ValidateRange(cfg, cmd).value;
      err == None && dates == FormatAll(DateRange(req.start, req.end)) && |results| == |dates|
      && (forall k :: 0 <= k < |dates| ==>
            results[k] == Day(New(cfg, cfg.fxApiBaseUrl), get, upsert, req.code, dates[k]))
    ensures counts == Tally(results)
    ensures counts.successfulFetches + counts.failedFetches == |dates|
    ensures counts.successfulStores + counts.failedStores == counts.successfulFetches
  {
    dates, results, counts := [], [], Counters(0, 0, 0, 0);
    var v := ValidateRange(cfg, cmd);
    if v.Failure? {
      err := Some(v.error);
      return;
    }
    var code, start, end := v.value.code, v.value.start, v.value.end;
    dates := EnumerateDates(start, end);
    // The source's "no dates found" branch cannot be taken.
    DateRangeEnds(start, end);
    assert |dates| > 0;
    var client := New(cfg, cfg.fxApiBaseUrl);
    results, counts := FetchDays(client, get, upsert, code, dates);
    DayResultsAt(client, get, upsert, code, dates);
    err := None;
  }

  // ---------------------------------------------------------------------------
  // Fetch all

  /** The position of the first entry whose date does not parse, or the number
      of entries when every date parses. */
  function FirstBadDate(entries: seq<CurrencyRate>): (b: nat)
    ensures b <= |entries|
    ensures b < |entries| ==> Parse(entries[b].rate.date).None?
    ensures forall k :: 0 <= k < b ==> Parse(entries[k].rate.date).Some?
  {
    if entries == [] then 0
    else if Parse(entries[0].rate.date).None? then 0
    else 1 + FirstBadDate(entries[1..])
  }

  /** Storing one entry of the latest rates under its own currency code. */
  function Entry(upsert: FxRow -> bool, rate: CurrencyRate, d: Date): DayResult
  {
    var row := RowOf(rate.currencyCode, d, rate.rate);
    if upsert(row) then Stored(row) else StoreFailed(row)
  }

  /** What a batch of stores did, and the error it ended with. */
  datatype Batch = Batch(results: seq<DayResult>, err: Option<Error>)

  /** The store loop of `handlerFxFetchAll` over `entries`. */
  function StoreEntries(upsert: FxRow -> bool, entries: seq<CurrencyRate>): Batch
    decreases |entries|
  {
    if entries == [] then Batch([], None)
    else match Parse(entries[0].rate.date)
      case None => Batch([], Some(FxDateInvalid(entries[0].rate.date)))
      case Some(d) =>
        var rest := StoreEntries(upsert, entries[1..]);
        Batch([Entry(upsert, entries[0], d)] + rest.results, rest.err)
  }

  /** The loop stores every entry before the first unparsable date, in order,
      skipping none of them whether or not its store succeeds, and then stops
      with that date's error; with no such date it returns nil. */
  lemma {:induction false} StoreEntriesStopsAtFirstBadDate(upsert: FxRow -> bool, entries: seq<CurrencyRate>)
    ensures |StoreEntries(upsert, entries).results| == FirstBadDate(entries)
    ensures forall k :: 0 <= k < FirstBadDate(entries) ==>
      StoreEntries(upsert, entries).results[k] == Entry(upsert, entries[k], Parse(entries[k].rate.date).value)
    ensures StoreEntries(upsert, entries).err ==
      if FirstBadDate(entries) < |entries| then Some(FxDateInvalid(entries[FirstBadDate(entries)].rate.date))
      else None
    decreases |entries|
  {
    if entries != [] && Parse(entries[0].rate.date).Some? {
      var tail := entries[1..];
      StoreEntriesStopsAtFirstBadDate(upsert, tail);
      var d := Parse(entries[0].rate.date).value;
      ConsIndex(Entry(upsert, entries[0], d), StoreEntries(upsert, tail).results);
      assert forall k :: 1 <= k < |entries| ==> entries[k] == tail[k - 1];
    }
  }

  /** A failed store never ends fetch-all: when every date parses, every entry
      is attempted and the handler returns nil. */
  lemma FetchAllAttemptsEveryEntry(upsert: FxRow -> bool, entries: seq<CurrencyRate>)
    requires forall k :: 0 <= k < |entries| ==> Parse(entries[k].rate.date).Some?
    ensures |StoreEntries(upsert, entries).results| == |entries|
    ensures StoreEntries(upsert, entries).err == None
  {
    StoreEntriesStopsAtFirstBadDate(upsert, entries);
  }

  /** `handlerFxFetchAll`: without a base URL, or when the fetch fails, nothing
      is stored and an error is returned. Otherwise the entries are stored in
      order as StoreEntries describes. */
  method FetchAll(cfg: Config.Config, get: string -> Reply<MultiRateResponse>, upsert: FxRow -> bool)
    returns (err: Option<Error>, results: seq<DayResult>)
    ensures cfg.fxApiBaseUrl == [] ==> err == Some(FxBaseUrlMissing) && results == []
    ensures cfg.fxApiBaseUrl != [] && FetchLatestRatesAll(New(cfg, cfg.fxApiBaseUrl), get).Failure? ==>
      err == Some(FxFetchFailed(FetchLatestRatesAll(New(cfg, cfg.fxApiBaseUrl), get).error)) && results == []
    ensures cfg.fxApiBaseUrl != [] && FetchLatestRatesAll(New(cfg, cfg.fxApiBaseUrl), get).Success? ==>
      Batch(results, err) == StoreEntries(upsert, FetchLatestRatesAll(New(cfg, cfg.fxApiBaseUrl), get).value.data)
  {
    results := [];
    if cfg.fxApiBaseUrl == [] {
      return Some(FxBaseUrlMissing), results;
    }
    var client := New(cfg, cfg.fxApiBaseUrl);
    var reply := FetchLatestRatesAll(client, get);
    if reply.Failure? {
      return Some(FxFetchFailed(reply.error)), results;
    }
    var entries := reply.value.data;
    var i := 0;
    while i < |entries|
      invariant i <= |entries|
      invariant StoreEntries(upsert, entries) == Batch(results + StoreEntries(upsert, entries[i..]).results,
                                                     StoreEntries(upsert, entries[i..]).err)
    {
      assert entries[i..][0] == entries[i] && entries[i..][1..] == entries[i + 1..];
      var parsed := Parse(entries[i].rate.date);
      if parsed.None? {
        assert results + [] == results;
        return Some(FxDateInvalid(entries[i].rate.date)), results;
      }
      var row := RowOf(entries[i].currencyCode, parsed.value, entries[i].rate);
      var r;
      if upsert(row) {
        r := Stored(row);
      } else {
        // The failed store is logged and the loop continues.
        r := StoreFailed(row);
      }
      AppendAssoc(results, [r], StoreEntries(upsert, entries[i + 1..]).results);
      results := results + [r];
      i := i + 1;
    }
    assert results + [] == results;
    err := None;
  }
}

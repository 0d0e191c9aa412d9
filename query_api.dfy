/** https.go: the two read-only JSON endpoints of the HTTPS server,
    `/api/stock/prices` and `/api/fx/rates`. A request is its method and its
    query parameters; the database query is a function from the validated
    range to its reply, and Go's `strconv.ParseFloat` a function from text to
    an optional number. */
module QueryApi {
  import opened Wrappers
  import opened Text
  import opened Dates

  /** An HTTP request: its method and the first value of each query parameter. */
  datatype Request = Request(httpMethod: string, query: map<string, string>)

  /** `r.URL.Query().Get(key)`: the parameter's value, or "" when it is absent. */
  function Param(req: Request, key: string): (v: string)
    ensures key !in req.query ==> v == ""
    ensures key in req.query ==> v == req.query[key]
  {
    if key in req.query then req.query[key] else ""
  }

  /** The parameters of a range query: a code and the two parsed dates. */
  datatype RangeQuery = RangeQuery(code: string, start: Date, end: Date)

  /** What a `:many` query returns: rows, `sql.ErrNoRows`, or another error. */
  datatype DbReply<Row> = Rows(rows: seq<Row>) | NoRows | DbFailure

  datatype ApiError =
    | MethodNotAllowed
    | MissingParameters
    | InvalidCurrencyCode
    | InvalidStartDate
    | InvalidEndDate
    | InternalError

  /** The HTTP status `http.Error` sends for each error. */
  function StatusOf(e: ApiError): (status: int)
    ensures status == 405 <==> e == MethodNotAllowed
    ensures status == 500 <==> e == InternalError
    ensures status == 400 <==> e != MethodNotAllowed && e != InternalError
  {
    match e
    case MethodNotAllowed => 405
    case InternalError => 500
    case _ => 400
  }

  /** A JSON array sent with status 200, or an error. */
  datatype Response<T> = Json(items: seq<T>) | HttpError(error: ApiError)

  /** What a handler did: its response and the database query it issued, if any. */
  datatype Served<T> = Served(response: Response<T>, query: Option<RangeQuery>)

  /** The checks both handlers make, in order: the method must be GET; code,
      start_date and end_date must all be non-empty; for the FX endpoint the
      code must be three bytes long; then start_date and end_date must parse
      as YYYY-MM-DD. The order of the two dates is not checked. */
  function ValidateQuery(req: Request, checkCurrency: bool): (r: Result<RangeQuery, ApiError>)
    ensures req.httpMethod != "GET" ==> r == Failure(MethodNotAllowed)
    ensures (req.httpMethod == "GET"
             && (Param(req, "code") == [] || Param(req, "start_date") == [] || Param(req, "end_date") == []))
      ==> r == Failure(MissingParameters)
    ensures r.Success? <==>
      req.httpMethod == "GET" && Param(req, "code") != [] && Param(req, "start_date") != []
      && Param(req, "end_date") != [] && (checkCurrency ==> Utf8Len(Param(req, "code")) == 3)
      && Parse(Param(req, "start_date")).Some? && Parse(Param(req, "end_date")).Some?
    ensures r.Success? ==>
      r.value == RangeQuery(Param(req, "code"), Parse(Param(req, "start_date")).value,
                            Parse(Param(req, "end_date")).value)
  {
    var code, startText, endText := Param(req, "code"), Param(req, "start_date"), Param(req, "end_date");
    if req.httpMethod != "GET" then Failure(MethodNotAllowed)
    else if code == [] || startText == [] || endText == [] then Failure(MissingParameters)
    else if checkCurrency && Utf8Len(code) != 3 then Failure(InvalidCurrencyCode)
    else match Parse(startText)
      case None => Failure(InvalidStartDate)
      case Some(start) =>
        match Parse(endText)
        case None => Failure(InvalidEndDate)
        case Some(end) => Success(RangeQuery(code, start, end))
  }

  /** The method is checked first: a request that is not GET is refused with
      405 whatever its parameters. */
  lemma MethodCheckedFirst(req: Request, checkCurrency: bool)
    requires req.httpMethod != "GET"
    ensures StatusOf(ValidateQuery(req, checkCurrency).error) == 405
  {
  }

  /** A start date that does not parse is reported before the end date is looked at. */
  lemma StartDateBeforeEndDate(req: Request, checkCurrency: bool)
    requires req.httpMethod == "GET" && Param(req, "code") != [] && Param(req, "end_date") != []
    requires checkCurrency ==> Utf8Len(Param(req, "code")) == 3
    requires Param(req, "start_date") != [] && Parse(Param(req, "start_date")).None?
    ensures ValidateQuery(req, checkCurrency) == Failure(InvalidStartDate)
  {
  }

  // ---------------------------------------------------------------------------
  // Shaping rows into JSON items

  /** The converted rows, in order, without the rows `convert` rejects. */
  function Keep<R, T>(rows: seq<R>, convert: R -> Option<T>): (kept: seq<T>)
    ensures |kept| <= |rows|
  {
    if rows == [] then []
    else
      var init := Keep(rows[..|rows| - 1], convert);
      match convert(rows[|rows| - 1])
      case Some(item) => init + [item]
      case None => init
  }

  /** Shaping keeps order: the items of two runs of rows are the items of the
      first followed by those of the second. */
  lemma {:induction false} KeepAppend<R, T>(a: seq<R>, b: seq<R>, convert: R -> Option<T>)
    ensures Keep(a + b, convert) == Keep(a, convert) + Keep(b, convert)
    decreases |b|
  {
    if b == [] {
      assert a + b == a;
    } else {
      var init := b[..|b| - 1];
      assert (a + b)[..|a + b| - 1] == a + init;
      assert (a + b)[|a + b| - 1] == b[|b| - 1];
      KeepAppend(a, init, convert);
    }
  }

  /** When every row converts, there is one item per row, in row order. */
  lemma {:induction false} KeepAll<R, T>(rows: seq<R>, convert: R -> Option<T>)
    requires forall k :: 0 <= k < |rows| ==> convert(rows[k]).Some?
    ensures |Keep(rows, convert)| == |rows|
    ensures forall k :: 0 <= k < |rows| ==> Keep(rows, convert)[k] == convert(rows[k]).value
    decreases |rows|
  {
    if rows != [] {
      var init := rows[..|rows| - 1];
      assert forall k :: 0 <= k < |init| ==> init[k] == rows[k];
      KeepAll(init, convert);
    }
  }

  /** When no row converts, the answer is the empty array. */
  lemma {:induction false} KeepNone<R, T>(rows: seq<R>, convert: R -> Option<T>)
    requires forall k :: 0 <= k < |rows| ==> convert(rows[k]).None?
    ensures Keep(rows, convert) == []
    decreases |rows|
  {
    if rows != [] {
      var init := rows[..|rows| - 1];
      assert forall k :: 0 <= k < |init| ==> init[k] == rows[k];
      KeepNone(init, convert);
    }
  }

  // ---------------------------------------------------------------------------
  // /api/stock/prices

  /** A row of `GetStockPricesWithDetailsByCodeAndDateRange`; the price is
      stored as text. */
  datatype StockDbRow = StockDbRow(priceDate: Date, closingPrice: string, companyName: string, stockCode: string)

  /** `StockPriceDetailResponseItem`. */
  datatype StockItem = StockItem(date: string, value: real, companyName: string, stockCode: string)

  /** A row's item, or nothing when its price does not parse. */
  function StockItemOf(row: StockDbRow, parseFloat: string -> Option<real>): (item: Option<StockItem>)
    ensures item.Some? <==> parseFloat(row.closingPrice).Some?
    ensures item.Some? ==> item.value == StockItem(Format(row.priceDate), parseFloat(row.closingPrice).value,
                                                   row.companyName, row.stockCode)
  {
    match parseFloat(row.closingPrice)
    case None => None
    case Some(price) => Some(StockItem(Format(row.priceDate), price, row.companyName, row.stockCode))
  }

  function StockItems(rows: seq<StockDbRow>, parseFloat: string -> Option<real>): seq<StockItem>
  {
    Keep(rows, row => StockItemOf(row, parseFloat))
  }

  /** Every item carries its row's formatted date, parsed price, company name
      and stock code when every price parses. */
  lemma StockItemsOfParsedRows(rows: seq<StockDbRow>, parseFloat: string -> Option<real>)
    requires forall k :: 0 <= k < |rows| ==> parseFloat(rows[k].closingPrice).Some?
    ensures |StockItems(rows, parseFloat)| == |rows|
    ensures forall k :: 0 <= k < |rows| ==>
      StockItems(rows, parseFloat)[k] == StockItem(Format(rows[k].priceDate), parseFloat(rows[k].closingPrice).value,
                                                   rows[k].companyName, rows[k].stockCode)
  {
    KeepAll(rows, row => StockItemOf(row, parseFloat));
  }

  /** `handleGetStockPrices`. */
  function StockPrices(req: Request, db: RangeQuery -> DbReply<StockDbRow>, parseFloat: string -> Option<real>)
    : (s: Served<StockItem>)
    ensures s.query.Some? <==> ValidateQuery(req, false).Success?
    ensures s.query.None? ==> s.response == HttpError(ValidateQuery(req, false).error)
    ensures s.query.Some? ==> s.query.value == ValidateQuery(req, false).value
    ensures s.query.Some? && db(s.query.value).NoRows? ==> s.response == Json([])
    ensures s.query.Some? && db(s.query.value).DbFailure? ==> s.response == HttpError(InternalError)
    ensures s.query.Some? && db(s.query.value).Rows? ==>
      s.response.Json? && |s.response.items| <= |db(s.query.value).rows|
  {
    match ValidateQuery(req, false)
    case Failure(e) => Served(HttpError(e), None)
    case Success(q) =>
      match db(q)
      case NoRows => Served(Json([]), Some(q))
      case DbFailure => Served(HttpError(InternalError), Some(q))
      case Rows(rows) => Served(Json(StockItems(rows, parseFloat)), Some(q))
  }

  method HandleGetStockPrices(req: Request, db: RangeQuery -> DbReply<StockDbRow>, parseFloat: string -> Option<real>)
    returns (s: Served<StockItem>)
    ensures s == StockPrices(req, db, parseFloat)
  {
    if req.httpMethod != "GET" {
      return Served(HttpError(MethodNotAllowed), None);
    }
    var stockCode, startDateStr, endDateStr := Param(req, "code"), Param(req, "start_date"), Param(req, "end_date");
    if stockCode == "" || startDateStr == "" || endDateStr == "" {
      return Served(HttpError(MissingParameters), None);
    }
    var startDate := Parse(startDateStr);
    if startDate.None? {
      return Served(HttpError(InvalidStartDate), None);
    }
    var endDate := Parse(endDateStr);
    if endDate.None? {
      return Served(HttpError(InvalidEndDate), None);
    }
    var q := RangeQuery(stockCode, startDate.value, endDate.value);
    var reply := db(q);
    if reply.NoRows? {
      return Served(Json([]), Some(q));
    } else if reply.DbFailure? {
      return Served(HttpError(InternalError), Some(q));
    }
    var dbResults := reply.rows;
    var response: seq<StockItem> := [];
    var i := 0;
    while i < |dbResults|
      invariant i <= |dbResults| && response == StockItems(dbResults[..i], parseFloat)
    {
      assert dbResults[..i + 1][..i] == dbResults[..i];
      var dbRow := dbResults[i];
      var price := parseFloat(dbRow.closingPrice);
      if price.Some? {
        response := response + [StockItem(Format(dbRow.priceDate), price.value, dbRow.companyName, dbRow.stockCode)];
      }
      i := i + 1;
    }
    assert dbResults[..i] == dbResults;
    s := Served(Json(response), Some(q));
  }

  // ---------------------------------------------------------------------------
  // /api/fx/rates

  /** The columns of a `GetForeignExchangeByCurrencyAndDateRange` row the
      handler reads; the rate is stored as text. */
  datatype FxDbRow = FxDbRow(date: Date, middleRate: string)

  /** `TimeSeriesDataPoint`. */
  datatype DataPoint = DataPoint(date: string, value: real)

  /** A row's point, from its middle rate, or nothing when that does not parse. */
  function PointOf(row: FxDbRow, parseFloat: string -> Option<real>): (p: Option<DataPoint>)
    ensures p.Some? <==> parseFloat(row.middleRate).Some?
    ensures p.Some? ==> p.value == DataPoint(Format(row.date), parseFloat(row.middleRate).value)
  {
    match parseFloat(row.middleRate)
    case None => None
    case Some(value) => Some(DataPoint(Format(row.date), value))
  }

  function Points(rows: seq<FxDbRow>, parseFloat: string -> Option<real>): seq<DataPoint>
  {
    Keep(rows, row => PointOf(row, parseFloat))
  }

  /** Every point carries its row's formatted date and middle rate when every
      middle rate parses. */
  lemma PointsOfParsedRows(rows: seq<FxDbRow>, parseFloat: string -> Option<real>)
    requires forall k :: 0 <= k < |rows| ==> parseFloat(rows[k].middleRate).Some?
    ensures |Points(rows, parseFloat)| == |rows|
    ensures forall k :: 0 <= k < |rows| ==>
      Points(rows, parseFloat)[k] == DataPoint(Format(rows[k].date), parseFloat(rows[k].middleRate).value)
  {
    KeepAll(rows, row => PointOf(row, parseFloat));
  }

  /** `handleGetFxRates`. */
  function FxRates(req: Request, db: RangeQuery -> DbReply<FxDbRow>, parseFloat: string -> Option<real>)
    : (s: Served<DataPoint>)
    ensures s.query.Some? <==> ValidateQuery(req, true).Success?
    ensures s.query.None? ==> s.response == HttpError(ValidateQuery(req, true).error)
    ensures s.query.Some? ==> s.query.value == ValidateQuery(req, true).value
    ensures s.query.Some? && db(s.query.value).NoRows? ==> s.response == Json([])
    ensures s.query.Some? && db(s.query.value).DbFailure? ==> s.response == HttpError(InternalError)
    ensures s.query.Some? && db(s.query.value).Rows? ==>
      s.response.Json? && |s.response.items| <= |db(s.query.value).rows|
  {
    match ValidateQuery(req, true)
    case Failure(e) => Served(HttpError(e), None)
    case Success(q) =>
      match db(q)
      case NoRows => Served(Json([]), Some(q))
      case DbFailure => Served(HttpError(InternalError), Some(q))
      case Rows(rows) => Served(Json(Points(rows, parseFloat)), Some(q))
  }

  /** A currency code that is not three bytes long is refused with 400 and the
      database is not queried. */
  lemma BadCurrencyCodeNotQueried(req: Request, db: RangeQuery -> DbReply<FxDbRow>, parseFloat: string -> Option<real>)
    requires req.httpMethod == "GET" && Param(req, "code") != [] && Param(req, "start_date") != []
    requires Param(req, "end_date") != [] && Utf8Len(Param(req, "code")) != 3
    ensures FxRates(req, db, parseFloat) == Served(HttpError(InvalidCurrencyCode), None)
    ensures StatusOf(InvalidCurrencyCode) == 400
  {
  }

  method HandleGetFxRates(req: Request, db: RangeQuery -> DbReply<FxDbRow>, parseFloat: string -> Option<real>)
    returns (s: Served<DataPoint>)
    ensures s == FxRates(req, db, parseFloat)
  {
    if req.httpMethod != "GET" {
      return Served(HttpError(MethodNotAllowed), None);
    }
    var currencyCode, startDateStr, endDateStr := Param(req, "code"), Param(req, "start_date"), Param(req, "end_date");
    if currencyCode == "" || startDateStr == "" || endDateStr == "" {
      return Served(HttpError(MissingParameters), None);
    }
    if Utf8Len(currencyCode) != 3 {
      return Served(HttpError(InvalidCurrencyCode), None);
    }
    var startDate := Parse(startDateStr);
    if startDate.None? {
      return Served(HttpError(InvalidStartDate), None);
    }
    var endDate := Parse(endDateStr);
    if endDate.None? {
      return Served(HttpError(InvalidEndDate), None);
    }
    var q := RangeQuery(currencyCode, startDate.value, endDate.value);
    var reply := db(q);
    if reply.NoRows? {
      return Served(Json([]), Some(q));
    } else if reply.DbFailure? {
      return Served(HttpError(InternalError), Some(q));
    }
    var dbResults := reply.rows;
    var response: seq<DataPoint> := [];
    var i := 0;
    while i < |dbResults|
      invariant i <= |dbResults| && response == Points(dbResults[..i], parseFloat)
    {
      assert dbResults[..i + 1][..i] == dbResults[..i];
      var dbRow := dbResults[i];
      var value := parseFloat(dbRow.middleRate);
      if value.Some? {
        response := response + [DataPoint(Format(dbRow.date), value.value)];
      }
      i := i + 1;
    }
    assert dbResults[..i] == dbResults;
    s := Served(Json(response), Some(q));
  }
}

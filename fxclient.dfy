/** internal/BNMApiClient/fxclient.go: the rate-API client. Building the
    request URL and classifying the reply are modelled; the HTTP exchange
    itself is a parameter that maps a URL to the reply the server gives. */
module FxClient {
  import opened Wrappers
  import opened Text
  import Config

  /** What one GET produced: a transport failure (no response at all), or a
      status code with the body decoded into the expected JSON shape, or None
      when the body does not decode. */
  datatype Reply<T> = TransportFailure | Response(status: int, body: Option<T>)

  datatype RateInfo = RateInfo(date: string, buyingRate: real, sellingRate: real, middleRate: real)

  datatype CurrencyRate = CurrencyRate(currencyCode: string, unit: int, rate: RateInfo)

  /** Body of the one-currency, one-date endpoint: `data` is a single object. */
  datatype SingleRateResponse = SingleRateResponse(data: CurrencyRate)

  /** Body of the all-currencies endpoint: `data` is an array. */
  datatype MultiRateResponse = MultiRateResponse(data: seq<CurrencyRate>)

  datatype ClientError =
    | RequestFailed
    | NoData(currency: string, date: string)
    | BadStatus(status: int)
    | DecodeFailed

  datatype Client = Client(baseUrl: string, apiKey: string)

  const Session := "?session=1200&quote=rm"

  /** `New`: the base URL comes from the argument, the key from the config. */
  function New(cfg: Config.Config, baseUrl: string): (c: Client)
    ensures c.baseUrl == baseUrl && c.apiKey == cfg.fxApiKey
  {
    Client(baseUrl, cfg.fxApiKey)
  }

  /** The URL of `FetchTargetCurrencyRates`. */
  function TargetRatesUrl(c: Client, currency: string, date: string): (url: string)
    ensures HasPrefix(url, c.baseUrl + "/" + currency + "/date/")
    ensures HasSuffix(url, Session)
    ensures |url| == |c.baseUrl| + |currency| + |date| + 7 + |Session|
    ensures url[|c.baseUrl| + |currency| + 7..|url| - |Session|] == date
  {
    c.baseUrl + "/" + currency + "/date/" + date + Session
  }

  /** The URL of `FetchLatestRatesAll`. */
  function LatestRatesUrl(c: Client): (url: string)
    ensures HasPrefix(url, c.baseUrl) && HasSuffix(url, Session)
    ensures |url| == |c.baseUrl| + |Session|
  {
    c.baseUrl + Session
  }

  /** For one client and codes of one length, distinct (currency, date) pairs
      are requested at distinct URLs, so a date range makes one request per day. */
  lemma TargetRatesUrlInjective(c: Client, cur1: string, date1: string, cur2: string, date2: string)
    requires |cur1| == |cur2|
    requires TargetRatesUrl(c, cur1, date1) == TargetRatesUrl(c, cur2, date2)
    ensures cur1 == cur2 && date1 == date2
  {
    var u := TargetRatesUrl(c, cur1, date1);
    var b := |c.baseUrl| + 1;
    assert u[b..b + |cur1|] == cur1;
    assert TargetRatesUrl(c, cur2, date2)[b..b + |cur2|] == cur2;
    var d := b + |cur1| + 6;
    assert u[d..d + |date1|] == date1;
    assert TargetRatesUrl(c, cur2, date2)[d..d + |date2|] == date2;
  }

  /** Status handling of `FetchTargetCurrencyRates`: 404 first, as "no data",
      then any other non-200 status, then the decoding of the body. */
  function ClassifyTarget(reply: Reply<SingleRateResponse>, currency: string, date: string)
    : (r: Result<SingleRateResponse, ClientError>)
    ensures r.Success? <==> reply.Response? && reply.status == 200 && reply.body.Some?
    ensures r.Success? ==> r.value == reply.body.value
    ensures reply.Response? && reply.status == 404 ==> r == Failure(NoData(currency, date))
    ensures r.Failure? && r.error.NoData? <==> reply.Response? && reply.status == 404
    ensures reply.Response? && reply.status != 200 && reply.status != 404 ==> r == Failure(BadStatus(reply.status))
    ensures reply.TransportFailure? ==> r == Failure(RequestFailed)
    ensures r == Failure(DecodeFailed) <==> reply.Response? && reply.status == 200 && reply.body.None?
  {
    match reply
    case TransportFailure => Failure(RequestFailed)
    case Response(status, body) =>
      if status == 404 then Failure(NoData(currency, date))
      else if status != 200 then Failure(BadStatus(status))
      else if body.None? then Failure(DecodeFailed)
      else Success(body.value)
  }

  /** Status handling of `FetchLatestRatesAll`: no special case for 404. */
  function ClassifyLatest(reply: Reply<MultiRateResponse>): (r: Result<MultiRateResponse, ClientError>)
    ensures r.Success? <==> reply.Response? && reply.status == 200 && reply.body.Some?
    ensures r.Success? ==> r.value == reply.body.value
    ensures reply.Response? && reply.status != 200 ==> r == Failure(BadStatus(reply.status))
    ensures reply.TransportFailure? ==> r == Failure(RequestFailed)
    ensures r == Failure(DecodeFailed) <==> reply.Response? && reply.status == 200 && reply.body.None?
  {
    match reply
    case TransportFailure => Failure(RequestFailed)
    case Response(status, body) =>
      if status != 200 then Failure(BadStatus(status))
      else if body.None? then Failure(DecodeFailed)
      else Success(body.value)
  }

  /** `FetchTargetCurrencyRates`: one GET of the target URL, then classification. */
  function FetchTargetCurrencyRates(c: Client, get: string -> Reply<SingleRateResponse>,
                                    currency: string, date: string)
    : Result<SingleRateResponse, ClientError>
  {
    ClassifyTarget(get(TargetRatesUrl(c, currency, date)), currency, date)
  }

  /** `FetchLatestRatesAll`: one GET of the latest URL, then classification. */
  function FetchLatestRatesAll(c: Client, get: string -> Reply<MultiRateResponse>)
    : Result<MultiRateResponse, ClientError>
  {
    ClassifyLatest(get(LatestRatesUrl(c)))
  }

  /** The two endpoints treat a 404 differently: "no data" for one date, a plain
      status error for the latest rates. */
  lemma NotFoundDiffers(c: Client, getOne: string -> Reply<SingleRateResponse>,
                        getAll: string -> Reply<MultiRateResponse>, currency: string, date: string)
    requires getOne(TargetRatesUrl(c, currency, date)).Response?
    requires getOne(TargetRatesUrl(c, currency, date)).status == 404
    requires getAll(LatestRatesUrl(c)) == Response(404, None)
    ensures FetchTargetCurrencyRates(c, getOne, currency, date) == Failure(NoData(currency, date))
    ensures FetchLatestRatesAll(c, getAll) == Failure(BadStatus(404))
  {
  }
}

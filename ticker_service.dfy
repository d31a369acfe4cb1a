/**
 * The ticker service (src/services/ticker.service.ts): listing tickers and
 * creating one, both through the authenticated client at
 * `buildApiUrl('/tickers')`.
 */
module TickerService {
  import opened Wrappers
  import Json
  import Http
  import Api

  /** The fields a new ticker is created from. */
  datatype TickerInput = TickerInput(name: string, symbol: string, tickerType: string, currency: string)

  const FailedToFetch := "Failed to fetch tickers"
  const NotAList := "API did not return a list of tickers"
  const FailedToCreate := "Failed to create ticker"

  /** The endpoint both calls target. */
  function TickersUrl(base: string): (url: string)
    ensures url == base + "/tickers"
  {
    Api.BuildApiUrl(base, "/tickers")
  }

  /** Lines 19-24: the listing request. */
  function ListRequest(base: string): Http.Request
  {
    Http.Request(Http.AuthClient, Http.GET, TickersUrl(base), Http.JsonHeaders, true, None)
  }

  /**
   * Lines 19-30: list the tickers. A non-2xx status throws before the body
   * is read; a bare array is the list and wins over every other reading; a
   * truthy body whose `tickers` is an array holds the list; anything else
   * throws.
   */
  function GetTickers(base: string, res: Http.Response): (x: Http.Exchange<seq<Json.Value>>)
    ensures x.request.transport == Http.AuthClient && x.request.verb == Http.GET
    ensures x.request.url == base + "/tickers" && x.request.headers == Http.JsonHeaders
    ensures x.request.withCredentials && x.request.body.None?
    ensures !Http.IsOk(res.status) ==> x.result == Err(FailedToFetch)
    ensures Http.IsOk(res.status) && res.body.Arr? ==> x.result == Ok(res.body.items)
    ensures Http.IsOk(res.status) && !res.body.Arr? ==>
      (x.result.Ok? <==> res.body.Obj? && "tickers" in res.body.fields && res.body.fields["tickers"].Arr?)
    ensures Http.IsOk(res.status) && !res.body.Arr? && x.result.Ok? ==> x.result.value == res.body.fields["tickers"].items
    ensures Http.IsOk(res.status) && x.result.Err? ==> x.result.message == NotAList
  {
    Http.Exchange(ListRequest(base), Http.ListResult(res, "tickers", FailedToFetch, NotAList))
  }

  /** A 2xx answer carrying the list, bare or wrapped as `{ tickers: list }`, yields that list. */
  lemma {:induction false} GetTickersAcceptsBothShapes(base: string, status: int, list: seq<Json.Value>)
    requires Http.IsOk(status)
    ensures GetTickers(base, Http.Response(status, Json.Arr(list))).result == Ok(list)
    ensures GetTickers(base, Http.Response(status, Json.Wrap("tickers", list))).result == Ok(list)
  {
    Http.DecodeListBothShapes(list, "tickers");
  }

  /** Line 42: the body is the object with exactly the four input fields. */
  function TickerBody(d: TickerInput): (v: Json.Value)
    ensures v.Obj? && v.fields.Keys == {"name", "symbol", "type", "currency"}
    ensures v.fields["name"] == Json.Str(d.name) && v.fields["symbol"] == Json.Str(d.symbol)
    ensures v.fields["type"] == Json.Str(d.tickerType) && v.fields["currency"] == Json.Str(d.currency)
  {
    Json.Obj(map["name" := Json.Str(d.name), "symbol" := Json.Str(d.symbol),
                 "type" := Json.Str(d.tickerType), "currency" := Json.Str(d.currency)])
  }

  /** Reading the four fields back from the body gives the input. */
  function DecodeTickerBody(v: Json.Value): Option<TickerInput>
  {
    if v.Obj? && "name" in v.fields && "symbol" in v.fields && "type" in v.fields && "currency" in v.fields
       && v.fields["name"].Str? && v.fields["symbol"].Str? && v.fields["type"].Str? && v.fields["currency"].Str?
    then Some(TickerInput(v.fields["name"].s, v.fields["symbol"].s, v.fields["type"].s, v.fields["currency"].s))
    else None
  }

  /**
   * Lines 32-46: create a ticker. The request POSTs the input's four fields
   * to the same endpoint as the listing; a non-2xx status throws, otherwise
   * the decoded body is the created ticker.
   */
  function CreateTicker(base: string, d: TickerInput, res: Http.Response): (x: Http.Exchange<Json.Value>)
    ensures x.request.transport == Http.AuthClient && x.request.verb == Http.POST
    ensures x.request.url == base + "/tickers" && x.request.headers == Http.JsonHeaders
    ensures x.request.withCredentials
    ensures x.request.body == Some(TickerBody(d)) && DecodeTickerBody(x.request.body.value) == Some(d)
    ensures x.result.Ok? <==> Http.IsOk(res.status)
    ensures x.result.Ok? ==> x.result.value == res.body
    ensures x.result.Err? ==> x.result.message == FailedToCreate
  {
    var request := Http.Request(Http.AuthClient, Http.POST, TickersUrl(base), Http.JsonHeaders, true, Some(TickerBody(d)));
    Http.Exchange(request, Http.BodyResult(res, FailedToCreate))
  }

  /** Listing and creating talk to one endpoint, whatever the responses. */
  lemma SameEndpoint(base: string, d: TickerInput, listed: Http.Response, created: Http.Response)
    ensures GetTickers(base, listed).request.url == CreateTicker(base, d, created).request.url
  {
  }
}

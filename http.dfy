/**
 * Requests and responses as the service modules see them. A network call is
 * replaced by the response the server gives: its status and its decoded body.
 */
module Http {
  import opened Wrappers
  import Json
  import Storage

  datatype Method = GET | POST | PUT

  /** Whether a call goes through the authenticated client (`fetchWithAuth`) or straight to the platform's `fetch`. */
  datatype Transport = AuthClient | PlainFetch

  /**
   * An outbound call: its target, method, headers, whether cookies are sent
   * (`credentials: 'include'`) and the JSON body, if any.
   */
  datatype Request = Request(
    transport: Transport,
    verb: Method,
    url: string,
    headers: map<string, string>,
    withCredentials: bool,
    body: Option<Json.Value>)

  /** What the server answered: a status code and the body that `res.json()` decodes. */
  datatype Response = Response(status: int, body: Json.Value)

  /** One call of a service function: the request it issues and what it returns or throws. */
  datatype Exchange<T> = Exchange(request: Request, result: Result<T>)

  /** `res.ok`: the status is in the 2xx range. */
  predicate IsOk(status: int)
  {
    200 <= status <= 299
  }

  const ContentType := "Content-Type"
  const Authorization := "Authorization"
  const JsonMediaType := "application/json"

  /** The headers `{ 'Content-Type': 'application/json' }`. */
  const JsonHeaders: map<string, string> := map[ContentType := JsonMediaType]

  /**
   * The headers of a call made with a stored access token: always the JSON
   * content type, and `Authorization: Bearer <token>` exactly when the token is
   * present and non-empty; no other header.
   */
  ghost predicate BearerHeaders(headers: map<string, string>, token: Option<string>)
  {
    && headers.Keys == (if Storage.Present(token) then {ContentType, Authorization} else {ContentType})
    && headers[ContentType] == JsonMediaType
    && (Storage.Present(token) ==> headers[Authorization] == "Bearer " + token.value)
  }

  /**
   * The header record built in place: start from the JSON content type and
   * add the bearer authorisation when the stored token is present and
   * non-empty.
   */
  method TokenHeaders(token: Option<string>) returns (headers: map<string, string>)
    ensures BearerHeaders(headers, token)
  {
    headers := map[ContentType := JsonMediaType];
    if Storage.Present(token) {
      headers := headers[Authorization := "Bearer " + token.value];
    }
  }

  /**
   * The list-response convention shared by the chapter, lesson and ticker
   * services: a bare array is the list; otherwise a truthy body whose `key`
   * property is an array holds the list; anything else is no list.
   */
  function DecodeList(body: Json.Value, key: string): (r: Option<seq<Json.Value>>)
    ensures body.Arr? ==> r == Some(body.items)
    ensures !body.Arr? ==> (r.Some? <==> body.Obj? && key in body.fields && body.fields[key].Arr?)
    ensures !body.Arr? && r.Some? ==> r.value == body.fields[key].items
  {
    if body.Arr? then Some(body.items)
    else if Json.Truthy(body) && Json.IsArray(Json.Member(body, key)) then Some(Json.Member(body, key).value.items)
    else None
  }

  /** The wrapped form `{ key: list }` decodes to the list, like the bare form. */
  lemma DecodeListBothShapes(list: seq<Json.Value>, key: string)
    ensures DecodeList(Json.Arr(list), key) == Some(list)
    ensures DecodeList(Json.Wrap(key, list), key) == Some(list)
  {
  }

  /** `null`, `{}` and a body whose `key` is not an array are no list. */
  lemma DecodeListRejects(key: string, other: Json.Value)
    requires !other.Arr?
    ensures DecodeList(Json.Null, key) == None
    ensures DecodeList(Json.Obj(map[]), key) == None
    ensures DecodeList(Json.Obj(map[key := other]), key) == None
  {
  }

  /**
   * The list a service returns, or its error: a non-2xx status throws
   * `failure` before the body is looked at, and a body that is no list throws
   * `notAList`.
   */
  function ListResult(res: Response, key: string, failure: string, notAList: string): Result<seq<Json.Value>>
  {
    if !IsOk(res.status) then Err(failure)
    else match DecodeList(res.body, key)
      case Some(list) => Ok(list)
      case None => Err(notAList)
  }

  /** The result of a call that returns the decoded body: a non-2xx status throws `failure`. */
  function BodyResult(res: Response, failure: string): Result<Json.Value>
  {
    if IsOk(res.status) then Ok(res.body) else Err(failure)
  }
}

/**
 * The authenticated HTTP client (src/lib/api.ts): builds the request headers,
 * sends the request, and unwraps the backend's `{result, code, data}` envelope,
 * raising an `ApiError` when `result` is false.
 *
 * The network is an input: a `Response<T>` is what `fetch` followed by
 * `res.json()` produced, either a parsed envelope or a thrown error. The bearer
 * token is passed in as the value `getToken()` returned when the request was
 * made; the request line itself (base URL, `fetch`) is recorded as an
 * `HttpRequest` value.
 */
module Api {
  import opened Wrappers
  import Text

  /** The envelope's `data`: a string (the error message on failure), or a value of the expected type. */
  datatype Data<T> = Str(text: string) | Typed(value: T)

  /** `ApiResponse<T>`: the envelope every backend answer is wrapped in. */
  datatype ApiResponse<T> = ApiResponse(result: bool, code: int, data: Data<T>)

  /** What `fetch` + `res.json()` delivered: a parsed envelope, or a thrown network/parse error. */
  datatype Response<T> = Thrown | Received(json: ApiResponse<T>)

  /** What a failed call throws: an `ApiError` from the envelope, or any other error passed through. */
  datatype Error = ApiError(message: string, code: int) | OtherError

  /** How a call of `request`/`upload` settles: it returns `data`, or it throws. */
  datatype Outcome<T> = Returned(data: Data<T>) | Raised(error: Error)

  /** A JSON value handed to `JSON.stringify` as a request body. */
  datatype Json =
    | JNull
    | JBool(b: bool)
    | JNumber(n: int)
    | JString(s: string)
    | JArray(items: seq<Json>)
    | JObject(members: seq<Member>)

  /** One `"name": value` entry of a JSON object. */
  datatype Member = Member(name: string, value: Json)

  /** JavaScript truthiness of a body value: `null`, `false`, `0` and `""` are falsy. */
  predicate JsonTruthy(j: Json) {
    match j
    case JNull => false
    case JBool(b) => b
    case JNumber(n) => n != 0
    case JString(s) => s != ""
    case _ => true
  }

  datatype File = File(name: string, bytes: seq<bv8>)

  /** The request body: none, `JSON.stringify(json)`, or a `FormData` with one file field. */
  datatype Body = NoBody | JsonBody(json: Json) | FormBody(field: string, file: File)

  datatype HttpMethod = POST | DELETE

  /** The `options` a caller passes to `request`; `verb: None` leaves fetch's default (GET). */
  datatype RequestInit = RequestInit(verb: Option<HttpMethod>, body: Body, headers: map<string, string>)

  /** The request handed to `fetch`, at `API_BASE_URL + endpoint`. */
  datatype HttpRequest = HttpRequest(endpoint: string, verb: Option<HttpMethod>, headers: map<string, string>, body: Body)

  const ContentType := "Content-Type"
  const Authorization := "Authorization"
  const JsonMediaType := "application/json"
  const RequestFallback := "알 수 없는 에러가 발생했습니다."
  const UploadFallback := "업로드 중 에러가 발생했습니다."

  /** The call went through: an envelope arrived and its `result` flag is true. */
  predicate Succeeded<T>(response: Response<T>) {
    response.Received? && response.json.result
  }

  /**
   * A successful envelope carries its `data` as a string (`Str`): what a
   * `string` payload, such as the login token, always arrives as. A failed
   * envelope may carry any `data`.
   */
  predicate StringPayload<T>(response: Response<T>) {
    Succeeded(response) ==> response.json.data.Str?
  }

  /** `if (token)`: a token is sent only when it is present and non-empty. */
  predicate HasToken(token: Option<string>) {
    Text.Truthy(token)
  }

  function BearerValue(token: string): (value: string) {
    "Bearer " + token
  }

  /** The `ApiError` message: `data` when it is a string, else the call's fallback text. */
  function ErrorMessage<T>(data: Data<T>, fallback: string): (m: string)
    ensures data.Str? ==> m == data.text
    ensures data.Typed? ==> m == fallback
  {
    match data
    case Str(text) => text
    case Typed(_) => fallback
  }

  /**
   * Unwrapping an envelope: `data` unchanged on success; on failure an
   * `ApiError` carrying the envelope's `code` and its message.
   */
  function Decode<T>(json: ApiResponse<T>, fallback: string): (r: Outcome<T>)
    ensures r.Returned? <==> json.result
    ensures r.Returned? ==> r.data == json.data
    ensures r.Raised? ==> r.error.ApiError? && r.error.code == json.code
    ensures r.Raised? && json.data.Str? ==> r.error.message == json.data.text
    ensures r.Raised? && json.data.Typed? ==> r.error.message == fallback
  {
    if json.result then Returned(json.data)
    else Raised(ApiError(ErrorMessage(json.data, fallback), json.code))
  }

  /** How a `request`/`upload` call settles for a given network result; a thrown error propagates. */
  function Receive<T>(response: Response<T>, fallback: string): (r: Outcome<T>)
    ensures response.Thrown? ==> r == Raised(OtherError)
    ensures r.Returned? <==> Succeeded(response)
    ensures r.Returned? ==> r.data == response.json.data
    ensures r.Raised? && response.Received? ==>
              r.error == ApiError(ErrorMessage(response.json.data, fallback), response.json.code)
  {
    match response
    case Thrown => Raised(OtherError)
    case Received(json) => Decode(json, fallback)
  }

  /**
   * The fault-tolerant decode of the server-side fetchers (`fetchApi` on the
   * home page, `fetchPublicApi`): `data` on success, null on a failed envelope
   * or on any thrown error.
   */
  function DataOrNull<T>(response: Response<T>): (r: Option<Data<T>>)
    ensures r.Some? <==> Succeeded(response)
    ensures r.Some? ==> r.value == response.json.data
  {
    match response
    case Thrown => None
    case Received(json) => if json.result then Some(json.data) else None
  }

  /**
   * The headers `request` sends: `Content-Type: application/json` unless the
   * caller gives its own, every caller header, and `Authorization: Bearer <token>`
   * over any caller value whenever there is a token.
   */
  function RequestHeaders(token: Option<string>, callerHeaders: map<string, string>): (h: map<string, string>)
    ensures h.Keys == callerHeaders.Keys + {ContentType} + (if HasToken(token) then {Authorization} else {})
    ensures h[ContentType] == if ContentType in callerHeaders then callerHeaders[ContentType] else JsonMediaType
    ensures HasToken(token) ==> h[Authorization] == BearerValue(token.value)
    ensures forall k :: k in callerHeaders && !(k == Authorization && HasToken(token)) ==> h[k] == callerHeaders[k]
  {
    var base := map[ContentType := JsonMediaType] + callerHeaders;
    if HasToken(token) then base[Authorization := BearerValue(token.value)] else base
  }

  /** The header record of `request`, built and then updated in place. */
  method BuildHeaders(token: Option<string>, callerHeaders: map<string, string>) returns (headers: map<string, string>)
    ensures headers == RequestHeaders(token, callerHeaders)
  {
    headers := map[ContentType := JsonMediaType] + callerHeaders;
    if HasToken(token) {
      headers := headers[Authorization := BearerValue(token.value)];
    }
  }

  /** The request `request` hands to `fetch`: the caller's options with the built headers. */
  method Prepare(endpoint: string, init: RequestInit, token: Option<string>) returns (req: HttpRequest)
    ensures req.endpoint == endpoint && req.verb == init.verb && req.body == init.body
    ensures req.headers == RequestHeaders(token, init.headers)
  {
    var headers := BuildHeaders(token, init.headers);
    req := HttpRequest(endpoint, init.verb, headers, init.body);
  }

  /** `request<T>(endpoint, options)`: send, then unwrap the envelope with the generic fallback. */
  method Request<T>(endpoint: string, init: RequestInit, token: Option<string>, response: Response<T>)
    returns (req: HttpRequest, outcome: Outcome<T>)
    ensures req.endpoint == endpoint && req.verb == init.verb && req.body == init.body
    ensures req.headers == RequestHeaders(token, init.headers)
    ensures outcome == Receive(response, RequestFallback)
  {
    req := Prepare(endpoint, init, token);
    outcome := Receive(response, RequestFallback);
  }

  /** `api.get`: no options, so fetch's default method. */
  function GetInit(): (init: RequestInit)
    ensures init.verb.None? && init.body.NoBody? && init.headers == map[]
  {
    RequestInit(None, NoBody, map[])
  }

  /** `api.post`: method POST; the body is serialised only when it is truthy. */
  function PostInit(body: Option<Json>): (init: RequestInit)
    ensures init.verb == Some(POST) && init.headers == map[]
    ensures init.body.JsonBody? <==> body.Some? && JsonTruthy(body.value)
    ensures init.body.JsonBody? ==> init.body.json == body.value
    ensures !init.body.JsonBody? ==> init.body.NoBody?
  {
    RequestInit(Some(POST), if body.Some? && JsonTruthy(body.value) then JsonBody(body.value) else NoBody, map[])
  }

  /** `api.delete`: method DELETE, no body. */
  function DeleteInit(): (init: RequestInit)
    ensures init.verb == Some(DELETE) && init.body.NoBody? && init.headers == map[]
  {
    RequestInit(Some(DELETE), NoBody, map[])
  }

  method Get<T>(endpoint: string, token: Option<string>, response: Response<T>)
    returns (req: HttpRequest, outcome: Outcome<T>)
    ensures req.verb.None? && req.body.NoBody? && req.endpoint == endpoint
    ensures req.headers == RequestHeaders(token, map[])
    ensures outcome == Receive(response, RequestFallback)
  {
    req, outcome := Request(endpoint, GetInit(), token, response);
  }

  method Post<T>(endpoint: string, body: Option<Json>, token: Option<string>, response: Response<T>)
    returns (req: HttpRequest, outcome: Outcome<T>)
    ensures req.verb == Some(POST) && req.endpoint == endpoint && req.body == PostInit(body).body
    ensures req.headers == RequestHeaders(token, map[])
    ensures outcome == Receive(response, RequestFallback)
  {
    req, outcome := Request(endpoint, PostInit(body), token, response);
  }

  method Delete<T>(endpoint: string, token: Option<string>, response: Response<T>)
    returns (req: HttpRequest, outcome: Outcome<T>)
    ensures req.verb == Some(DELETE) && req.body.NoBody? && req.endpoint == endpoint
    ensures req.headers == RequestHeaders(token, map[])
    ensures outcome == Receive(response, RequestFallback)
  {
    req, outcome := Request(endpoint, DeleteInit(), token, response);
  }

  /**
   * `api.upload`: a multipart POST with the file under "image". It sets no
   * Content-Type (the browser supplies the multipart boundary) and sends
   * Authorization exactly when there is a token; the envelope is unwrapped
   * with the upload fallback message.
   */
  method Upload<T>(endpoint: string, file: File, token: Option<string>, response: Response<T>)
    returns (req: HttpRequest, outcome: Outcome<T>)
    ensures req.endpoint == endpoint && req.verb == Some(POST) && req.body == FormBody("image", file)
    ensures ContentType !in req.headers
    ensures req.headers.Keys == if HasToken(token) then {Authorization} else {}
    ensures HasToken(token) ==> req.headers[Authorization] == BearerValue(token.value)
    ensures outcome == Receive(response, UploadFallback)
  {
    var headers: map<string, string> := map[];
    if HasToken(token) {
      headers := headers[Authorization := BearerValue(token.value)];
    }
    req := HttpRequest(endpoint, Some(POST), headers, FormBody("image", file));
    outcome := Receive(response, UploadFallback);
  }
}

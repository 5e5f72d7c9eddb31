/** The list head/tail request handler: a request descriptor in, a response descriptor out. */
module Handler {
  import opened Wrappers
  import Json
  import opened Text
  import opened Slices

  // ---------------------------------------------------------------- constants

  const MaxN := 10000

  const ListNotArray := "'list' must be an array"
  const ListNotStrings := "'list' must contain only strings"
  const NNotPositive := "'n' must be a positive integer"
  const NTooLarge := "'n' must be <= 10000"
  const InvalidJson := "Body must be valid JSON"

  const MethodNotAllowed := "Method Not Allowed"
  const NotFound := "Not Found"
  const InternalServerError := "Internal Server Error"
  const ValidationErrorCode := "VALIDATION_ERROR"
  const InternalErrorCode := "INTERNAL_ERROR"

  const JsonHeaders: map<string, string> := map["Content-Type" := "application/json"]

  // ---------------------------------------------------------------- requests

  /** The `http` part of the request context: its `path` and `method` entries
      (`verb` here); an absent entry is `None`. */
  datatype Http = Http(path: Option<string>, verb: Option<string>)

  datatype RequestContext = RequestContext(http: Option<Http>)

  /** The invocation event: request context and raw body text. */
  datatype Event = Event(requestContext: Option<RequestContext>, body: Option<string>)

  /** The JSON decoder: `None` where json.loads raises JSONDecodeError. */
  type Loads = string -> Option<Json.Value>

  /** `(event.get("requestContext") or {}).get("http") or {}`, `None` standing for `{}`. */
  function HttpOf(e: Event): Option<Http> {
    match e.requestContext
    case Some(RequestContext(h)) => h
    case None => None
  }

  /** `http.get("path") or ""`: an absent path reads as the empty path. */
  function RawPath(e: Event): (p: string)
    ensures HttpOf(e).Some? && HttpOf(e).value.path.Some? ==> p == HttpOf(e).value.path.value
    ensures HttpOf(e).None? || HttpOf(e).value.path.None? ==> p == ""
  {
    match e.requestContext
    case Some(RequestContext(Some(Http(Some(p), _)))) => p
    case _ => ""
  }

  /** `http.get("method") or "GET"`: an absent or empty method reads as GET. */
  function RawMethod(e: Event): (m: string)
    ensures m != ""
    ensures HttpOf(e).Some? && HttpOf(e).value.verb.Some? && HttpOf(e).value.verb.value != ""
            ==> m == HttpOf(e).value.verb.value
    ensures HttpOf(e).None? || HttpOf(e).value.verb.None? || HttpOf(e).value.verb == Some("")
            ==> m == "GET"
  {
    match e.requestContext
    case Some(RequestContext(Some(Http(_, Some(m))))) => if m == "" then "GET" else m
    case _ => "GET"
  }

  /** `event.get("body") or "{}"`: the text handed to the decoder. */
  function RawBody(body: Option<string>): (raw: string)
    ensures raw != ""
    ensures body.Some? && body.value != "" ==> raw == body.value
    ensures body.None? || body.value == "" ==> raw == "{}"
  {
    if body.None? || body.value == "" then "{}" else body.value
  }

  // ---------------------------------------------------------------- responses

  /** The dictionary handed to json.dumps as the response body. */
  datatype ResponseBody =
    | ResultBody(result: seq<string>)
    | ErrorBody(error: string)
    | CodedErrorBody(code: string, error: string)

  datatype Response = Response(statusCode: int, headers: map<string, string>, body: ResponseBody)

  /** `_resp`: every response, whatever its status, carries only the JSON content type. */
  function Resp(status: int, body: ResponseBody): (r: Response)
    ensures r.statusCode == status && r.body == body
    ensures r.headers == JsonHeaders
  {
    Response(status, JsonHeaders, body)
  }

  /** The JSON document json.dumps writes for a response body. */
  function ToJson(b: ResponseBody): (v: Json.Value)
    ensures v.Object?
    ensures "error" in v.fields <==> !b.ResultBody?
    ensures "code" in v.fields <==> b.CodedErrorBody?
    ensures "result" in v.fields <==> b.ResultBody?
  {
    match b
    case ResultBody(xs) => Json.Object(map["result" := Json.Array(Json.FromStrings(xs))])
    case ErrorBody(e) => Json.Object(map["error" := Json.String(e)])
    case CodedErrorBody(c, e) => Json.Object(map["code" := Json.String(c), "error" := Json.String(e)])
  }

  /** How a client reads a response document back into a body. */
  function FromJson(v: Json.Value): Option<ResponseBody> {
    if !v.Object? then None
    else
      var f := v.fields;
      if f.Keys == {"result"} && f["result"].Array? && Json.AllStrings(f["result"].items) then
        Some(ResultBody(Json.AsStrings(f["result"].items)))
      else if f.Keys == {"error"} && f["error"].String? then
        Some(ErrorBody(f["error"].s))
      else if f.Keys == {"code", "error"} && f["code"].String? && f["error"].String? then
        Some(CodedErrorBody(f["code"].s, f["error"].s))
      else None
  }

  /** Reading back what `_resp` encodes gives the body it was given. */
  lemma {:induction false} ResponseRoundTrip(b: ResponseBody)
    ensures FromJson(ToJson(b)) == Some(b)
  {
    match b
    case ResultBody(xs) =>
      Json.StringsRoundTrip(xs);
      assert ToJson(b).fields.Keys == {"result"};
    case ErrorBody(e) =>
      assert ToJson(b).fields.Keys == {"error"};
    case CodedErrorBody(c, e) =>
      assert ToJson(b).fields.Keys == {"code", "error"};
  }

  // ---------------------------------------------------------------- processing

  /** The exceptions the handler tells apart: ValueError, and anything else. */
  datatype Exception = ValueError(message: string) | OtherException

  /** A validated payload. */
  datatype Payload = Payload(items: seq<string>, n: int)

  /** `_parse_body`: an absent or empty body is decoded as "{}"; a decoding
      failure becomes a ValueError. */
  function ParseBody(body: Option<string>, loads: Loads): (r: Result<Json.Value, Exception>)
    ensures r.Ok? <==> loads(RawBody(body)).Some?
    ensures r.Ok? ==> loads(RawBody(body)) == Some(r.value)
    ensures r.Err? ==> r.error == ValueError(InvalidJson)
  {
    match loads(RawBody(body))
    case Some(v) => Ok(v)
    case None => Err(ValueError(InvalidJson))
  }

  /** `_validate`: a payload that is not a dictionary raises AttributeError at
      `payload.get`; otherwise the four checks run in order and the first
      failure is the ValueError raised. */
  function Validate(payload: Json.Value): (r: Result<Payload, Exception>)
    ensures !payload.Object? <==> r == Err(OtherException)
    ensures r.Ok? ==> 1 <= r.value.n <= MaxN
    ensures r.Ok? ==> ("list" in payload.fields &&
                       payload.fields["list"] == Json.Array(Json.FromStrings(r.value.items)))
  {
    if !payload.Object? then Err(OtherException)
    else
      var arr := Json.Get(payload.fields, "list", Json.Null);
      var n := Json.Get(payload.fields, "n", Json.Int(1));
      if !arr.Array? then Err(ValueError(ListNotArray))
      else if !Json.AllStrings(arr.items) then Err(ValueError(ListNotStrings))
      else if !Json.IsPyInt(n) || Json.PyIntValue(n) <= 0 then Err(ValueError(NNotPositive))
      else if Json.PyIntValue(n) > MaxN then Err(ValueError(NTooLarge))
      else
        Json.ValuesRoundTrip(arr.items);
        Ok(Payload(Json.AsStrings(arr.items), Json.PyIntValue(n)))
  }

  /** `arr[:n]`: the first `min(n, |arr|)` elements, in order. */
  function Head(arr: seq<string>, n: int): (r: seq<string>)
    requires 0 < n
    ensures |r| == Min(n, |arr|)
    ensures r == arr[..|r|]
    ensures n >= |arr| ==> r == arr
  {
    SliceToPrefix(arr, n);
    SliceTo(arr, n)
  }

  /** `arr[-n:] if n <= len(arr) else arr`: the last `min(n, |arr|)` elements, in order. */
  function Tail(arr: seq<string>, n: int): (r: seq<string>)
    requires 0 < n
    ensures |r| == Min(n, |arr|)
    ensures r == arr[|arr| - |r|..]
    ensures n >= |arr| ==> r == arr
  {
    if n <= |arr| then SliceFromSuffix(arr, n); SliceFrom(arr, -n) else arr
  }

  /** The path dispatch on an already lower-cased path. */
  function Dispatch(path: string, p: Payload): (r: Response)
    requires 0 < p.n
    ensures r.statusCode == 200 || r == Resp(404, ErrorBody(NotFound))
    ensures r.statusCode == 200 <==> EndsWith(path, "/head") || EndsWith(path, "/tail")
  {
    if EndsWith(path, "/head") then Resp(200, ResultBody(Head(p.items, p.n)))
    else if EndsWith(path, "/tail") then Resp(200, ResultBody(Tail(p.items, p.n)))
    else Resp(404, ErrorBody(NotFound))
  }

  /** The `try` block: parse, validate, then dispatch. */
  function Attempt(path: string, body: Option<string>, loads: Loads): (r: Result<Response, Exception>)
    ensures r.Ok? ==> r.value.statusCode in {200, 404} && r.value.headers == JsonHeaders
    ensures loads(RawBody(body)).None? ==> r == Err(ValueError(InvalidJson))
    ensures r == Err(OtherException)
            <==> loads(RawBody(body)).Some? && !loads(RawBody(body)).value.Object?
    ensures r.Err? && r.error.ValueError? ==>
              r.error.message in {InvalidJson, ListNotArray, ListNotStrings, NNotPositive, NTooLarge}
  {
    var payload :- ParseBody(body, loads);
    var p :- Validate(payload);
    Ok(Dispatch(path, p))
  }

  /** `lambda_handler`. */
  function LambdaHandler(event: Event, loads: Loads): (r: Response)
    ensures r.headers == JsonHeaders
    ensures r.statusCode in {200, 400, 404, 405, 500}
    ensures r.statusCode == 405 <==> Upper(RawMethod(event)) != "POST"
    ensures r.statusCode == 405 ==> r.body == ErrorBody(MethodNotAllowed)
    ensures r.statusCode == 404 ==> r.body == ErrorBody(NotFound)
    ensures r.statusCode == 400 ==> r.body.CodedErrorBody? && r.body.code == ValidationErrorCode
    ensures r.statusCode == 500 ==> r.body == CodedErrorBody(InternalErrorCode, InternalServerError)
    ensures r.statusCode == 200 <==> r.body.ResultBody?
  {
    var path := Lower(RawPath(event));
    var verb := Upper(RawMethod(event));
    if verb != "POST" then Resp(405, ErrorBody(MethodNotAllowed))
    else
      match Attempt(path, event.body, loads)
      case Ok(resp) => resp
      case Err(ValueError(msg)) => Resp(400, CodedErrorBody(ValidationErrorCode, msg))
      case Err(OtherException) => Resp(500, CodedErrorBody(InternalErrorCode, InternalServerError))
  }
}

/** What `lambda_handler` promises, stated over all requests and all decoders. */
module HandlerProperties {
  import opened Wrappers
  import Json
  import opened Text
  import opened Slices
  import opened Handler

  /** json.loads("{}") is the empty dictionary. */
  predicate DecodesEmptyObject(loads: Loads) {
    loads("{}") == Some(Json.Object(map[]))
  }

  predicate IsPost(e: Event) {
    Upper(RawMethod(e)) == "POST"
  }

  // ---------------------------------------------------------------- the payload, read independently

  predicate ListIsArray(f: map<string, Json.Value>) {
    "list" in f && f["list"].Array?
  }

  predicate ListHoldsStrings(f: map<string, Json.Value>) {
    ListIsArray(f) && forall k :: 0 <= k < |f["list"].items| ==> f["list"].items[k].String?
  }

  /** The `n` entry, 1 when absent. */
  function NEntry(f: map<string, Json.Value>): Json.Value {
    if "n" in f then f["n"] else Json.Int(1)
  }

  predicate NIsPositive(f: map<string, Json.Value>) {
    Json.IsPyInt(NEntry(f)) && Json.PyIntValue(NEntry(f)) > 0
  }

  predicate NInRange(f: map<string, Json.Value>) {
    NIsPositive(f) && Json.PyIntValue(NEntry(f)) <= MaxN
  }

  /** A dictionary whose `list` is exactly `items` and whose `n` (1 when
      absent, True counting as 1) is the integer `n` in 1..10000. */
  predicate ValidDocument(f: map<string, Json.Value>, items: seq<string>, n: int) {
    && "list" in f && f["list"] == Json.Array(Json.FromStrings(items))
    && 1 <= n <= MaxN
    && Json.IsPyInt(NEntry(f)) && Json.PyIntValue(NEntry(f)) == n
  }

  // ---------------------------------------------------------------- validation

  /** The four checks fail in a fixed order and the first failure is the one reported. */
  lemma ValidationOrder(f: map<string, Json.Value>)
    ensures Validate(Json.Object(f)) == Err(ValueError(ListNotArray))
            <==> !ListIsArray(f)
    ensures Validate(Json.Object(f)) == Err(ValueError(ListNotStrings))
            <==> ListIsArray(f) && !ListHoldsStrings(f)
    ensures Validate(Json.Object(f)) == Err(ValueError(NNotPositive))
            <==> ListHoldsStrings(f) && !NIsPositive(f)
    ensures Validate(Json.Object(f)) == Err(ValueError(NTooLarge))
            <==> ListHoldsStrings(f) && NIsPositive(f) && !NInRange(f)
    ensures Validate(Json.Object(f)).Ok?
            <==> ListHoldsStrings(f) && NInRange(f)
  {
  }

  /** A dictionary is accepted with list `items` and count `n` exactly when it is a valid document for them. */
  lemma ValidDocumentAccepted(f: map<string, Json.Value>, items: seq<string>, n: int)
    ensures Validate(Json.Object(f)) == Ok(Payload(items, n)) <==> ValidDocument(f, items, n)
  {
    if ValidDocument(f, items, n) {
      Json.StringsRoundTrip(items);
    }
  }

  /** An absent `n` counts as 1: head keeps the first element and tail the last. */
  lemma AbsentNIsOne(f: map<string, Json.Value>, items: seq<string>)
    requires "n" !in f
    requires "list" in f && f["list"] == Json.Array(Json.FromStrings(items))
    ensures Validate(Json.Object(f)) == Ok(Payload(items, 1))
    ensures Head(items, 1) == (if items == [] then [] else [items[0]])
    ensures Tail(items, 1) == (if items == [] then [] else [items[|items| - 1]])
  {
    ValidDocumentAccepted(f, items, 1);
    if items != [] {
      var h, t := Head(items, 1), Tail(items, 1);
      assert |h| == 1 && h[0] == items[0];
      assert |t| == 1 && t[0] == items[|items| - 1];
    }
  }

  /** A boolean `n` passes as an int: True is accepted as 1, False is rejected as 0. */
  lemma BooleanNIsAnInt(f: map<string, Json.Value>, items: seq<string>)
    requires "list" in f && f["list"] == Json.Array(Json.FromStrings(items))
    ensures "n" in f && f["n"] == Json.Bool(true) ==> Validate(Json.Object(f)) == Ok(Payload(items, 1))
    ensures "n" in f && f["n"] == Json.Bool(false) ==> Validate(Json.Object(f)) == Err(ValueError(NNotPositive))
  {
    Json.StringsRoundTrip(items);
    ValidDocumentAccepted(f, items, 1);
  }

  // ---------------------------------------------------------------- the handler

  /** A method that does not upper-case to POST is answered 405 before the
      body is looked at: the response is the same whatever the path, body and decoder. */
  lemma NonPostIsMethodNotAllowed(event: Event, loads: Loads)
    requires !IsPost(event)
    ensures LambdaHandler(event, loads) == Resp(405, ErrorBody(MethodNotAllowed))
  {
  }

  /** A missing or empty method is read as GET, and so is refused. */
  lemma MissingMethodIsNotAllowed(event: Event, loads: Loads)
    requires || event.requestContext.None?
             || event.requestContext.value.http.None?
             || event.requestContext.value.http.value.verb.None?
             || event.requestContext.value.http.value.verb == Some("")
    ensures LambdaHandler(event, loads) == Resp(405, ErrorBody(MethodNotAllowed))
  {
  }

  /** A body the decoder rejects is a validation error, whatever the path. */
  lemma MalformedBodyIsValidationError(event: Event, loads: Loads)
    requires IsPost(event)
    requires loads(RawBody(event.body)) == None
    ensures LambdaHandler(event, loads) == Resp(400, CodedErrorBody(ValidationErrorCode, InvalidJson))
  {
  }

  /** An absent or empty body is decoded as "{}", which has no list. */
  lemma EmptyBodyHasNoList(event: Event, loads: Loads)
    requires IsPost(event)
    requires DecodesEmptyObject(loads)
    requires event.body.None? || event.body == Some("")
    ensures LambdaHandler(event, loads) == Resp(400, CodedErrorBody(ValidationErrorCode, ListNotArray))
  {
  }

  /** A body that decodes to something other than a dictionary fails at
      `payload.get` with an error that is not a ValueError: 500. */
  lemma NonObjectPayloadIsInternalError(event: Event, loads: Loads, v: Json.Value)
    requires IsPost(event)
    requires loads(RawBody(event.body)) == Some(v) && !v.Object?
    ensures LambdaHandler(event, loads) == Resp(500, CodedErrorBody(InternalErrorCode, InternalServerError))
  {
  }

  /** Validation comes before dispatch: an invalid dictionary is a 400 with
      the first failing check's message, on every path. */
  lemma InvalidPayloadOnAnyPath(event: Event, loads: Loads, f: map<string, Json.Value>, msg: string)
    requires IsPost(event)
    requires loads(RawBody(event.body)) == Some(Json.Object(f))
    requires Validate(Json.Object(f)) == Err(ValueError(msg))
    ensures LambdaHandler(event, loads) == Resp(400, CodedErrorBody(ValidationErrorCode, msg))
    ensures msg in {ListNotArray, ListNotStrings, NNotPositive, NTooLarge}
  {
  }

  /** On a path ending in /head (any case) the result is the prefix of length min(n, |list|). */
  lemma HeadPathReturnsPrefix(event: Event, loads: Loads, f: map<string, Json.Value>, items: seq<string>, n: int)
    requires IsPost(event)
    requires loads(RawBody(event.body)) == Some(Json.Object(f))
    requires ValidDocument(f, items, n)
    requires EndsWith(Lower(RawPath(event)), "/head")
    ensures LambdaHandler(event, loads) == Resp(200, ResultBody(items[..Min(n, |items|)]))
    ensures n >= |items| ==> LambdaHandler(event, loads).body.result == items
  {
    ValidDocumentAccepted(f, items, n);
  }

  /** On a path ending in /tail (which then cannot end in /head) the result is the suffix of length min(n, |list|). */
  lemma TailPathReturnsSuffix(event: Event, loads: Loads, f: map<string, Json.Value>, items: seq<string>, n: int)
    requires IsPost(event)
    requires loads(RawBody(event.body)) == Some(Json.Object(f))
    requires ValidDocument(f, items, n)
    requires EndsWith(Lower(RawPath(event)), "/tail")
    ensures LambdaHandler(event, loads) == Resp(200, ResultBody(items[|items| - Min(n, |items|)..]))
    ensures n >= |items| ==> LambdaHandler(event, loads).body.result == items
  {
    ValidDocumentAccepted(f, items, n);
  }

  /** A valid dictionary on any other path is 404, a body without a `code` field. */
  lemma UnknownPathIsNotFound(event: Event, loads: Loads, f: map<string, Json.Value>, items: seq<string>, n: int)
    requires IsPost(event)
    requires loads(RawBody(event.body)) == Some(Json.Object(f))
    requires ValidDocument(f, items, n)
    requires !EndsWith(Lower(RawPath(event)), "/head") && !EndsWith(Lower(RawPath(event)), "/tail")
    ensures LambdaHandler(event, loads) == Resp(404, ErrorBody(NotFound))
    ensures ToJson(LambdaHandler(event, loads).body).fields.Keys == {"error"}
  {
    ValidDocumentAccepted(f, items, n);
    assert ToJson(ErrorBody(NotFound)).fields.Keys == {"error"};
  }

  /** Only the two suffixes are served. */
  lemma OnlyHeadAndTailSucceed(event: Event, loads: Loads)
    requires LambdaHandler(event, loads).statusCode == 200
    ensures IsPost(event)
    ensures EndsWith(Lower(RawPath(event)), "/head") || EndsWith(Lower(RawPath(event)), "/tail")
  {
  }

  /** Paths are matched without regard to case. */
  lemma PathCaseInsensitive(e1: Event, e2: Event, loads: Loads)
    requires e1.body == e2.body
    requires Upper(RawMethod(e1)) == Upper(RawMethod(e2))
    requires Upper(RawPath(e1)) == Upper(RawPath(e2))
    ensures LambdaHandler(e1, loads) == LambdaHandler(e2, loads)
  {
    SameUpperSameLower(RawPath(e1), RawPath(e2));
  }

  /** The body matters only through what the decoder makes of it: the
      handler puts no bound on its size, nor on the list's length or its strings' lengths. */
  lemma BodyOnlyThroughDecoder(e1: Event, e2: Event, loads: Loads)
    requires RawMethod(e1) == RawMethod(e2) && RawPath(e1) == RawPath(e2)
    requires loads(RawBody(e1.body)) == loads(RawBody(e2.body))
    ensures LambdaHandler(e1, loads) == LambdaHandler(e2, loads)
  {
  }
}

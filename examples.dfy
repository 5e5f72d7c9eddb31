/** The request paths the unit tests use, and what case mapping and suffix matching make of them. */
module ExampleUrls {
  import opened Text

  const HeadUrl: string := "/v1/list/head"
  const TailUrl: string := "/v1/list/tail"
  const UnknownUrl: string := "/v1/list/unknown"
  const ShoutedHeadUrl: string := "/V1/LIST/HEAD"

  lemma HeadUrlIsHead()
    ensures Lower(HeadUrl) == HeadUrl && EndsWith(HeadUrl, "/head")
  {
  }

  lemma TailUrlIsTail()
    ensures Lower(TailUrl) == TailUrl && EndsWith(TailUrl, "/tail")
  {
  }

  lemma UnknownUrlIsLower()
    ensures Lower(UnknownUrl) == UnknownUrl
  {
  }

  lemma UnknownUrlIsNeither()
    ensures !EndsWith(UnknownUrl, "/head") && !EndsWith(UnknownUrl, "/tail")
  {
  }

  lemma ShoutedIsHead()
    ensures Upper(ShoutedHeadUrl) == Upper(HeadUrl)
  {
  }
}

/** The unit-test scenarios of the handler, derived in the model from the general properties. */
module HandlerExamples {
  import opened Wrappers
  import Json
  import opened Text
  import opened Slices
  import opened Handler
  import opened HandlerProperties
  import opened ExampleUrls

  /** A request as the tests build it: method, path and a non-empty body text. */
  function Request(verb: string, path: string): Event {
    Event(Some(RequestContext(Some(Http(Some(path), Some(verb))))), Some("<body>"))
  }

  /** A decoder that reads every body as `doc`. */
  function Decodes(doc: Json.Value): Loads {
    _ => Some(doc)
  }

  function ListAndN(ss: seq<string>, n: int): map<string, Json.Value> {
    map["list" := Json.Array(Json.FromStrings(ss)), "n" := Json.Int(n)]
  }

  function ListOnly(ss: seq<string>): map<string, Json.Value> {
    map["list" := Json.Array(Json.FromStrings(ss))]
  }

  lemma PostRequest(path: string)
    ensures IsPost(Request("POST", path)) && RawPath(Request("POST", path)) == path
  {
    UpperOfUpper("POST");
  }

  /** A valid document on the head path yields the prefix. */
  lemma ServedOnHead(f: map<string, Json.Value>, items: seq<string>, n: int)
    requires ValidDocument(f, items, n)
    ensures LambdaHandler(Request("POST", HeadUrl), Decodes(Json.Object(f)))
            == Resp(200, ResultBody(items[..Min(n, |items|)]))
  {
    PostRequest(HeadUrl);
    HeadUrlIsHead();
    HeadPathReturnsPrefix(Request("POST", HeadUrl), Decodes(Json.Object(f)), f, items, n);
  }

  /** A valid document on the tail path yields the suffix. */
  lemma ServedOnTail(f: map<string, Json.Value>, items: seq<string>, n: int)
    requires ValidDocument(f, items, n)
    ensures LambdaHandler(Request("POST", TailUrl), Decodes(Json.Object(f)))
            == Resp(200, ResultBody(items[|items| - Min(n, |items|)..]))
  {
    PostRequest(TailUrl);
    TailUrlIsTail();
    TailPathReturnsSuffix(Request("POST", TailUrl), Decodes(Json.Object(f)), f, items, n);
  }

  /** An invalid document on a POST is a 400 with the first failing check's message. */
  lemma RejectedOn(path: string, f: map<string, Json.Value>, msg: string)
    requires Validate(Json.Object(f)) == Err(ValueError(msg))
    ensures LambdaHandler(Request("POST", path), Decodes(Json.Object(f)))
            == Resp(400, CodedErrorBody(ValidationErrorCode, msg))
  {
    PostRequest(path);
    InvalidPayloadOnAnyPath(Request("POST", path), Decodes(Json.Object(f)), f, msg);
  }

  /** A valid document on a path with neither suffix is not found. */
  lemma NotFoundOn(path: string, f: map<string, Json.Value>, items: seq<string>, n: int)
    requires ValidDocument(f, items, n)
    requires !EndsWith(Lower(path), "/head") && !EndsWith(Lower(path), "/tail")
    ensures LambdaHandler(Request("POST", path), Decodes(Json.Object(f))) == Resp(404, ErrorBody(NotFound))
  {
    PostRequest(path);
    UnknownPathIsNotFound(Request("POST", path), Decodes(Json.Object(f)), f, items, n);
  }

  /** Two paths that upper-case alike get the same response. */
  lemma CaseDoesNotMatter(p: string, q: string, loads: Loads)
    requires Upper(p) == Upper(q)
    ensures LambdaHandler(Request("POST", p), loads) == LambdaHandler(Request("POST", q), loads)
  {
    PathCaseInsensitive(Request("POST", p), Request("POST", q), loads);
  }

  lemma HeadOfThree()
    ensures LambdaHandler(Request("POST", HeadUrl), Decodes(Json.Object(ListAndN(["a", "b", "c"], 2))))
            == Resp(200, ResultBody(["a", "b"]))
  {
    ServedOnHead(ListAndN(["a", "b", "c"], 2), ["a", "b", "c"], 2);
    assert ["a", "b", "c"][..2] == ["a", "b"];
  }

  lemma TailOfThree()
    ensures LambdaHandler(Request("POST", TailUrl), Decodes(Json.Object(ListAndN(["a", "b", "c"], 2))))
            == Resp(200, ResultBody(["b", "c"]))
  {
    ServedOnTail(ListAndN(["a", "b", "c"], 2), ["a", "b", "c"], 2);
    assert ["a", "b", "c"][1..] == ["b", "c"];
  }

  lemma HeadOfThreeDefaultN()
    ensures LambdaHandler(Request("POST", HeadUrl), Decodes(Json.Object(ListOnly(["a", "b", "c"]))))
            == Resp(200, ResultBody(["a"]))
  {
    ServedOnHead(ListOnly(["a", "b", "c"]), ["a", "b", "c"], 1);
    assert ["a", "b", "c"][..1] == ["a"];
  }

  lemma TailOfThreeDefaultN()
    ensures LambdaHandler(Request("POST", TailUrl), Decodes(Json.Object(ListOnly(["a", "b", "c"]))))
            == Resp(200, ResultBody(["c"]))
  {
    ServedOnTail(ListOnly(["a", "b", "c"]), ["a", "b", "c"], 1);
    assert ["a", "b", "c"][2..] == ["c"];
  }

  lemma TailCountBeyondLength()
    ensures LambdaHandler(Request("POST", TailUrl), Decodes(Json.Object(ListAndN(["a", "b"], 10))))
            == Resp(200, ResultBody(["a", "b"]))
  {
    ServedOnTail(ListAndN(["a", "b"], 10), ["a", "b"], 10);
  }

  lemma HeadCountBeyondLength()
    ensures LambdaHandler(Request("POST", HeadUrl), Decodes(Json.Object(ListAndN(["x", "y"], 100))))
            == Resp(200, ResultBody(["x", "y"]))
  {
    ServedOnHead(ListAndN(["x", "y"], 100), ["x", "y"], 100);
    assert ["x", "y"][..Min(100, 2)] == ["x", "y"];
  }

  lemma HeadOfEmpty()
    ensures LambdaHandler(Request("POST", HeadUrl), Decodes(Json.Object(ListAndN([], 1))))
            == Resp(200, ResultBody([]))
  {
    ServedOnHead(ListAndN([], 1), [], 1);
  }

  lemma TailOfEmpty()
    ensures LambdaHandler(Request("POST", TailUrl), Decodes(Json.Object(ListOnly([]))))
            == Resp(200, ResultBody([]))
  {
    ServedOnTail(ListOnly([]), [], 1);
  }

  lemma MissingList()
    ensures LambdaHandler(Request("POST", HeadUrl), Decodes(Json.Object(map["n" := Json.Int(5)])))
            == Resp(400, CodedErrorBody(ValidationErrorCode, ListNotArray))
  {
    ValidationOrder(map["n" := Json.Int(5)]);
    RejectedOn(HeadUrl, map["n" := Json.Int(5)], ListNotArray);
  }

  lemma ListNotAnArray()
    ensures LambdaHandler(Request("POST", HeadUrl), Decodes(Json.Object(map["list" := Json.String("nope")])))
            == Resp(400, CodedErrorBody(ValidationErrorCode, ListNotArray))
  {
    ValidationOrder(map["list" := Json.String("nope")]);
    RejectedOn(HeadUrl, map["list" := Json.String("nope")], ListNotArray);
  }

  lemma ListWithANumber()
    ensures LambdaHandler(Request("POST", HeadUrl),
                          Decodes(Json.Object(map["list" := Json.Array([Json.String("ok"), Json.Int(1)])])))
            == Resp(400, CodedErrorBody(ValidationErrorCode, ListNotStrings))
  {
    var f := map["list" := Json.Array([Json.String("ok"), Json.Int(1)])];
    ValidationOrder(f);
    assert !f["list"].items[1].String?;
    RejectedOn(HeadUrl, f, ListNotStrings);
  }

  lemma ZeroCount()
    ensures LambdaHandler(Request("POST", HeadUrl), Decodes(Json.Object(ListAndN(["a"], 0))))
            == Resp(400, CodedErrorBody(ValidationErrorCode, NNotPositive))
  {
    ValidationOrder(ListAndN(["a"], 0));
    RejectedOn(HeadUrl, ListAndN(["a"], 0), NNotPositive);
  }

  lemma NegativeCount()
    ensures LambdaHandler(Request("POST", TailUrl), Decodes(Json.Object(ListAndN(["a"], -5))))
            == Resp(400, CodedErrorBody(ValidationErrorCode, NNotPositive))
  {
    ValidationOrder(ListAndN(["a"], -5));
    RejectedOn(TailUrl, ListAndN(["a"], -5), NNotPositive);
  }

  lemma CountTooLarge()
    ensures LambdaHandler(Request("POST", HeadUrl), Decodes(Json.Object(ListAndN(["a"], 10001))))
            == Resp(400, CodedErrorBody(ValidationErrorCode, NTooLarge))
  {
    ValidationOrder(ListAndN(["a"], 10001));
    RejectedOn(HeadUrl, ListAndN(["a"], 10001), NTooLarge);
  }

  lemma CountNotANumber()
    ensures LambdaHandler(Request("POST", TailUrl),
                          Decodes(Json.Object(map["list" := Json.Array([Json.String("a")]), "n" := Json.String("five")])))
            == Resp(400, CodedErrorBody(ValidationErrorCode, NNotPositive))
  {
    var f := map["list" := Json.Array([Json.String("a")]), "n" := Json.String("five")];
    ValidationOrder(f);
    RejectedOn(TailUrl, f, NNotPositive);
  }

  lemma GetIsRefused()
    ensures LambdaHandler(Request("GET", HeadUrl), Decodes(Json.Object(ListOnly(["a"]))))
            == Resp(405, ErrorBody(MethodNotAllowed))
  {
    UpperOfUpper("GET");
    NonPostIsMethodNotAllowed(Request("GET", HeadUrl), Decodes(Json.Object(ListOnly(["a"]))));
  }

  lemma DeleteIsRefused()
    ensures LambdaHandler(Request("DELETE", TailUrl), Decodes(Json.Object(ListOnly(["a"]))))
            == Resp(405, ErrorBody(MethodNotAllowed))
  {
    UpperOfUpper("DELETE");
    NonPostIsMethodNotAllowed(Request("DELETE", TailUrl), Decodes(Json.Object(ListOnly(["a"]))));
  }

  lemma UnknownPath()
    ensures LambdaHandler(Request("POST", UnknownUrl), Decodes(Json.Object(ListOnly(["a"]))))
            == Resp(404, ErrorBody(NotFound))
  {
    var f := ListOnly(["a"]);
    assert ValidDocument(f, ["a"], 1);
    UnknownUrlIsLower();
    UnknownUrlIsNeither();
    NotFoundOn(UnknownUrl, f, ["a"], 1);
  }

  /** An upper-case path is served like its lower-case form. */
  lemma UpperCasePath()
    ensures LambdaHandler(Request("POST", ShoutedHeadUrl), Decodes(Json.Object(ListOnly(["a", "b"]))))
            == Resp(200, ResultBody(["a"]))
  {
    ShoutedIsHead();
    CaseDoesNotMatter(ShoutedHeadUrl, HeadUrl, Decodes(Json.Object(ListOnly(["a", "b"]))));
    HeadOfTwoDefaultN();
  }

  lemma HeadOfTwoDefaultN()
    ensures LambdaHandler(Request("POST", HeadUrl), Decodes(Json.Object(ListOnly(["a", "b"]))))
            == Resp(200, ResultBody(["a"]))
  {
    ServedOnHead(ListOnly(["a", "b"]), ["a", "b"], 1);
    assert ["a", "b"][..1] == ["a"];
  }

  /** The handler has no list-length limit: 10001 strings are served. */
  lemma LongListIsServed()
    ensures LambdaHandler(Request("POST", HeadUrl), Decodes(Json.Object(ListAndN(seq(10001, _ => "x"), 1))))
            == Resp(200, ResultBody(["x"]))
  {
    var items := seq(10001, _ => "x");
    ServedOnHead(ListAndN(items, 1), items, 1);
    assert items[..1] == ["x"];
  }

  /** The handler has no string-length limit: a 1001-character string is served. */
  lemma LongStringIsServed()
    ensures LambdaHandler(Request("POST", HeadUrl), Decodes(Json.Object(ListAndN([seq(1001, _ => 'a')], 1))))
            == Resp(200, ResultBody([seq(1001, _ => 'a')]))
  {
    var items := [seq(1001, _ => 'a')];
    ServedOnHead(ListAndN(items, 1), items, 1);
    assert items[..Min(1, 1)] == items;
  }
}

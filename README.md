# List head/tail handler — a Dafny model

The repository is one HTTP request handler, `lambda_handler` in `src/handler.py`. It
takes a POST whose JSON body holds a `list` of strings and an optional count `n`. It
answers with the first `n` elements when the path ends in `/head` and the last `n` when
it ends in `/tail`. This project models that handler as pure Dafny functions over a
structured request and response, and proves what it promises:

- a method that is not POST, in any case, gets 405 before the body is read;
- an absent or empty body reads as `{}`;
- validation runs four checks in a fixed order and reports the first failure as 400 `VALIDATION_ERROR`;
- validation comes before path dispatch, so an unknown path gets 404 only for a valid payload;
- head and tail return exactly the prefix and suffix of length `min(n, len(list))`;
- paths match without regard to case;
- a body that decodes to something other than a dictionary gets 500 `INTERNAL_ERROR`;
- every response carries the JSON content type and nothing else.

Modules:

- `Wrappers` (`wrappers.dfy`): `Option`, and a `Result` whose `Err` carries a raised exception.
- `Json` (`json.dfy`): decoded JSON values as Python holds them. It has the `all(isinstance(x, str) ...)` test,
  the string/value conversions with their round trips, and Python's view of `bool` as an `int`.
- `Text` (`text.dfy`): `str.lower`, `str.upper` and `str.endswith`.
- `Slices` (`slices.dfy`): Python's `s[:stop]` and `s[start:]`, negative bounds and clamping included.
- `Handler` (`handler.dfy`): the event and response shapes, `_parse_body`, `_validate`, `_resp`
  and `lambda_handler`.
- `HandlerProperties` (`properties.dfy`): the handler's promises, over all requests and all decoders.
- `ExampleUrls`, `HandlerExamples` (`examples.dfy`): the scenarios of `src/tests/test_handler.py`,
  derived from those promises.

JSON decoding is a parameter, `loads: string -> Option<Json.Value>`. `None` stands for
`json.JSONDecodeError`. The handler applies it to the raw body text, or to `"{}"` when the
body is absent or empty, exactly as the source does. The lemmas about empty bodies assume
only that `loads("{}")` is the empty dictionary. The response body is the dictionary handed
to `json.dumps`, kept as a tagged value (`ResultBody`, `ErrorBody`, `CodedErrorBody`).
`ToJson` gives the JSON document it encodes, and `FromJson` reads that document back.

The model follows the code:

- A boolean `n` is accepted: Python's `isinstance(True, int)` holds, so `true` counts as 1 and `false` as 0, which is rejected.
- There is no body-size limit (1 MiB), no list-length limit (10000) and no string-length limit (1000).
  `src/tests/test_handler.py:189-220` expects these, but `_validate` has no such checks.
  `LongListIsServed` and `LongStringIsServed` show the handler serving such input with 200.
- The only response header is `Content-Type: application/json`; none of the security headers are set.

## Model

| member | source | states |
|---|---|---|
| `Json.AllStrings` | src/handler.py:25 | the front-to-back `all(isinstance(x, str) ...)` check holds exactly when every element is a string |
| `Json.AsStrings` | src/handler.py:33 | the validated list holds the same strings as the decoded array, element for element |
| `Json.FromStrings` | src/handler.py:40 | a list of strings is encoded as an array of JSON strings of the same length, element for element |
| `Json.StringsRoundTrip` | src/handler.py:33 | strings encoded as JSON values pass the string check and read back unchanged |
| `Json.ValuesRoundTrip` | src/handler.py:25-33 | an all-string array read as strings and encoded again is the same array |
| `Text.LowerChar` | src/handler.py:46 | lower-casing maps A-Z to a-z and leaves every other character alone |
| `Text.UpperChar` | src/handler.py:47 | upper-casing maps a-z to A-Z and leaves every other character alone |
| `Text.Lower` | src/handler.py:46 | `path.lower()` has the same length and lower-cases each character on its own |
| `Text.Upper` | src/handler.py:47 | `method.upper()` has the same length and upper-cases each character on its own |
| `Text.UpperOfUpper` | src/handler.py:47 | a string without small letters is unchanged by upper-casing |
| `Text.SameUpperSameLower` | src/handler.py:46 | two strings equal up to case lower-case to the same string |
| `Slices.Bound` | src/handler.py:57 | a Python slice bound always lands inside the sequence |
| `Slices.SliceToPrefix` | src/handler.py:57 | `s[:stop]` with `stop >= 0` is the prefix of length `min(stop, len(s))` |
| `Slices.SliceFromSuffix` | src/handler.py:59 | `s[-k:]` with `k > 0` is the suffix of length `min(k, len(s))`; `k = 0` is excluded because `s[-0:]` is all of `s` |
| `Handler.RawPath` | src/handler.py:45-46 | the path is the request's path when one is given, and the empty path when the request context, its `http` entry or the path is absent |
| `Handler.RawMethod` | src/handler.py:45-47 | the method is the request's method when one is given and non-empty, and GET when the request context, its `http` entry or the method is absent or the method is empty |
| `Handler.RawBody` | src/handler.py:12 | the text handed to the decoder is never empty; a non-empty body is passed on unchanged, otherwise it is `"{}"` |
| `Handler.Resp` | src/handler.py:36-41 | a response has the given status and body and exactly the header `Content-Type: application/json` |
| `Handler.ToJson` | src/handler.py:40 | the encoded body is a dictionary with `error` exactly for error bodies, `code` exactly for coded errors, and `result` exactly for results |
| `Handler.ResponseRoundTrip` | src/handler.py:36-41 | decoding the document `_resp` encodes gives back the body it was given |
| `Handler.ParseBody` | src/handler.py:11-16 | decoding succeeds exactly when the decoder accepts the raw body, with the decoder's value; any failure is `ValueError("Body must be valid JSON")` |
| `Handler.Validate` | src/handler.py:19-33 | a non-dictionary payload raises a non-ValueError; an accepted payload has `1 <= n <= 10000` and its list is exactly the payload's `list` array |
| `Handler.Head` | src/handler.py:57 | `arr[:n]` is the prefix of length `min(n, len(arr))`, the whole list when `n >= len(arr)` |
| `Handler.Tail` | src/handler.py:59 | `arr[-n:] if n <= len(arr) else arr` is the suffix of length `min(n, len(arr))`, the whole list when `n >= len(arr)` |
| `Handler.Attempt` | src/handler.py:52-63 | the `try` block either yields a 200 or 404 response with the JSON header, or raises: a decoding failure is `Body must be valid JSON`, a non-ValueError is raised exactly when the body decodes to a non-dictionary, and every ValueError carries one of the five handler messages |
| `Handler.Dispatch` | src/handler.py:56-63 | the answer is 200 exactly when the lower-cased path ends in `/head` or `/tail`, and otherwise 404 `Not Found` |
| `Handler.LambdaHandler` | src/handler.py:44-70 | every response has the JSON header and a status among 200, 400, 404, 405 and 500; 405 exactly when the upper-cased method is not POST; 200 exactly for result bodies; each error status has its fixed body shape |
| `HandlerProperties.ValidationOrder` | src/handler.py:19-31 | each of the four validation messages is reported exactly when its check fails and every earlier check passes; the payload is accepted exactly when all pass |
| `HandlerProperties.ValidDocumentAccepted` | src/handler.py:19-33 | a dictionary is accepted with list `items` and count `n` exactly when its `list` is those strings and its `n`, 1 when absent, is that integer in 1..10000 |
| `HandlerProperties.AbsentNIsOne` | src/handler.py:21 | without `n` the count is 1, so head gives the first element and tail the last, or nothing for an empty list |
| `HandlerProperties.BooleanNIsAnInt` | src/handler.py:28 | `n = true` is accepted as 1 and `n = false` is rejected as not positive |
| `HandlerProperties.NonPostIsMethodNotAllowed` | src/handler.py:47-50 | a method that does not upper-case to POST gets 405 `Method Not Allowed`, whatever the path, body and decoder |
| `HandlerProperties.MissingMethodIsNotAllowed` | src/handler.py:47-50 | a missing or empty method, or a missing request context, is read as GET and gets 405 |
| `HandlerProperties.MalformedBodyIsValidationError` | src/handler.py:13-16 | a body the decoder rejects gets 400 `VALIDATION_ERROR` with `Body must be valid JSON` |
| `HandlerProperties.EmptyBodyHasNoList` | src/handler.py:12-24 | an absent or empty body is decoded as `{}` and gets 400 with `'list' must be an array` |
| `HandlerProperties.NonObjectPayloadIsInternalError` | src/handler.py:68-70 | a body that decodes to a non-dictionary fails at `payload.get` and gets 500 `INTERNAL_ERROR`, `Internal Server Error` |
| `HandlerProperties.InvalidPayloadOnAnyPath` | src/handler.py:52-67 | an invalid dictionary gets 400 with the first failing check's message on every path, before any dispatch |
| `HandlerProperties.HeadPathReturnsPrefix` | src/handler.py:56-57 | on a `/head` path a valid payload gets 200 with the prefix of length `min(n, len(list))`, the whole list when `n >= len(list)` |
| `HandlerProperties.TailPathReturnsSuffix` | src/handler.py:58-59 | on a `/tail` path a valid payload gets 200 with the suffix of length `min(n, len(list))`, the whole list when `n >= len(list)` |
| `HandlerProperties.UnknownPathIsNotFound` | src/handler.py:60-61 | a valid payload on any other path gets 404 `Not Found`, whose document has no `code` field |
| `HandlerProperties.OnlyHeadAndTailSucceed` | src/handler.py:56-63 | a 200 answers only a POST whose lower-cased path ends in `/head` or `/tail` |
| `HandlerProperties.PathCaseInsensitive` | src/handler.py:46 | two requests whose paths are equal up to case get the same response |
| `HandlerProperties.BodyOnlyThroughDecoder` | src/handler.py:11-16 | the body matters only through what the decoder makes of it, so no size limit applies |
| `HandlerExamples.HeadOfThree` | src/tests/test_handler.py:12-17 | head of `a, b, c` with `n = 2` is `a, b` |
| `HandlerExamples.TailOfThree` | src/tests/test_handler.py:20-25 | tail of `a, b, c` with `n = 2` is `b, c` |
| `HandlerExamples.HeadOfThreeDefaultN` | src/tests/test_handler.py:28-34 | head without `n` is the first element |
| `HandlerExamples.TailOfThreeDefaultN` | src/tests/test_handler.py:37-43 | tail without `n` is the last element |
| `HandlerExamples.TailCountBeyondLength` | src/tests/test_handler.py:46-52 | tail with `n` beyond the length is the whole list |
| `HandlerExamples.HeadCountBeyondLength` | src/tests/test_handler.py:55-61 | head with `n` beyond the length is the whole list |
| `HandlerExamples.HeadOfEmpty` | src/tests/test_handler.py:66-70 | head of the empty list is empty |
| `HandlerExamples.TailOfEmpty` | src/tests/test_handler.py:72-76 | tail of the empty list is empty |
| `HandlerExamples.MissingList` | src/tests/test_handler.py:89-92 | a payload without `list` gets 400 |
| `HandlerExamples.ListNotAnArray` | src/tests/test_handler.py:94-97 | a string `list` gets 400 |
| `HandlerExamples.ListWithANumber` | src/tests/test_handler.py:99-102 | a list holding a number gets 400 |
| `HandlerExamples.ZeroCount` | src/tests/test_handler.py:104-107 | `n = 0` gets 400 |
| `HandlerExamples.NegativeCount` | src/tests/test_handler.py:109-112 | `n = -5` gets 400 |
| `HandlerExamples.CountTooLarge` | src/tests/test_handler.py:114-117 | `n = 10001` gets 400 |
| `HandlerExamples.CountNotANumber` | src/tests/test_handler.py:119-122 | a string `n` gets 400 |
| `HandlerExamples.GetIsRefused` | src/tests/test_handler.py:139-143 | GET gets 405 `Method Not Allowed` |
| `HandlerExamples.DeleteIsRefused` | src/tests/test_handler.py:145-147 | DELETE gets 405 |
| `HandlerExamples.UnknownPath` | src/tests/test_handler.py:150-156 | a valid payload to `/v1/list/unknown` gets 404 `Not Found` |
| `HandlerExamples.UpperCasePath` | src/tests/test_handler.py:180-186 | `/V1/LIST/HEAD` is served like `/v1/list/head` |
| `HandlerExamples.LongListIsServed` | src/tests/test_handler.py:189-196 | a list of 10001 strings is served with 200: the handler has no list-length limit, unlike what the test expects |
| `HandlerExamples.LongStringIsServed` | src/tests/test_handler.py:199-206 | a 1001-character string is served with 200: the handler has no string-length limit, unlike what the test expects |

Definitions that carry no contract of their own are pinned down by the members above:
`Json.Get` (`payload.get`, src/handler.py:20-21) by `ValidationOrder` and `ValidDocumentAccepted`;
`Json.IsPyInt` and `Json.PyIntValue` (`isinstance(n, int)` with bool as int, src/handler.py:28) by
`BooleanNIsAnInt` and `ValidDocumentAccepted`; `Text.EndsWith` (`str.endswith`, src/handler.py:56, 58)
by `Dispatch`, `HeadPathReturnsPrefix`, `TailPathReturnsSuffix` and `UnknownPathIsNotFound`;
`Slices.SliceTo` and `Slices.SliceFrom` (src/handler.py:57, 59) by `SliceToPrefix` and `SliceFromSuffix`,
which `Head` and `Tail` use; `Handler.HttpOf` (src/handler.py:45) by `RawPath` and `RawMethod`.

## Left out

- JSON decoding (`json.loads`) is the parameter `loads`. Its text grammar is not modelled, and neither are duplicate keys, which it resolves.
- JSON encoding (`json.dumps`) is `ToJson`, a structural document and not text.
- Errors inside `json.loads` other than a decoding error are not modelled. Deep nesting raises RecursionError, which the source answers with 500.
- Text.Lower: only ASCII letters are case-mapped. Python's `str.lower` is full Unicode, so a non-ASCII path is not modelled.
- Text.Upper: only ASCII letters are case-mapped. Python's `str.upper` is full Unicode: `"poſt".upper()` is `"POST"`, which the source accepts and the model refuses.
- The event's shape is typed, so entries of other types cannot be expressed. In the source a falsy `requestContext`, `http`, path or method of another type falls back to its default. A truthy `requestContext` or `http` entry that is not a dictionary, or a truthy path or method that is not a string, raises outside the `try`.
- A body that is not a string is not modelled. In the source a falsy one (`0`, `[]`, `{}`) is replaced by `"{}"`, and a truthy one makes `json.loads` raise TypeError inside the `try`, which is answered with 500.
- The `context` argument of `lambda_handler` is unused by the source and left out.
- Json.Value: floats are reals, so NaN and the infinities are not represented. Every float fails the `n` check, so no response depends on this.
- Logging and the `LOG_LEVEL` setting are side effects only and are left out.
- The limits and extra security headers that the tests and integration tests expect are not implemented by the handler. They are therefore not modelled; `LongListIsServed` and `LongStringIsServed` show their absence.
- `src/tests/integration/test_api_integration.py` is network I/O against a deployed endpoint and is not part of this model.
- `scripts/build_zip.py` and `scripts/seed_cognito_user.py` are packaging and account-provisioning tools and are not part of this model.

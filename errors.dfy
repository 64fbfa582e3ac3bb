/**
 * The `HttpError` type of src/errors.js: an error built from a failed
 * response, with a formatted message, the request's method and url, and
 * lazy access to the response body.
 *
 * `url.parse` is an input (a function parameter), and the body decoders
 * `response.json()` and `response.text()` are represented by which of the
 * two `responseBody` would call.
 */
module Errors {
  import opened Js

  const HttpErrorName := "HttpError"
  const MessagePrefix := "HTTP Error "

  /** A response object as `HttpError` reads it. `headers` holds header
      names in lower case, as a fetch `Headers` object stores them. */
  datatype Response = Response(
    status: Option<int>,
    statusText: Option<string>,
    statusCode: Option<int>,
    headers: map<string, string>,
    body: string)

  /** The constructor's argument `{ url, method, response }`. */
  datatype HttpErrorInit = HttpErrorInit(url: Option<string>, httpMethod: Option<string>, response: Response)

  /** An `HttpError`; `url` is whatever `url.parse` returned. */
  datatype HttpError<U> = HttpError(
    name: string,
    message: string,
    url: U,
    httpMethod: Option<string>,
    response: Response)

  /** Which body decoder `responseBody()` calls. */
  datatype BodyDecoder = DecodeJson | DecodeText

  /** `url.parse(url, true)`, which may throw. */
  type UrlParse<U> = Option<string> -> Result<U, Thrown>

  /** `HTTP Error ${response.status} ${response.statusText}` */
  function Message(response: Response): (m: string)
    ensures MessagePrefix <= m
    ensures var n := NumberText(response.status);
      |MessagePrefix| + |n| < |m| && m[|MessagePrefix|..|MessagePrefix| + |n|] == n && m[|MessagePrefix| + |n|] == ' '
    ensures var t := StringText(response.statusText);
      |t| <= |m| && m[|m| - |t|..] == t
  {
    MessagePrefix + NumberText(response.status) + " " + StringText(response.statusText)
  }

  /** `new HttpError(opts)`: fails only when `url.parse` throws; otherwise
      keeps the method and the response object as given and does not
      touch the body. */
  function NewHttpError<U>(opts: HttpErrorInit, parseUrl: UrlParse<U>): (r: Result<HttpError<U>, Thrown>)
    ensures r.Failure? <==> parseUrl(opts.url).Failure?
    ensures r.Failure? ==> r.error == parseUrl(opts.url).error
    ensures r.Success? ==>
      && r.value.name == HttpErrorName
      && r.value.url == parseUrl(opts.url).value
      && r.value.httpMethod == opts.httpMethod
      && r.value.response == opts.response
      && r.value.message == Message(opts.response)
      && MessagePrefix <= r.value.message
  {
    var message := Message(opts.response);
    match parseUrl(opts.url)
    case Failure(e) => Failure(e)
    case Success(u) => Success(HttpError(HttpErrorName, message, u, opts.httpMethod, opts.response))
  }

  /** The status a message reports: the digits right after the prefix. */
  function MessageStatus(message: string): Option<nat> {
    if |MessagePrefix| <= |message| && message[..|MessagePrefix|] == MessagePrefix then
      var digits := LeadingDigits(message[|MessagePrefix|..]);
      if digits == [] then None else Some(DigitsValue(digits))
    else None
  }

  /** The message names the response's `status`: reading it back gives
      that status when it is a non-negative number, and no status when it
      is `undefined` or negative. */
  lemma MessageNamesStatus(response: Response)
    ensures MessageStatus(Message(response)) ==
      if response.status.Some? && response.status.value >= 0 then Some(response.status.value) else None
  {
    var m := Message(response);
    var tail := NumberText(response.status) + " " + StringText(response.statusText);
    assert m[..|MessagePrefix|] == MessagePrefix;
    assert m[|MessagePrefix|..] == tail;
    if response.status.Some? && response.status.value >= 0 {
      var d := Decimal(response.status.value);
      assert tail == d + (" " + StringText(response.statusText));
      LeadingDigitsOfNumeral(d, " " + StringText(response.statusText));
      DecimalRoundTrip(response.status.value);
    } else {
      assert !IsDigit(tail[0]);
    }
  }

  /** The `status` getter as written: it reads `statusCode`. */
  function Status<U>(e: HttpError<U>): (s: Option<int>)
    ensures s == e.response.statusCode
  {
    e.response.statusCode
  }

  /** The `status` getter as evidently intended: it reads the same
      `status` field the message is built from. */
  function ReportedStatus<U>(e: HttpError<U>): Option<int> {
    e.response.status
  }

  /** The intended getter agrees with the message of every constructed
      error with a non-negative status. */
  lemma ReportedStatusMatchesMessage<U>(opts: HttpErrorInit, parseUrl: UrlParse<U>)
    requires NewHttpError(opts, parseUrl).Success?
    requires opts.response.status.Some? && opts.response.status.value >= 0
    ensures var e := NewHttpError(opts, parseUrl).value;
      ReportedStatus(e) == Some(opts.response.status.value) &&
      MessageStatus(e.message) == ReportedStatus(e)
  {
    MessageNamesStatus(opts.response);
  }

  /** For a fetch `Response` answering 503 (it has `status` and no
      `statusCode`), the getter as written yields `undefined` although the
      message says 503. */
  lemma StatusGetterMissesFetchStatus()
    ensures var response := Response(Some(503), Some("Service Unavailable"), None,
                                     map["content-type" := "application/json; charset=utf-8"], "{}");
      var opts := HttpErrorInit(Some("http://example.com/"), Some("GET"), response);
      var e := NewHttpError(opts, (u: Option<string>) => Success(u)).value;
      Status(e) == None && MessageStatus(e.message) == Some(503)
  {
    var response := Response(Some(503), Some("Service Unavailable"), None,
                             map["content-type" := "application/json; charset=utf-8"], "{}");
    MessageNamesStatus(response);
  }

  /** `String(this._response.headers.get('Content-Type'))`: the header
      value, or "null" when the header is absent. */
  function ContentType(response: Response): string {
    match Lookup(response.headers, "content-type")
    case Some(v) => v
    case None => "null"
  }

  /** `responseBody()`: JSON exactly when the stringified Content-Type
      contains "json" (case-sensitive), text otherwise. The body itself
      plays no part in the choice. */
  function ResponseBody<U>(e: HttpError<U>): (d: BodyDecoder)
    ensures d == DecodeJson <==> exists i: nat :: OccursAt(ContentType(e.response), "json", i)
  {
    IncludesIffOccurs(ContentType(e.response), "json");
    if Includes(ContentType(e.response), "json") then DecodeJson else DecodeText
  }

  function WithContentType(contentType: Option<string>): Response {
    var headers := match contentType
      case Some(v) => map["content-type" := v]
      case None => map[];
    Response(Some(200), Some("OK"), Some(200), headers, "")
  }

  /** Concrete cases: a charset parameter does not prevent JSON; a missing
      header reads as "null" and gives text; the test is case-sensitive. */
  lemma ResponseBodyExamples<U>(name: string, message: string, url: U)
    ensures ResponseBody(HttpError(name, message, url, None, WithContentType(Some("application/json; charset=utf-8")))) == DecodeJson
    ensures ResponseBody(HttpError(name, message, url, None, WithContentType(Some("text/plain")))) == DecodeText
    ensures ResponseBody(HttpError(name, message, url, None, WithContentType(None))) == DecodeText
    ensures ResponseBody(HttpError(name, message, url, None, WithContentType(Some("APPLICATION/JSON")))) == DecodeText
  {
    assert OccursAt("application/json; charset=utf-8", "json", 12);
    IncludesNeedsFirstChar("text/plain", "json");
    IncludesNeedsFirstChar("null", "json");
    IncludesNeedsFirstChar("APPLICATION/JSON", "json");
  }
}

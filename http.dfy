/**
 * The transport as the client layer sees it: a completed response or a
 * rejected `fetch`, the JSON parser as an oracle, and what a call resolves to.
 */
module Http {
  import opened Wrappers
  import opened JsStrings
  import opened JsValues

  /** A completed HTTP response: status line, body text and `content-type` header. */
  datatype Response = Response(status: nat, statusText: string, body: string, contentType: Option<string>) {

    /** `res.ok`: the status is in the 2xx range. */
    predicate Ok() { 200 <= status <= 299 }

    /** `res.headers.get('content-type') || ''` */
    function ContentType(): string { contentType.GetOr("") }

    /** `ct.includes('application/json')` */
    predicate DeclaresJson() { Includes(ContentType(), "application/json") }
  }

  /** What `await fetch(...)` gives: a response, or a rejection with the transport's error message. */
  datatype Exchange = Completed(response: Response) | TransportError(reason: string)

  /** `JSON.parse` (and `res.json()`): `None` when the text is not JSON. */
  type Parser = string -> Option<Json>

  /**
   * What the caller of a request function observes: a value (`null` is
   * `Data(JNull)`), a raised `Error` with its message, or the rejection of a
   * `res.json()` that was returned without `await`, so that no `catch` of the
   * client layer sees it, or the `TypeError` thrown when a request function
   * destructures a `null` or `undefined` argument, before any request is sent.
   */
  datatype Outcome = Data(value: Json) | Fail(message: string) | BadJson | ArgumentError

  /** An outcome together with the message written to `console.error`, if any. */
  datatype Handled = Handled(outcome: Outcome, logged: Option<string>)

  /** A request as sent: path, query parameters in order, and headers. */
  datatype Request = Request(path: string, query: seq<(string, string)>, headers: map<string, string>)

  /** `return res.json()`: the parsed body, or a rejection when it is not JSON. */
  function ReadJson(body: string, parse: Parser): (r: Outcome)
    ensures r.Data? <==> parse(body).Some?
    ensures r.Data? ==> r.value == parse(body).value
    ensures !r.Fail?
  {
    match parse(body)
    case Some(j) => Data(j)
    case None => BadJson
  }

  /** `console.error(...); throw err`: the failure is logged once with its message and re-raised. */
  function Raised(message: string): (h: Handled)
    ensures h.outcome == Fail(message) && h.logged == Some(message)
  {
    Handled(Fail(message), Some(message))
  }

  /** A result that is returned without being logged. */
  function Quiet(outcome: Outcome): (h: Handled)
    ensures h.outcome == outcome && h.logged.None?
  {
    Handled(outcome, None)
  }
}

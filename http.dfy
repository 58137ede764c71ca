/** The parts of an HTTP exchange that the response interpreter reads or issues:
    status codes as `HttpStatusCode` numbers them, requests, and the response fields
    (status, reason phrase, content type, `Location` header and body text). */
module Http {
  import opened Wrappers

  /** `HttpResponseMessage.StatusCode` only accepts the three-digit range. */
  type StatusCode = s: int | 0 <= s <= 999

  /** `HttpStatusCode.NoContent`. */
  const NoContent: StatusCode := 204
  /** `HttpStatusCode.Redirect` (302, Found). */
  const Redirect: StatusCode := 302
  /** `HttpStatusCode.SeeOther`; `HttpStatusCode.RedirectMethod` is the same number. */
  const SeeOther: StatusCode := 303
  const RedirectMethod: StatusCode := 303

  /** `HttpResponseMessage.IsSuccessStatusCode`: the 2xx range, both ends included. */
  predicate IsSuccessStatusCode(status: StatusCode): (b: bool)
    ensures b <==> status / 100 == 2
  {
    200 <= status <= 299
  }

  type Uri = string

  /** The request method. `Other` stands for a method other than GET, POST, PUT and
      DELETE (PATCH, HEAD, OPTIONS, ...) that an arbitrary request may use; those four
      are always written with their own constructors. */
  datatype Verb = Get | Post | Put | Delete | Other(name: string)

  /** A request as the transport receives it: the verb, the target (absent when
      the caller passed a null `Uri`) and, for POST and PUT, the JSON payload. */
  datatype Request = Request(verb: Verb, uri: Option<Uri>, content: Option<string>)

  /** A completed response:
      - `contentType` is the media type of the `Content-Type` header, `None` when the
        header is absent;
      - `location` is the `Location` header, `None` when absent;
      - `body` is the content read as text. */
  datatype Response = Response(
    status: StatusCode,
    reasonPhrase: string,
    contentType: Option<string>,
    location: Option<Uri>,
    body: string)

  /** A failure of the transport itself (network, DNS, time-out, disposed client). */
  datatype TransportError = TransportError(message: string)

  /** The transport: issues one request and yields its response or a failure. */
  type Transport = Request -> Result<Response, TransportError>
}

/** The response interpreter of `HalHttpClient`: how one HTTP response becomes a
    resource, a failure or a redirect, and the request verbs that run the transport,
    interpret its answer and follow redirects with a GET to the `Location` header. */
module HalHttpClient {
  import opened Wrappers
  import opened Http
  import OrdinalIgnoreCase

  /** The HAL media type; also what every request sends as its `Accept` header. */
  const ApplicationHalJson: string := "application/hal+json"

  /** The resource handed to the caller (`RootResourceObject`): either the empty
      resource built for 204 No Content, or a wrapper around the parser's document. */
  datatype Resource<D> = Empty | Parsed(document: D)

  /** The failure of the HAL JSON parser. */
  datatype ParseError = ParseError(message: string)

  /** The HAL JSON parser (`IHalJsonParser.Parse`), supplied by the caller. */
  type Parser<D> = string -> Result<D, ParseError>

  /** Why a successful response was refused (`NotSupportedException`). */
  datatype UnsupportedReason = MissingContentType | UnsupportedMediaType(mediaType: string)

  /** What a call finally yields: a resource, or one of the failures it throws. */
  datatype Outcome<D> =
    | Returned(resource: Resource<D>)
    | NotSupported(reason: UnsupportedReason)
    | HttpRequestError(status: StatusCode, reasonPhrase: string, attached: Option<Resource<D>>)
    | ParseFailed(parseError: ParseError)
    | TransportFailed(transportError: TransportError)

  /** One interpretation step: a final outcome, or a redirect to follow with a GET. */
  datatype Step<D> = Done(outcome: Outcome<D>) | FollowRedirect(location: Option<Uri>)

  /** The text of the `NotSupportedException`; the unsupported media type ends it. */
  function Message(reason: UnsupportedReason): (m: string)
    ensures reason.UnsupportedMediaType? ==>
      |reason.mediaType| < |m| && m[|m| - |reason.mediaType|..] == reason.mediaType
  {
    match reason
    case MissingContentType => "The response is missing the 'Content-Type' header"
    case UnsupportedMediaType(mediaType) =>
      "The response contains an unsupported 'Content-Type' header value: " + mediaType
  }

  /** The two status codes the interpreter follows: 302 Found and 303 See Other. */
  predicate IsFollowedRedirect(status: StatusCode): (b: bool)
    ensures b <==> status in {302, 303}
    ensures b ==> !IsSuccessStatusCode(status)
  {
    status == Redirect || status == SeeOther || status == RedirectMethod
  }

  /** True when the response declares a media type equal to `application/hal+json`
      ignoring case; an absent `Content-Type` is not HAL. */
  predicate IsHalResponse(contentType: Option<string>): (b: bool)
    ensures b ==> contentType.Some? && |contentType.value| == |ApplicationHalJson|
    ensures contentType == Some(ApplicationHalJson) ==> b
  {
    contentType.Some? && OrdinalIgnoreCase.EqualsIgnoreCase(contentType.value, ApplicationHalJson)
  }

  /** Reads the body and parses it; a parse failure is passed on unchanged. */
  function ParseContent<D>(response: Response, parse: Parser<D>): Result<Resource<D>, ParseError>
  {
    match parse(response.body)
    case Success(document) => Success(Parsed(document))
    case Failure(e) => Failure(e)
  }

  /** One step of `ProcessResponseMessage`: the redirect test, then the success branch
      (204, missing or non-HAL media type, HAL body), then the error branch. */
  function ProcessResponseMessage<D>(response: Response, parse: Parser<D>): (s: Step<D>)
    ensures s.FollowRedirect? <==> IsFollowedRedirect(response.status)
    ensures s.FollowRedirect? ==> s.location == response.location
    ensures s.Done? ==> !s.outcome.TransportFailed?
    ensures s.Done? && s.outcome.HttpRequestError? ==>
      && !IsSuccessStatusCode(response.status)
      && s.outcome.status == response.status
      && s.outcome.reasonPhrase == response.reasonPhrase
  {
    if IsFollowedRedirect(response.status) then
      FollowRedirect(response.location)
    else
      var mediaType := response.contentType;
      var isHalResponse := IsHalResponse(mediaType);
      if IsSuccessStatusCode(response.status) then
        if response.status == NoContent then
          Done(Returned(Empty))
        else if mediaType.None? || mediaType.value == "" then
          Done(NotSupported(MissingContentType))
        else if !isHalResponse then
          Done(NotSupported(UnsupportedMediaType(mediaType.value)))
        else
          match ParseContent(response, parse)
          case Success(resource) => Done(Returned(resource))
          case Failure(e) => Done(ParseFailed(e))
      else if !isHalResponse then
        Done(HttpRequestError(response.status, response.reasonPhrase, None))
      else
        match ParseContent(response, parse)
        case Success(resource) => Done(HttpRequestError(response.status, response.reasonPhrase, Some(resource)))
        case Failure(e) => Done(ParseFailed(e))
  }

  /** The GET that follows a redirect: no payload, the `Location` header as target. */
  function GetRequest(uri: Option<Uri>): Request
  {
    Request(Get, uri, None)
  }

  /** Issues one request and interprets the transport's answer. */
  function Answer<D>(transport: Transport, parse: Parser<D>, request: Request): (s: Step<D>)
    ensures (s.Done? && s.outcome.TransportFailed?) <==> transport(request).Failure?
  {
    match transport(request)
    case Failure(e) => Done(TransportFailed(e))
    case Success(response) => ProcessResponseMessage(response, parse)
  }

  /** The requests a call issued, in order, and its outcome; `None` only when the
      fuel ran out while redirects were still being followed. */
  datatype Exchange<D> = Exchange(requests: seq<Request>, outcome: Option<Outcome<D>>)

  /** Each request after the first is the GET that the previous answer redirected to. */
  ghost predicate IsRedirectChain<D>(transport: Transport, parse: Parser<D>, requests: seq<Request>)
  {
    forall i :: 0 < i < |requests| ==>
      && requests[i] == GetRequest(requests[i].uri)
      && Answer(transport, parse, requests[i - 1]) == FollowRedirect(requests[i].uri)
  }

  /** Runs a request and follows redirects, issuing at most `fuel` requests. */
  function Run<D>(transport: Transport, parse: Parser<D>, request: Request, fuel: nat): (x: Exchange<D>)
    ensures |x.requests| <= fuel
    ensures fuel > 0 ==> |x.requests| > 0 && x.requests[0] == request
    ensures x.outcome.None? ==> |x.requests| == fuel
    decreases fuel
  {
    if fuel == 0 then
      Exchange([], None)
    else
      match Answer(transport, parse, request)
      case Done(outcome) => Exchange([request], Some(outcome))
      case FollowRedirect(location) =>
        var rest := Run(transport, parse, GetRequest(location), fuel - 1);
        Exchange([request] + rest.requests, rest.outcome)
  }

  /** The requests of a run form a redirect chain from the first request; the last
      one's answer is the outcome, or, when the fuel ran out, one more redirect. */
  lemma {:induction false} RunIsRedirectChain<D>(transport: Transport, parse: Parser<D>, request: Request, fuel: nat)
    ensures var x := Run(transport, parse, request, fuel);
      && IsRedirectChain(transport, parse, x.requests)
      && (x.outcome.Some? ==>
            |x.requests| > 0 && Answer(transport, parse, x.requests[|x.requests| - 1]) == Done(x.outcome.value))
      && (x.outcome.None? && fuel > 0 ==>
            Answer(transport, parse, x.requests[|x.requests| - 1]).FollowRedirect?)
    decreases fuel
  {
    if fuel > 0 {
      var step := Answer(transport, parse, request);
      if step.FollowRedirect? {
        var next := GetRequest(step.location);
        RunIsRedirectChain(transport, parse, next, fuel - 1);
        var rest := Run(transport, parse, next, fuel - 1);
        var x := Run(transport, parse, request, fuel);
        assert x.requests == [request] + rest.requests;
        forall i | 0 < i < |x.requests|
          ensures x.requests[i] == GetRequest(x.requests[i].uri)
          ensures Answer(transport, parse, x.requests[i - 1]) == FollowRedirect(x.requests[i].uri)
        {
          if i > 1 {
            assert x.requests[i] == rest.requests[i - 1];
            assert x.requests[i - 1] == rest.requests[i - 2];
          }
        }
      }
    }
  }

  /** True when only the first request may carry the caller's verb and payload. */
  ghost predicate FollowUpsAreGets(requests: seq<Request>)
  {
    forall i :: 0 < i < |requests| ==> requests[i].verb == Get && requests[i].content == None
  }

  /** `SendAsync`: sends an arbitrary request and interprets the answer. */
  function Send<D>(transport: Transport, parse: Parser<D>, request: Request, fuel: nat): (x: Exchange<D>)
    ensures fuel > 0 ==> |x.requests| > 0 && x.requests[0] == request
    ensures FollowUpsAreGets(x.requests)
  {
    RunIsRedirectChain(transport, parse, request, fuel);
    Run(transport, parse, request, fuel)
  }

  /** `GetAsync`. */
  function GetResource<D>(transport: Transport, parse: Parser<D>, uri: Option<Uri>, fuel: nat): (x: Exchange<D>)
    ensures fuel > 0 ==> |x.requests| > 0 && x.requests[0] == Request(Get, uri, None)
    ensures FollowUpsAreGets(x.requests)
  {
    Send(transport, parse, GetRequest(uri), fuel)
  }

  /** `PostAsync`; `json` is the payload already serialised. */
  function PostResource<D>(transport: Transport, parse: Parser<D>, uri: Option<Uri>, json: string, fuel: nat): (x: Exchange<D>)
    ensures fuel > 0 ==> |x.requests| > 0 && x.requests[0] == Request(Post, uri, Some(json))
    ensures FollowUpsAreGets(x.requests)
  {
    Send(transport, parse, Request(Post, uri, Some(json)), fuel)
  }

  /** `PutAsync`; `json` is the payload already serialised. */
  function PutResource<D>(transport: Transport, parse: Parser<D>, uri: Option<Uri>, json: string, fuel: nat): (x: Exchange<D>)
    ensures fuel > 0 ==> |x.requests| > 0 && x.requests[0] == Request(Put, uri, Some(json))
    ensures FollowUpsAreGets(x.requests)
  {
    Send(transport, parse, Request(Put, uri, Some(json)), fuel)
  }

  /** `DeleteAsync`. */
  function DeleteResource<D>(transport: Transport, parse: Parser<D>, uri: Option<Uri>, fuel: nat): (x: Exchange<D>)
    ensures fuel > 0 ==> |x.requests| > 0 && x.requests[0] == Request(Delete, uri, None)
    ensures FollowUpsAreGets(x.requests)
  {
    Send(transport, parse, Request(Delete, uri, None), fuel)
  }
}

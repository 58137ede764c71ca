/** What `HalHttpClient`'s response interpreter promises, stated over the model:
    one lemma per rule of `ProcessResponseMessage`, a classification of every response
    into exactly one outcome, and the laws of redirect following. */
module HalHttpClientProperties {
  import opened Wrappers
  import opened Http
  import opened OrdinalIgnoreCase
  import opened HalHttpClient

  /** The HAL test ignores case: a media type is HAL exactly when its lower-case form
      is `application/hal+json`; an absent header is not HAL. */
  lemma IsHalResponseIgnoresCase(mediaType: string)
    ensures IsHalResponse(Some(mediaType)) <==> LowerString(mediaType) == ApplicationHalJson
    ensures !IsHalResponse(None)
  {
    HalMediaTypeIsLowerCase();
    EqualsIgnoreCaseLowerCase(mediaType, ApplicationHalJson);
  }

  /** `application/hal+json` has no upper-case letters. */
  lemma HalMediaTypeIsLowerCase()
    ensures HasNoUpperCase(ApplicationHalJson)
  {
  }

  /** `Application/HAL+JSON` is HAL; `application/json` is not. */
  lemma IsHalResponseExamples()
    ensures IsHalResponse(Some("Application/HAL+JSON"))
    ensures !IsHalResponse(Some("application/json"))
  {
    assert ToUpper('A') == ToUpper('a') && ToUpper('H') == ToUpper('h');
  }

  /** The parse step reads the body alone: status, content type, reason phrase and
      location do not matter, and the parser's failure is passed on unchanged. */
  lemma ParseContentReadsOnlyBody<D>(response: Response, parse: Parser<D>, status: StatusCode,
                                     contentType: Option<string>, reasonPhrase: string, location: Option<Uri>)
    ensures ParseContent(response.(status := status, contentType := contentType,
                                   reasonPhrase := reasonPhrase, location := location), parse)
         == ParseContent(response, parse)
    ensures parse(response.body).Failure? ==> ParseContent(response, parse) == Failure(parse(response.body).error)
  {
  }

  /** Redirects first: 302 and 303 are followed with a GET to `Location` whatever the
      content type, body, reason phrase and parser. */
  lemma RedirectsComeFirst<D>(response: Response, parse: Parser<D>,
                              contentType: Option<string>, body: string, reasonPhrase: string, parse': Parser<D>)
    requires IsFollowedRedirect(response.status)
    ensures ProcessResponseMessage(response, parse) == FollowRedirect(response.location)
    ensures ProcessResponseMessage(response.(contentType := contentType, body := body, reasonPhrase := reasonPhrase), parse')
         == FollowRedirect(response.location)
  {
  }

  /** Only 302 and 303 are followed; 301, 307 and 308 are errors like any other
      non-2xx status. */
  lemma OnlyFoundAndSeeOtherAreFollowed<D>(response: Response, parse: Parser<D>)
    ensures ProcessResponseMessage(response, parse).FollowRedirect? <==> response.status in {302, 303}
    ensures response.status in {301, 307, 308} && !IsHalResponse(response.contentType) ==>
      ProcessResponseMessage(response, parse) ==
        Done(HttpRequestError(response.status, response.reasonPhrase, None))
  {
  }

  /** 204 No Content yields the empty resource whatever the body, content type and parser. */
  lemma NoContentIsEmptyResource<D>(response: Response, parse: Parser<D>,
                                    contentType: Option<string>, body: string, parse': Parser<D>)
    requires response.status == NoContent
    ensures ProcessResponseMessage(response, parse) == Done(Returned(Empty))
    ensures ProcessResponseMessage(response.(contentType := contentType, body := body), parse')
         == Done(Returned(Empty))
  {
  }

  /** A 2xx other than 204 with no media type (absent or empty) is refused, without
      reading the body: any other body or parser gives the same outcome. */
  lemma MissingMediaTypeIsUnsupported<D>(response: Response, parse: Parser<D>, body: string, parse': Parser<D>)
    requires IsSuccessStatusCode(response.status) && response.status != NoContent
    requires response.contentType.None? || response.contentType.value == ""
    ensures ProcessResponseMessage(response, parse) == Done(NotSupported(MissingContentType))
    ensures ProcessResponseMessage(response.(body := body), parse') == Done(NotSupported(MissingContentType))
  {
  }

  /** A 2xx other than 204 whose media type is not HAL is refused with a message that
      ends with that media type, without reading the body. */
  lemma NonHalMediaTypeIsUnsupported<D>(response: Response, parse: Parser<D>, body: string, parse': Parser<D>)
    requires IsSuccessStatusCode(response.status) && response.status != NoContent
    requires response.contentType.Some? && response.contentType.value != ""
    requires !IsHalResponse(response.contentType)
    ensures ProcessResponseMessage(response, parse) ==
      Done(NotSupported(UnsupportedMediaType(response.contentType.value)))
    ensures ProcessResponseMessage(response.(body := body), parse') ==
      ProcessResponseMessage(response, parse)
    ensures var m := Message(UnsupportedMediaType(response.contentType.value));
      m[|m| - |response.contentType.value|..] == response.contentType.value
  {
  }

  /** A 2xx other than 204 with the HAL media type returns the parsed body; a parse
      failure comes out unchanged. */
  lemma HalSuccessReturnsParsedResource<D>(response: Response, parse: Parser<D>)
    requires IsSuccessStatusCode(response.status) && response.status != NoContent
    requires IsHalResponse(response.contentType)
    ensures parse(response.body).Success? ==>
      ProcessResponseMessage(response, parse) == Done(Returned(Parsed(parse(response.body).value)))
    ensures parse(response.body).Failure? ==>
      ProcessResponseMessage(response, parse) == Done(ParseFailed(parse(response.body).error))
  {
  }

  /** A status that is neither 2xx nor followed fails with that status and reason; the
      error carries the parsed body exactly when the media type is HAL, the parser is
      not consulted otherwise, and a parse failure replaces the HTTP error. */
  lemma ErrorsCarryStatusAndReason<D>(response: Response, parse: Parser<D>, parse': Parser<D>)
    requires !IsSuccessStatusCode(response.status) && !IsFollowedRedirect(response.status)
    ensures !IsHalResponse(response.contentType) ==>
      && ProcessResponseMessage(response, parse) == Done(HttpRequestError(response.status, response.reasonPhrase, None))
      && ProcessResponseMessage(response, parse') == ProcessResponseMessage(response, parse)
    ensures IsHalResponse(response.contentType) && parse(response.body).Success? ==>
      ProcessResponseMessage(response, parse) ==
        Done(HttpRequestError(response.status, response.reasonPhrase, Some(Parsed(parse(response.body).value))))
    ensures IsHalResponse(response.contentType) && parse(response.body).Failure? ==>
      ProcessResponseMessage(response, parse) == Done(ParseFailed(parse(response.body).error))
  {
  }

  /** Every response falls into exactly one outcome, each described by its conditions. */
  lemma OutcomeClassification<D>(response: Response, parse: Parser<D>)
    ensures var s := ProcessResponseMessage(response, parse);
      var success := IsSuccessStatusCode(response.status);
      var hal := IsHalResponse(response.contentType);
      var parsed := parse(response.body).Success?;
      && (s.FollowRedirect? <==> IsFollowedRedirect(response.status))
      && (s.Done? && s.outcome.Returned? <==>
            response.status == NoContent || (success && hal && parsed))
      && (s.Done? && s.outcome.NotSupported? <==>
            success && response.status != NoContent && !hal)
      && (s.Done? && s.outcome.HttpRequestError? <==>
            !success && !IsFollowedRedirect(response.status) && (!hal || parsed))
      && (s.Done? && s.outcome.ParseFailed? <==>
            !IsFollowedRedirect(response.status) && response.status != NoContent && hal && !parsed)
      && (s.Done? ==> !s.outcome.TransportFailed?)
  {
    if response.contentType.Some? && response.contentType.value == "" {
      assert !IsHalResponse(response.contentType);
    }
  }

  /** Following a redirect: the call's outcome is exactly that of a GET to `Location`,
      issued as the next request. */
  lemma {:induction false} RunFollowsRedirect<D>(transport: Transport, parse: Parser<D>, request: Request, fuel: nat)
    requires Answer(transport, parse, request).FollowRedirect?
    ensures var location := Answer(transport, parse, request).location;
      var rest := GetResource(transport, parse, location, fuel);
      Run(transport, parse, request, fuel + 1) == Exchange([request] + rest.requests, rest.outcome)
  {
  }

  /** A call that settles within some fuel settles the same way, after the same
      requests, with any more fuel. */
  lemma {:induction false} RunIsMonotone<D>(transport: Transport, parse: Parser<D>, request: Request, fuel: nat, fuel': nat)
    requires fuel <= fuel'
    requires Run(transport, parse, request, fuel).outcome.Some?
    ensures Run(transport, parse, request, fuel') == Run(transport, parse, request, fuel)
    decreases fuel
  {
    var step := Answer(transport, parse, request);
    if step.FollowRedirect? {
      RunIsMonotone(transport, parse, GetRequest(step.location), fuel - 1, fuel' - 1);
    }
  }

  /** A GET whose answer redirects to the same location never produces an outcome:
      the interpreter itself puts no bound on the number of redirects. */
  lemma {:induction false} RedirectLoopNeverSettles<D>(transport: Transport, parse: Parser<D>, uri: Option<Uri>, fuel: nat)
    requires Answer(transport, parse, GetRequest(uri)) == FollowRedirect(uri)
    ensures Run(transport, parse, GetRequest(uri), fuel).outcome.None?
    ensures forall i :: 0 <= i < |Run(transport, parse, GetRequest(uri), fuel).requests| ==>
      Run(transport, parse, GetRequest(uri), fuel).requests[i] == GetRequest(uri)
  {
    if fuel > 0 {
      RedirectLoopNeverSettles(transport, parse, uri, fuel - 1);
    }
  }

  /** A POST answered with 303 is followed by a GET without payload, and the outcome
      is the interpretation of that GET's response. */
  lemma PostAnsweredWithSeeOther<D>(transport: Transport, parse: Parser<D>, uri: Option<Uri>, json: string, location: Option<Uri>, fuel: nat)
    requires transport(Request(Post, uri, Some(json))).Success?
    requires transport(Request(Post, uri, Some(json))).value.status == SeeOther
    requires transport(Request(Post, uri, Some(json))).value.location == location
    requires transport(GetRequest(location)).Success?
    requires !IsFollowedRedirect(transport(GetRequest(location)).value.status)
    ensures var x := PostResource(transport, parse, uri, json, fuel + 2);
      && x.requests == [Request(Post, uri, Some(json)), Request(Get, location, None)]
      && x.outcome == Some(ProcessResponseMessage(transport(GetRequest(location)).value, parse).outcome)
  {
    var post := Request(Post, uri, Some(json));
    assert Answer(transport, parse, post) == FollowRedirect(location);
    var get := Run(transport, parse, GetRequest(location), fuel + 1);
    assert get.requests == [GetRequest(location)];
    assert PostResource(transport, parse, uri, json, fuel + 2).requests == [post] + get.requests;
  }
}

/** Concrete exchanges: an empty 204, a `text/plain` 200, a HAL 404 and a 302 whose
    target answers with a HAL document. */
module HalHttpClientScenarios {
  import opened Wrappers
  import opened Http
  import opened OrdinalIgnoreCase
  import opened HalHttpClient
  import HalHttpClientProperties

  /** 204 with no body and no content type: the empty resource. */
  lemma NoContentScenario<D>(parse: Parser<D>)
    ensures ProcessResponseMessage(Response(204, "No Content", None, None, ""), parse) == Done(Returned(Empty))
  {
  }

  /** 200 with `text/plain`: refused as an unsupported media type. */
  lemma PlainTextScenario<D>(parse: Parser<D>, body: string)
    ensures ProcessResponseMessage(Response(200, "OK", Some("text/plain"), None, body), parse)
         == Done(NotSupported(UnsupportedMediaType("text/plain")))
  {
  }

  /** 404 with a HAL body the parser accepts: the HTTP error carries that document. */
  lemma NotFoundWithHalBodyScenario<D>(parse: Parser<D>, document: D)
    requires parse("{\"message\":\"not found\"}") == Success(document)
    ensures ProcessResponseMessage(
              Response(404, "Not Found", Some(ApplicationHalJson), None, "{\"message\":\"not found\"}"), parse)
         == Done(HttpRequestError(404, "Not Found", Some(Parsed(document))))
  {
    HalMediaTypeIsHal();
  }

  /** A server where `/a` answers 302 to `/b` and `/b` answers 200 with a HAL body. */
  function RedirectingServer(body: string): Transport
  {
    (request: Request) =>
      if request.uri == Some("/a") then Success(Response(302, "Found", None, Some("/b"), ""))
      else if request.uri == Some("/b") then Success(Response(200, "OK", Some(ApplicationHalJson), None, body))
      else Failure(TransportError("no such resource"))
  }

  /** GET `/a` issues GET `/a` then GET `/b`, and returns the document parsed from `/b`. */
  lemma RedirectScenario<D>(parse: Parser<D>, body: string, document: D)
    requires parse(body) == Success(document)
    ensures var x := GetResource(RedirectingServer(body), parse, Some("/a"), 2);
      && x.requests == [GetRequest(Some("/a")), GetRequest(Some("/b"))]
      && x.outcome == Some(Returned(Parsed(document)))
  {
    var t := RedirectingServer(body);
    var a, b := GetRequest(Some("/a")), GetRequest(Some("/b"));
    FoundToB(parse);
    OkWithHal(parse, body, document);
    assert Answer(t, parse, a) == FollowRedirect(Some("/b"));
    assert Answer(t, parse, b) == Done(Returned(Parsed(document)));
    assert Run(t, parse, b, 1) == Exchange([b], Some(Returned(Parsed(document))));
  }

  /** The answer of `/a` is a redirect to `/b`. */
  lemma FoundToB<D>(parse: Parser<D>)
    ensures ProcessResponseMessage(Response(302, "Found", None, Some("/b"), ""), parse) == FollowRedirect(Some("/b"))
  {
  }

  /** The answer of `/b` is the parsed document. */
  lemma OkWithHal<D>(parse: Parser<D>, body: string, document: D)
    requires parse(body) == Success(document)
    ensures ProcessResponseMessage(Response(200, "OK", Some(ApplicationHalJson), None, body), parse)
         == Done(Returned(Parsed(document)))
  {
    HalMediaTypeIsHal();
    HalHttpClientProperties.HalSuccessReturnsParsedResource(
      Response(200, "OK", Some(ApplicationHalJson), None, body), parse);
  }

  /** The HAL media type, written as the constant, is HAL. */
  lemma HalMediaTypeIsHal()
    ensures IsHalResponse(Some(ApplicationHalJson))
  {
    EqualsIgnoreCaseIsEquivalence(ApplicationHalJson, ApplicationHalJson, ApplicationHalJson);
  }
}

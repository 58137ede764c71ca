# HalClient.Net response interpreter in Dafny

This project models the core of `HalHttpClient`, the client of HalClient.Net that sends
HTTP requests and interprets each response by the HAL (`application/hal+json`)
convention. For each response the interpreter decides one of these:

- follow a 302 or 303 redirect with a GET to the `Location` header;
- return the empty resource for 204 No Content;
- refuse a successful response whose media type is missing or is not HAL;
- return the parsed HAL body;
- fail with an HTTP error that carries the status, the reason phrase and, when the body is HAL, the parsed body.

A parse failure is passed on unchanged. The model also covers the request verbs (GET,
POST, PUT, DELETE, and send with any method) as "run the transport, then interpret", and
the dispose protocol that releases the owned transport once.

Modules, one file each:

- `Wrappers` (`wrappers.dfy`): `Option` and `Result`.
- `OrdinalIgnoreCase` (`ordinal_ignore_case.dfy`): the case-insensitive media-type comparison.
- `Http` (`http.dfy`): status codes, requests, responses and the transport as a function.
- `HalHttpClient` (`hal_http_client.dfy`): these pieces:
  - the HAL constant;
  - the resource and outcome datatypes;
  - `ParseContent`;
  - `ProcessResponseMessage` as a single step, either `Done(outcome)` or `FollowRedirect(location)`;
  - the driver `Run`, which follows redirects and records the requests it issued;
  - the verb functions.
- `HalHttpClientProperties` (`hal_http_client_properties.dfy`): the rules of the interpreter and the laws of redirect following, as lemmas.
- `HalHttpClientScenarios` (`hal_http_client_scenarios.dfy`): concrete exchanges.
- `Disposal` (`disposal.dfy`): the C# class `HalHttpClient` as the Dafny class `DisposableHalClient`, seen through its nullable `httpClient` field, which is disposed and nulled.

The transport is a parameter `Request -> Result<Response, TransportError>`. The HAL
parser is a parameter `string -> Result<D, ParseError>`, and the parsed document type `D`
is left abstract.

Only 302 (`HttpStatusCode.Redirect`) and 303 (`HttpStatusCode.SeeOther`, with its alias
`RedirectMethod`) are followed. 307 (`TemporaryRedirect`/`RedirectKeepVerb`) is not among
the codes tested at HalClient.Net/HalHttpClient.cs:76-78, so it takes the error branch,
as do 301 and 308 (`OnlyFoundAndSeeOtherAreFollowed`).

The source follows redirects by calling `GetAsync` again, with no hop limit. `Run` takes a
`fuel` bound on the number of requests. Its `outcome` is `None` only when the fuel ran out
while redirects were still being followed. That is an artefact of the model, not a result
the source produces: `RunIsMonotone` shows that more fuel never changes a settled result,
and `RedirectLoopNeverSettles` shows that a self-redirect never settles at any fuel.

## Model

| member | source | states |
|---|---|---|
| `OrdinalIgnoreCase.ToUpperFollowsAlphabet` | HalClient.Net/HalHttpClient.cs:87 | a lower-case letter upper-cases to the letter at the same place of the upper-case alphabet; a character outside the lower-case alphabet is its own upper case |
| `OrdinalIgnoreCase.EqualsIgnoreCase` | HalClient.Net/HalHttpClient.cs:87 | equal strings compare equal; strings that compare equal have the same length |
| `OrdinalIgnoreCase.UpperString` | HalClient.Net/HalHttpClient.cs:87 | upper-casing keeps the length and upper-cases the character at every position |
| `OrdinalIgnoreCase.EqualsIgnoreCaseIsUpperEquality` | HalClient.Net/HalHttpClient.cs:87 | the ordinal case-insensitive comparison holds exactly when both upper-cased strings are equal |
| `OrdinalIgnoreCase.ToLower` | HalClient.Net/HalHttpClient.cs:87 | upper-case ASCII letters map to the lower-case letter whose upper case they are; every other character maps to itself |
| `OrdinalIgnoreCase.LowerString` | HalClient.Net/HalHttpClient.cs:87 | lower-casing keeps the length and lower-cases the character at every position |
| `OrdinalIgnoreCase.SameUpperIffSameLower` | HalClient.Net/HalHttpClient.cs:87 | two characters have the same upper case exactly when they have the same lower case |
| `OrdinalIgnoreCase.EqualsIgnoreCaseLowerCase` | HalClient.Net/HalHttpClient.cs:87 | against a string with no upper-case letters, the comparison holds exactly when the lower-cased other string equals it |
| `OrdinalIgnoreCase.EqualsIgnoreCaseIsEquivalence` | HalClient.Net/HalHttpClient.cs:87 | the comparison is reflexive, symmetric and transitive |
| `HalHttpClient.Message` | HalClient.Net/HalHttpClient.cs:95-99 | the message for an unsupported media type ends with that media type |
| `HalHttpClient.ProcessResponseMessage` | HalClient.Net/HalHttpClient.cs:74-110 | a step follows a redirect exactly for 302/303, to the response's `Location`; it never produces a transport failure; an HTTP error is non-2xx and carries the response's status and reason phrase |
| `Http.IsSuccessStatusCode` | HalClient.Net/HalHttpClient.cs:90 | a status is a success exactly when its hundreds digit is 2 |
| `HalHttpClient.IsFollowedRedirect` | HalClient.Net/HalHttpClient.cs:76-78 | exactly 302 and 303 are followed, and neither is a success status |
| `HalHttpClient.IsHalResponse` | HalClient.Net/HalHttpClient.cs:81-88 | a HAL media type is present and as long as `application/hal+json`; the constant itself is HAL |
| `HalHttpClient.Answer` | HalClient.Net/HalHttpClient.cs:51-53 | the call ends in a transport failure exactly when the transport failed |
| `HalHttpClient.Run` | HalClient.Net/HalHttpClient.cs:76-79 | the first request issued is the caller's; at most `fuel` requests are issued; running out of fuel means all of them were issued |
| `HalHttpClient.RunIsRedirectChain` | HalClient.Net/HalHttpClient.cs:76-79 | every request after the first is the GET that the previous answer redirected to; the last answer is the outcome, or one more redirect when the fuel ran out |
| `HalHttpClient.Send` | HalClient.Net/HalHttpClient.cs:63-68 | sends the caller's request first; every follow-up request is a GET without payload |
| `HalHttpClient.GetResource` | HalClient.Net/HalHttpClient.cs:49-54 | issues a GET to the URI first; follow-ups are GETs without payload |
| `HalHttpClient.PostResource` | HalClient.Net/HalHttpClient.cs:35-40 | issues a POST with the JSON payload first; follow-ups are GETs without payload |
| `HalHttpClient.PutResource` | HalClient.Net/HalHttpClient.cs:42-47 | issues a PUT with the JSON payload first; follow-ups are GETs without payload |
| `HalHttpClient.DeleteResource` | HalClient.Net/HalHttpClient.cs:56-61 | issues a DELETE first; follow-ups are GETs without payload |
| `HalHttpClientProperties.IsHalResponseIgnoresCase` | HalClient.Net/HalHttpClient.cs:81-88 | a media type is HAL exactly when its lower-case form is `application/hal+json`; an absent content type is not HAL |
| `HalHttpClientProperties.HalMediaTypeIsLowerCase` | HalClient.Net/HalHttpClient.cs:11 | the HAL constant has no upper-case letters |
| `HalHttpClientProperties.IsHalResponseExamples` | HalClient.Net/HalHttpClient.cs:11 | `Application/HAL+JSON` is HAL; `application/json` is not |
| `HalHttpClientProperties.ParseContentReadsOnlyBody` | HalClient.Net/HalHttpClient.cs:112-118 | the parse step depends on the body alone, not on status, content type, reason phrase or location; a parser failure is passed on unchanged |
| `HalHttpClientProperties.RedirectsComeFirst` | HalClient.Net/HalHttpClient.cs:76-79 | 302/303 give a redirect to `Location`, whatever the content type, body, reason phrase or parser |
| `HalHttpClientProperties.OnlyFoundAndSeeOtherAreFollowed` | HalClient.Net/HalHttpClient.cs:76-78 | a redirect is followed exactly for 302 and 303; 301, 307 and 308 take the error branch, and without HAL content are plain HTTP errors |
| `HalHttpClientProperties.NoContentIsEmptyResource` | HalClient.Net/HalHttpClient.cs:90-93 | 204 gives the empty resource, whatever the body, content type or parser |
| `HalHttpClientProperties.MissingMediaTypeIsUnsupported` | HalClient.Net/HalHttpClient.cs:95-96 | a 2xx other than 204 with an absent or empty media type is refused as missing its content type; neither body nor parser matters |
| `HalHttpClientProperties.NonHalMediaTypeIsUnsupported` | HalClient.Net/HalHttpClient.cs:98-99 | a 2xx other than 204 with a non-HAL media type is refused naming that media type; neither body nor parser matters; the message ends with the media type |
| `HalHttpClientProperties.HalSuccessReturnsParsedResource` | HalClient.Net/HalHttpClient.cs:98-101 | a 2xx other than 204 with HAL media type returns the parsed document; a parse failure comes out as that same error |
| `HalHttpClientProperties.ErrorsCarryStatusAndReason` | HalClient.Net/HalHttpClient.cs:104-109 | a status that is neither 2xx nor followed fails with that status and reason phrase; the parsed body is attached exactly when the media type is HAL; the parser does not matter otherwise; with HAL content a parse failure replaces the HTTP error |
| `HalHttpClientProperties.OutcomeClassification` | HalClient.Net/HalHttpClient.cs:74-110 | for each of redirect, resource, unsupported, HTTP error and parse failure, the outcome has that form exactly when its condition on status, media type and parse result holds |
| `HalHttpClientProperties.RunFollowsRedirect` | HalClient.Net/HalHttpClient.cs:79 | when the answer is a redirect, the call's requests and outcome are the current request followed by those of a GET to `Location` |
| `HalHttpClientProperties.RunIsMonotone` | HalClient.Net/HalHttpClient.cs:76-79 | a call that settles within some fuel settles the same way, after the same requests, with any larger fuel |
| `HalHttpClientProperties.RedirectLoopNeverSettles` | HalClient.Net/HalHttpClient.cs:76-79 | a GET answered by a redirect to its own location never settles, and every request it issues is that same GET |
| `HalHttpClientProperties.PostAnsweredWithSeeOther` | HalClient.Net/HalHttpClient.cs:35-40 | a POST answered with 303 is followed by one GET to `Location` without payload; the outcome is the interpretation of that GET's response |
| `HalHttpClientScenarios.NoContentScenario` | HalClient.Net/HalHttpClient.cs:92-93 | 204 with no body and no content type gives the empty resource |
| `HalHttpClientScenarios.PlainTextScenario` | HalClient.Net/HalHttpClient.cs:98-99 | 200 with `text/plain` is refused as an unsupported media type |
| `HalHttpClientScenarios.NotFoundWithHalBodyScenario` | HalClient.Net/HalHttpClient.cs:107-109 | 404 with a HAL body fails with status 404, its reason phrase and the parsed body |
| `HalHttpClientScenarios.RedirectScenario` | HalClient.Net/HalHttpClient.cs:76-79 | GET `/a`, answered 302 to `/b`, issues GET `/a` then GET `/b` and returns the document parsed from `/b` |
| `HalHttpClientScenarios.HalMediaTypeIsHal` | HalClient.Net/HalHttpClient.cs:11 | the constant `application/hal+json` passes the HAL test |
| `Disposal.DisposableHalClient.constructor` | HalClient.Net/HalHttpClient.cs:15-24 | the client holds the given transport, whether or not it was disposed before, and has not disposed it itself |
| `Disposal.DisposableHalClient.DisposeCore` | HalClient.Net/HalHttpClient.cs:126-136 | with `disposing` false nothing changes; otherwise a held transport is disposed one more time and the field is nulled; with the field already null nothing changes |
| `Disposal.DisposableHalClient.Dispose` | HalClient.Net/HalHttpClient.cs:120-124 | afterwards the client is disposed and has disposed its transport exactly once, adding one disposal if it still held it; a second call changes nothing |
| `Disposal.DisposeTwice` | HalClient.Net/HalHttpClient.cs:120-136 | disposing a client twice adds one disposal to its transport |
| `Disposal.DisposedElsewhere` | HalClient.Net/HalHttpClient.cs:126-136 | a transport disposed by another holder is still disposed by the client's own `Dispose()`, once: two disposals in all |

## Left out

- Transport and async machinery: `HttpClient`, `NonParsingHttpClient`, `GetAsync`, `PostAsJsonAsync`, `PutAsJsonAsync`, `DeleteAsync`, `SendAsync`, `ReadAsStringAsync` and the tasks. The transport is a function parameter and the body arrives as text.
- JSON serialisation of POST and PUT payloads: the payload is the already-serialised string.
- Request headers and the other parts of an `HttpRequestMessage` given to `SendAsync`: a request is its method, target and payload only.
- Answers that change over time: the transport is a fixed function of the request, so a server that answers the same request differently on a later hop is not modelled. `RedirectLoopNeverSettles` is therefore about a GET that always redirects to itself.
- The `HttpClient` pass-through property: it exposes the transport without interpretation and has no logic of its own.
- The HAL JSON parser and the contents of `RootResourceObject`. The parser is a function parameter. The resource is `Empty` or an opaque wrapped document.
- The constructor's `Accept`-header mutation, `HalHttpClientConfiguration` and `CachedApiRootResource`: header state and a plain property, with no decisions in them.
- The constructor's `ArgumentNullException` checks: Dafny's non-null reference types make a null transport impossible to pass. The parser is not part of the disposal class.
- `GC.SuppressFinalize`, finalisation and concurrent use of one client: runtime and concurrency concerns.
- A response whose `Content` is null (possible on older .NET runtimes; line 84 would throw): the model assumes the content is always present.
- A null reason phrase: .NET's `ReasonPhrase` may be null, and lines 105 and 109 pass it on unchanged; the model's `reasonPhrase` is always a string. No decision depends on it.
- The message text of `HalHttpRequestException`, which is written outside the core.
- Use of the transport after `Dispose`: the transport decides what happens. The `Disposal` class is not linked to the verb functions.
- HalHttpClient.Run: bounded by `fuel`. The source has no hop limit, so an endless redirect chain does not terminate in the source; in the model the outcome is `None` once the fuel is used up.
- OrdinalIgnoreCase.ToUpper: folds the ASCII letters only. The HAL constant is pure ASCII. Upper-case mappings of other characters, including any that map to ASCII letters, are not modelled.

/** The URL route of the scanning provider: `POST { url }` submits a URL for
    analysis and relays the provider's acknowledgement. */
module VtUrlRoute {
  import opened Js
  import opened Http

  const UrlRequiredMessage := "URL is required"
  const AnalyzeFailedMessage := "Failed to analyze URL"

  /** The request body after `const { url } = await request.json()`: an object
      whose `url` property may be missing, or a body that makes that line throw
      (not JSON at all, or JSON `null`). */
  datatype JsonBody = Object(url: Option<Value>) | Malformed

  /** `POST`: require a truthy `url`, submit it, relay the answer. Everything
      that throws, the body parse included, is answered with 400. */
  function Post<B>(body: JsonBody, upstream: Upstream<B>): (h: Handled<Value, B>)
    ensures h.request.Some? <==> body.Object? && TruthyOpt(body.url)
    ensures h.request.Some? ==> h.request.value == body.url.value
    ensures body.Object? && !TruthyOpt(body.url) ==> h.response == Response(StatusBadRequest, ErrorMessage(UrlRequiredMessage))
    ensures body.Malformed? ==> h.response == Response(StatusBadRequest, ErrorMessage(AnalyzeFailedMessage))
    ensures h.request.Some? && Axios(upstream).Resolved? ==> h.response == Response(StatusOk, Payload(Axios(upstream).value))
    ensures h.request.Some? && Axios(upstream).Rejected? ==> h.response == Response(StatusBadRequest, ErrorMessage(AnalyzeFailedMessage))
  {
    match body
    case Malformed => Handled(Response(StatusBadRequest, ErrorMessage(AnalyzeFailedMessage)), None)
    case Object(url) =>
      if url.None? || !Truthy(url.value) then Handled(Response(StatusBadRequest, ErrorMessage(UrlRequiredMessage)), None)
      else
        match Axios(upstream)
        case Resolved(doc) => Handled(Response(StatusOk, Payload(doc)), Some(url.value))
        case Rejected(_) => Handled(Response(StatusBadRequest, ErrorMessage(AnalyzeFailedMessage)), Some(url.value))
  }

  /** This route never answers 500: a provider failure is reported as 400, and
      any answer other than the relayed document is an error message. */
  lemma NeverInternalError<B>(body: JsonBody, upstream: Upstream<B>)
    ensures Post(body, upstream).response.status != StatusInternalServerError
    ensures var r := Post(body, upstream).response;
      (upstream.Answered? && r == Response(StatusOk, Payload(upstream.body))) || (r.status == StatusBadRequest && r.body.ErrorMessage?)
  {
  }
}

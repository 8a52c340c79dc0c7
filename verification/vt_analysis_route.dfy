/** The analysis route keyed by path segment, `GET /api/vt/{id}`, which the
    URL component reads after submitting. The id always comes from the path,
    so there is no missing-id branch. */
module VtAnalysisRoute {
  import opened Js
  import opened Http

  const FetchFailedMessage := "Failed to fetch analysis"

  function Get<B>(id: string, upstream: Upstream<B>): (h: Handled<string, B>)
    ensures h.request == Some(id)
    ensures Axios(upstream).Resolved? ==> h.response == Response(StatusOk, Payload(upstream.body))
    ensures Axios(upstream).Rejected? ==> h.response == Response(StatusInternalServerError, ErrorMessage(FetchFailedMessage))
  {
    match Axios(upstream)
    case Resolved(doc) => Handled(Response(StatusOk, Payload(doc)), Some(id))
    case Rejected(_) => Handled(Response(StatusInternalServerError, ErrorMessage(FetchFailedMessage)), Some(id))
  }
}
